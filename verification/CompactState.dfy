/** Sealed compaction state: restoring a conversation from it, and knowing in advance that it will fit. */
module CompactState {
  import opened Utf8
  import opened Collections
  import opened JsonMarshal
  import opened CompactParts

  /** An input item: an ordinary one with its fingerprint, or an opaque compaction item. */
  datatype Entry = Ordinary(hash: string, body: nat) | Compaction(id: string, token: nat)

  datatype Saved = Saved(window: seq<Entry>, covered: seq<string>)

  /** What was sealed under a token: the key's scope, the item's id, and the window. */
  datatype Sealed = Sealed(scope: string, id: string, saved: Saved)

  // ---- Covered items ------------------------------------------------------------------------------------

  /** How many of the first n entries have this fingerprint. */
  function Seen(entries: seq<Entry>, n: nat, hash: string): nat
    requires n <= |entries|
  {
    if n == 0 then 0
    else Seen(entries, n - 1, hash) + (if entries[n - 1].Ordinary? && entries[n - 1].hash == hash then 1 else 0)
  }

  function Copies(covered: seq<string>, hash: string): nat {
    multiset(covered)[hash]
  }

  /** An entry is left over when the copies that the snapshot covered are used up before it. */
  predicate LeftOver(entries: seq<Entry>, covered: seq<string>, i: nat)
    requires i < |entries|
  {
    entries[i].Compaction? || Seen(entries, i, entries[i].hash) >= Copies(covered, entries[i].hash)
  }

  /** The left-over ones among the first n entries, in order. */
  function Remaining(entries: seq<Entry>, covered: seq<string>, n: nat): seq<Entry>
    requires n <= |entries|
  {
    if n == 0 then []
    else if LeftOver(entries, covered, n - 1) then Remaining(entries, covered, n - 1) + [entries[n - 1]]
    else Remaining(entries, covered, n - 1)
  }

  function Max(a: int, b: int): int {
    if a >= b then a else b
  }

  lemma {:induction false} SeenAppend(entries: seq<Entry>, e: Entry, n: nat, hash: string)
    requires n <= |entries|
    ensures Seen(entries + [e], n, hash) == Seen(entries, n, hash)
  {
    if n > 0 { SeenAppend(entries, e, n - 1, hash); }
  }

  /** Every fingerprint is left exactly as often as the prefix has it beyond what was covered. */
  lemma {:induction false} MultiplicityLeft(entries: seq<Entry>, covered: seq<string>, n: nat, hash: string)
    requires n <= |entries|
    ensures var rest := Remaining(entries, covered, n);
            Seen(rest, |rest|, hash) == Max(0, Seen(entries, n, hash) - Copies(covered, hash))
  {
    if n > 0 {
      MultiplicityLeft(entries, covered, n - 1, hash);
      var before := Remaining(entries, covered, n - 1);
      SeenAppend(before, entries[n - 1], |before|, hash);
    }
  }

  lemma RemainingNext(entries: seq<Entry>, covered: seq<string>, n: nat, left: bool)
    requires n < |entries| && left == LeftOver(entries, covered, n)
    ensures Remaining(entries, covered, n + 1) ==
      if left then Remaining(entries, covered, n) + [entries[n]] else Remaining(entries, covered, n)
  {
  }

  lemma {:induction false} RemainingAre(entries: seq<Entry>, covered: seq<string>, n: nat, stays: nat -> bool)
    requires n <= |entries|
    requires forall i: nat {:trigger stays(i)} :: i < |entries| ==> stays(i) == LeftOver(entries, covered, i)
    ensures Ascending(Where(n, stays), n) && Remaining(entries, covered, n) == Pick(entries, Where(n, stays))
  {
    WhereAre(n, stays);
    if n > 0 {
      RemainingAre(entries, covered, n - 1, stays);
      RemainingNext(entries, covered, n - 1, stays(n - 1));
      PickMore(entries, Where(n - 1, stays), n - 1);
    }
  }

  /** What is left is a part of the input in its order: compaction items, and the copies beyond those covered. */
  lemma RemainingPositions(entries: seq<Entry>, covered: seq<string>, n: nat) returns (left: seq<nat>)
    requires n <= |entries|
    ensures Ascending(left, n) && Remaining(entries, covered, n) == Pick(entries, left)
    ensures forall i: nat {:trigger i in left} :: i < n ==>
              (i in left <==>
               entries[i].Compaction? || Seen(entries, i, entries[i].hash) >= multiset(covered)[entries[i].hash])
  {
    var stays := (i: nat) => i < |entries| && LeftOver(entries, covered, i);
    RemainingAre(entries, covered, n, stays);
    WhereAre(n, stays);
    left := Where(n, stays);
  }

  /** The prefix that the snapshot was taken from disappears entirely. */
  lemma {:induction false} FullyCovered(entries: seq<Entry>, covered: seq<string>, n: nat)
    requires n <= |entries| && forall i :: 0 <= i < |entries| ==> entries[i].Ordinary?
    requires forall hash :: Seen(entries, |entries|, hash) <= Copies(covered, hash)
    ensures Remaining(entries, covered, n) == []
  {
    if n > 0 {
      FullyCovered(entries, covered, n - 1);
      SeenGrows(entries, n, |entries|, entries[n - 1].hash);
    }
  }

  lemma {:induction false} SeenGrows(entries: seq<Entry>, n: nat, m: nat, hash: string)
    requires n <= m <= |entries|
    ensures Seen(entries, n, hash) <= Seen(entries, m, hash)
  {
    if n < m { SeenGrows(entries, n, m - 1, hash); }
  }

  /** Coverage: the fingerprints of the items of the request, as the snapshot is taken. */
  function Hashes(entries: seq<Entry>): seq<string>
    requires forall i :: 0 <= i < |entries| ==> entries[i].Ordinary?
  {
    if entries == [] then [] else Hashes(entries[..|entries| - 1]) + [entries[|entries| - 1].hash]
  }

  lemma {:induction false} HashesCount(entries: seq<Entry>, hash: string)
    requires forall i :: 0 <= i < |entries| ==> entries[i].Ordinary?
    ensures Seen(entries, |entries|, hash) == Copies(Hashes(entries), hash)
  {
    if entries != [] {
      var before, e := entries[..|entries| - 1], entries[|entries| - 1];
      HashesCount(before, hash);
      assert entries == before + [e];
      SeenAppend(before, e, |before|, hash);
    }
  }

  /** Replaying exactly what was covered leaves nothing over, so nothing is sent twice. */
  lemma ReplayedPrefix(entries: seq<Entry>)
    requires forall i :: 0 <= i < |entries| ==> entries[i].Ordinary?
    ensures Remaining(entries, Hashes(entries), |entries|) == []
  {
    forall hash
      ensures Seen(entries, |entries|, hash) <= Copies(Hashes(entries), hash)
    {
      HashesCount(entries, hash);
    }
    FullyCovered(entries, Hashes(entries), |entries|);
  }

  /** The count map of the first n fingerprints. */
  ghost predicate CountsOf(counts: map<string, nat>, hashes: seq<string>) {
    forall hash :: (if hash in counts then counts[hash] else 0) == Copies(hashes, hash)
  }

  method CountHashes(covered: seq<string>) returns (counts: map<string, nat>)
    ensures CountsOf(counts, covered)
  {
    counts := map[];
    var i := 0;
    while i < |covered|
      invariant 0 <= i <= |covered| && CountsOf(counts, covered[..i])
    {
      var hash := covered[i];
      assert covered[..i + 1] == covered[..i] + [hash];
      counts := counts[hash := (if hash in counts then counts[hash] else 0) + 1];
      i := i + 1;
    }
    assert covered[..|covered|] == covered;
  }

  /** How many copies of a fingerprint are still to be removed. */
  predicate Left(counts: map<string, nat>, covered: seq<string>, prefix: seq<Entry>, i: nat, hash: string)
    requires i <= |prefix|
  {
    (if hash in counts then counts[hash] else 0) == Max(0, Copies(covered, hash) - Seen(prefix, i, hash))
  }

  method RemoveCovered(prefix: seq<Entry>, covered: seq<string>) returns (remaining: seq<Entry>)
    requires forall i :: 0 <= i < |prefix| ==> prefix[i].Ordinary?
    ensures remaining == Remaining(prefix, covered, |prefix|)
  {
    var counts := CountHashes(covered);
    remaining := [];
    var i := 0;
    while i < |prefix|
      invariant 0 <= i <= |prefix| && remaining == Remaining(prefix, covered, i)
      invariant forall hash :: Left(counts, covered, prefix, i, hash)
    {
      var hash := prefix[i].hash;
      assert Left(counts, covered, prefix, i, hash);
      ghost var before := counts;
      if hash in counts && counts[hash] > 0 {
        counts := counts[hash := counts[hash] - 1];
      } else {
        remaining := remaining + [prefix[i]];
      }
      i := i + 1;
      forall other
        ensures Left(counts, covered, prefix, i, other)
      {
        assert Left(before, covered, prefix, i - 1, other);
      }
    }
  }

  // ---- Sealing and opening ----------------------------------------------------------------------------------

  predicate Supported(window: seq<Entry>) {
    window != [] && forall i :: 0 <= i < |window| ==> window[i].Ordinary?
  }

  /** open: only what was sealed under this scope and this id, and only a window of ordinary items. */
  function Open(vault: map<nat, Sealed>, scope: string, e: Entry): Option<Saved>
    requires e.Compaction?
  {
    if e.token in vault && vault[e.token].scope == scope && vault[e.token].id == e.id &&
      Supported(vault[e.token].saved.window)
    then Some(vault[e.token].saved) else None
  }

  /** sealItem: a fresh token for the window. */
  function Seal(vault: map<nat, Sealed>, token: nat, scope: string, id: string, saved: Saved): map<nat, Sealed>
    requires token !in vault
  {
    vault[token := Sealed(scope, id, saved)]
  }

  // ---- Restoring --------------------------------------------------------------------------------------------------

  predicate NoCompaction(entries: seq<Entry>) {
    forall i :: 0 <= i < |entries| ==> entries[i].Ordinary?
  }

  /** The input with its compaction item at c replaced. */
  function Restored(items: seq<Entry>, c: nat, saved: Saved): seq<Entry>
    requires c < |items|
  {
    saved.window + Remaining(items[..c], saved.covered, c) + items[c + 1..]
  }

  /** The only compaction item. */
  predicate OnlyCompaction(items: seq<Entry>, c: nat) {
    c < |items| && items[c].Compaction? && forall i :: 0 <= i < |items| && i != c ==> items[i].Ordinary?
  }

  method Restore(vault: map<nat, Sealed>, scope: string, items: seq<Entry>) returns (output: seq<Entry>, ok: bool)
    ensures NoCompaction(items) ==> ok && output == items
    ensures forall c: nat :: OnlyCompaction(items, c) ==>
              && ok == Open(vault, scope, items[c]).Some?
              && (ok ==> output == Restored(items, c, Open(vault, scope, items[c]).value))
    ensures ok ==> NoCompaction(output)
    ensures ok <==>
      NoCompaction(items) || exists c: nat :: OnlyCompaction(items, c) && Open(vault, scope, items[c]).Some?
  {
    output := [];
    var restored := false;
    ghost var at := 0;
    var i := 0;
    while i < |items|
      invariant 0 <= i <= |items| && NoCompaction(output)
      invariant !restored ==> NoCompaction(items[..i]) && output == items[..i]
      invariant restored ==> at < i && OnlyCompaction(items[..i], at) && Open(vault, scope, items[at]).Some?
      invariant restored ==> output == Restored(items[..i], at, Open(vault, scope, items[at]).value)
    {
      assert items[..i + 1] == items[..i] + [items[i]];
      if items[i].Ordinary? {
        if restored { RestoredMore(items[..i], at, Open(vault, scope, items[at]).value, items[i]); }
        output := output + [items[i]];
      } else {
        if restored {
          TwoCompactions(items, at, i);
          return [], false;
        }
        var saved := Open(vault, scope, items[i]);
        if saved.None? {
          FirstCompaction(items, i);
          return [], false;
        }
        RestoredNow(items[..i], saved.value, items[i]);
        var remaining := RemoveCovered(output, saved.value.covered);
        RemainingOrdinary(output, saved.value.covered, |output|);
        output := saved.value.window + remaining;
        restored := true;
        at := i;
      }
      i := i + 1;
    }
    assert items[..|items|] == items;
    if restored { FirstCompaction(items, at); }
    ok := true;
  }

  lemma RestoredMore(items: seq<Entry>, c: nat, saved: Saved, e: Entry)
    requires OnlyCompaction(items, c) && e.Ordinary?
    ensures OnlyCompaction(items + [e], c) && Restored(items + [e], c, saved) == Restored(items, c, saved) + [e]
  {
    assert (items + [e])[..c] == items[..c] && (items + [e])[c + 1..] == items[c + 1..] + [e];
  }

  lemma RestoredNow(items: seq<Entry>, saved: Saved, e: Entry)
    requires NoCompaction(items) && e.Compaction?
    ensures OnlyCompaction(items + [e], |items|)
    ensures Restored(items + [e], |items|, saved) == saved.window + Remaining(items, saved.covered, |items|)
  {
    assert (items + [e])[..|items|] == items && (items + [e])[|items| + 1..] == [];
  }

  lemma {:induction false} RemainingOrdinary(entries: seq<Entry>, covered: seq<string>, n: nat)
    requires n <= |entries| && NoCompaction(entries)
    ensures NoCompaction(Remaining(entries, covered, n))
  {
    if n > 0 { RemainingOrdinary(entries, covered, n - 1); }
  }

  lemma TwoCompactions(items: seq<Entry>, a: nat, b: nat)
    requires a < b < |items| && items[a].Compaction? && items[b].Compaction?
    ensures !NoCompaction(items) && forall c: nat :: !OnlyCompaction(items, c)
  {
  }

  lemma FirstCompaction(items: seq<Entry>, a: nat)
    requires a < |items| && items[a].Compaction?
    ensures !NoCompaction(items) && forall c: nat :: OnlyCompaction(items, c) ==> c == a
  {
  }

  /** A sealed item restores to the window, then what the snapshot did not cover, then everything after the item. */
  lemma SealRestores(vault: map<nat, Sealed>, token: nat, scope: string, id: string, saved: Saved, prefix: seq<Entry>,
                     suffix: seq<Entry>)
    requires token !in vault && Supported(saved.window) && NoCompaction(prefix) && NoCompaction(suffix)
    ensures var items := prefix + [Compaction(id, token)] + suffix;
            var sealed := Seal(vault, token, scope, id, saved);
            && OnlyCompaction(items, |prefix|)
            && Open(sealed, scope, items[|prefix|]) == Some(saved)
            && Restored(items, |prefix|, saved) == saved.window + Remaining(prefix, saved.covered, |prefix|) + suffix
    ensures forall other, id',
      token' :: Open(Seal(vault, token, scope, id, saved), other, Compaction(id', token')).Some? ==>
              Open(vault, other, Compaction(id', token')).Some? || (other == scope && id' == id && token' == token)
  {
    var items := prefix + [Compaction(id, token)] + suffix;
    assert items[..|prefix|] == prefix && items[|prefix| + 1..] == suffix;
  }

  /** Restoring a restored input changes nothing. */
  method RestoreTwice(vault: map<nat, Sealed>, scope: string, items: seq<Entry>)
      returns (once: seq<Entry>, twice: seq<Entry>, ok: bool)
    ensures ok ==> twice == once
  {
    once, ok := Restore(vault, scope, items);
    if ok {
      var again;
      twice, again := Restore(vault, scope, once);
    } else {
      twice := once;
    }
  }

  // ---- Knowing that the state will fit -------------------------------------------------------------------------

  const MAX_STATE_BYTES := 0x10_0000

  /** The summary item without its text. */
  const SUMMARY_FRAME := 103

  /** {"window":...,"covered":...} */
  const ENVELOPE := 22

  /** The length of a JSON array whose elements have these lengths; a nil slice is written null. */
  function ListSize(sizes: seq<nat>): nat {
    if sizes == [] then 4 else 1 + SizesAndCommas(sizes)
  }

  function SizesAndCommas(sizes: seq<nat>): nat {
    if sizes == [] then 0 else sizes[0] + 1 + SizesAndCommas(sizes[1..])
  }

  lemma {:induction false} SizesAppend(a: seq<nat>, b: seq<nat>)
    ensures SizesAndCommas(a + b) == SizesAndCommas(a) + SizesAndCommas(b)
  {
    if a == [] {
      assert a + b == b;
    } else {
      assert (a + b)[1..] == a[1..] + b;
      SizesAppend(a[1..], b);
    }
  }

  /** The summary item: its text follows a fixed heading. */
  function SummarySize(heading: seq<byte>, text: seq<byte>): nat {
    SUMMARY_FRAME + |MarshalBody(heading + text)|
  }

  /** The sizes of the items of a window: those before the summary, the summary if there is one, and the tail. */
  function WindowSizes(heading: seq<byte>, front: seq<nat>, summary: seq<byte>, tail: seq<nat>): seq<nat> {
    if summary == [] then front + tail else front + [SummarySize(heading, summary)] + tail
  }

  /** encodeWindow succeeds. */
  predicate Encodes(heading: seq<byte>, front: seq<nat>, summary: seq<byte>, tail: seq<nat>, covered: seq<nat>) {
    ENVELOPE + ListSize(WindowSizes(heading, front, summary, tail)) + ListSize(covered) <= MAX_STATE_BYTES
  }

  /** ValidateStateSize: the largest summary there can be, or none when there is nothing to summarise. */
  predicate Validates(heading: seq<byte>, front: seq<nat>, tail: seq<nat>, covered: seq<nat>,
                      nothingToSummarise: bool) {
    Encodes(heading, front, if nothingToSummarise then [] else Zeros(MAX_SUMMARY_BYTES), tail, covered)
  }

  lemma SummaryBound(heading: seq<byte>, text: seq<byte>)
    requires Valid(heading) && |text| <= MAX_SUMMARY_BYTES
    ensures SummarySize(heading, text) <= SummarySize(heading, Zeros(MAX_SUMMARY_BYTES))
  {
    MarshalAppend(heading, text);
    MarshalAppend(heading, Zeros(MAX_SUMMARY_BYTES));
    MarshalDecodes(text);
    ZerosExpandSixfold(MAX_SUMMARY_BYTES);
  }

  lemma WindowSizesSum(heading: seq<byte>, front: seq<nat>, summary: seq<byte>, tail: seq<nat>)
    ensures SizesAndCommas(WindowSizes(heading, front, summary, tail)) ==
            SizesAndCommas(front) + (if summary == [] then 0
              else SummarySize(heading, summary) + 1) + SizesAndCommas(tail)
  {
    var one := [SummarySize(heading, summary)];
    assert one[1..] == [];
    SizesAppend(front, tail);
    SizesAppend(front + one, tail);
    SizesAppend(front, one);
  }

  /** If the check before inference passes, sealing cannot fail on size, whatever the summary turns out to be. */
  lemma SealAlwaysFits(heading: seq<byte>, front: seq<nat>, tail: seq<nat>, covered: seq<nat>, nothingToSummarise: bool,
                       summary: seq<byte>)
    requires Valid(heading) && Validates(heading, front, tail, covered, nothingToSummarise) &&
      |summary| <= MAX_SUMMARY_BYTES
    requires nothingToSummarise ==> summary == []
    ensures Encodes(heading, front, summary, tail, covered)
  {
    if !nothingToSummarise {
      SummaryBound(heading, summary);
      WindowSizesSum(heading, front, summary, tail);
      WindowSizesSum(heading, front, Zeros(MAX_SUMMARY_BYTES), tail);
    }
  }

  /** The check is exact: whenever some admissible summary would not fit, it fails. */
  lemma CheckIsExact(heading: seq<byte>, front: seq<nat>, tail: seq<nat>, covered: seq<nat>, nothingToSummarise: bool)
    requires Valid(heading)
    ensures Validates(heading, front, tail, covered, nothingToSummarise) <==>
            forall summary :: |summary| <= MAX_SUMMARY_BYTES && (nothingToSummarise ==> summary == []) ==>
              Encodes(heading, front, summary, tail, covered)
  {
    if Validates(heading, front, tail, covered, nothingToSummarise) {
      forall summary: seq<byte> | |summary| <= MAX_SUMMARY_BYTES && (nothingToSummarise ==> summary == [])
        ensures Encodes(heading, front, summary, tail, covered)
      {
        SealAlwaysFits(heading, front, tail, covered, nothingToSummarise, summary);
      }
    } else {
      var worst := if nothingToSummarise then [] else Zeros(MAX_SUMMARY_BYTES);
      assert !Encodes(heading, front, worst, tail, covered);
    }
  }
}
