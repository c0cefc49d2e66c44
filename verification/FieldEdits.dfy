/**
 The state of an edited JSON object, keys and values abstract: what Parse, Set and Delete
 do to it, and which fields it prints. Printing keeps the last value of every key.
 */
module FieldEdits {
  datatype Field<K, V> = Field(key: K, value: V)

  /** The meaning of a field list: a repeated key has its last value. */
  function LastWins<K, V>(fields: seq<Field<K, V>>): map<K, V> {
    if fields == [] then map[]
    else LastWins(fields[..|fields| - 1])[fields[|fields| - 1].key := fields[|fields| - 1].value]
  }

  function Occurrences<K(==), V>(fields: seq<Field<K, V>>, key: K): nat {
    if fields == [] then 0
    else Occurrences(fields[..|fields| - 1], key) + (if fields[|fields| - 1].key == key then 1 else 0)
  }

  /** The fields of jsonobject.Object. */
  datatype Doc<K, V> = Doc(fields: seq<Field<K, V>>, last: map<K, nat>, counts: map<K, nat>,
                           sets: map<K, V>, setOrder: seq<K>, deleted: set<K>)

  ghost predicate Indexed<K, V>(d: Doc<K, V>) {
    && (forall i :: 0 <= i < |d.fields| ==> d.fields[i].key in d.last && i <= d.last[d.fields[i].key])
    && (forall k :: k in d.last ==> d.last[k] < |d.fields| && d.fields[d.last[k]].key == k)
  }

  ghost predicate Counted<K, V>(d: Doc<K, V>) {
    && d.counts.Keys == d.last.Keys
    && (forall k :: k in d.counts ==> d.counts[k] == Occurrences(d.fields, k))
  }

  ghost predicate Edited<K, V>(d: Doc<K, V>) {
    && d.sets.Keys !! d.deleted
    && (forall k :: k in d.sets ==> k in d.setOrder)
    && (forall k :: k in d.setOrder ==> k in d.sets || k in d.deleted)
  }

  ghost predicate Consistent<K, V>(d: Doc<K, V>) {
    Indexed(d) && Edited(d)
  }

  /** What Value answers for every key. */
  function Meaning<K, V>(d: Doc<K, V>): map<K, V>
    requires Indexed(d)
  {
    map k | k in d.last.Keys + d.sets.Keys && k !in d.deleted ::
      if k in d.sets then d.sets[k] else d.fields[d.last[k]].value
  }

  // ---- Edits -----------------------------------------------------------------------------

  function Empty<K, V>(): Doc<K, V> {
    Doc([], map[], map[], map[], [], {})
  }

  function WithField<K, V>(d: Doc<K, V>, f: Field<K, V>): Doc<K, V> {
    d.(fields := d.fields + [f],
       last := d.last[f.key := |d.fields|],
       counts := d.counts[f.key := (if f.key in d.counts then d.counts[f.key] else 0) + 1])
  }

  function WithSet<K, V>(d: Doc<K, V>, key: K, value: V): Doc<K, V> {
    d.(sets := d.sets[key := value],
       setOrder := if key in d.sets then d.setOrder else d.setOrder + [key],
       deleted := d.deleted - {key})
  }

  function WithDelete<K, V>(d: Doc<K, V>, key: K): Doc<K, V> {
    d.(sets := d.sets - {key}, deleted := d.deleted + {key})
  }

  lemma WithFieldIndexed<K, V>(d: Doc<K, V>, f: Field<K, V>)
    requires Indexed(d)
    ensures Indexed(WithField(d, f))
  {
  }

  lemma WithFieldCounted<K, V>(d: Doc<K, V>, f: Field<K, V>)
    requires Indexed(d) && Counted(d)
    ensures Counted(WithField(d, f))
  {
    var e := WithField(d, f);
    forall k | k in e.counts
      ensures e.counts[k] == Occurrences(e.fields, k)
    {
      assert e.fields[..|e.fields| - 1] == d.fields;
      if k !in d.counts { NoOccurrence(d.fields, k); }
    }
  }

  lemma {:induction false} NoOccurrence<K, V>(fields: seq<Field<K, V>>, key: K)
    requires forall i :: 0 <= i < |fields| ==> fields[i].key != key
    ensures Occurrences(fields, key) == 0
  {
    if fields != [] { NoOccurrence(fields[..|fields| - 1], key); }
  }

  /** Set overrides one key and keeps the rest. */
  lemma SetMeaning<K, V>(d: Doc<K, V>, key: K, value: V)
    requires Consistent(d)
    ensures Consistent(WithSet(d, key, value))
    ensures Meaning(WithSet(d, key, value)) == Meaning(d)[key := value]
  {
    var e := WithSet(d, key, value);
    assert Indexed(e);
  }

  /** Delete removes one key and keeps the rest. */
  lemma DeleteMeaning<K, V>(d: Doc<K, V>, key: K)
    requires Consistent(d)
    ensures Consistent(WithDelete(d, key))
    ensures Meaning(WithDelete(d, key)) == Meaning(d) - {key}
  {
    var e := WithDelete(d, key);
    assert Indexed(e);
  }

  /** fields, last and counts after the parsing loop has appended these fields. */
  function Built<K, V>(fields: seq<Field<K, V>>): Doc<K, V> {
    if fields == [] then Empty() else WithField(Built(fields[..|fields| - 1]), fields[|fields| - 1])
  }

  lemma {:induction false} BuiltShape<K, V>(fields: seq<Field<K, V>>)
    ensures var d := Built(fields);
            d.fields == fields && d.sets == map[] && d.setOrder == [] && d.deleted == {}
  {
    if fields != [] {
      BuiltShape(fields[..|fields| - 1]);
      assert fields[..|fields| - 1] + [fields[|fields| - 1]] == fields;
    }
  }

  lemma {:induction false} BuiltConsistent<K, V>(fields: seq<Field<K, V>>)
    ensures Indexed(Built(fields)) && Counted(Built(fields))
  {
    if fields != [] {
      var front, f := fields[..|fields| - 1], fields[|fields| - 1];
      BuiltConsistent(front);
      WithFieldIndexed(Built(front), f);
      WithFieldCounted(Built(front), f);
    }
  }

  /** A freshly parsed object means the last-wins reading of its fields. */
  lemma ParsedMeaning<K, V>(d: Doc<K, V>)
    requires Consistent(d) && d.sets == map[] && d.deleted == {}
    ensures Meaning(d) == LastWins(d.fields)
  {
    var m := Meaning(d);
    ParsedMeaningUpTo(d, |d.fields|);
    assert d.fields[..|d.fields|] == d.fields;
  }

  lemma {:induction false} ParsedMeaningUpTo<K, V>(d: Doc<K, V>, n: nat)
    requires Indexed(d) && n <= |d.fields|
    ensures forall i :: 0 <= i < n ==> d.fields[i].key in LastWins(d.fields[..n])
    ensures forall k :: k in LastWins(d.fields[..n]) ==>
              k in d.last && (d.last[k] < n ==> LastWins(d.fields[..n])[k] == d.fields[d.last[k]].value)
  {
    if n > 0 {
      ParsedMeaningUpTo(d, n - 1);
      assert d.fields[..n][..n - 1] == d.fields[..n - 1];
    }
  }

  // ---- Printing ----------------------------------------------------------------------------

  /** writeTo's first loop over fields[..n]: the last field of each kept key. */
  function Kept<K, V>(d: Doc<K, V>, n: nat): seq<Field<K, V>>
    requires Indexed(d) && n <= |d.fields|
  {
    if n == 0 then []
    else
      var f := d.fields[n - 1];
      Kept(d, n - 1) +
      (if d.last[f.key] != n - 1 || f.key in d.deleted then []
       else [Field(f.key, if f.key in d.sets then d.sets[f.key] else f.value)])
  }

  /** writeTo's second loop over setOrder[..n]: keys that the source did not have. */
  function Added<K, V>(d: Doc<K, V>, n: nat): seq<Field<K, V>>
    requires Edited(d) && n <= |d.setOrder|
  {
    if n == 0 then []
    else
      var k := d.setOrder[n - 1];
      Added(d, n - 1) + (if k in d.last || k in d.deleted then [] else [Field(k, d.sets[k])])
  }

  function Printed<K, V>(d: Doc<K, V>): seq<Field<K, V>>
    requires Consistent(d)
  {
    Kept(d, |d.fields|) + Added(d, |d.setOrder|)
  }

  // ---- Printing is last-wins ------------------------------------------------------------------

  ghost predicate Describes<K, V>(fields: seq<Field<K, V>>, m: map<K, V>) {
    forall i :: 0 <= i < |fields| ==> fields[i].key in m && m[fields[i].key] == fields[i].value
  }

  lemma {:induction false} LastWinsOf<K, V>(fields: seq<Field<K, V>>, m: map<K, V>)
    requires Describes(fields, m)
    ensures forall k :: k in LastWins(fields) ==> k in m && m[k] == LastWins(fields)[k]
    ensures forall i :: 0 <= i < |fields| ==> fields[i].key in LastWins(fields)
  {
    if fields != [] { LastWinsOf(fields[..|fields| - 1], m); }
  }

  lemma {:induction false} KeptDescribes<K, V>(d: Doc<K, V>, n: nat)
    requires Consistent(d) && n <= |d.fields|
    ensures Describes(Kept(d, n), Meaning(d))
  {
    if n > 0 { KeptDescribes(d, n - 1); }
  }

  lemma {:induction false} KeptCovers<K, V>(d: Doc<K, V>, n: nat, k: K)
    requires Consistent(d) && n <= |d.fields| && k in d.last && k !in d.deleted && d.last[k] < n
    ensures exists i :: 0 <= i < |Kept(d, n)| && Kept(d, n)[i].key == k
  {
    if d.last[k] == n - 1 {
      assert Kept(d, n)[|Kept(d, n)| - 1].key == k;
    } else {
      KeptCovers(d, n - 1, k);
      var i :| 0 <= i < |Kept(d, n - 1)| && Kept(d, n - 1)[i].key == k;
      assert Kept(d, n)[i].key == k;
    }
  }

  lemma {:induction false} AddedDescribes<K, V>(d: Doc<K, V>, n: nat)
    requires Consistent(d) && n <= |d.setOrder|
    ensures Describes(Added(d, n), Meaning(d))
  {
    if n > 0 {
      AddedDescribes(d, n - 1);
      assert d.setOrder[n - 1] in d.setOrder;
    }
  }

  lemma {:induction false} AddedCovers<K, V>(d: Doc<K, V>, n: nat, k: K)
    requires Consistent(d) && n <= |d.setOrder| && k in d.setOrder[..n] && k !in d.last && k !in d.deleted
    ensures exists i :: 0 <= i < |Added(d, n)| && Added(d, n)[i].key == k
  {
    if d.setOrder[n - 1] == k {
      assert Added(d, n)[|Added(d, n)| - 1].key == k;
    } else {
      AddedCovers(d, n - 1, k);
      var i :| 0 <= i < |Added(d, n - 1)| && Added(d, n - 1)[i].key == k;
      assert Added(d, n)[i].key == k;
    }
  }

  /** The printed fields, read last-wins, are what Value answers. */
  lemma PrintedMeaning<K, V>(d: Doc<K, V>)
    requires Consistent(d)
    ensures Describes(Printed(d), Meaning(d))
    ensures LastWins(Printed(d)) == Meaning(d)
  {
    var kept, added := Kept(d, |d.fields|), Added(d, |d.setOrder|);
    KeptDescribes(d, |d.fields|);
    AddedDescribes(d, |d.setOrder|);
    LastWinsOf(Printed(d), Meaning(d));
    forall k | k in Meaning(d)
      ensures k in LastWins(Printed(d))
    {
      if k in d.last {
        KeptCovers(d, |d.fields|, k);
        var i :| 0 <= i < |kept| && kept[i].key == k;
        assert Printed(d)[i].key == k;
      } else {
        assert d.setOrder[..|d.setOrder|] == d.setOrder;
        AddedCovers(d, |d.setOrder|, k);
        var i :| 0 <= i < |added| && added[i].key == k;
        assert Printed(d)[|kept| + i].key == k;
      }
    }
  }

  /** Set, Delete, Set of a key the source lacks prints the key twice, with one value. */
  lemma SetDeleteSetPrintsTwice<K, V>(key: K, first: V, second: V)
    ensures var d := WithSet(WithDelete(WithSet(Empty(), key, first), key), key, second);
            Consistent(d) && Printed(d) == [Field(key, second), Field(key, second)]
  {
    var a := WithSet(Empty(), key, first);
    var b := WithDelete(a, key);
    assert a.setOrder == [key] && b.sets == map[] && b.deleted == {key};
    var d := WithSet(b, key, second);
    assert d == Doc([], map[], map[], map[key := second], [key, key], {});
    TwicePrinted(key, second);
  }

  lemma TwicePrinted<K, V>(key: K, value: V)
    ensures var d := Doc([], map[], map[], map[key := value], [key, key], {});
            Consistent(d) && Printed(d) == [Field(key, value), Field(key, value)]
  {
    var d := Doc([], map[], map[], map[key := value], [key, key], {});
    assert Added(d, 0) == [] && Added(d, 1) == [Field(key, value)];
  }

  // ---- Lists of edits ------------------------------------------------------------------------

  datatype Edit<K, V> = Set(key: K, value: V) | Delete(key: K)

  function Apply<K, V>(d: Doc<K, V>, e: Edit<K, V>): Doc<K, V> {
    match e
    case Set(key, value) => WithSet(d, key, value)
    case Delete(key) => WithDelete(d, key)
  }

  /** The document after a list of calls of Set and Delete. */
  function Run<K, V>(d: Doc<K, V>, edits: seq<Edit<K, V>>): Doc<K, V> {
    if edits == [] then d else Apply(Run(d, edits[..|edits| - 1]), edits[|edits| - 1])
  }

  /** The key was set, and not deleted since. */
  predicate Standing<K(==), V>(edits: seq<Edit<K, V>>, key: K) {
    edits != [] &&
    if edits[|edits| - 1].key == key then edits[|edits| - 1].Set? else Standing(edits[..|edits| - 1], key)
  }

  /** The key was deleted, and not set since. */
  predicate Gone<K(==), V>(edits: seq<Edit<K, V>>, key: K) {
    edits != [] &&
    if edits[|edits| - 1].key == key then edits[|edits| - 1].Delete? else Gone(edits[..|edits| - 1], key)
  }

  /** How many calls of Set found the key not standing: the first one, and the first after each Delete. */
  function Entered<K(==), V>(edits: seq<Edit<K, V>>, key: K): nat {
    if edits == [] then 0
    else
      var before, e := edits[..|edits| - 1], edits[|edits| - 1];
      Entered(before, key) + (if e.Set? && e.key == key && !Standing(before, key) then 1 else 0)
  }

  // ---- How often a key is printed ------------------------------------------------------------

  function Times<K(==)>(keys: seq<K>, key: K): nat {
    if keys == [] then 0 else Times(keys[..|keys| - 1], key) + (if keys[|keys| - 1] == key then 1 else 0)
  }

  lemma {:induction false} OccurrencesJoin<K, V>(a: seq<Field<K, V>>, b: seq<Field<K, V>>, key: K)
    ensures Occurrences(a + b, key) == Occurrences(a, key) + Occurrences(b, key)
    decreases |b|
  {
    if b == [] {
      assert a + b == a;
    } else {
      var n := |b| - 1;
      assert (a + b)[..|a + b| - 1] == a + b[..n] && (a + b)[|a + b| - 1] == b[n];
      OccurrencesJoin(a, b[..n], key);
    }
  }

  lemma OccurrencesOne<K, V>(f: Field<K, V>, key: K)
    ensures Occurrences([f], key) == if f.key == key then 1 else 0
  {
    assert [f][..0] == [];
  }

  /** One field more: it is printed if its key is last there and not deleted. */
  lemma KeptNext<K, V>(d: Doc<K, V>, n: nat, key: K)
    requires Consistent(d) && n < |d.fields|
    ensures var f := d.fields[n];
            Occurrences(Kept(d, n + 1), key) ==
            Occurrences(Kept(d, n), key) + (if d.last[f.key] == n && f.key !in d.deleted && f.key == key then 1 else 0)
  {
    var f := d.fields[n];
    if d.last[f.key] == n && f.key !in d.deleted {
      var printed := Field(f.key, if f.key in d.sets then d.sets[f.key] else f.value);
      OccurrencesJoin(Kept(d, n), [printed], key);
      OccurrencesOne(printed, key);
    } else {
      assert Kept(d, n) + [] == Kept(d, n);
    }
  }

  lemma {:induction false} KeptTimes<K, V>(d: Doc<K, V>, n: nat, key: K)
    requires Consistent(d) && n <= |d.fields|
    ensures Occurrences(Kept(d, n), key) == if key in d.last && d.last[key] < n && key !in d.deleted then 1 else 0
  {
    if n > 0 {
      KeptTimes(d, n - 1, key);
      KeptNext(d, n - 1, key);
    }
  }

  lemma {:induction false} AddedTimes<K, V>(d: Doc<K, V>, n: nat, key: K)
    requires Consistent(d) && n <= |d.setOrder|
    ensures Occurrences(Added(d, n), key) == if key in d.last || key in d.deleted then 0
      else Times(d.setOrder[..n], key)
  {
    if n > 0 {
      AddedTimes(d, n - 1, key);
      var k := d.setOrder[n - 1];
      assert d.setOrder[..n][..n - 1] == d.setOrder[..n - 1];
      if k in d.last || k in d.deleted {
        assert Added(d, n - 1) + [] == Added(d, n - 1);
      } else {
        OccurrencesJoin(Added(d, n - 1), [Field(k, d.sets[k])], key);
        OccurrencesOne(Field(k, d.sets[k]), key);
      }
    }
  }

  /** What the edits leave in the fields of a document that had none. */
  lemma {:induction false} RunFields<K, V>(d: Doc<K, V>, edits: seq<Edit<K, V>>, key: K)
    requires Consistent(d) && d.sets == map[] && d.setOrder == [] && d.deleted == {}
    ensures var e := Run(d, edits);
            && Consistent(e) && e.fields == d.fields && e.last == d.last
            && (key in e.sets <==> Standing(edits, key)) && (key in e.deleted <==> Gone(edits, key))
            && Times(e.setOrder, key) == Entered(edits, key)
    decreases |edits|
  {
    if edits != [] {
      var before, last := edits[..|edits| - 1], edits[|edits| - 1];
      RunFields(d, before, key);
      var b := Run(d, before);
      ApplyConsistent(b, last);
      if last.Set? { TimesMore(b.setOrder, last.key, key); }
      if last.key != key { ApplyElsewhere(b, last, key); }
      RunFields(d, before, last.key);
    }
  }

  lemma TimesMore<K>(keys: seq<K>, last: K, key: K)
    ensures Times(keys + [last], key) == Times(keys, key) + (if last == key then 1 else 0)
  {
    assert (keys + [last])[..|keys|] == keys;
  }

  lemma ApplyConsistent<K, V>(d: Doc<K, V>, e: Edit<K, V>)
    requires Consistent(d)
    ensures Consistent(Apply(d, e)) && Apply(d, e).fields == d.fields && Apply(d, e).last == d.last
  {
  }

  lemma ApplyElsewhere<K, V>(d: Doc<K, V>, e: Edit<K, V>, key: K)
    requires e.key != key
    ensures (key in Apply(d, e).sets <==> key in d.sets) && (key in Apply(d, e).deleted <==> key in d.deleted)
  {
  }

  /**
   After any calls of Set and Delete on a parsed document: a key of the source is printed
   once unless its last call was Delete; any other key as often as Set entered it, unless
   its last call was Delete.
   */
  lemma PrintedAfterEdits<K, V>(d: Doc<K, V>, edits: seq<Edit<K, V>>, key: K)
    requires Consistent(d) && d.sets == map[] && d.setOrder == [] && d.deleted == {}
    ensures Consistent(Run(d, edits))
    ensures Occurrences(Printed(Run(d, edits)), key) ==
            if Gone(edits, key) then 0 else if key in d.last then 1 else Entered(edits, key)
  {
    RunFields(d, edits, key);
    PrintedTimes(Run(d, edits), key);
  }

  /**
   A deleted key is not printed and a key of the source once; any other as often as Set entered
   it anew: at first, and again after each Delete.
   */
  lemma PrintedTimes<K, V>(d: Doc<K, V>, key: K)
    requires Consistent(d)
    ensures Occurrences(Printed(d), key) == if key in d.deleted then 0 else if key in d.last then 1
      else Times(d.setOrder, key)
  {
    KeptTimes(d, |d.fields|, key);
    AddedTimes(d, |d.setOrder|, key);
    assert d.setOrder[..|d.setOrder|] == d.setOrder;
    OccurrencesJoin(Kept(d, |d.fields|), Added(d, |d.setOrder|), key);
  }
}
