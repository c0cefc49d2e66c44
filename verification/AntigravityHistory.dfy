/**
 The native parts of an assistant turn: how a response is flattened into visible text and
 tool calls, and how a later request rebuilds the native parts from what was saved.
 */
module AntigravityHistory {
  import opened Collections

  /** A content part, in either direction. */
  datatype Part =
    | Text(text: string, thought: bool, signature: string)
    | Bare(signature: string)
    | Image(data: string)
    | Call(id: string, name: string, args: string, signature: string)
    | Response(id: string, name: string, output: string)

  /** A tool call of the history with the native parts that came before it. */
  datatype HistoryCall = HistoryCall(prefix: seq<Part>, part: Part)

  /** What a client sees of one part. */
  function Shown(p: Part): string {
    if p.Text? && !p.thought then p.text else ""
  }

  /** The text a client sees. */
  function Visible(parts: seq<Part>): string {
    if parts == [] then "" else Shown(parts[0]) + Visible(parts[1..])
  }

  lemma {:induction false} VisibleAppend(a: seq<Part>, b: seq<Part>)
    ensures Visible(a + b) == Visible(a) + Visible(b)
  {
    if a == [] {
      assert a + b == b;
    } else {
      assert (a + b)[1..] == a[1..] + b;
      VisibleAppend(a[1..], b);
      Assoc(Shown(a[0]), Visible(a[1..]), Visible(b));
    }
  }

  lemma Assoc<T>(a: seq<T>, b: seq<T>, c: seq<T>)
    ensures a + b + c == a + (b + c)
  {
  }

  lemma VisibleOne(p: Part)
    ensures Visible([p]) == Shown(p)
  {
    assert [p][1..] == [];
  }

  // ---- Segments ---------------------------------------------------------------------------------------

  /** Native parts cut after each call, and what follows the last call. */
  datatype Segments = Segments(calls: seq<HistoryCall>, pending: seq<Part>)

  function Segment(parts: seq<Part>): Segments {
    if parts == [] then Segments([], [])
    else
      var before, last := Segment(parts[..|parts| - 1]), parts[|parts| - 1];
      if last.Call? then Segments(before.calls + [HistoryCall(before.pending, last)], [])
      else Segments(before.calls, before.pending + [last])
  }

  function Flat(calls: seq<HistoryCall>): seq<Part> {
    if calls == [] then []
    else Flat(calls[..|calls| - 1]) + calls[|calls| - 1].prefix + [calls[|calls| - 1].part]
  }

  lemma FlatMore(calls: seq<HistoryCall>, call: HistoryCall)
    ensures Flat(calls + [call]) == Flat(calls) + call.prefix + [call.part]
  {
    assert (calls + [call])[..|calls|] == calls;
  }

  /** Cutting loses nothing: the segments and the rest are the parts again. */
  lemma {:induction false} SegmentFlat(parts: seq<Part>)
    ensures Flat(Segment(parts).calls) + Segment(parts).pending == parts
    ensures forall p :: p in Segment(parts).pending ==> !p.Call?
  {
    if parts != [] {
      var before, last := parts[..|parts| - 1], parts[|parts| - 1];
      SegmentFlat(before);
      assert parts == before + [last];
      if last.Call? { FlatMore(Segment(before).calls, HistoryCall(Segment(before).pending, last)); }
    }
  }

  // ---- Rebuilding -----------------------------------------------------------------------------------------

  /** The assistant messages of a request, merged: their parts, and their calls with the saved prefixes. */
  datatype Assistant = Assistant(parts: seq<Part>, calls: seq<HistoryCall>)

  /** The text of the messages, whatever pieces it comes in. */
  function Spoken(parts: seq<Part>): string {
    if parts == [] then ""
    else if parts[|parts| - 1].Text? then Spoken(parts[..|parts| - 1]) + parts[|parts| - 1].text
    else Spoken(parts[..|parts| - 1])
  }

  predicate OnlyTextAndCalls(parts: seq<Part>) {
    forall p :: p in parts ==> p.Text? || p.Call?
  }

  /** The visible text that the saved prefixes account for. */
  function Covered(calls: seq<HistoryCall>): string {
    Visible(Flat(calls))
  }

  /** What is left of the text once the covered part is gone, as one part. */
  function Leftover(text: string): seq<Part> {
    if text == "" then [] else [Text(text, false, "")]
  }

  /**
   What nativeParts returns: the saved native parts and calls in order, then the uncovered text;
   an error when the covered text was changed.
   */
  function Native(h: Assistant): Option<seq<Part>> {
    if OnlyTextAndCalls(h.parts) && Covered(h.calls) <= Spoken(h.parts)
    then Some(Flat(h.calls) + Leftover(Spoken(h.parts)[|Covered(h.calls)|..]))
    else None
  }

  lemma {:induction false} SpokenPrefix(parts: seq<Part>, n: nat)
    requires n < |parts|
    ensures Spoken(parts[..n + 1]) == if parts[n].Text? then Spoken(parts[..n]) + parts[n].text else Spoken(parts[..n])
  {
    assert parts[..n + 1][..n] == parts[..n];
  }

  method JoinText(parts: seq<Part>) returns (visible: string, ok: bool)
    ensures ok == OnlyTextAndCalls(parts)
    ensures ok ==> visible == Spoken(parts)
  {
    visible := "";
    var i := 0;
    while i < |parts|
      invariant 0 <= i <= |parts| && visible == Spoken(parts[..i])
      invariant forall j :: 0 <= j < i ==> parts[j].Text? || parts[j].Call?
    {
      SpokenPrefix(parts, i);
      if !parts[i].Call? {
        if !parts[i].Text? {
          assert parts[i] in parts;
          return visible, false;
        }
        visible := visible + parts[i].text;
      }
      i := i + 1;
    }
    assert parts[..|parts|] == parts;
    ok := true;
  }

  /** A common start can be cancelled from both sides. */
  lemma Cancel(a: string, b: string, r: string)
    ensures a + b <= a + r <==> b <= r
  {
    if a + b <= a + r {
      assert (a + b)[|a|..] == b && (a + r)[|a|..] == r;
      assert (a + r)[..|a + b|] == a + b;
      assert r[..|b|] == (a + r)[|a|..|a| + |b|];
    }
    if b <= r {
      assert r == b + r[|b|..];
      assert a + r == (a + b) + r[|b|..];
    }
  }

  /** The inner loop: consume the text that one saved prefix shows. */
  method ConsumePrefix(prefix: seq<Part>, remaining0: string) returns (remaining: string, ok: bool)
    ensures ok <==> Visible(prefix) <= remaining0
    ensures ok ==> Visible(prefix) + remaining == remaining0
  {
    remaining := remaining0;
    ghost var seen := "";
    var i := 0;
    while i < |prefix|
      invariant 0 <= i <= |prefix| && seen + remaining == remaining0 && seen + Visible(prefix[i..]) == Visible(prefix)
    {
      var p := prefix[i];
      ghost var rest := Visible(prefix[i + 1..]);
      assert prefix[i..][1..] == prefix[i + 1..];
      Cancel(seen, Shown(p) + rest, remaining);
      if p.Text? && !p.thought {
        if !(p.text <= remaining) {
          StartsWith(p.text, rest, remaining);
          return remaining, false;
        }
        remaining := remaining[|p.text|..];
      }
      Assoc(seen, Shown(p), remaining);
      Assoc(seen, Shown(p), rest);
      seen := seen + Shown(p);
      i := i + 1;
    }
    assert seen + "" == seen;
    ok := true;
  }

  lemma StartsWith(a: string, b: string, text: string)
    ensures a + b <= text ==> a <= text
  {
    if a + b <= text { assert text[..|a|] == (a + b)[..|a|]; }
  }

  method NativeParts(h: Assistant) returns (parts: seq<Part>, ok: bool)
    requires forall i :: 0 <= i < |h.calls| ==> h.calls[i].part.Call?
    ensures ok == Native(h).Some?
    ensures ok ==> parts == Native(h).value
  {
    var remaining, textual := JoinText(h.parts);
    if !textual { return [], false; }
    ghost var text := remaining;
    ghost var seen := "";
    parts := [];
    var i := 0;
    while i < |h.calls|
      invariant 0 <= i <= |h.calls| && parts == Flat(h.calls[..i])
      invariant seen == Visible(parts) && seen + remaining == text
    {
      var call := h.calls[i];
      FlatStep(h.calls, i);
      Cancel(seen, Visible(call.prefix), remaining);
      var left, fine := ConsumePrefix(call.prefix, remaining);
      if !fine {
        FlatPrefix(h.calls, i + 1, text);
        return [], false;
      }
      Assoc(seen, Visible(call.prefix), left);
      remaining := left;
      seen := seen + Visible(call.prefix);
      parts := parts + call.prefix + [call.part];
      i := i + 1;
    }
    assert h.calls[..|h.calls|] == h.calls;
    assert text[..|seen|] == seen && text[|seen|..] == remaining;
    parts := parts + Leftover(remaining);
    ok := true;
  }

  lemma FlatStep(calls: seq<HistoryCall>, i: nat)
    requires i < |calls|
    ensures Flat(calls[..i + 1]) == Flat(calls[..i]) + calls[i].prefix + [calls[i].part]
    ensures calls[i].part.Call? ==> Covered(calls[..i + 1]) == Covered(calls[..i]) + Visible(calls[i].prefix)
  {
    assert calls[..i + 1] == calls[..i] + [calls[i]];
    FlatMore(calls[..i], calls[i]);
    VisibleAppend(Flat(calls[..i]) + calls[i].prefix, [calls[i].part]);
    VisibleAppend(Flat(calls[..i]), calls[i].prefix);
    VisibleOne(calls[i].part);
    if calls[i].part.Call? { NothingMore(Covered(calls[..i]) + Visible(calls[i].prefix)); }
  }

  lemma NothingMore(s: string)
    ensures s + "" == s
  {
  }

  /** Text that does not start with what the first n calls cover does not start with what all calls cover. */
  lemma {:induction false} FlatPrefix(calls: seq<HistoryCall>, n: nat, text: string)
    requires n <= |calls| && forall i :: 0 <= i < |calls| ==> calls[i].part.Call?
    ensures Covered(calls) <= text ==> Covered(calls[..n]) <= text
    decreases |calls| - n
  {
    if n < |calls| {
      FlatPrefix(calls, n + 1, text);
      FlatStep(calls, n);
      StartsWith(Covered(calls[..n]), Visible(calls[n].prefix), text);
    } else {
      assert calls[..n] == calls;
    }
  }

  // ---- The round trip -----------------------------------------------------------------------------------------

  /** The native parts up to and including the last call. */
  function ThroughLastCall(parts: seq<Part>): seq<Part> {
    SegmentFlat(parts);
    parts[..|parts| - |Segment(parts).pending|]
  }

  /**
   Whatever pieces the visible text comes back in, and however it is divided among
   messages: the rebuilt history is the original through the last call, then the remaining
   visible text as one part.
   */
  lemma RebuildsNative(native: seq<Part>, h: Assistant)
    requires h.calls == Segment(native).calls && OnlyTextAndCalls(h.parts) && Spoken(h.parts) == Visible(native)
    ensures Native(h) == Some(ThroughLastCall(native) + Leftover(Visible(Segment(native).pending)))
  {
    var s := Segment(native);
    SegmentFlat(native);
    VisibleAppend(Flat(s.calls), s.pending);
    assert Flat(s.calls) == ThroughLastCall(native);
    assert Visible(native)[|Covered(s.calls)|..] == Visible(s.pending);
  }

  /** Whatever is accepted shows exactly the text that the client sent: edits of covered text cannot slip through. */
  lemma RebuildKeepsText(h: Assistant)
    requires Native(h).Some?
    ensures Visible(Native(h).value) == Spoken(h.parts)
    ensures Covered(h.calls) <= Spoken(h.parts)
  {
    var covered, rest := Covered(h.calls), Spoken(h.parts)[|Covered(h.calls)|..];
    VisibleAppend(Flat(h.calls), Leftover(rest));
    assert Spoken(h.parts) == covered + rest;
    if rest != "" {
      VisibleOne(Text(rest, false, ""));
    }
  }
}
