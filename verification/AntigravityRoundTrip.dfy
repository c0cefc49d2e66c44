/**
 From an upstream response to the request that plays it back: what was saved and what the client
 repeats rebuild the native parts.
 */
module AntigravityRoundTrip {
  import opened Collections
  import opened AntigravityHistory
  import opened AntigravityStream
  import opened AntigravityContents
  import opened AntigravityRequest
  import Cache = AntigravityCache

  // ---- What the client repeats --------------------------------------------------------------------------------

  /** A saved call as a client names it. */
  function Asked(call: HistoryCall): CallIn
    requires call.part.Call?
  {
    CallIn(call.part.id, call.part.name, Some(call.part.args))
  }

  /** Assistant messages of text and calls. */
  predicate PlainSpeech(messages: seq<Message>) {
    forall i :: 0 <= i < |messages| ==>
      messages[i].Spoke? && messages[i].parts.Some? && AllText(messages[i].parts.value)
  }

  function TextOf(messages: seq<Message>): string
    requires PlainSpeech(messages)
  {
    if messages == [] then "" else TextOf(messages[..|messages| - 1]) + Spoken(messages[|messages| - 1].parts.value)
  }

  function ToolsOf(messages: seq<Message>): seq<CallIn>
    requires PlainSpeech(messages)
  {
    if messages == [] then [] else ToolsOf(messages[..|messages| - 1]) + messages[|messages| - 1].calls
  }

  // ---- What was saved -----------------------------------------------------------------------------------------

  /** Saved calls that a client can repeat: named, and each under its own id. */
  predicate Repeatable(saved: seq<HistoryCall>) {
    && (forall k :: 0 <= k < |saved| ==> saved[k].part.Call? && saved[k].part.id != "" && saved[k].part.name != "")
    && (forall j, k :: 0 <= j < k < |saved| ==> saved[j].part.id != saved[k].part.id)
  }

  /** The calls that the messages make are these, in order. */
  predicate Repeats(tools: seq<CallIn>, saved: seq<HistoryCall>)
    requires Repeatable(saved)
  {
    |tools| == |saved| && forall k :: 0 <= k < |saved| ==> tools[k] == Asked(saved[k])
  }

  /** The lookup holds what was saved. */
  predicate Serves(lookup: Lookup, saved: seq<HistoryCall>) {
    forall k :: 0 <= k < |saved| ==>
      saved[k].part.Call? &&
      lookup(saved[k].part.id, saved[k].part.name, saved[k].part.args) ==
        Some(Stored(saved[k].part.signature, saved[k].prefix))
  }

  function IdSet(saved: seq<HistoryCall>, n: nat): set<string>
    requires n <= |saved| && Repeatable(saved)
  {
    set k | 0 <= k < n :: saved[k].part.id
  }

  /** The ids are new to the conversation. */
  predicate NewTo(b: Builder, saved: seq<HistoryCall>) {
    forall k :: 0 <= k < |saved| ==> saved[k].part.Call? && saved[k].part.id !in b.calls
  }

  // ---- Collecting ---------------------------------------------------------------------------------------------

  /** From b0 the builder has collected n of the saved calls and this text. */
  predicate Took(b0: Builder, b: Builder, saved: seq<HistoryCall>, n: nat, text: string)
    requires Repeatable(saved)
  {
    && n <= |saved| && b.contents == b0.contents && b.system == b0.system && b.assistant.calls == saved[..n]
    && OnlyTextAndCalls(b.assistant.parts) && Spoken(b.assistant.parts) == text
    && b.pending == IdSet(saved, n) && b.calls.Keys == b0.calls.Keys + IdSet(saved, n)
  }

  lemma {:induction false} SpokenAppend(a: seq<Part>, b: seq<Part>)
    ensures Spoken(a + b) == Spoken(a) + Spoken(b)
  {
    if b == [] {
      assert a + b == a;
    } else {
      var n := |b| - 1;
      assert (a + b)[..|a + b| - 1] == a + b[..n] && (a + b)[|a + b| - 1] == b[n];
      SpokenAppend(a, b[..n]);
      if b[n].Text? { Assoc(Spoken(a), Spoken(b[..n]), b[n].text); }
    }
  }

  lemma SpokenCall(parts: seq<Part>, call: Part)
    requires call.Call?
    ensures Spoken(parts + [call]) == Spoken(parts)
  {
    assert (parts + [call])[..|parts|] == parts;
  }

  lemma IdSetMore(saved: seq<HistoryCall>, n: nat)
    requires Repeatable(saved) && n < |saved|
    ensures IdSet(saved, n + 1) == IdSet(saved, n) + {saved[n].part.id} && saved[n].part.id !in IdSet(saved, n)
  {
  }

  /** The next saved call resolves to itself and is collected. */
  lemma TakeOne(needsSignature: bool, lookup: Lookup, b0: Builder, b: Builder, saved: seq<HistoryCall>, n: nat,
                text: string)
    requires Repeatable(saved) && Serves(lookup, saved) && NewTo(b0, saved) && Took(b0, b, saved, n, text) &&
      n < |saved|
    ensures Resolve(needsSignature, lookup, b, Asked(saved[n])) == Some(saved[n])
    ensures Took(b0, AddCall(true, b, saved[n]), saved, n + 1, text)
  {
    IdSetMore(saved, n);
    SpokenCall(b.assistant.parts, saved[n].part);
    assert [] + [saved[n].part] == [saved[n].part];
    assert saved[..n + 1] == saved[..n] + [saved[n]];
  }

  lemma {:induction false} TakeServed(needsSignature: bool, lookup: Lookup, b0: Builder, b: Builder,
                                      saved: seq<HistoryCall>, n: nat, text: string,
                                      tools: seq<CallIn>, i: nat, done: Option<Builder>)
    requires Repeatable(saved) && Serves(lookup, saved) && NewTo(b0, saved) && Took(b0, b, saved, n, text)
    requires i <= |tools| && n + (|tools| - i) <= |saved| && forall j :: i <= j < |tools| ==>
      tools[j] == Asked(saved[n + (j - i)])
    requires done == TakeCalls(true, needsSignature, lookup, b, tools, i)
    ensures done.Some? && Took(b0, done.value, saved, n + (|tools| - i), text)
    decreases |tools| - i
  {
    if i < |tools| {
      assert tools[i] == Asked(saved[n + (i - i)]);
      TakeOne(needsSignature, lookup, b0, b, saved, n, text);
      forall j | i + 1 <= j < |tools|
        ensures tools[j] == Asked(saved[n + 1 + (j - (i + 1))])
      {
        assert tools[j] == Asked(saved[n + (j - i)]);
      }
      TakeServed(needsSignature, lookup, b0, AddCall(true, b, saved[n]), saved, n + 1, text, tools, i + 1, done);
    }
  }

  lemma TakeText(b0: Builder, b: Builder, saved: seq<HistoryCall>, n: nat, text: string, parts: seq<Part>)
    requires Repeatable(saved) && Took(b0, b, saved, n, text) && AllText(parts)
    ensures Took(b0, b.(assistant := Assistant(b.assistant.parts + parts, b.assistant.calls)), saved, n,
      text + Spoken(parts))
  {
    SpokenAppend(b.assistant.parts, parts);
  }

  /** One message. */
  lemma TakeMessage(needsSignature: bool, lookup: Lookup, b0: Builder, b: Builder, saved: seq<HistoryCall>, n: nat,
                    text: string, m: Message,
                    done: Option<Builder>)
    requires Repeatable(saved) && Serves(lookup, saved) && NewTo(b0, saved) && Took(b0, b, saved, n, text)
    requires m.Spoke? && m.parts.Some? && AllText(m.parts.value) && (n == 0 ==> b.pending == {})
    requires n + |m.calls| <= |saved| && forall j :: 0 <= j < |m.calls| ==> m.calls[j] == Asked(saved[n + j])
    requires done == Process(true, needsSignature, lookup, b, m)
    ensures done.Some? && Took(b0, done.value, saved, n + |m.calls|, text + Spoken(m.parts.value))
  {
    TakeText(b0, b, saved, n, text, m.parts.value);
    TakeServed(needsSignature, lookup, b0,
      b.(assistant := Assistant(b.assistant.parts + m.parts.value, b.assistant.calls)), saved, n,
               text + Spoken(m.parts.value), m.calls, 0, done);
  }

  // ---- A turn of messages -------------------------------------------------------------------------------------

  /** The builder after these messages, before anything is flushed. */
  function SpeakAll(needsSignature: bool, lookup: Lookup, b: Builder, turn: seq<Message>, j: nat): Option<Builder>
    requires j <= |turn|
    decreases |turn| - j
  {
    if j == |turn| then Some(b)
    else
      var next := Process(true, needsSignature, lookup, b, turn[j]);
      if next.None? then None else SpeakAll(needsSignature, lookup, next.value, turn, j + 1)
  }

  /** Whatever follows a turn goes on from there. */
  lemma {:induction false} TurnThenRest(needsSignature: bool, lookup: Lookup, b: Builder, turn: seq<Message>,
                                        rest: seq<Message>, j: nat)
    requires j <= |turn|
    ensures ProcessAll(true, needsSignature, lookup, b, turn + rest, j) ==
            var done := SpeakAll(needsSignature, lookup, b, turn, j);
            if done.None? then None else ProcessAll(true, needsSignature, lookup, done.value, turn + rest, |turn|)
    decreases |turn| - j
  {
    if j < |turn| {
      assert (turn + rest)[j] == turn[j];
      var next := Process(true, needsSignature, lookup, b, turn[j]);
      if next.Some? { TurnThenRest(needsSignature, lookup, next.value, turn, rest, j + 1); }
    }
  }

  lemma {:induction false} ToolsPrefix(turn: seq<Message>, j: nat)
    requires PlainSpeech(turn) && j <= |turn|
    ensures ToolsOf(turn[..j]) <= ToolsOf(turn)
    decreases |turn| - j
  {
    if j == |turn| {
      assert turn[..j] == turn;
    } else {
      ToolsPrefix(turn, j + 1);
      assert turn[..j + 1][..j] == turn[..j];
    }
  }

  /** What the first messages say, one more at a time. */
  lemma TurnStep(turn: seq<Message>, j: nat, saved: seq<HistoryCall>)
    requires PlainSpeech(turn) && j < |turn| && Repeatable(saved) && Repeats(ToolsOf(turn), saved)
    ensures TextOf(turn[..j + 1]) == TextOf(turn[..j]) + Spoken(turn[j].parts.value)
    ensures ToolsOf(turn[..j + 1]) == ToolsOf(turn[..j]) + turn[j].calls
    ensures var n := |ToolsOf(turn[..j])|;
            n + |turn[j].calls| <= |saved| && forall k :: 0 <= k < |turn[j].calls| ==>
              turn[j].calls[k] == Asked(saved[n + k])
  {
    assert turn[..j + 1][..j] == turn[..j];
    ToolsPrefix(turn, j + 1);
    var n := |ToolsOf(turn[..j])|;
    forall k | 0 <= k < |turn[j].calls|
      ensures n + k < |saved| && turn[j].calls[k] == Asked(saved[n + k])
    {
      assert ToolsOf(turn[..j + 1])[n + k] == turn[j].calls[k];
      assert ToolsOf(turn)[n + k] == ToolsOf(turn[..j + 1])[n + k];
    }
  }

  /** How far the first j messages get. */
  predicate Reaches(turn: seq<Message>, j: nat, n: nat, text: string) {
    j <= |turn| && PlainSpeech(turn) && n == |ToolsOf(turn[..j])| && text == TextOf(turn[..j])
  }

  lemma ReachesNext(turn: seq<Message>, j: nat, n: nat, text: string, saved: seq<HistoryCall>)
    requires Reaches(turn, j, n, text) && j < |turn| && Repeatable(saved) && Repeats(ToolsOf(turn), saved)
    ensures Reaches(turn, j + 1, n + |turn[j].calls|, text + Spoken(turn[j].parts.value))
    ensures n + |turn[j].calls| <= |saved| && forall k :: 0 <= k < |turn[j].calls| ==>
      turn[j].calls[k] == Asked(saved[n + k])
  {
    TurnStep(turn, j, saved);
  }

  lemma ReachesEnd(turn: seq<Message>, n: nat, text: string, saved: seq<HistoryCall>)
    requires Reaches(turn, |turn|, n, text) && Repeatable(saved) && Repeats(ToolsOf(turn), saved)
    ensures n == |saved| && text == TextOf(turn)
  {
    assert turn[..|turn|] == turn;
  }

  lemma {:induction false} SpeakServed(needsSignature: bool, lookup: Lookup, b0: Builder, b: Builder,
                                       saved: seq<HistoryCall>,
                                       turn: seq<Message>, j: nat, n: nat, text: string, done: Option<Builder>)
    requires Repeatable(saved) && Reaches(turn, j, n, text) && Repeats(ToolsOf(turn), saved)
    requires Serves(lookup, saved) && NewTo(b0, saved) && Took(b0, b, saved, n, text)
    requires done == SpeakAll(needsSignature, lookup, b, turn, j)
    ensures done.Some? && Took(b0, done.value, saved, |saved|, TextOf(turn))
    decreases |turn| - j
  {
    if j == |turn| {
      ReachesEnd(turn, n, text, saved);
    } else {
      ReachesNext(turn, j, n, text, saved);
      var next := Process(true, needsSignature, lookup, b, turn[j]);
      TakeMessage(needsSignature, lookup, b0, b, saved, n, text, turn[j], next);
      SpeakServed(needsSignature, lookup, b0, next.value, saved, turn, j + 1, n + |turn[j].calls|,
        text + Spoken(turn[j].parts.value), done);
    }
  }

  /** A builder between turns. */
  predicate BetweenTurns(b: Builder) {
    b.assistant == EMPTY && b.pending == {}
  }

  lemma BeginTurn(b0: Builder, saved: seq<HistoryCall>)
    requires BetweenTurns(b0) && Repeatable(saved)
    ensures Took(b0, b0, saved, 0, "")
  {
    assert b0.calls.Keys + {} == b0.calls.Keys;
  }

  /** What the turn adds to the contents: the rebuilt parts when it makes calls, otherwise the messages' own parts. */
  lemma TurnFlushed(b0: Builder, b: Builder, saved: seq<HistoryCall>, text: string)
    requires Repeatable(saved) && Took(b0, b, saved, |saved|, text)
    ensures saved != [] ==> (Flush(true, b).Some? <==> Covered(saved) <= text)
    ensures saved != [] && Flush(true, b).Some? ==>
      Flush(true, b).value.contents == Append(b0.contents, false, Flat(saved) + Leftover(text[|Covered(saved)|..]))
    ensures saved == [] ==>
      Flush(true, b) == Some(b.(contents := Append(b0.contents, false, b.assistant.parts), assistant := EMPTY))
    ensures Flush(true, b).Some? ==> Flush(true, b).value.pending == IdSet(saved, |saved|)
  {
    assert saved[..|saved|] == saved;
  }

  /**
   A turn of assistant messages that makes the saved calls in order, with any text divided
   among them in any way: it is accepted exactly if the text still starts with what the
   saved prefixes show, and it then becomes one model entry, the saved parts and calls
   followed by the rest of the text.
   */
  lemma TurnRebuilt(needsSignature: bool, lookup: Lookup, b0: Builder, saved: seq<HistoryCall>, turn: seq<Message>)
    requires PlainSpeech(turn) && Repeatable(saved) && saved != [] && Repeats(ToolsOf(turn), saved)
    requires Serves(lookup, saved) && NewTo(b0, saved) && BetweenTurns(b0)
    ensures var done := ProcessAll(true, needsSignature, lookup, b0, turn, 0);
            && (done.Some? <==> Covered(saved) <= TextOf(turn))
            && (done.Some? ==>
                  && done.value.contents ==
                     Append(b0.contents, false, Flat(saved) + Leftover(TextOf(turn)[|Covered(saved)|..]))
                  && done.value.pending == IdSet(saved, |saved|))
  {
    var spoken := SpeakAll(needsSignature, lookup, b0, turn, 0);
    BeginTurn(b0, saved);
    assert turn[..0] == [];
    SpeakServed(needsSignature, lookup, b0, b0, saved, turn, 0, 0, "", spoken);
    TurnThenRest(needsSignature, lookup, b0, turn, [], 0);
    assert turn + [] == turn;
    TurnFlushed(b0, spoken.value, saved, TextOf(turn));
  }

  // ---- From response to request -------------------------------------------------------------------------------

  /** Calls of a response that a client can repeat. */
  predicate NamedApart(calls: seq<Part>) {
    && (forall k :: 0 <= k < |calls| ==> calls[k].Call? && calls[k].id != "" && calls[k].name != "")
    && (forall j, k :: 0 <= j < k < |calls| ==> calls[j].id != calls[k].id)
  }

  /** The calls as a client repeats them. */
  predicate AsksFor(tools: seq<CallIn>, calls: seq<Part>)
    requires NamedApart(calls)
  {
    |tools| == |calls| && forall k :: 0 <= k < |calls| ==>
      tools[k] == CallIn(calls[k].id, calls[k].name, Some(calls[k].args))
  }

  /** The saved calls are the response's calls, in order. */
  lemma {:induction false} SavedParts(native: seq<Part>)
    ensures var saved, calls := Segment(native).calls, CallsOf(native);
            |saved| == |calls| && forall k :: 0 <= k < |saved| ==> saved[k].part == calls[k] && calls[k].Call?
  {
    if native != [] { SavedParts(native[..|native| - 1]); }
  }

  /**
   The whole way round: what StreamState remembers of a response with calls, a client that
   repeats its text and calls in messages of any shape, and a lookup that holds what was
   saved. The request is accepted and gets one model entry: the native parts through the
   last call, then the remaining visible text as one part. With other text it is accepted
   exactly if the covered text is unchanged.
   */
  lemma PlaysBack(memory: Memory, native: seq<Part>, needsSignature: bool, lookup: Lookup, b0: Builder,
                  turn: seq<Message>)
    requires Tracks(true, memory, native) && memory.calls != [] && NamedApart(memory.calls)
    requires PlainSpeech(turn) && AsksFor(ToolsOf(turn), memory.calls) && BetweenTurns(b0)
    requires Serves(lookup, memory.saved) && NewTo(b0, memory.saved)
    ensures var done := ProcessAll(true, needsSignature, lookup, b0, turn, 0);
            && (done.Some? <==> Covered(memory.saved) <= TextOf(turn))
            && (TextOf(turn) == memory.said.text ==>
                  done.Some? &&
                  done.value.contents ==
                    Append(b0.contents, false, ThroughLastCall(native) + Leftover(Visible(Segment(native).pending))))
  {
    SavedParts(native);
    TurnRebuilt(needsSignature, lookup, b0, memory.saved, turn);
    if TextOf(turn) == memory.said.text {
      var pieces := [Text(TextOf(turn), false, "")];
      assert pieces[..0] == [] && "" + TextOf(turn) == TextOf(turn);
      assert Spoken(pieces) == TextOf(turn);
      RebuildsNative(native, Assistant(pieces, memory.saved));
    }
  }

  /** A missing entry whose signature is needed refuses the whole conversation. */
  lemma {:induction false} MissingEntryRefusesAll(lookup: Lookup, claude: bool, b: Builder, messages: seq<Message>,
                                                  i: nat, m: nat, k: nat)
    requires i <= m < |messages| && messages[m].Spoke? && k < |messages[m].calls| && messages[m].calls[k].args.Some?
    requires lookup(messages[m].calls[k].id, messages[m].calls[k].name, messages[m].calls[k].args.value).None?
    ensures ProcessAll(claude, true, lookup, b, messages, i).None?
    decreases m - i
  {
    var next := Process(claude, true, lookup, b, messages[i]);
    if i < m {
      if next.Some? { MissingEntryRefusesAll(lookup, claude, next.value, messages, i + 1, m, k); }
    } else if messages[m].parts.Some? {
      MissingEntryRefused(lookup, claude,
        b.(assistant := Assistant(b.assistant.parts + messages[m].parts.value, b.assistant.calls)),
                          messages[m].calls, 0, k);
    }
  }

  // ---- Lookups ------------------------------------------------------------------------------------------------

  /** Something that a converter saved: a call of some response with the parts before it. */
  ghost predicate WasSaved(stored: Stored, id: string, name: string, args: string) {
    exists native: seq<Part>, k: nat :: NoAnswers(native) && k < |Segment(native).calls| &&
      Segment(native).calls[k] == HistoryCall(stored.prefix, Call(id, name, args, stored.signature))
  }

  lemma {:induction false} PrefixesPlain(native: seq<Part>)
    requires NoAnswers(native)
    ensures NoCalls(Segment(native).pending) && NoAnswers(Segment(native).pending)
    ensures forall k :: 0 <= k < |Segment(native).calls| ==>
      NoCalls(Segment(native).calls[k].prefix) && NoAnswers(Segment(native).calls[k].prefix)
  {
    if native != [] { PrefixesPlain(native[..|native| - 1]); }
  }

  /** A lookup that returns only what was saved is sound. */
  lemma SavedIsSound(lookup: Lookup)
    requires forall id, name, args :: lookup(id, name, args).Some? ==>
      lookup(id, name, args).value.prefix == [] || WasSaved(lookup(id, name, args).value, id, name, args)
    ensures SoundLookup(lookup)
  {
    forall id, name, args | lookup(id, name, args).Some?
      ensures NoCalls(lookup(id, name, args).value.prefix) && NoAnswers(lookup(id, name, args).value.prefix)
    {
      var stored := lookup(id, name, args).value;
      if stored.prefix != [] {
        var native: seq<Part>, k: nat :| NoAnswers(native) && k < |Segment(native).calls| &&
          Segment(native).calls[k] == HistoryCall(stored.prefix, Call(id, name, args, stored.signature));
        PrefixesPlain(native);
      }
    }
  }

  /** What Signatures.History returns from these entries, decoded. */
  function LookupIn(entries: map<string, Cache.Entry>, key: string -> string, decode: string -> seq<Part>,
                    now: nat): Lookup {
    (id, name, args) =>
      if key(id) in entries && now < entries[key(id)].expires && entries[key(id)].name == name &&
        entries[key(id)].args == args
      then Some(Stored(entries[key(id)].value, decode(entries[key(id)].prefix))) else None
  }

  /** The entry that Save made for a call. */
  predicate Keeps(entries: map<string, Cache.Entry>, key: string -> string, encode: seq<Part> -> string, now: nat,
                  call: HistoryCall)
    requires call.part.Call?
  {
    key(call.part.id) in entries &&
    var e := entries[key(call.part.id)];
    now < e.expires &&
      e == Cache.Entry(call.part.signature, call.part.name, call.part.args, e.expires, encode(call.prefix))
  }

  /** A cache that still has what was saved serves it. */
  lemma CacheServes(entries: map<string, Cache.Entry>, key: string -> string, encode: seq<Part> -> string,
                    decode: string -> seq<Part>, now: nat,
                    saved: seq<HistoryCall>)
    requires Repeatable(saved) && forall k :: 0 <= k < |saved| ==> decode(encode(saved[k].prefix)) == saved[k].prefix
    requires forall k :: 0 <= k < |saved| ==> Keeps(entries, key, encode, now, saved[k])
    ensures Serves(LookupIn(entries, key, decode, now), saved)
  {
    forall k | 0 <= k < |saved|
      ensures LookupIn(entries, key, decode, now)(saved[k].part.id, saved[k].part.name, saved[k].part.args) ==
              Some(Stored(saved[k].part.signature, saved[k].prefix))
    {
      assert Keeps(entries, key, encode, now, saved[k]);
    }
  }
}
