/**
 The converter of one upstream response: it flattens native parts and saves what a later request
 needs to rebuild them.
 */
module AntigravityStream {
  import opened Collections
  import opened AntigravityHistory

  const MAX_OUTPUT_BYTES := 0x200_0000
  const MAX_CALLS := 128

  /** What a streaming client is sent. */
  datatype Delta = Content(text: string) | Reasoning(text: string) | ToolCall(index: nat, call: Part)

  function Thought(p: Part): string {
    if p.Text? && p.thought then p.text else ""
  }

  function Thoughts(parts: seq<Part>): string {
    if parts == [] then "" else Thoughts(parts[..|parts| - 1]) + Thought(parts[|parts| - 1])
  }

  function CallsOf(parts: seq<Part>): seq<Part> {
    if parts == [] then []
    else if parts[|parts| - 1].Call? then CallsOf(parts[..|parts| - 1]) + [parts[|parts| - 1]]
    else CallsOf(parts[..|parts| - 1])
  }

  /** What the deltas add up to. */
  datatype Sum = Sum(text: string, reasoning: string, calls: seq<Part>)

  function Fold(deltas: seq<Delta>): Sum {
    if deltas == [] then Sum("", "", [])
    else
      var before := Fold(deltas[..|deltas| - 1]);
      match deltas[|deltas| - 1]
      case Content(t) => before.(text := before.text + t)
      case Reasoning(t) => before.(reasoning := before.reasoning + t)
      case ToolCall(_, call) => before.(calls := before.calls + [call])
  }

  /** What a response of these native parts says. */
  function Said(native: seq<Part>): Sum {
    Sum(Visible(native), Thoughts(native), CallsOf(native))
  }

  lemma FoldMore(deltas: seq<Delta>, d: Delta)
    ensures Fold(deltas + [d]) ==
            match d
            case Content(t) => Fold(deltas).(text := Fold(deltas).text + t)
            case Reasoning(t) => Fold(deltas).(reasoning := Fold(deltas).reasoning + t)
            case ToolCall(_, call) => Fold(deltas).(calls := Fold(deltas).calls + [call])
  {
    assert (deltas + [d])[..|deltas|] == deltas;
  }

  lemma SaidMore(native: seq<Part>, p: Part)
    ensures Said(native + [p]).text == Said(native).text + Shown(p)
    ensures Said(native + [p]).reasoning == Said(native).reasoning + Thought(p)
    ensures Said(native + [p]).calls == if p.Call? then Said(native).calls + [p] else Said(native).calls
  {
    assert (native + [p])[..|native|] == native;
    VisibleAppend(native, [p]);
    VisibleOne(p);
  }

  lemma SegmentMore(native: seq<Part>, p: Part)
    ensures Segment(native + [p]) ==
            if p.Call? then Segments(Segment(native).calls + [HistoryCall(Segment(native).pending, p)], [])
            else Segments(Segment(native).calls, Segment(native).pending + [p])
  {
    assert (native + [p])[..|native|] == native;
  }

  /** Without native history only the calls are saved. */
  function Bareness(calls: seq<Part>): seq<HistoryCall> {
    if calls == [] then [] else Bareness(calls[..|calls| - 1]) + [HistoryCall([], calls[|calls| - 1])]
  }

  lemma BarenessMore(calls: seq<Part>, call: Part)
    ensures Bareness(calls + [call]) == Bareness(calls) + [HistoryCall([], call)]
  {
    assert (calls + [call])[..|calls|] == calls;
  }

  /** What the converter remembers of the parts so far. */
  datatype Memory = Memory(said: Sum, calls: seq<Part>, nativePrefix: seq<Part>, saved: seq<HistoryCall>)

  ghost predicate Tracks(claude: bool, m: Memory, native: seq<Part>) {
    && m.said == Said(native) && m.calls == CallsOf(native)
    && (if claude then m.saved == Segment(native).calls && m.nativePrefix == Segment(native).pending
        else m.saved == Bareness(m.calls) && m.nativePrefix == [])
  }

  lemma TracksPart(claude: bool, m: Memory, native: seq<Part>, p: Part)
    requires Tracks(claude, m, native) && !p.Call?
    ensures Tracks(claude, Memory(Sum(m.said.text + Shown(p), m.said.reasoning + Thought(p), m.said.calls), m.calls,
                                  if claude then m.nativePrefix + [p] else [], m.saved), native + [p])
  {
    SaidMore(native, p);
    SegmentMore(native, p);
  }

  lemma TracksCall(claude: bool, m: Memory, native: seq<Part>, call: Part)
    requires Tracks(claude, m, native) && call.Call?
    ensures Tracks(claude, Memory(m.said.(calls := m.said.calls + [call]), m.calls + [call], [],
                                  m.saved + [HistoryCall(m.nativePrefix, call)]), native + [call])
  {
    SaidMore(native, call);
    SegmentMore(native, call);
    BarenessMore(m.calls, call);
    assert m.said.text + "" == m.said.text && m.said.reasoning + "" == m.said.reasoning;
  }

  /** A call with the id it goes by. */
  function Named(p: Part, madeUp: string): Part {
    if p.Call? && p.id == "" then Call(madeUp, p.name, p.args, p.signature) else p
  }

  class StreamState {
    const claude: bool
    const streaming: bool
    var text: string
    var reasoning: string
    var calls: seq<Part>
    var nativePrefix: seq<Part>
    var size: nat
    var deltas: seq<Delta>
    /** Every entry handed to Signatures.Save, in order. */
    var saved: seq<HistoryCall>
    /** The reason for ending that the client is given; empty until there is one. */
    var finish: string
    /** The native parts taken so far, with the ids that calls were given. */
    ghost var native: seq<Part>

    ghost function View(): Memory
      reads this
    {
      Memory(if streaming then Fold(deltas) else Sum(text, reasoning, calls), calls, nativePrefix, saved)
    }

    ghost predicate Valid()
      reads this
    {
      Tracks(claude, View(), native) && |calls| <= MAX_CALLS && size <= MAX_OUTPUT_BYTES
    }

    constructor (claude: bool, streaming: bool)
      ensures Valid() && native == [] && this.claude == claude && this.streaming == streaming && finish == ""
    {
      this.claude, this.streaming, finish := claude, streaming, "";
      text, reasoning, calls, nativePrefix, size, deltas, saved, native := "", "", [], [], 0, [], [], [];
    }

    /** The text branch of part. */
    method TakeText(p: Part) returns (ok: bool)
      requires Valid() && p.Text?
      modifies this`text, this`reasoning, this`nativePrefix, this`size, this`deltas, this`native
      ensures ok == (old(size) + |p.text| <= MAX_OUTPUT_BYTES)
      ensures ok ==> Valid() && native == old(native) + [p]
    {
      TracksPart(claude, View(), native, p);
      if claude { nativePrefix := nativePrefix + [p]; }
      size := size + |p.text|;
      if size > MAX_OUTPUT_BYTES { return false; }
      ghost var said := View().said;
      assert said.text + "" == said.text && said.reasoning + "" == said.reasoning;
      if !streaming {
        if p.thought { reasoning := reasoning + p.text; } else { text := text + p.text; }
      } else if p.text != "" {
        var delta := if p.thought then Reasoning(p.text) else Content(p.text);
        FoldMore(deltas, delta);
        deltas := deltas + [delta];
      }
      native := native + [p];
      ok := true;
    }

    /** A part with neither text nor a call: kept only as native history. */
    method TakeBare(p: Part)
      requires Valid() && p.Bare?
      modifies this`nativePrefix, this`native
      ensures Valid() && native == old(native) + [p]
    {
      TracksPart(claude, View(), native, p);
      ghost var said := View().said;
      assert said.text + "" == said.text && said.reasoning + "" == said.reasoning;
      if claude { nativePrefix := nativePrefix + [p]; }
      native := native + [p];
    }

    /**
     The call branch of part; `madeUp` is a new id for a call without one, `stored` whether the
     entry could be saved.
     */
    method TakeCall(p: Part, madeUp: string, stored: bool) returns (ok: bool)
      requires Valid() && p.Call?
      modifies this
      ensures finish == old(finish)
      ensures ok == (p.name != "" && |old(calls)| < MAX_CALLS && old(size) + |p.args| <= MAX_OUTPUT_BYTES && stored)
      ensures ok ==> Valid() && native == old(native) + [Named(p, madeUp)]
      ensures ok ==> saved == old(saved) + [HistoryCall(old(nativePrefix), Named(p, madeUp))]
    {
      if p.name == "" || |calls| >= MAX_CALLS { return false; }
      size := size + |p.args|;
      if size > MAX_OUTPUT_BYTES || !stored { return false; }
      var call := Named(p, madeUp);
      TracksCall(claude, View(), native, call);
      SayCall(call);
      ghost var said := View().said;
      saved := saved + [HistoryCall(nativePrefix, call)];
      nativePrefix := [];
      native := native + [call];
      assert View().said == said;
      ok := true;
    }

    /** The call joins the calls, and is sent on to a streaming client. */
    method SayCall(call: Part)
      modifies this`calls, this`deltas
      ensures calls == old(calls) + [call]
      ensures streaming ==> Fold(deltas) == Fold(old(deltas)).(calls := Fold(old(deltas)).calls + [call])
      ensures !streaming ==> deltas == old(deltas)
    {
      if streaming {
        FoldMore(deltas, ToolCall(|calls|, call));
        deltas := deltas + [ToolCall(|calls|, call)];
      }
      calls := calls + [call];
    }

    /** The prompt was blocked. */
    method TakeBlock()
      modifies this`finish
      ensures finish == "content_filter"
    {
      finish := "content_filter";
    }

    /** The upstream's reason for ending, after the parts that came with it; an unknown one is an error. */
    method TakeFinish(reason: string) returns (ok: bool)
      modifies this`finish
      ensures ok <==>
        reason in {"STOP", "MAX_TOKENS", "SAFETY", "RECITATION", "BLOCKLIST", "PROHIBITED_CONTENT", "SPII"}
      ensures finish ==
        if !ok then old(finish)
        else if reason == "STOP" then if |calls| > 0 then "tool_calls" else "stop"
        else if reason == "MAX_TOKENS" then "length"
        else "content_filter"
    {
      ok := true;
      match reason
      case "STOP" => finish := if |calls| > 0 then "tool_calls" else "stop";
      case "MAX_TOKENS" => finish := "length";
      case _ =>
        if reason != "SAFETY" && reason != "RECITATION" && reason != "BLOCKLIST" && reason != "PROHIBITED_CONTENT" &&
           reason != "SPII" {
          return false;
        }
        finish := "content_filter";
    }

    /** The stream may only end with a reason. */
    method End() returns (ok: bool)
      ensures ok == (finish != "")
    {
      return finish != "";
    }
  }
}
