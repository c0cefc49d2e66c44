/** The builder that turns chat messages into upstream contents, message by message. */
module AntigravityRequest {
  import opened Collections
  import opened AntigravityHistory
  import opened AntigravityContents

  /** What Signatures.History returns for a call: its signature, and the native parts before it. */
  datatype Stored = Stored(signature: string, prefix: seq<Part>)

  type Lookup = (string, string, string) -> Option<Stored>

  /** A tool call of a message; arguments are None when they are not a JSON object. */
  datatype CallIn = CallIn(id: string, name: string, args: Option<string>)

  /** A chat message with its content already parsed, or None where that fails. */
  datatype Message =
    | Tool(id: string, output: Option<string>)
    | System(parts: Option<seq<Part>>)
    | User(parts: Option<seq<Part>>, hasCalls: bool)
    | Spoke(parts: Option<seq<Part>>, calls: seq<CallIn>)
    | Unknown

  /** contentParts yields text and images only. */
  predicate Plain(parts: seq<Part>) {
    forall i :: 0 <= i < |parts| ==> (parts[i].Text? && !parts[i].thought) || parts[i].Image?
  }

  predicate WellFormed(m: Message) {
    match m
    case System(parts) => parts.Some? ==> Plain(parts.value)
    case User(parts, _) => parts.Some? ==> Plain(parts.value)
    case Spoke(parts, _) => parts.Some? ==> Plain(parts.value)
    case _ => true
  }

  /** Only parts without calls are ever saved as a prefix. */
  ghost predicate SoundLookup(lookup: Lookup) {
    forall id, name, args :: lookup(id, name, args).Some? ==>
      NoCalls(lookup(id, name, args).value.prefix) && NoAnswers(lookup(id, name, args).value.prefix)
  }

  function IdsOf(calls: seq<HistoryCall>): seq<string> {
    if calls == [] then []
    else IdsOf(calls[..|calls| - 1]) + (if calls[|calls| - 1].part.Call? then [calls[|calls| - 1].part.id] else [])
  }

  predicate CallsOk(calls: seq<HistoryCall>) {
    forall i :: 0 <= i < |calls| ==> calls[i].part.Call? && NoCalls(calls[i].prefix) && NoAnswers(calls[i].prefix)
  }

  /** The collected parts make exactly the collected calls. */
  predicate SameIds(a: Assistant) {
    CallIds(a.parts) == IdsOf(a.calls)
  }

  predicate AssistantOk(a: Assistant) {
    NoAnswers(a.parts) && CallsOk(a.calls) && SameIds(a)
  }

  /** The collected calls are all pending, each once. */
  predicate Owed(a: Assistant, pending: set<string>) {
    Accounted(IdsOf(a.calls), [], pending)
  }

  lemma IdsMore(calls: seq<HistoryCall>, call: HistoryCall)
    requires call.part.Call?
    ensures IdsOf(calls + [call]) == IdsOf(calls) + [call.part.id]
  {
    assert (calls + [call])[..|calls|] == calls;
  }

  lemma {:induction false} FlatIds(calls: seq<HistoryCall>)
    requires CallsOk(calls)
    ensures CallIds(Flat(calls)) == IdsOf(calls) && NoAnswers(Flat(calls))
  {
    if calls != [] {
      var before, last := calls[..|calls| - 1], calls[|calls| - 1];
      FlatIds(before);
      CallIdsAppend(Flat(before) + last.prefix, [last.part]);
      CallIdsAppend(Flat(before), last.prefix);
      NoCallIds(last.prefix);
      assert [last.part][1..] == [] && CallIds([last.part]) == [last.part.id];
      assert CallIds(Flat(before)) + [] == CallIds(Flat(before));
    }
  }

  /** The rebuilt parts make the same calls in the same order. */
  lemma NativeIds(h: Assistant)
    requires CallsOk(h.calls) && Native(h).Some?
    ensures CallIds(Native(h).value) == IdsOf(h.calls) && NoAnswers(Native(h).value)
  {
    var rest := Leftover(Spoken(h.parts)[|Covered(h.calls)|..]);
    FlatIds(h.calls);
    CallIdsAppend(Flat(h.calls), rest);
    NoCallIds(rest);
    assert IdsOf(h.calls) + [] == IdsOf(h.calls);
  }

  /** The builder's fields. */
  datatype Builder = Builder(contents: seq<Entry>, system: seq<Part>, calls: map<string, string>, pending: set<string>,
    assistant: Assistant)

  const EMPTY := Assistant([], [])

  /** Before the calls of the assistant messages being collected are sent, everything earlier is settled. */
  predicate Sound(b: Builder) {
    && AssistantOk(b.assistant) && b.pending <= b.calls.Keys
    && if b.assistant.calls == [] then Orderly(b.contents, b.pending) && (b.assistant.parts != [] ==> b.pending == {})
       else Orderly(b.contents, {}) && Owed(b.assistant, b.pending)
  }

  /** What flushAssistant appends, if it can. */
  function Flushed(claude: bool, a: Assistant): Option<seq<Part>> {
    if claude && a.calls != [] then Native(a) else Some(a.parts)
  }

  lemma FlushSound(claude: bool, b: Builder)
    requires Sound(b) && Flushed(claude, b.assistant).Some?
    ensures Sound(b.(contents := Append(b.contents, false, Flushed(claude, b.assistant).value), assistant := EMPTY))
  {
    var a, parts := b.assistant, Flushed(claude, b.assistant).value;
    if a.calls == [] {
      assert CallIds(parts) == [];
      if parts != [] { AppendModel(b.contents, parts, {}); }
    } else {
      if claude { NativeIds(a); }
      AppendModel(b.contents, parts, b.pending);
    }
  }

  /** The name a call was made under. */
  function NameOf(calls: map<string, string>, id: string): string {
    if id in calls then calls[id] else ""
  }

  lemma ToolSound(b: Builder, id: string, output: string)
    requires Sound(b) && b.assistant == EMPTY && id in b.pending
    ensures Sound(b.(pending := b.pending - {id},
      contents := Append(b.contents, true, [Response(id, NameOf(b.calls, id), output)])))
  {
    AppendAnswer(b.contents, Response(id, NameOf(b.calls, id), output), b.pending);
  }

  lemma UserSound(b: Builder, parts: seq<Part>)
    requires Sound(b) && b.assistant == EMPTY && b.pending == {} && Plain(parts)
    ensures Sound(b.(contents := Append(b.contents, true, parts)))
  {
    AppendUser(b.contents, parts);
  }

  lemma SpokeSound(b: Builder, parts: seq<Part>)
    requires Sound(b) && Plain(parts) && (b.pending == {} || b.assistant.calls != [])
    ensures Sound(b.(assistant := Assistant(b.assistant.parts + parts, b.assistant.calls)))
  {
    CallIdsAppend(b.assistant.parts, parts);
    NoCallIds(parts);
    assert CallIds(b.assistant.parts) + [] == CallIds(b.assistant.parts);
  }

  /** Recording a call and adding it to the assistant's messages. */
  function AddCall(claude: bool, b: Builder, call: HistoryCall): Builder
    requires call.part.Call?
  {
    var more := (if claude then [] else call.prefix) + [call.part];
    b.(calls := b.calls[call.part.id := call.part.name], pending := b.pending + {call.part.id},
       assistant := Assistant(b.assistant.parts + more, b.assistant.calls + [call]))
  }

  lemma CallAccounted(ids: seq<string>, pending: set<string>, id: string)
    requires Accounted(ids, [], pending) && id !in pending
    ensures Accounted(ids + [id], [], pending + {id})
  {
    assert multiset(pending + {id}) == multiset(pending) + multiset{id};
    assert forall x :: x in ids ==> x in multiset(ids);
  }

  /** The parts that a call adds end in the call, and nothing before it is one. */
  lemma MoreIds(parts: seq<Part>, prefix: seq<Part>, call: Part)
    requires call.Call? && NoCalls(prefix) && NoAnswers(prefix) && NoAnswers(parts)
    ensures CallIds(parts + (prefix + [call])) == CallIds(parts) + [call.id] && NoAnswers(parts + (prefix + [call]))
  {
    CallIdsAppend(parts, prefix + [call]);
    CallIdsAppend(prefix, [call]);
    NoCallIds(prefix);
    assert [call][1..] == [] && CallIds([call]) == [call.id];
    assert [] + [call.id] == [call.id];
  }

  lemma CallKeepsAssistant(a: Assistant, prefix: seq<Part>, call: HistoryCall, pending: set<string>)
    requires AssistantOk(a) && call.part.Call? && CallsOk([call]) && NoCalls(prefix) && NoAnswers(prefix)
    requires Owed(a, pending) && call.part.id !in pending
    ensures var more := Assistant(a.parts + (prefix + [call.part]), a.calls + [call]);
            AssistantOk(more) && Owed(more, pending + {call.part.id})
  {
    MoreIds(a.parts, prefix, call.part);
    IdsMore(a.calls, call);
    CallAccounted(IdsOf(a.calls), pending, call.part.id);
    assert [call][0] == call;
  }

  lemma NothingOwed(a: Assistant)
    requires a.calls == []
    ensures Owed(a, {})
  {
  }

  lemma CallSound(claude: bool, b: Builder, call: HistoryCall)
    requires Sound(b) && call.part.Call? && call.part.id !in b.calls && NoCalls(call.prefix) && NoAnswers(call.prefix)
    requires b.pending == {} || b.assistant.calls != []
    ensures Sound(AddCall(claude, b, call)) && AddCall(claude, b, call).assistant.calls != []
  {
    if b.assistant.calls == [] { NothingOwed(b.assistant); }
    assert CallsOk([call]);
    CallKeepsAssistant(b.assistant, if claude then [] else call.prefix, call, b.pending);
  }

  // ---- One message ------------------------------------------------------------------------------------------

  function Flush(claude: bool, b: Builder): Option<Builder> {
    var parts := Flushed(claude, b.assistant);
    if parts.None? then None else Some(b.(contents := Append(b.contents, false, parts.value), assistant := EMPTY))
  }

  /** call: the part for a tool call, or None when it is malformed, repeated, or its signature is missing. */
  function Resolve(needsSignature: bool, lookup: Lookup, b: Builder, c: CallIn): Option<HistoryCall> {
    if c.id == "" || c.name == "" || c.args.None? || c.id in b.calls then None
    else
      match lookup(c.id, c.name, c.args.value)
      case Some(stored) => Some(HistoryCall(stored.prefix, Call(c.id, c.name, c.args.value, stored.signature)))
      case None => if needsSignature then None else Some(HistoryCall([], Call(c.id, c.name, c.args.value, "")))
  }

  /** The calls of one message from the i-th on. */
  function TakeCalls(claude: bool, needsSignature: bool, lookup: Lookup, b: Builder, tools: seq<CallIn>,
                     i: nat): Option<Builder>
    requires i <= |tools|
    decreases |tools| - i
  {
    if i == |tools| then Some(b)
    else
      var call := Resolve(needsSignature, lookup, b, tools[i]);
      if call.None? then None
      else TakeCalls(claude, needsSignature, lookup, AddCall(claude, b, call.value), tools, i + 1)
  }

  predicate AllText(parts: seq<Part>) {
    forall i :: 0 <= i < |parts| ==> parts[i].Text?
  }

  /** message: the builder afterwards, or None when the message is refused. */
  function Process(claude: bool, needsSignature: bool, lookup: Lookup, b0: Builder, m: Message): Option<Builder> {
    var flushed := if m.Spoke? then Some(b0) else Flush(claude, b0);
    if flushed.None? then None
    else
      var b := flushed.value;
      match m
      case Tool(id, output) =>
        if id !in b.pending || output.None? then None
        else Some(b.(pending := b.pending - {id},
          contents := Append(b.contents, true, [Response(id, NameOf(b.calls, id), output.value)])))
      case System(parts) =>
        if b.pending != {} || parts.None? || !AllText(parts.value) then None
        else Some(b.(system := b.system + parts.value))
      case User(parts, hasCalls) =>
        if b.pending != {} || parts.None? || hasCalls then None
        else Some(b.(contents := Append(b.contents, true, parts.value)))
      case Spoke(parts, tools) =>
        if (b.pending != {} && b.assistant.calls == []) || parts.None? then None
        else
          TakeCalls(claude, needsSignature, lookup,
            b.(assistant := Assistant(b.assistant.parts + parts.value, b.assistant.calls)), tools, 0)
      case Unknown => None
  }

  /** The messages from the i-th on, and the last flush. */
  function ProcessAll(claude: bool, needsSignature: bool, lookup: Lookup, b: Builder, messages: seq<Message>,
                      i: nat): Option<Builder>
    requires i <= |messages|
    decreases |messages| - i
  {
    if i == |messages| then Flush(claude, b)
    else
      var next := Process(claude, needsSignature, lookup, b, messages[i]);
      if next.None? then None else ProcessAll(claude, needsSignature, lookup, next.value, messages, i + 1)
  }

  const NEW := Builder([], [], map[], {}, EMPTY)

  /** A request that can be sent: every message was accepted, nothing is left pending, and something was said. */
  predicate Accepted(b: Option<Builder>) {
    b.Some? && b.value.pending == {} && b.value.contents != []
  }

  /** Missing history fails closed: a call whose signature is needed and not saved refuses the whole message. */
  lemma {:induction false} MissingEntryRefused(lookup: Lookup, claude: bool, b: Builder, tools: seq<CallIn>, i: nat,
                                               missing: nat)
    requires i <= missing < |tools|
    requires tools[missing].args.Some? &&
      lookup(tools[missing].id, tools[missing].name, tools[missing].args.value).None?
    ensures TakeCalls(claude, true, lookup, b, tools, i).None?
    decreases missing - i
  {
    var call := Resolve(true, lookup, b, tools[i]);
    if i < missing && call.Some? {
      MissingEntryRefused(lookup, claude, AddCall(claude, b, call.value), tools, i + 1, missing);
    }
  }

  // ---- Every accepted request is in order -----------------------------------------------------------------

  /** The builder is sound and may take another call. */
  predicate Collecting(b: Builder) {
    Sound(b) && (b.pending == {} || b.assistant.calls != [])
  }

  lemma ResolveSound(claude: bool, needsSignature: bool, lookup: Lookup, b: Builder, c: CallIn)
    requires SoundLookup(lookup) && Collecting(b) && Resolve(needsSignature, lookup, b, c).Some?
    ensures Collecting(AddCall(claude, b, Resolve(needsSignature, lookup, b, c).value))
  {
    CallSound(claude, b, Resolve(needsSignature, lookup, b, c).value);
  }

  lemma {:induction false} TakeCallsSound(claude: bool, needsSignature: bool, lookup: Lookup, b: Builder,
                                          tools: seq<CallIn>, i: nat)
    requires SoundLookup(lookup) && Collecting(b) && i <= |tools|
    ensures var done := TakeCalls(claude, needsSignature, lookup, b, tools, i); done.Some? ==> Sound(done.value)
    decreases |tools| - i
  {
    if i < |tools| {
      var call := Resolve(needsSignature, lookup, b, tools[i]);
      if call.Some? {
        ResolveSound(claude, needsSignature, lookup, b, tools[i]);
        TakeCallsSound(claude, needsSignature, lookup, AddCall(claude, b, call.value), tools, i + 1);
      }
    }
  }

  lemma ProcessSound(claude: bool, needsSignature: bool, lookup: Lookup, b: Builder, m: Message)
    requires SoundLookup(lookup) && Sound(b) && WellFormed(m)
    ensures var next := Process(claude, needsSignature, lookup, b, m); next.Some? ==> Sound(next.value)
  {
    if m.Spoke? {
      if m.parts.Some? && (b.pending == {} || b.assistant.calls != []) {
        SpokeSound(b, m.parts.value);
        TakeCallsSound(claude, needsSignature, lookup,
          b.(assistant := Assistant(b.assistant.parts + m.parts.value, b.assistant.calls)),
                       m.calls, 0);
      }
    } else if Flush(claude, b).Some? {
      FlushSound(claude, b);
      var flushed := Flush(claude, b).value;
      if m.Tool? && m.id in flushed.pending && m.output.Some? { ToolSound(flushed, m.id, m.output.value); }
      if m.User? && flushed.pending == {} && m.parts.Some? { UserSound(flushed, m.parts.value); }
    }
  }

  /** From an empty builder, every accepted request alternates roles and answers every call exactly once. */
  lemma {:induction false} AcceptedIsOrderly(claude: bool, needsSignature: bool, lookup: Lookup, b: Builder,
                                             messages: seq<Message>, i: nat)
    requires SoundLookup(lookup) && Sound(b) && i <= |messages| && forall j :: 0 <= j < |messages| ==>
      WellFormed(messages[j])
    ensures var done := ProcessAll(claude, needsSignature, lookup, b, messages, i);
            Accepted(done) ==> Orderly(done.value.contents, {})
    decreases |messages| - i
  {
    if i == |messages| {
      if Flush(claude, b).Some? { FlushSound(claude, b); }
    } else {
      var next := Process(claude, needsSignature, lookup, b, messages[i]);
      ProcessSound(claude, needsSignature, lookup, b, messages[i]);
      if next.Some? { AcceptedIsOrderly(claude, needsSignature, lookup, next.value, messages, i + 1); }
    }
  }

  // ---- The object ---------------------------------------------------------------------------------------

  class RequestBuilder {
    const claude: bool
    const needsSignature: bool
    const lookup: Lookup
    var contents: seq<Entry>
    var system: seq<Part>
    var calls: map<string, string>
    var pending: set<string>
    var assistant: Assistant

    ghost function View(): Builder
      reads this
    {
      Builder(contents, system, calls, pending, assistant)
    }

    ghost predicate Valid()
      reads this
    {
      forall i :: 0 <= i < |assistant.calls| ==> assistant.calls[i].part.Call?
    }

    constructor (claude: bool, needsSignature: bool, lookup: Lookup)
      ensures Valid() && View() == NEW
      ensures this.claude == claude && this.needsSignature == needsSignature && this.lookup == lookup
    {
      this.claude, this.needsSignature, this.lookup := claude, needsSignature, lookup;
      contents, system, calls, pending, assistant := [], [], map[], {}, EMPTY;
    }

    method FlushAssistant() returns (ok: bool)
      requires Valid()
      modifies this`contents, this`assistant
      ensures Valid() && ok == Flush(claude, old(View())).Some?
      ensures ok ==> View() == Flush(claude, old(View())).value
    {
      var history := assistant;
      assistant := EMPTY;
      var parts := history.parts;
      if claude && |history.calls| > 0 {
        var native, fine := NativeParts(history);
        if !fine { return false; }
        parts := native;
      }
      contents := Append(contents, false, parts);
      ok := true;
    }

    /** call, and what message does with it. */
    method TakeCall(c: CallIn) returns (ok: bool)
      requires Valid()
      modifies this`calls, this`pending, this`assistant
      ensures Valid() && ok == Resolve(needsSignature, lookup, old(View()), c).Some?
      ensures ok ==> View() == AddCall(claude, old(View()), Resolve(needsSignature, lookup, old(View()), c).value)
    {
      if c.id == "" || c.name == "" || c.args.None? || c.id in calls { return false; }
      var stored := lookup(c.id, c.name, c.args.value);
      if stored.None? && needsSignature { return false; }
      var call := HistoryCall(if stored.Some? then stored.value.prefix else [],
                              Call(c.id, c.name, c.args.value, if stored.Some? then stored.value.signature else ""));
      calls := calls[c.id := c.name];
      pending := pending + {c.id};
      assistant := Assistant(assistant.parts + ((if claude then [] else call.prefix) + [call.part]),
        assistant.calls + [call]);
      ok := true;
    }

    /** The assistant's part of message: its content, then its calls. */
    method Speak(parts: seq<Part>, tools: seq<CallIn>) returns (ok: bool)
      requires Valid()
      modifies this`calls, this`pending, this`assistant
      ensures var begun := old(View()).(assistant := Assistant(old(assistant).parts + parts, old(assistant).calls));
              var done := TakeCalls(claude, needsSignature, lookup, begun, tools, 0);
              Valid() && ok == done.Some? && (ok ==> View() == done.value)
    {
      assistant := Assistant(assistant.parts + parts, assistant.calls);
      ghost var done := TakeCalls(claude, needsSignature, lookup, View(), tools, 0);
      var i := 0;
      while i < |tools|
        invariant 0 <= i <= |tools| && Valid() && TakeCalls(claude, needsSignature, lookup, View(), tools, i) == done
      {
        var fine := TakeCall(tools[i]);
        if !fine { return false; }
        i := i + 1;
      }
      ok := true;
    }

    /** message. A refused message ends the request. */
    method Message(m: Message) returns (ok: bool)
      requires Valid()
      modifies this
      ensures Valid() && ok == Process(claude, needsSignature, lookup, old(View()), m).Some?
      ensures ok ==> View() == Process(claude, needsSignature, lookup, old(View()), m).value
    {
      if !m.Spoke? {
        var flushed := FlushAssistant();
        if !flushed { return false; }
      }
      if m.Tool? {
        if m.id !in pending || m.output.None? { return false; }
        contents := Append(contents, true, [Response(m.id, NameOf(calls, m.id), m.output.value)]);
        pending := pending - {m.id};
        return true;
      }
      if |pending| > 0 && (!m.Spoke? || |assistant.calls| == 0) { return false; }
      if m.Unknown? || m.parts.None? { return false; }
      var parts := m.parts.value;
      match m
      case System(_) =>
        if exists i :: 0 <= i < |parts| && !parts[i].Text? { return false; }
        system := system + parts;
        ok := true;
      case User(_, hasCalls) =>
        if hasCalls { return false; }
        contents := Append(contents, true, parts);
        ok := true;
      case Spoke(_, tools) =>
        ok := Speak(parts, tools);
    }
  }

  /** Request, from the messages to the contents. */
  method Request(claude: bool, needsSignature: bool, lookup: Lookup, messages: seq<Message>)
      returns (contents: seq<Entry>, system: seq<Part>, ok: bool)
    requires SoundLookup(lookup) && forall i :: 0 <= i < |messages| ==> WellFormed(messages[i])
    ensures var done := ProcessAll(claude, needsSignature, lookup, NEW, messages, 0);
            && ok == Accepted(done)
            && (ok ==> contents == done.value.contents && system == done.value.system && Orderly(contents, {}))
  {
    var b := new RequestBuilder(claude, needsSignature, lookup);
    ghost var done := ProcessAll(claude, needsSignature, lookup, NEW, messages, 0);
    AcceptedIsOrderly(claude, needsSignature, lookup, NEW, messages, 0);
    var i := 0;
    while i < |messages|
      invariant 0 <= i <= |messages| && b.Valid() && fresh(b)
      invariant b.claude == claude && b.needsSignature == needsSignature && b.lookup == lookup
      invariant ProcessAll(claude, needsSignature, lookup, b.View(), messages, i) == done
    {
      var fine := b.Message(messages[i]);
      if !fine { return [], [], false; }
      i := i + 1;
    }
    var flushed := b.FlushAssistant();
    if !flushed || b.pending != {} || |b.contents| == 0 { return [], [], false; }
    return b.contents, b.system, true;
  }
}
