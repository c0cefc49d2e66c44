/** Which requests are accepted and what they contain, told from the chat messages alone. */
module AntigravityTold {
  import opened Collections
  import opened AntigravityHistory
  import opened AntigravityContents
  import opened AntigravityRequest

  // ---- What the messages say ----------------------------------------------------------------------

  function Ids(tools: seq<CallIn>, k: nat): set<string>
    requires k <= |tools|
  {
    if k == 0 then {} else Ids(tools, k - 1) + {tools[k - 1].id}
  }

  /** The name of the call with this id. */
  function NameIn(tools: seq<CallIn>, k: nat, id: string): string
    requires k <= |tools|
  {
    if k == 0 then "" else if tools[k - 1].id == id then tools[k - 1].name else NameIn(tools, k - 1, id)
  }

  /** The ids of the calls in the first i messages. */
  function IdsBy(messages: seq<Message>, i: nat): set<string>
    requires i <= |messages|
  {
    if i == 0 then {}
    else
      var m := messages[i - 1];
      IdsBy(messages, i - 1) + if m.Spoke? then Ids(m.calls, |m.calls|) else {}
  }

  function NameBy(messages: seq<Message>, i: nat, id: string): string
    requires i <= |messages|
  {
    if i == 0 then ""
    else
      var m := messages[i - 1];
      if m.Spoke? && id in Ids(m.calls, |m.calls|) then NameIn(m.calls, |m.calls|, id) else NameBy(messages, i - 1, id)
  }

  /** The calls that are not answered after i messages. */
  function OpenBy(messages: seq<Message>, i: nat): set<string>
    requires i <= |messages|
  {
    if i == 0 then {}
    else
      match messages[i - 1]
      case Tool(id, _) => OpenBy(messages, i - 1) - {id}
      case Spoke(_, calls) => OpenBy(messages, i - 1) + Ids(calls, |calls|)
      case _ => OpenBy(messages, i - 1)
  }

  /** The call as it is sent: with the signature and after the parts that were saved for it. */
  function Recalled(lookup: Lookup, c: CallIn): HistoryCall {
    var args := if c.args.Some? then c.args.value else "";
    match lookup(c.id, c.name, args)
    case Some(stored) => HistoryCall(stored.prefix, Call(c.id, c.name, args, stored.signature))
    case None => HistoryCall([], Call(c.id, c.name, args, ""))
  }

  function AllRecalled(lookup: Lookup, tools: seq<CallIn>, k: nat): seq<HistoryCall>
    requires k <= |tools|
  {
    if k == 0 then [] else AllRecalled(lookup, tools, k - 1) + [Recalled(lookup, tools[k - 1])]
  }

  /** The parts of the calls; Claude's prefixes are put in when the turn is over. */
  function Uttered(claude: bool, calls: seq<HistoryCall>): seq<Part> {
    if calls == [] then []
    else
      var last := calls[|calls| - 1];
      Uttered(claude, calls[..|calls| - 1]) + ((if claude then [] else last.prefix) + [last.part])
  }

  function PartsOf(m: Message): seq<Part> {
    match m
    case System(Some(parts)) => parts
    case User(Some(parts), _) => parts
    case Spoke(Some(parts), _) => parts
    case _ => []
  }

  /** The assistant messages right before message i, taken together. */
  function TurnAt(claude: bool, lookup: Lookup, messages: seq<Message>, i: nat): Assistant
    requires i <= |messages|
  {
    if i == 0 || !messages[i - 1].Spoke? then EMPTY
    else
      var before, m := TurnAt(claude, lookup, messages, i - 1), messages[i - 1];
      var calls := AllRecalled(lookup, m.calls, |m.calls|);
      Assistant(before.parts + PartsOf(m) + Uttered(claude, calls), before.calls + calls)
  }

  /** The native parts that a turn is sent as. */
  function TurnParts(claude: bool, a: Assistant): seq<Part> {
    if claude && a.calls != [] then
      Flat(a.calls) +
        (if Covered(a.calls) <= Spoken(a.parts) then Leftover(Spoken(a.parts)[|Covered(a.calls)|..]) else [])
    else a.parts
  }

  /** A part of the conversation, and who says it. */
  datatype Line = Line(user: bool, part: Part)

  function Lines(user: bool, parts: seq<Part>): seq<Line> {
    seq(|parts|, k requires 0 <= k < |parts| => Line(user, parts[k]))
  }

  /** What a message of the client's puts into the conversation. */
  function FromClient(messages: seq<Message>, i: nat): seq<Part>
    requires i < |messages|
  {
    match messages[i]
    case Tool(id, Some(output)) => [Response(id, NameBy(messages, i, id), output)]
    case User(Some(parts), _) => parts
    case _ => []
  }

  /** The conversation after i messages, without the turn that is not over yet. */
  function Told(claude: bool, lookup: Lookup, messages: seq<Message>, i: nat): seq<Line>
    requires i <= |messages|
    decreases i, 0
  {
    if i == 0 then []
    else if messages[i - 1].Spoke? then Told(claude, lookup, messages, i - 1)
    else Finished(claude, lookup, messages, i - 1) + Lines(true, FromClient(messages, i - 1))
  }

  /** The conversation after i messages, with the turn. */
  function Finished(claude: bool, lookup: Lookup, messages: seq<Message>, i: nat): seq<Line>
    requires i <= |messages|
    decreases i, 1
  {
    Told(claude, lookup, messages, i) + Lines(false, TurnParts(claude, TurnAt(claude, lookup, messages, i)))
  }

  function SystemBy(messages: seq<Message>, i: nat): seq<Part>
    requires i <= |messages|
  {
    if i == 0 then []
    else SystemBy(messages, i - 1) + if messages[i - 1].System? then PartsOf(messages[i - 1]) else []
  }

  // ---- Which messages are accepted ------------------------------------------------------------------

  /** The text of the turn still starts with what the saved parts show. */
  predicate TurnOk(claude: bool, a: Assistant) {
    claude && a.calls != [] ==> OnlyTextAndCalls(a.parts) && Covered(a.calls) <= Spoken(a.parts)
  }

  /** A whole call under a new id, with its history where that is needed. */
  predicate ToolOk(needsSignature: bool, lookup: Lookup, known: set<string>, tools: seq<CallIn>, k: nat)
    requires k < |tools|
  {
    && tools[k].id != "" && tools[k].name != "" && tools[k].args.Some?
    && tools[k].id !in known && tools[k].id !in Ids(tools, k)
    && (needsSignature ==> lookup(tools[k].id, tools[k].name, tools[k].args.value).Some?)
  }

  /** The calls from the k-th on. */
  predicate ToolsOk(needsSignature: bool, lookup: Lookup, known: set<string>, tools: seq<CallIn>, k: nat) {
    forall j :: k <= j < |tools| ==> ToolOk(needsSignature, lookup, known, tools, j)
  }

  /** Results answer open calls, and nothing else is said while calls are open but by the assistant that made them. */
  predicate MessageOk(claude: bool, needsSignature: bool, lookup: Lookup, messages: seq<Message>, i: nat)
    requires i < |messages|
  {
    var turn, open := TurnAt(claude, lookup, messages, i), OpenBy(messages, i);
    && (messages[i].Spoke? || TurnOk(claude, turn))
    && match messages[i]
       case Tool(id, output) => id in open && output.Some?
       case System(parts) => open == {} && parts.Some? && forall k :: 0 <= k < |parts.value| ==> parts.value[k].Text?
       case User(parts, hasCalls) => open == {} && parts.Some? && !hasCalls
       case Spoke(parts, calls) =>
         && (open == {} || turn.calls != []) && parts.Some?
         && ToolsOk(needsSignature, lookup, IdsBy(messages, i), calls, 0)
       case Unknown => false
  }

  // ---- The contents, line by line -------------------------------------------------------------------

  function Said(contents: seq<Entry>): seq<Line> {
    if contents == [] then []
    else Said(contents[..|contents| - 1]) + Lines(contents[|contents| - 1].user, contents[|contents| - 1].parts)
  }

  predicate NoneEmpty(contents: seq<Entry>) {
    forall j :: 0 <= j < |contents| ==> contents[j].parts != []
  }

  lemma LinesAppend(user: bool, a: seq<Part>, b: seq<Part>)
    ensures Lines(user, a + b) == Lines(user, a) + Lines(user, b)
  {
  }

  /** Appending adds the lines at the end, whether it opens an entry or extends the last one. */
  lemma SaidAppend(contents: seq<Entry>, user: bool, parts: seq<Part>)
    requires NoneEmpty(contents)
    ensures Said(Append(contents, user, parts)) == Said(contents) + Lines(user, parts)
    ensures NoneEmpty(Append(contents, user, parts))
  {
    var longer := Append(contents, user, parts);
    if parts == [] {
      assert Lines(user, parts) == [];
    } else if contents != [] && contents[|contents| - 1].user == user {
      var front, last := contents[..|contents| - 1], contents[|contents| - 1];
      assert longer[..|longer| - 1] == front;
      LinesAppend(user, last.parts, parts);
    } else {
      assert longer[..|longer| - 1] == contents;
    }
  }

  lemma SomethingSaid(contents: seq<Entry>)
    requires NoneEmpty(contents)
    ensures contents == [] <==> Said(contents) == []
  {
    if contents != [] {
      var last := contents[|contents| - 1];
      assert |Lines(last.user, last.parts)| == |last.parts| > 0;
    }
  }

  // ---- Calls ------------------------------------------------------------------------------------------

  /** The names under which calls are recorded, after k more calls. */
  predicate Recorded(before: map<string, string>, tools: seq<CallIn>, k: nat, after: map<string, string>)
    requires k <= |tools|
  {
    && after.Keys == before.Keys + Ids(tools, k)
    && forall id :: id in after ==>
         after[id] == if id in Ids(tools, k) then NameIn(tools, k, id) else if id in before then before[id] else ""
  }

  /** The builder after k calls of a message. */
  predicate Took(claude: bool, lookup: Lookup, b0: Builder, b: Builder, tools: seq<CallIn>, k: nat)
    requires k <= |tools|
  {
    && b.contents == b0.contents && b.system == b0.system && b.pending == b0.pending + Ids(tools, k)
    && Recorded(b0.calls, tools, k, b.calls)
    && b.assistant.calls == b0.assistant.calls + AllRecalled(lookup, tools, k)
    && b.assistant.parts == b0.assistant.parts + Uttered(claude, AllRecalled(lookup, tools, k))
  }

  lemma UtteredMore(claude: bool, calls: seq<HistoryCall>, call: HistoryCall)
    ensures Uttered(claude, calls + [call]) ==
      Uttered(claude, calls) + ((if claude then [] else call.prefix) + [call.part])
  {
    assert (calls + [call])[..|calls|] == calls;
  }

  lemma ResolveRecalls(needsSignature: bool, lookup: Lookup, b: Builder, known: set<string>, tools: seq<CallIn>, k: nat)
    requires k < |tools| && b.calls.Keys == known + Ids(tools, k)
    ensures Resolve(needsSignature, lookup, b, tools[k]).Some? <==> ToolOk(needsSignature, lookup, known, tools, k)
    ensures Resolve(needsSignature, lookup, b, tools[k]).Some? ==>
              Resolve(needsSignature, lookup, b, tools[k]).value == Recalled(lookup, tools[k])
  {
  }

  lemma RecordOne(before: map<string, string>, tools: seq<CallIn>, k: nat, names: map<string, string>)
    requires k < |tools| && Recorded(before, tools, k, names)
    ensures Recorded(before, tools, k + 1, names[tools[k].id := tools[k].name])
  {
  }

  lemma TookOne(claude: bool, lookup: Lookup, b0: Builder, b: Builder, tools: seq<CallIn>, k: nat)
    requires k < |tools| && Took(claude, lookup, b0, b, tools, k)
    ensures Took(claude, lookup, b0, AddCall(claude, b, Recalled(lookup, tools[k])), tools, k + 1)
  {
    var call, calls := Recalled(lookup, tools[k]), AllRecalled(lookup, tools, k);
    UtteredMore(claude, calls, call);
    RecordOne(b0.calls, tools, k, b.calls);
    Assoc(b0.assistant.parts, Uttered(claude, calls), (if claude then [] else call.prefix) + [call.part]);
    Assoc(b0.assistant.calls, calls, [call]);
  }

  lemma ToolsOkFirst(needsSignature: bool, lookup: Lookup, known: set<string>, tools: seq<CallIn>, k: nat)
    requires k < |tools|
    ensures ToolsOk(needsSignature, lookup, known, tools, k) <==>
      ToolOk(needsSignature, lookup, known, tools, k) && ToolsOk(needsSignature, lookup, known, tools, k + 1)
  {
  }

  lemma TakeStep(claude: bool, needsSignature: bool, lookup: Lookup, b0: Builder, b: Builder, tools: seq<CallIn>,
                 k: nat) returns (next: Builder)
    requires k < |tools| && Took(claude, lookup, b0, b, tools, k)
    ensures TakeCalls(claude, needsSignature, lookup, b, tools, k) ==
      if ToolOk(needsSignature, lookup, b0.calls.Keys, tools, k)
      then TakeCalls(claude, needsSignature, lookup, next, tools, k + 1) else None
    ensures Took(claude, lookup, b0, next, tools, k + 1)
  {
    ResolveRecalls(needsSignature, lookup, b, b0.calls.Keys, tools, k);
    TookOne(claude, lookup, b0, b, tools, k);
    next := AddCall(claude, b, Recalled(lookup, tools[k]));
  }

  lemma {:induction false} TakeExactly(claude: bool, needsSignature: bool, lookup: Lookup, b0: Builder, b: Builder,
                                       tools: seq<CallIn>, k: nat, done: Option<Builder>)
    requires k <= |tools| && Took(claude, lookup, b0, b, tools, k)
    requires done == TakeCalls(claude, needsSignature, lookup, b, tools, k)
    ensures done.Some? <==> ToolsOk(needsSignature, lookup, b0.calls.Keys, tools, k)
    ensures done.Some? ==> Took(claude, lookup, b0, done.value, tools, |tools|)
    decreases |tools| - k
  {
    if k < |tools| {
      var next := TakeStep(claude, needsSignature, lookup, b0, b, tools, k);
      ToolsOkFirst(needsSignature, lookup, b0.calls.Keys, tools, k);
      if ToolOk(needsSignature, lookup, b0.calls.Keys, tools, k) {
        TakeExactly(claude, needsSignature, lookup, b0, next, tools, k + 1, done);
      }
    }
  }

  // ---- The builder after i messages -----------------------------------------------------------------

  predicate NamesMatch(messages: seq<Message>, i: nat, names: map<string, string>)
    requires i <= |messages|
  {
    names.Keys == IdsBy(messages, i) && forall id :: id in names ==> names[id] == NameBy(messages, i, id)
  }

  predicate Matches(claude: bool, lookup: Lookup, messages: seq<Message>, i: nat, b: Builder)
    requires i <= |messages|
  {
    && b.assistant == TurnAt(claude, lookup, messages, i) && b.pending == OpenBy(messages, i)
    && NamesMatch(messages, i, b.calls) && b.system == SystemBy(messages, i)
    && NoneEmpty(b.contents) && Said(b.contents) == Told(claude, lookup, messages, i)
  }

  lemma StartMatches(claude: bool, lookup: Lookup, messages: seq<Message>)
    ensures Matches(claude, lookup, messages, 0, NEW)
  {
  }

  /** The builder after the flush before message i. */
  predicate FlushMatches(claude: bool, lookup: Lookup, messages: seq<Message>, i: nat, b: Builder)
    requires i <= |messages|
  {
    && b.assistant == EMPTY && b.pending == OpenBy(messages, i)
    && NamesMatch(messages, i, b.calls) && b.system == SystemBy(messages, i)
    && NoneEmpty(b.contents) && Said(b.contents) == Finished(claude, lookup, messages, i)
  }

  lemma FlushedParts(claude: bool, a: Assistant)
    ensures Flushed(claude, a).Some? <==> TurnOk(claude, a)
    ensures Flushed(claude, a).Some? ==> Flushed(claude, a).value == TurnParts(claude, a)
  {
  }

  lemma FlushExactly(claude: bool, lookup: Lookup, messages: seq<Message>, i: nat, b: Builder, flushed: Option<Builder>)
    requires i <= |messages| && Matches(claude, lookup, messages, i, b) && flushed == Flush(claude, b)
    ensures flushed.Some? <==> TurnOk(claude, TurnAt(claude, lookup, messages, i))
    ensures flushed.Some? ==> FlushMatches(claude, lookup, messages, i, flushed.value)
  {
    FlushedParts(claude, b.assistant);
    SaidAppend(b.contents, false, TurnParts(claude, b.assistant));
  }

  lemma SpokeExactly(claude: bool, needsSignature: bool, lookup: Lookup, messages: seq<Message>, i: nat, b: Builder,
                     next: Option<Builder>)
    requires i < |messages| && Matches(claude, lookup, messages, i, b) && messages[i].Spoke?
    requires next == Process(claude, needsSignature, lookup, b, messages[i])
    ensures next.Some? <==> MessageOk(claude, needsSignature, lookup, messages, i)
    ensures next.Some? ==> Matches(claude, lookup, messages, i + 1, next.value)
  {
    var m := messages[i];
    if (b.pending == {} || b.assistant.calls != []) && m.parts.Some? {
      var begun := b.(assistant := Assistant(b.assistant.parts + m.parts.value, b.assistant.calls));
      assert Uttered(claude, []) == [];
      assert begun.assistant.parts + [] == begun.assistant.parts && begun.assistant.calls + [] == begun.assistant.calls;
      assert Took(claude, lookup, begun, begun, m.calls, 0);
      TakeExactly(claude, needsSignature, lookup, begun, begun, m.calls, 0, next);
    }
  }

  /** A message that is not the assistant's leaves no turn open. */
  lemma ClientMatches(claude: bool, lookup: Lookup, messages: seq<Message>, i: nat, flushed: Builder, b: Builder)
    requires i < |messages| && !messages[i].Spoke? && FlushMatches(claude, lookup, messages, i, flushed)
    requires b == flushed.(contents := b.contents, system := b.system, pending := b.pending)
    requires b.contents == Append(flushed.contents, true, FromClient(messages, i))
    requires b.system == SystemBy(messages, i + 1) && b.pending == OpenBy(messages, i + 1)
    ensures Matches(claude, lookup, messages, i + 1, b)
  {
    SaidAppend(flushed.contents, true, FromClient(messages, i));
  }

  lemma ToolExactly(claude: bool, needsSignature: bool, lookup: Lookup, messages: seq<Message>, i: nat, b: Builder,
                    flushed: Builder, next: Option<Builder>)
    requires i < |messages| && messages[i].Tool? && FlushMatches(claude, lookup, messages, i, flushed)
    requires Flush(claude, b) == Some(flushed) && next == Process(claude, needsSignature, lookup, b, messages[i])
    ensures next.Some? <==> messages[i].id in OpenBy(messages, i) && messages[i].output.Some?
    ensures next.Some? ==>
              next.value ==
              flushed.(contents := Append(flushed.contents, true,
                         [Response(messages[i].id, NameOf(flushed.calls, messages[i].id), messages[i].output.value)]),
                       pending := OpenBy(messages, i + 1))
  {
  }

  lemma ToolMatches(claude: bool, needsSignature: bool, lookup: Lookup, messages: seq<Message>, i: nat, b: Builder,
                    flushed: Builder, next: Builder)
    requires i < |messages| && messages[i].Tool? && FlushMatches(claude, lookup, messages, i, flushed)
    requires Flush(claude, b) == Some(flushed) && Process(claude, needsSignature, lookup, b, messages[i]) == Some(next)
    requires messages[i].id in flushed.calls
    ensures Matches(claude, lookup, messages, i + 1, next)
  {
    ToolExactly(claude, needsSignature, lookup, messages, i, b, flushed, Some(next));
    assert FromClient(messages, i) ==
      [Response(messages[i].id, NameOf(flushed.calls, messages[i].id), messages[i].output.value)];
    assert SystemBy(messages, i + 1) == SystemBy(messages, i) + [];
    ClientMatches(claude, lookup, messages, i, flushed, next);
  }

  /** Open calls are known by name. */
  lemma {:induction false} OpenAreKnown(messages: seq<Message>, i: nat)
    requires i <= |messages|
    ensures OpenBy(messages, i) <= IdsBy(messages, i)
  {
    if i > 0 { OpenAreKnown(messages, i - 1); }
  }

  lemma SystemExactly(claude: bool, needsSignature: bool, lookup: Lookup, messages: seq<Message>, i: nat, b: Builder,
                      flushed: Builder, next: Option<Builder>)
    requires i < |messages| && messages[i].System? && FlushMatches(claude, lookup, messages, i, flushed)
    requires Flush(claude, b) == Some(flushed) && next == Process(claude, needsSignature, lookup, b, messages[i])
    requires TurnOk(claude, TurnAt(claude, lookup, messages, i))
    ensures next.Some? <==> MessageOk(claude, needsSignature, lookup, messages, i)
    ensures next.Some? ==> Matches(claude, lookup, messages, i + 1, next.value)
  {
    if next.Some? {
      assert FromClient(messages, i) == [];
      ClientMatches(claude, lookup, messages, i, flushed, next.value);
    }
  }

  lemma UserExactly(claude: bool, needsSignature: bool, lookup: Lookup, messages: seq<Message>, i: nat, b: Builder,
                    flushed: Builder, next: Option<Builder>)
    requires i < |messages| && messages[i].User? && FlushMatches(claude, lookup, messages, i, flushed)
    requires Flush(claude, b) == Some(flushed) && next == Process(claude, needsSignature, lookup, b, messages[i])
    requires TurnOk(claude, TurnAt(claude, lookup, messages, i))
    ensures next.Some? <==> MessageOk(claude, needsSignature, lookup, messages, i)
    ensures next.Some? ==> Matches(claude, lookup, messages, i + 1, next.value)
  {
    if next.Some? {
      assert SystemBy(messages, i + 1) == SystemBy(messages, i) + [];
      ClientMatches(claude, lookup, messages, i, flushed, next.value);
    }
  }

  lemma ClientExactly(claude: bool, needsSignature: bool, lookup: Lookup, messages: seq<Message>, i: nat, b: Builder,
                      next: Option<Builder>)
    requires i < |messages| && Matches(claude, lookup, messages, i, b) && !messages[i].Spoke?
    requires next == Process(claude, needsSignature, lookup, b, messages[i])
    ensures next.Some? <==> MessageOk(claude, needsSignature, lookup, messages, i)
    ensures next.Some? ==> Matches(claude, lookup, messages, i + 1, next.value)
  {
    var flushed := Flush(claude, b);
    FlushExactly(claude, lookup, messages, i, b, flushed);
    if flushed.Some? {
      if messages[i].Tool? {
        ToolExactly(claude, needsSignature, lookup, messages, i, b, flushed.value, next);
        OpenAreKnown(messages, i);
        if next.Some? { ToolMatches(claude, needsSignature, lookup, messages, i, b, flushed.value, next.value); }
      } else if messages[i].System? {
        SystemExactly(claude, needsSignature, lookup, messages, i, b, flushed.value, next);
      } else if messages[i].User? {
        UserExactly(claude, needsSignature, lookup, messages, i, b, flushed.value, next);
      }
    }
  }

  lemma MessageExactly(claude: bool, needsSignature: bool, lookup: Lookup, messages: seq<Message>, i: nat, b: Builder,
                       next: Option<Builder>)
    requires i < |messages| && Matches(claude, lookup, messages, i, b)
    requires next == Process(claude, needsSignature, lookup, b, messages[i])
    ensures next.Some? <==> MessageOk(claude, needsSignature, lookup, messages, i)
    ensures next.Some? ==> Matches(claude, lookup, messages, i + 1, next.value)
  {
    if messages[i].Spoke? {
      SpokeExactly(claude, needsSignature, lookup, messages, i, b, next);
    } else {
      ClientExactly(claude, needsSignature, lookup, messages, i, b, next);
    }
  }

  /** The messages from the i-th on. */
  predicate MessagesOk(claude: bool, needsSignature: bool, lookup: Lookup, messages: seq<Message>, i: nat) {
    forall j :: i <= j < |messages| ==> MessageOk(claude, needsSignature, lookup, messages, j)
  }

  lemma MessagesOkFirst(claude: bool, needsSignature: bool, lookup: Lookup, messages: seq<Message>, i: nat)
    requires i < |messages|
    ensures MessagesOk(claude, needsSignature, lookup, messages, i) <==>
      MessageOk(claude, needsSignature, lookup, messages, i) &&
      MessagesOk(claude, needsSignature, lookup, messages, i + 1)
  {
  }

  lemma {:induction false} AllExactly(claude: bool, needsSignature: bool, lookup: Lookup, messages: seq<Message>,
                                      i: nat, b: Builder, done: Option<Builder>)
    requires i <= |messages| && Matches(claude, lookup, messages, i, b)
    requires done == ProcessAll(claude, needsSignature, lookup, b, messages, i)
    ensures done.Some? <==>
      MessagesOk(claude, needsSignature, lookup, messages, i) &&
      TurnOk(claude, TurnAt(claude, lookup, messages, |messages|))
    ensures done.Some? ==> FlushMatches(claude, lookup, messages, |messages|, done.value)
    decreases |messages| - i
  {
    if i == |messages| {
      FlushExactly(claude, lookup, messages, i, b, done);
    } else {
      var next := Process(claude, needsSignature, lookup, b, messages[i]);
      MessageExactly(claude, needsSignature, lookup, messages, i, b, next);
      MessagesOkFirst(claude, needsSignature, lookup, messages, i);
      if next.Some? { AllExactly(claude, needsSignature, lookup, messages, i + 1, next.value, done); }
    }
  }

  // ---- Theorems -------------------------------------------------------------------------------------

  /**
   A request is accepted exactly if each message is in order, its last turn too, no call is left
   open and something is said; its contents are then the conversation of the messages, line by
   line, and its system parts those of the system messages.
   */
  lemma RequestExactly(claude: bool, needsSignature: bool, lookup: Lookup, messages: seq<Message>,
                       done: Option<Builder>)
    requires done == ProcessAll(claude, needsSignature, lookup, NEW, messages, 0)
    ensures Accepted(done) <==>
      MessagesOk(claude, needsSignature, lookup, messages, 0) &&
      TurnOk(claude, TurnAt(claude, lookup, messages, |messages|)) && OpenBy(messages, |messages|) == {} &&
      Finished(claude, lookup, messages, |messages|) != []
    ensures Accepted(done) ==> Said(done.value.contents) == Finished(claude, lookup, messages, |messages|)
    ensures Accepted(done) ==> done.value.system == SystemBy(messages, |messages|)
  {
    StartMatches(claude, lookup, messages);
    AllExactly(claude, needsSignature, lookup, messages, 0, NEW, done);
    if done.Some? { SomethingSaid(done.value.contents); }
  }

  /** What a message says, for models that are not Claude. */
  function Saying(lookup: Lookup, messages: seq<Message>, i: nat): seq<Line>
    requires i < |messages|
  {
    if messages[i].Spoke? then
      Lines(false, PartsOf(messages[i]) + Uttered(false, AllRecalled(lookup, messages[i].calls, |messages[i].calls|)))
    else Lines(true, FromClient(messages, i))
  }

  function AllSayings(lookup: Lookup, messages: seq<Message>, i: nat): seq<Line>
    requires i <= |messages|
  {
    if i == 0 then [] else AllSayings(lookup, messages, i - 1) + Saying(lookup, messages, i - 1)
  }

  lemma SpokenSaying(lookup: Lookup, messages: seq<Message>, i: nat)
    requires i < |messages| && messages[i].Spoke?
    ensures Finished(false, lookup, messages, i + 1) ==
      Finished(false, lookup, messages, i) + Saying(lookup, messages, i)
  {
    var m, told := messages[i], Told(false, lookup, messages, i);
    var before := TurnAt(false, lookup, messages, i).parts;
    var more := PartsOf(m) + Uttered(false, AllRecalled(lookup, m.calls, |m.calls|));
    assert TurnAt(false, lookup, messages, i + 1).parts == before + more;
    LinesAppend(false, before, more);
    Assoc(told, Lines(false, before), Lines(false, more));
  }

  lemma ClientSaying(lookup: Lookup, messages: seq<Message>, i: nat)
    requires i < |messages| && !messages[i].Spoke?
    ensures Finished(false, lookup, messages, i + 1) ==
      Finished(false, lookup, messages, i) + Saying(lookup, messages, i)
  {
    var told := Told(false, lookup, messages, i + 1);
    assert Lines(false, TurnParts(false, EMPTY)) == [];
    assert told + [] == told;
  }

  lemma SayingNext(lookup: Lookup, messages: seq<Message>, i: nat, before: seq<Line>, after: seq<Line>)
    requires i < |messages|
    requires before == Finished(false, lookup, messages, i) && after == Finished(false, lookup, messages, i + 1)
    ensures after == before + Saying(lookup, messages, i)
  {
    if messages[i].Spoke? { SpokenSaying(lookup, messages, i); } else { ClientSaying(lookup, messages, i); }
  }

  lemma {:induction false} SayingsAre(lookup: Lookup, messages: seq<Message>, i: nat, lines: seq<Line>)
    requires i <= |messages| && lines == Finished(false, lookup, messages, i)
    ensures lines == AllSayings(lookup, messages, i)
  {
    if i > 0 {
      var before := Finished(false, lookup, messages, i - 1);
      SayingsAre(lookup, messages, i - 1, before);
      SayingNext(lookup, messages, i - 1, before, lines);
    }
  }

  /** Unless the model is Claude, the conversation is message after message what each of them says. */
  lemma MessageByMessage(lookup: Lookup, messages: seq<Message>, i: nat)
    requires i <= |messages|
    ensures Finished(false, lookup, messages, i) == AllSayings(lookup, messages, i)
  {
    SayingsAre(lookup, messages, i, Finished(false, lookup, messages, i));
  }

  /** The parts that the client says. */
  function UserParts(lines: seq<Line>): seq<Part> {
    if lines == [] then []
    else
      UserParts(lines[..|lines| - 1]) +
        if lines[|lines| - 1].user then [lines[|lines| - 1].part] else []
  }

  lemma {:induction false} UserPartsAppend(a: seq<Line>, b: seq<Line>)
    ensures UserParts(a + b) == UserParts(a) + UserParts(b)
  {
    if b == [] {
      assert a + b == a;
    } else {
      assert (a + b)[..|a + b| - 1] == a + b[..|b| - 1];
      UserPartsAppend(a, b[..|b| - 1]);
    }
  }

  lemma {:induction false} UserPartsOf(user: bool, parts: seq<Part>)
    ensures UserParts(Lines(user, parts)) == if user then parts else []
  {
    if parts != [] {
      var front := parts[..|parts| - 1];
      assert Lines(user, parts)[..|parts| - 1] == Lines(user, front);
      UserPartsOf(user, front);
    }
  }

  function AllFromClient(messages: seq<Message>, i: nat): seq<Part>
    requires i <= |messages|
  {
    if i == 0 then [] else AllFromClient(messages, i - 1) + FromClient(messages, i - 1)
  }

  lemma UserPartsFinished(claude: bool, lookup: Lookup, messages: seq<Message>, i: nat)
    requires i <= |messages|
    ensures UserParts(Finished(claude, lookup, messages, i)) == UserParts(Told(claude, lookup, messages, i))
  {
    var told, parts := Told(claude, lookup, messages, i), TurnParts(claude, TurnAt(claude, lookup, messages, i));
    UserPartsAppend(told, Lines(false, parts));
    UserPartsOf(false, parts);
    assert UserParts(told) + [] == UserParts(told);
  }

  lemma ClientNext(claude: bool, lookup: Lookup, messages: seq<Message>, i: nat, before: seq<Line>, after: seq<Line>)
    requires i < |messages| && before == Finished(claude, lookup, messages, i)
    requires after == Told(claude, lookup, messages, i + 1)
    ensures UserParts(after) == UserParts(before) + FromClient(messages, i)
  {
    var parts := FromClient(messages, i);
    if messages[i].Spoke? {
      UserPartsFinished(claude, lookup, messages, i);
      assert parts == [] && UserParts(before) + [] == UserParts(before);
    } else {
      UserPartsAppend(before, Lines(true, parts));
      UserPartsOf(true, parts);
    }
  }

  lemma ToldNext(claude: bool, lookup: Lookup, messages: seq<Message>, i: nat, before: seq<Line>, after: seq<Line>,
                 parts: seq<Part>)
    requires i < |messages| && before == Told(claude, lookup, messages, i) && parts == FromClient(messages, i)
    requires after == Told(claude, lookup, messages, i + 1)
    ensures UserParts(after) == UserParts(before) + parts
  {
    UserPartsFinished(claude, lookup, messages, i);
    ClientNext(claude, lookup, messages, i, Finished(claude, lookup, messages, i), after);
  }

  lemma {:induction false} ClientsAre(claude: bool, lookup: Lookup, messages: seq<Message>, i: nat, lines: seq<Line>)
    requires i <= |messages| && lines == Told(claude, lookup, messages, i)
    ensures UserParts(lines) == AllFromClient(messages, i)
    decreases i
  {
    if i > 0 {
      var told := Told(claude, lookup, messages, i - 1);
      ClientsAre(claude, lookup, messages, i - 1, told);
      ToldNext(claude, lookup, messages, i - 1, told, lines, FromClient(messages, i - 1));
    }
  }

  /**
   For every model: the user entries hold, in order, the parts of the user messages, and for each
   tool message its id and output under the name of the call.
   */
  lemma ClientInOrder(claude: bool, lookup: Lookup, messages: seq<Message>, i: nat)
    requires i <= |messages|
    ensures UserParts(Finished(claude, lookup, messages, i)) == AllFromClient(messages, i)
  {
    UserPartsFinished(claude, lookup, messages, i);
    ClientsAre(claude, lookup, messages, i, Told(claude, lookup, messages, i));
  }

  lemma {:induction false} NameInIs(tools: seq<CallIn>, n: nat, k: nat)
    requires k < n <= |tools| && forall j :: k < j < n ==> tools[j].id !in Ids(tools, j)
    ensures tools[k].id in Ids(tools, n) && NameIn(tools, n, tools[k].id) == tools[k].name
    decreases n
  {
    if k < n - 1 { NameInIs(tools, n - 1, k); }
  }

  lemma AllDistinct(needsSignature: bool, lookup: Lookup, known: set<string>, tools: seq<CallIn>)
    requires ToolsOk(needsSignature, lookup, known, tools, 0)
    ensures forall j :: 0 <= j < |tools| ==> tools[j].id !in Ids(tools, j)
  {
    forall j | 0 <= j < |tools|
      ensures tools[j].id !in Ids(tools, j)
    {
      assert ToolOk(needsSignature, lookup, known, tools, j);
    }
  }

  /** In an accepted request an id belongs to one call, and answers carry the name of that call. */
  lemma {:induction false} NamedAsCalled(claude: bool, needsSignature: bool, lookup: Lookup, messages: seq<Message>,
                                         i: nat, j: nat, k: nat)
    requires j < i <= |messages| && messages[j].Spoke? && k < |messages[j].calls|
    requires MessagesOk(claude, needsSignature, lookup, messages, 0)
    ensures messages[j].calls[k].id in IdsBy(messages, i)
    ensures NameBy(messages, i, messages[j].calls[k].id) == messages[j].calls[k].name
    decreases i
  {
    var id, m := messages[j].calls[k].id, messages[i - 1];
    assert MessageOk(claude, needsSignature, lookup, messages, i - 1);
    if j == i - 1 {
      AllDistinct(needsSignature, lookup, IdsBy(messages, i - 1), m.calls);
      NameInIs(m.calls, |m.calls|, k);
    } else {
      NamedAsCalled(claude, needsSignature, lookup, messages, i - 1, j, k);
      if m.Spoke? { NoneKnown(needsSignature, lookup, IdsBy(messages, i - 1), m.calls, |m.calls|, id); }
    }
  }

  lemma {:induction false} NoneKnown(needsSignature: bool, lookup: Lookup, known: set<string>, tools: seq<CallIn>,
                                     n: nat, id: string)
    requires n <= |tools| && id in known
    requires ToolsOk(needsSignature, lookup, known, tools, 0)
    ensures id !in Ids(tools, n)
  {
    if n > 0 {
      NoneKnown(needsSignature, lookup, known, tools, n - 1, id);
      assert ToolOk(needsSignature, lookup, known, tools, n - 1);
    }
  }
}
