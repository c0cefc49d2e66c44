/** What a compaction keeps word for word: instructions, the latest request and unanswered tool calls. */
module CompactPlan {
  import opened Collections

  const MAX_RETAINED_BYTES := 0x8000

  /** An input item as far as planning looks at it: its fields, its length, and the rest of it. */
  datatype Item = Item(kind: string, role: string, callId: string, size: nat, rest: nat)

  predicate Supported(item: Item) {
    if item.kind == "" || item.kind == "message" then item.role in ["user", "assistant", "system", "developer"]
    else item.kind in ["function_call", "function_call_output", "custom_tool_call", "custom_tool_call_output",
      "reasoning",
                       "additional_tools"]
  }

  predicate IsCall(item: Item) {
    item.kind == "function_call" || item.kind == "custom_tool_call"
  }

  predicate IsOutput(item: Item) {
    item.kind == "function_call_output" || item.kind == "custom_tool_call_output"
  }

  /** A real user message. */
  predicate IsUser(item: Item) {
    item.role == "user" && (item.kind == "" || item.kind == "message")
  }

  // ---- Tool calls ------------------------------------------------------------------------------------

  /** The calls seen and the calls not yet answered. */
  datatype Tools = Tools(open: set<string>, seen: set<string>)

  function Observe(t: Tools, item: Item): Option<Tools> {
    if IsCall(item) then
      if item.callId == "" || item.callId in t.seen then None
      else Some(Tools(t.open + {item.callId}, t.seen + {item.callId}))
    else if IsOutput(item) then
      if item.callId !in t.open then None else Some(Tools(t.open - {item.callId}, t.seen))
    else Some(t)
  }

  /** The tools after the first n items; None when a call id is missing or repeated, or a result has no open call. */
  function Scan(items: seq<Item>, n: nat): Option<Tools>
    requires n <= |items|
  {
    if n == 0 then Some(Tools({}, {}))
    else if Scan(items, n - 1).None? then None
    else Observe(Scan(items, n - 1).value, items[n - 1])
  }

  predicate Consistent(items: seq<Item>) {
    Scan(items, |items|).Some?
  }

  /** No call is unanswered at n. */
  predicate Settled(items: seq<Item>, n: nat)
    requires n <= |items|
  {
    Quiet(Scan(items, n))
  }

  predicate Quiet(t: Option<Tools>) {
    t.Some? && t.value.open == {}
  }

  /** The last position at which no call is unanswered. */
  ghost predicate IsTail(items: seq<Item>, p: nat) {
    p <= |items| && Settled(items, p) && forall q :: p < q <= |items| ==> !Settled(items, q)
  }

  lemma {:induction false} ScanPrefix(items: seq<Item>, n: nat, m: nat)
    requires m <= n <= |items| && Scan(items, n).Some?
    ensures Scan(items, m).Some? && Scan(items, m).value.seen <= Scan(items, n).value.seen
    decreases n
  {
    if m < n { ScanPrefix(items, n - 1, m); }
  }

  /** Open calls are among those seen, and seen ones are exactly the ids of earlier calls. */
  lemma {:induction false} SeenAreCalls(items: seq<Item>, n: nat, id: string)
    requires n <= |items| && Scan(items, n).Some?
    ensures id in Scan(items, n).value.open ==> id in Scan(items, n).value.seen
    ensures id in Scan(items, n).value.seen <==> exists i :: 0 <= i < n && IsCall(items[i]) && items[i].callId == id
    decreases n
  {
    if n > 0 { SeenAreCalls(items, n - 1, id); }
  }

  /** A call that is closed by n was answered before n. */
  lemma {:induction false} AnsweredBefore(items: seq<Item>, i: nat, n: nat)
    requires i < n <= |items| && Scan(items, n).Some? && IsCall(items[i]) &&
      items[i].callId !in Scan(items, n).value.open
    ensures exists j :: i < j < n && IsOutput(items[j]) && items[j].callId == items[i].callId
    decreases n
  {
    ScanPrefix(items, n, n - 1);
    if i < n - 1 {
      if items[i].callId in Scan(items, n - 1).value.open {
        assert IsOutput(items[n - 1]) && items[n - 1].callId == items[i].callId;
      } else {
        AnsweredBefore(items, i, n - 1);
      }
    }
  }

  /** A result after a settled position answers a call after it. */
  lemma {:induction false} CalledAfter(items: seq<Item>, p: nat, j: nat)
    requires p <= j < |items| && Settled(items, p) && Scan(items, j).Some? &&
      items[j].callId in Scan(items, j).value.open
    ensures exists i :: p <= i < j && IsCall(items[i]) && items[i].callId == items[j].callId
  {
    OpenedAfter(items, p, j, items[j].callId);
  }

  lemma {:induction false} OpenedAfter(items: seq<Item>, p: nat, n: nat, id: string)
    requires p <= n <= |items| && Settled(items, p) && Scan(items, n).Some? && id in Scan(items, n).value.open
    ensures exists i :: p <= i < n && IsCall(items[i]) && items[i].callId == id
    decreases n
  {
    if p < n {
      ScanPrefix(items, n, n - 1);
      if id in Scan(items, n - 1).value.open {
        OpenedAfter(items, p, n - 1, id);
      } else {
        assert IsCall(items[n - 1]) && items[n - 1].callId == id;
      }
    }
  }

  /** No call and its result lie on different sides of a settled position. */
  lemma NoPairCrosses(items: seq<Item>, p: nat)
    requires Consistent(items) && p <= |items| && Settled(items, p)
    ensures forall i :: 0 <= i < p && IsCall(items[i]) ==>
              exists j :: i < j < p && IsOutput(items[j]) && items[j].callId == items[i].callId
    ensures forall j :: p <= j < |items| && IsOutput(items[j]) ==>
              exists i :: p <= i < j && IsCall(items[i]) && items[i].callId == items[j].callId
  {
    forall i | 0 <= i < p && IsCall(items[i])
      ensures exists j :: i < j < p && IsOutput(items[j]) && items[j].callId == items[i].callId
    {
      AnsweredBefore(items, i, p);
    }
    forall j | p <= j < |items| && IsOutput(items[j])
      ensures exists i :: p <= i < j && IsCall(items[i]) && items[i].callId == items[j].callId
    {
      ScanPrefix(items, |items|, j + 1);
      ScanPrefix(items, |items|, j);
      CalledAfter(items, p, j);
    }
  }

  method PendingTail(items: seq<Item>) returns (tail: nat, ok: bool)
    ensures ok == Consistent(items)
    ensures ok ==> IsTail(items, tail)
  {
    var pending: set<string>, seen: set<string> := {}, {};
    tail := |items|;
    ghost var start := 0;
    var index := 0;
    while index < |items|
      invariant 0 <= index <= |items| && Scan(items, index) == Some(Tools(pending, seen))
      invariant start <= index && Settled(items, start) && forall q :: start < q <= index ==> !Settled(items, q)
      invariant tail == if pending == {} then |items| else start
      invariant pending == {} ==> start == index
    {
      var item := items[index];
      if IsCall(item) {
        if item.callId == "" || item.callId in seen {
          Broken(items, index + 1);
          return 0, false;
        }
        if pending == {} { tail := index; }
        seen, pending := seen + {item.callId}, pending + {item.callId};
      } else if IsOutput(item) {
        if item.callId !in pending {
          Broken(items, index + 1);
          return 0, false;
        }
        pending := pending - {item.callId};
        if pending == {} { tail := |items|; }
      }
      index := index + 1;
      if pending == {} { start := index; }
    }
    ok := true;
  }

  /** An error stays an error. */
  lemma Broken(items: seq<Item>, n: nat)
    requires n <= |items| && Scan(items, n).None?
    ensures !Consistent(items)
  {
    if Consistent(items) { ScanPrefix(items, |items|, n); }
  }
}
