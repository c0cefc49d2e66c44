/** Windows: what they contain, and that compacting a window again keeps what it kept before. */
module CompactStable {
  import opened Collections
  import opened CompactPlan
  import opened CompactWindow

  /** The assistant message that carries a summary. */
  predicate IsSummary(item: Item) {
    item.kind == "message" && item.role == "assistant"
  }

  /** The request and the summary between the retained items and the tail. */
  function Middle(plan: Plan, summary: Option<Item>): seq<Item> {
    if plan.latest.Some? then
      if summary.Some? then [plan.latest.value, summary.value] else [plan.latest.value]
    else if summary.Some? then [summary.value]
    else []
  }

  function Window(plan: Plan, summary: Option<Item>): seq<Item> {
    plan.retained + Middle(plan, summary) + plan.tail
  }

  /** Read on their own, the retained items answer every call they make and answer nothing else. */
  predicate Balanced(items: seq<Item>) {
    Settled(items, |items|)
  }

  // ---- Scanning a window ------------------------------------------------------------------------------

  lemma {:induction false} ScanStart(a: seq<Item>, b: seq<Item>, n: nat)
    requires n <= |a|
    ensures Scan(a + b, n) == Scan(a, n)
  {
    if n > 0 { ScanStart(a, b, n - 1); }
  }

  predicate NoTools(items: seq<Item>) {
    forall i :: 0 <= i < |items| ==> !IsCall(items[i]) && !IsOutput(items[i])
  }

  lemma {:induction false} ScanQuiet(a: seq<Item>, quiet: seq<Item>, rest: seq<Item>, n: nat)
    requires NoTools(quiet) && n <= |quiet|
    ensures Scan(a + quiet + rest, |a| + n) == Scan(a, |a|)
  {
    var all := a + quiet + rest;
    if n == 0 {
      assert all == a + (quiet + rest);
      ScanStart(a, quiet + rest, |a|);
    } else {
      ScanQuiet(a, quiet, rest, n - 1);
      assert all[|a| + n - 1] == quiet[n - 1];
    }
  }

  /** An item that is fine among more known ids is fine among fewer. */
  lemma ObserveFewer(t: Tools, t': Tools, item: Item)
    requires t'.open == t.open && t'.seen <= t.seen && Observe(t, item).Some?
    ensures Observe(t', item).Some? && Observe(t', item).value.open == Observe(t, item).value.open
    ensures Observe(t', item).value.seen <= Observe(t, item).value.seen
  {
  }

  lemma ScanNext(items: seq<Item>, m: nat)
    requires m < |items| && Scan(items, m).Some?
    ensures Scan(items, m + 1) == Observe(Scan(items, m).value, items[m])
  {
  }

  /** Of two states with the same open calls, the second knows no more ids. */
  predicate Fewer(t: Option<Tools>, t': Option<Tools>) {
    t.Some? && t'.Some? && t'.value.open == t.value.open && t'.value.seen <= t.value.seen
  }

  /** n items into the same rest, two requests have the same calls open, and the second knows no more ids. */
  predicate Aligned(a: seq<Item>, b: seq<Item>, rest: seq<Item>, n: nat)
    requires n <= |rest|
  {
    Fewer(Scan(a + rest, |a| + n), Scan(b + rest, |b| + n))
  }

  lemma AlignedNext(a: seq<Item>, b: seq<Item>, rest: seq<Item>, n: nat)
    requires n < |rest| && Aligned(a, b, rest, n) && Scan(a + rest, |a| + n + 1).Some?
    ensures Aligned(a, b, rest, n + 1)
  {
    var items, window, i, j := a + rest, b + rest, |a| + n, |b| + n;
    assert items[i] == rest[n] && window[j] == rest[n];
    ScanNext(items, i);
    ScanNext(window, j);
    ObserveFewer(Scan(items, i).value, Scan(window, j).value, items[i]);
  }

  /** What the scan of a tail does depends only on its starting with nothing open and no more ids known than before. */
  lemma {:induction false} ScanTail(a: seq<Item>, b: seq<Item>, rest: seq<Item>, n: nat)
    requires n <= |rest| && Consistent(a + rest) && Aligned(a, b, rest, 0)
    ensures Aligned(a, b, rest, n)
  {
    if n > 0 {
      ScanTail(a, b, rest, n - 1);
      ScanPrefix(a + rest, |a + rest|, |a| + n);
      AlignedNext(a, b, rest, n - 1);
    }
  }

  lemma AlignedSettles(a: seq<Item>, b: seq<Item>, rest: seq<Item>, n: nat)
    requires n <= |rest| && Aligned(a, b, rest, n)
    ensures Scan(b + rest, |b| + n).Some?
    ensures Settled(b + rest, |b| + n) <==> Settled(a + rest, |a| + n)
  {
  }

  lemma NotSettledLater(items: seq<Item>, p: nat, q: nat)
    requires IsTail(items, p) && p < q <= |items|
    ensures !Settled(items, q)
  {
  }

  lemma TailUnsettled(a: seq<Item>, b: seq<Item>, rest: seq<Item>, q: nat)
    requires IsTail(a + rest, |a|) && Consistent(a + rest) && Aligned(a, b, rest, 0)
    requires |b| < q <= |b| + |rest|
    ensures !Settled(b + rest, q)
  {
    ScanTail(a, b, rest, q - |b|);
    AlignedSettles(a, b, rest, q - |b|);
    NotSettledLater(a + rest, |a|, |a| + (q - |b|));
  }

  lemma TailCarries(a: seq<Item>, b: seq<Item>, rest: seq<Item>)
    requires IsTail(a + rest, |a|) && Consistent(a + rest) && Aligned(a, b, rest, 0)
    ensures IsTail(b + rest, |b|) && Consistent(b + rest)
  {
    AlignedSettles(a, b, rest, 0);
    ScanTail(a, b, rest, |rest|);
    AlignedSettles(a, b, rest, |rest|);
    forall q | |b| < q <= |b + rest|
      ensures !Settled(b + rest, q)
    {
      TailUnsettled(a, b, rest, q);
    }
  }

  /** Retained items come from before the tail, so their ids are known there. */
  lemma {:induction false} KeptFrom(items: seq<Item>, last: nat, n: nat, item: Item)
    requires n <= |items| && item in Kept(items, last, n)
    ensures exists i :: 0 <= i < n && items[i] == item
  {
    if Retains(items, last, n - 1) && item == items[n - 1] {
    } else {
      KeptFrom(items, last, n - 1, item);
    }
  }

  lemma KeptSeen(items: seq<Item>, last: nat, n: nat)
    requires n <= |items| && Scan(items, n).Some?
    requires Scan(Kept(items, last, n), |Kept(items, last, n)|).Some?
    ensures Scan(Kept(items, last, n), |Kept(items, last, n)|).value.seen <= Scan(items, n).value.seen
  {
    var kept := Kept(items, last, n);
    forall id | id in Scan(kept, |kept|).value.seen
      ensures id in Scan(items, n).value.seen
    {
      SeenAreCalls(kept, |kept|, id);
      var i :| 0 <= i < |kept| && IsCall(kept[i]) && kept[i].callId == id;
      assert kept[i] in kept;
      KeptFrom(items, last, n, kept[i]);
      SeenAreCalls(items, n, id);
    }
  }

  // ---- Retaining a window -------------------------------------------------------------------------------

  /** A retained item is retained for a reason that only looks at what is retained before it. */
  predicate Anchored(kept: seq<Item>, i: nat)
    requires i < |kept|
  {
    || Instruction(kept[i])
    || (kept[i].role == "user" && kept[i].size <= MAX_RETAINED_BYTES && forall j :: 0 <= j < i ==>
       kept[j].role != "user")
  }

  lemma {:induction false} KeptAnchored(items: seq<Item>, last: nat, n: nat, i: nat)
    requires n <= |items| && i < |Kept(items, last, n)|
    ensures Anchored(Kept(items, last, n), i)
  {
    var kept, before := Kept(items, last, n), Kept(items, last, n - 1);
    if i < |before| {
      KeptAnchored(items, last, n - 1, i);
      assert forall j :: 0 <= j <= i ==> kept[j] == before[j];
    } else if !Instruction(items[n - 1]) {
      forall j | 0 <= j < i
        ensures kept[j].role != "user"
      {
        assert kept[j] == before[j] && before[j] in before;
        KeptFrom(items, last, n - 1, before[j]);
      }
    }
  }

  /** Items that are anchored in front of a request are kept again, and nothing behind them is. */
  lemma {:induction false} KeepsAgain(kept: seq<Item>, middle: seq<Item>, tail: seq<Item>, last: nat, n: nat)
    requires forall i :: 0 <= i < |kept| ==> Anchored(kept, i)
    requires forall j :: 0 <= j < |middle| ==>
      !Instruction(middle[j]) && (middle[j].role == "user" ==> last == |kept| + j)
    requires n <= |kept| + |middle| && |kept| <= last
    ensures Kept(kept + middle + tail, last, n) == if n <= |kept| then kept[..n] else kept
  {
    var window := kept + middle + tail;
    if n > 0 {
      KeepsAgain(kept, middle, tail, last, n - 1);
      if n <= |kept| {
        assert window[n - 1] == kept[n - 1];
        assert Anchored(kept, n - 1);
        assert forall j :: 0 <= j < n ==> window[j] == kept[j];
        assert kept[..n] == kept[..n - 1] + [kept[n - 1]];
      } else {
        assert window[n - 1] == middle[n - 1 - |kept|];
      }
    }
  }

  // ---- The theorems -----------------------------------------------------------------------------------------

  /** Where the latest request is in a window. */
  function LatestIn(plan: Plan, last: nat, tail: nat, summary: Option<Item>): nat
    requires last < tail ==> plan.latest.Some?
  {
    if last < tail then |plan.retained| else |plan.retained| + |Middle(plan, summary)| + (last - tail)
  }

  lemma MiddleQuiet(items: seq<Item>, render: Render, plan: Plan, last: nat, tail: nat, summary: Option<Item>)
    requires tail <= |items| && Prepares(items, render, plan, last, tail) &&
      (summary.Some? ==> IsSummary(summary.value))
    ensures NoTools(Middle(plan, summary))
    ensures MiddleUsers(plan, summary, LatestIn(plan, last, tail, summary))
  {
    assert plan.latest.Some? <==> last < tail;
    assert IsUser(items[last]);
    assert plan.latest.Some? ==> IsUser(plan.latest.value);
    MiddleItems(plan, summary);
  }

  /** Nothing between the retained items and the tail is an instruction, and the only user message there is at u. */
  predicate MiddleUsers(plan: Plan, summary: Option<Item>, u: nat) {
    var middle := Middle(plan, summary);
    forall j :: 0 <= j < |middle| ==> !Instruction(middle[j]) && (middle[j].role == "user" ==> u == |plan.retained| + j)
  }

  lemma MiddleItems(plan: Plan, summary: Option<Item>)
    requires summary.Some? ==> IsSummary(summary.value)
    requires plan.latest.Some? ==> IsUser(plan.latest.value)
    ensures NoTools(Middle(plan, summary))
    ensures plan.latest.Some? ==> MiddleUsers(plan, summary, |plan.retained|)
    ensures plan.latest.None? ==> forall u: nat :: MiddleUsers(plan, summary, u)
  {
  }

  /** The last user message of a window is the last user message of the request. */
  lemma LatestStaysLast(items: seq<Item>, render: Render, plan: Plan, last: nat, tail: nat, summary: Option<Item>)
    requires tail <= |items| && Prepares(items, render, plan, last, tail) &&
      (summary.Some? ==> IsSummary(summary.value))
    ensures var u := LatestIn(plan, last, tail, summary);
            IsLastUser(Window(plan, summary), u) && Window(plan, summary)[u] == items[last]
  {
    var u, window, middle := LatestIn(plan, last, tail, summary), Window(plan, summary), Middle(plan, summary);
    var front := plan.retained + middle;
    assert window == front + items[tail..];
    if last < tail {
      assert middle[0] == items[last] && window[u] == middle[0];
    }
    forall j | u < j < |window|
      ensures !IsUser(window[j])
    {
      if j < |front| {
        assert window[j] == middle[j - |plan.retained|];
      } else {
        assert window[j] == items[tail + (j - |front|)];
      }
    }
  }

  predicate Same(a: Plan, b: Plan) {
    a.retained == b.retained && a.latest == b.latest && a.tail == b.tail
  }

  /** Before the tail a window has settled, and knows no more ids than the request did. */
  lemma WindowStart(a: seq<Item>, last: nat, middle: seq<Item>, rest: seq<Item>)
    requires Settled(a + rest, |a|) && Balanced(Kept(a + rest, last, |a|)) && NoTools(middle)
    ensures Aligned(a, Kept(a + rest, last, |a|) + middle, rest, 0)
  {
    var retained := Kept(a + rest, last, |a|);
    ScanQuiet(retained, middle, rest, |middle|);
    KeptSeen(a + rest, last, |a|);
  }

  lemma WindowTail(items: seq<Item>, render: Render, plan: Plan, last: nat, tail: nat, summary: Option<Item>)
    requires IsTail(items, tail) && Prepares(items, render, plan, last, tail) &&
      (summary.Some? ==> IsSummary(summary.value))
    requires Balanced(plan.retained)
    ensures var start := |plan.retained| + |Middle(plan, summary)|;
            && IsTail(Window(plan, summary), start) && Consistent(Window(plan, summary)) &&
               Window(plan, summary)[start..] == items[tail..]
  {
    var middle, a := Middle(plan, summary), items[..tail];
    assert items == a + plan.tail;
    MiddleQuiet(items, render, plan, last, tail, summary);
    WindowStart(a, last, middle, plan.tail);
    TailCarries(a, plan.retained + middle, plan.tail);
  }

  lemma WindowSupported(items: seq<Item>, render: Render, plan: Plan, last: nat, tail: nat, summary: Option<Item>,
                        item: Item)
    requires tail <= |items| && Prepares(items, render, plan, last, tail) &&
      (summary.Some? ==> IsSummary(summary.value))
    requires item in Window(plan, summary)
    ensures Supported(item)
  {
    if item in plan.retained {
      KeptFrom(items, last, tail, item);
    } else if item in plan.tail {
      assert item in items;
    }
  }

  lemma {:induction false} WindowRendered(items: seq<Item>, render: Render, plan: Plan, last: nat, tail: nat,
                                          summary: Option<Item>, n: nat)
    requires tail <= |items| && Prepares(items, render, plan, last, tail)
    requires summary.Some? ==> IsSummary(summary.value) && render(summary.value).Some?
    requires n <= |plan.retained| + |Middle(plan, summary)|
    ensures Rendered(Window(plan, summary), render, n).Some?
  {
    if n > 0 {
      WindowRendered(items, render, plan, last, tail, summary, n - 1);
      var item := Window(plan, summary)[n - 1];
      if n <= |plan.retained| {
        assert item == plan.retained[n - 1] && item in plan.retained;
        KeptFrom(items, last, tail, item);
        var i :| 0 <= i < tail && items[i] == item;
        RenderedPrefix(items, render, tail, i);
      } else {
        assert item == Middle(plan, summary)[n - 1 - |plan.retained|];
        if last < tail { RenderedPrefix(items, render, tail, last); }
      }
    }
  }

  lemma KeptAgain(items: seq<Item>, render: Render, plan: Plan, last: nat, tail: nat, summary: Option<Item>)
    requires tail <= |items| && Prepares(items, render, plan, last, tail) &&
      (summary.Some? ==> IsSummary(summary.value))
    ensures Kept(Window(plan, summary), LatestIn(plan, last, tail, summary),
      |plan.retained| + |Middle(plan, summary)|) == plan.retained
  {
    MiddleQuiet(items, render, plan, last, tail, summary);
    forall i | 0 <= i < |plan.retained|
      ensures Anchored(plan.retained, i)
    {
      KeptAnchored(items, last, tail, i);
    }
    KeepsAgain(plan.retained, Middle(plan, summary), plan.tail, LatestIn(plan, last, tail, summary),
               |plan.retained| + |Middle(plan, summary)|);
  }

  /** A window with balanced retained items has a plan again, with the same retained items, request and tail. */
  lemma PreparesAgain(items: seq<Item>, render: Render, plan: Plan, summary: Option<Item>) returns (again: Plan)
    requires IsPlan(items, render, plan) && Balanced(plan.retained)
    requires summary.Some? ==> IsSummary(summary.value) && render(summary.value).Some?
    ensures IsPlan(Window(plan, summary), render, again) && Same(plan, again)
  {
    var last: nat, tail: nat :| IsTail(items, tail) && Prepares(items, render, plan, last, tail);
    var window, start, u := Window(plan, summary), |plan.retained| + |Middle(plan, summary)|,
      LatestIn(plan, last, tail, summary);
    WindowTail(items, render, plan, last, tail, summary);
    LatestStaysLast(items, render, plan, last, tail, summary);
    WindowRendered(items, render, plan, last, tail, summary, start);
    KeptAgain(items, render, plan, last, tail, summary);
    forall item | item in window
      ensures Supported(item)
    {
      WindowSupported(items, render, plan, last, tail, summary, item);
    }
    again := Assemble(window, render, u, start);
    LatestBeforeTail(items, render, plan, last, tail, summary);
  }

  lemma LatestBeforeTail(items: seq<Item>, render: Render, plan: Plan, last: nat, tail: nat, summary: Option<Item>)
    requires tail <= |items| && Prepares(items, render, plan, last, tail)
    ensures LatestIn(plan, last, tail, summary) < |plan.retained| + |Middle(plan, summary)| <==> plan.latest.Some?
  {
  }

  lemma Assemble(window: seq<Item>, render: Render, u: nat, start: nat) returns (plan: Plan)
    requires (forall item :: item in window ==> Supported(item)) && IsLastUser(window, u) && Consistent(window)
    requires IsTail(window, start) && Rendered(window, render, start).Some?
    ensures IsPlan(window, render, plan) && plan.retained == Kept(window, u, start) && plan.tail == window[start..]
    ensures plan.latest == if u < start then Some(window[u]) else None
  {
    plan := Plan(Kept(window, u, start), if u < start then Some(window[u]) else None, window[start..],
                 if History(window, u, start) then Rendered(window, render, start).value else []);
    assert Prepares(window, render, plan, u, start);
  }

  lemma StartBalanced(retained: seq<Item>, middle: seq<Item>, rest: seq<Item>)
    requires NoTools(middle) && Settled(retained + middle + rest, |retained| + |middle|)
    ensures Balanced(retained)
  {
    ScanQuiet(retained, middle, rest, |middle|);
  }

  /** If the plan of a window keeps the same tail, the retained items were balanced. */
  lemma SameOnlyIfBalanced(items: seq<Item>, render: Render, plan: Plan, summary: Option<Item>, again: Plan)
    requires IsPlan(items, render, plan) && (summary.Some? ==> IsSummary(summary.value))
    requires IsPlan(Window(plan, summary), render, again) && Same(plan, again)
    ensures Balanced(plan.retained)
  {
    var middle := Middle(plan, summary);
    MiddleHasNoTools(items, render, plan, summary);
    WindowSplits(plan.retained, middle, plan.tail, Window(plan, summary), render, again);
  }

  lemma WindowSplits(retained: seq<Item>, middle: seq<Item>, tail: seq<Item>, window: seq<Item>, render: Render,
                     again: Plan)
    requires NoTools(middle) && window == retained + middle + tail
    requires IsPlan(window, render, again) && again.tail == tail
    ensures Balanced(retained)
  {
    TailStarts(window, render, again, |retained| + |middle|, tail);
    StartBalanced(retained, middle, tail);
  }

  lemma MiddleHasNoTools(items: seq<Item>, render: Render, plan: Plan, summary: Option<Item>)
    requires IsPlan(items, render, plan) && (summary.Some? ==> IsSummary(summary.value))
    ensures NoTools(Middle(plan, summary))
  {
    var last: nat, tail: nat :| IsTail(items, tail) && Prepares(items, render, plan, last, tail);
    MiddleQuiet(items, render, plan, last, tail, summary);
  }

  /** Where a plan with this tail was cut, nothing was open. */
  lemma TailStarts(window: seq<Item>, render: Render, plan: Plan, start: nat, tail: seq<Item>)
    requires IsPlan(window, render, plan) && plan.tail == tail && |window| == start + |tail|
    ensures Settled(window, start)
  {
    var u: nat, p: nat :| IsTail(window, p) && Prepares(window, render, plan, u, p);
    assert |window[p..]| == |tail|;
  }

  /**
   Compacting a window again keeps the same retained items, request and tail, whatever the
   summary says, exactly when the retained items are balanced.
   */
  lemma WindowStable(items: seq<Item>, render: Render, plan: Plan, summary: Option<Item>)
    requires IsPlan(items, render, plan)
    requires summary.Some? ==> IsSummary(summary.value) && render(summary.value).Some?
    ensures Balanced(plan.retained) <==>
      exists again :: IsPlan(Window(plan, summary), render, again) && Same(plan, again)
  {
    if Balanced(plan.retained) {
      var again := PreparesAgain(items, render, plan, summary);
    }
    if again :| IsPlan(Window(plan, summary), render, again) && Same(plan, again) {
      SameOnlyIfBalanced(items, render, plan, summary, again);
    }
  }

  /** Without history, everything before the tail is kept or is the latest request. */
  lemma {:induction false} AllKept(items: seq<Item>, last: nat, n: nat)
    requires n <= |items| && !History(items, last, n)
    ensures Kept(items, last, n) == if last < n && !Retains(items, last, last) then items[..last] + items[last + 1..n]
      else items[..n]
  {
    if n > 0 {
      assert !History(items, last, n - 1);
      AllKept(items, last, n - 1);
      assert n - 1 != last ==> Retains(items, last, n - 1);
    }
  }

  /**
   Without history the window is the request unchanged exactly when no kept item follows
   the latest request before the tail; otherwise those items move in front of it.
   */
  lemma ShortWindow(items: seq<Item>, render: Render, plan: Plan, last: nat, tail: nat)
    requires IsTail(items, tail) && Prepares(items, render, plan, last, tail) && !History(items, last, tail)
    ensures plan.parts == []
    ensures Window(plan, None) == items <==> tail <= last + 1
    ensures last < tail ==> Window(plan, None) == items[..last] + items[last + 1..tail] + [items[last]] + items[tail..]
  {
    AllKept(items, last, tail);
    assert !Retains(items, last, last);
    if last < tail {
      if last + 1 < tail {
        assert Window(plan, None)[last] == items[last + 1];
        assert !IsUser(items[last + 1]);
      } else {
        assert items[..last] + [] + [items[last]] + items[tail..] == items;
      }
    } else {
      assert Middle(plan, None) == [] && items[..tail] + [] + items[tail..] == items;
    }
  }

  // ---- Examples -------------------------------------------------------------------------------------------

  const SYSTEM_CALL := Item("function_call", "system", "c", 1, 0)
  const ITS_OUTPUT := Item("function_call_output", "", "c", 1, 0)
  const REQUEST := Item("message", "user", "", 1, 0)
  const INSTRUCTION := Item("message", "system", "", 1, 0)

  /** These items can be shown. */
  predicate Renders(render: Render, items: seq<Item>) {
    forall i :: 0 <= i < |items| ==> render(items[i]).Some?
  }

  lemma {:induction false} AllRendered(items: seq<Item>, render: Render, n: nat)
    requires n <= |items| && Renders(render, items)
    ensures Rendered(items, render, n).Some?
  {
    if n > 0 { AllRendered(items, render, n - 1); }
  }

  /** A call that is kept because its role is system, while its result is not, leaves a window with an open call. */
  lemma UnbalancedExample(render: Render) returns (items: seq<Item>, plan: Plan)
    requires Renders(render, [SYSTEM_CALL, ITS_OUTPUT, REQUEST])
    ensures items == [SYSTEM_CALL, ITS_OUTPUT, REQUEST] && IsPlan(items, render, plan) && !Balanced(plan.retained)
    ensures forall again :: IsPlan(Window(plan, None), render, again) ==> !Same(plan, again)
  {
    items := [SYSTEM_CALL, ITS_OUTPUT, REQUEST];
    plan := ExamplePlan(items, render);
    forall again | IsPlan(Window(plan, None), render, again)
      ensures !Same(plan, again)
    {
      if Same(plan, again) { SameOnlyIfBalanced(items, render, plan, None, again); }
    }
  }

  lemma ExampleScan(items: seq<Item>)
    requires items == [SYSTEM_CALL, ITS_OUTPUT, REQUEST]
    ensures Scan(items, 3) == Some(Tools({}, {"c"})) && IsTail(items, 3)
    ensures Scan([items[0]], 1) == Some(Tools({"c"}, {"c"}))
  {
    var none: set<string> := {};
    assert none + {"c"} == {"c"} && {"c"} - {"c"} == none;
    assert Scan(items, 0) == Some(Tools(none, none));
    assert Scan(items, 1) == Some(Tools({"c"}, {"c"}));
    assert Scan(items, 2) == Some(Tools(none, {"c"}));
    assert Scan([items[0]], 0) == Some(Tools(none, none));
  }

  lemma ExamplePlan(items: seq<Item>, render: Render) returns (plan: Plan)
    requires items == [SYSTEM_CALL, ITS_OUTPUT, REQUEST] && Renders(render, items)
    ensures IsPlan(items, render, plan) && !Balanced(plan.retained)
  {
    ExampleScan(items);
    ExampleKept(items);
    AllRendered(items, render, 3);
    assert forall item :: item in items ==> Supported(item);
    assert IsLastUser(items, 2);
    plan := Assemble(items, render, 2, 3);
  }

  lemma ExampleKept(items: seq<Item>)
    requires items == [SYSTEM_CALL, ITS_OUTPUT, REQUEST]
    ensures Kept(items, 2, 3) == [items[0]]
  {
    assert Kept(items, 2, 0) == [];
    assert Kept(items, 2, 1) == [items[0]];
    assert Kept(items, 2, 2) == [items[0]];
  }

  /** A request with an instruction behind it and no history: the window turns them round. */
  lemma ReorderedExample(render: Render) returns (items: seq<Item>, plan: Plan)
    requires Renders(render, [REQUEST, INSTRUCTION])
    ensures items == [REQUEST, INSTRUCTION] && IsPlan(items, render, plan) && plan.parts == []
    ensures Window(plan, None) == [INSTRUCTION, REQUEST] != items
  {
    items := [REQUEST, INSTRUCTION];
    assert Scan(items, 0) == Some(Tools({}, {})) && Scan(items, 1) == Some(Tools({}, {})) &&
      Scan(items, 2) == Some(Tools({}, {}));
    AllRendered(items, render, 2);
    assert forall item :: item in items ==> Supported(item);
    assert IsLastUser(items, 0) && Retains(items, 0, 1);
    plan := Assemble(items, render, 0, 2);
    assert Kept(items, 0, 0) == [] && Kept(items, 0, 1) == [];
    assert Kept(items, 0, 2) == [INSTRUCTION];
    ShortExample(items, render, plan);
  }

  lemma ShortExample(items: seq<Item>, render: Render, plan: Plan)
    requires items == [REQUEST, INSTRUCTION] && IsTail(items, 2) && IsPlan(items, render, plan)
    requires plan.retained == [INSTRUCTION] && plan.latest == Some(REQUEST) && plan.tail == []
    ensures plan.parts == [] && Window(plan, None) == [INSTRUCTION, REQUEST] != items
  {
    var last: nat, tail: nat :| IsTail(items, tail) && Prepares(items, render, plan, last, tail);
    TailUnique(items, 2, tail);
    assert IsLastUser(items, 0);
    LastUserUnique(items, 0, last);
    assert !History(items, 0, 2);
    assert items[0] != INSTRUCTION;
  }
}
