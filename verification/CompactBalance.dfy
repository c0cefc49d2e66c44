/** When compacting a window again is stable, as a condition on the request itself. */
module CompactBalance {
  import opened Collections
  import opened CompactPlan
  import opened CompactWindow
  import opened CompactStable

  /** A call and its result before the tail are both retained or neither is. */
  predicate PairsTogether(items: seq<Item>, last: nat, tail: nat)
    requires tail <= |items|
  {
    forall i, j :: 0 <= i < j < tail && Pair(items[i], items[j]) ==>
      (Retains(items, last, i) <==> Retains(items, last, j))
  }

  predicate Pair(call: Item, output: Item) {
    IsCall(call) && IsOutput(output) && call.callId == output.callId
  }

  /** A retained call with this id among the first n items. */
  predicate KeepsCall(items: seq<Item>, last: nat, n: nat, id: string)
    requires n <= |items|
  {
    exists i :: 0 <= i < n && Retains(items, last, i) && IsCall(items[i]) && items[i].callId == id
  }

  predicate KeepsOutput(items: seq<Item>, last: nat, n: nat, id: string)
    requires n <= |items|
  {
    exists i :: 0 <= i < n && Retains(items, last, i) && IsOutput(items[i]) && items[i].callId == id
  }

  // ---- Ids are used once --------------------------------------------------------------------------------------

  lemma OneCall(items: seq<Item>, n: nat, i: nat, j: nat)
    requires n <= |items| && Scan(items, n).Some? && i < j < n && IsCall(items[i]) && IsCall(items[j])
    ensures items[i].callId != items[j].callId
  {
    ScanPrefix(items, n, j + 1);
    ScanPrefix(items, n, j);
    SeenAreCalls(items, j, items[i].callId);
  }

  /** An answered call stays answered. */
  lemma {:induction false} StaysAnswered(items: seq<Item>, m: nat, n: nat, id: string)
    requires m <= n <= |items| && Scan(items, n).Some? && Scan(items, m).Some?
    requires id in Scan(items, m).value.seen && id !in Scan(items, m).value.open
    ensures id in Scan(items, n).value.seen && id !in Scan(items, n).value.open
    decreases n
  {
    if m < n {
      ScanPrefix(items, n, n - 1);
      StaysAnswered(items, m, n - 1, id);
    }
  }

  lemma OneOutput(items: seq<Item>, n: nat, i: nat, j: nat)
    requires n <= |items| && Scan(items, n).Some? && i < j < n && IsOutput(items[i]) && IsOutput(items[j])
    ensures items[i].callId != items[j].callId
  {
    ScanPrefix(items, n, j + 1);
    ScanPrefix(items, n, j);
    ScanPrefix(items, j, i + 1);
    ScanPrefix(items, j, i);
    SeenAreCalls(items, i, items[i].callId);
    StaysAnswered(items, i + 1, j, items[i].callId);
  }

  // ---- Scanning what is kept ----------------------------------------------------------------------------------

  /** The scan of the kept items, in terms of the request. */
  ghost predicate ScanIs(items: seq<Item>, last: nat, n: nat, t: Option<Tools>)
    requires n <= |items|
  {
    t.Some? ==> forall id ::
      && (id in t.value.seen <==> KeepsCall(items, last, n, id))
      && (id in t.value.open <==> KeepsCall(items, last, n, id) && !KeepsOutput(items, last, n, id))
      && (KeepsOutput(items, last, n, id) ==> KeepsCall(items, last, n, id))
  }

  /** The scan of the kept among the first n items. */
  function KeptScan(items: seq<Item>, last: nat, n: nat): Option<Tools>
    requires n <= |items|
  {
    Scan(Kept(items, last, n), |Kept(items, last, n)|)
  }

  lemma KeptScanNext(items: seq<Item>, last: nat, n: nat)
    requires n < |items|
    ensures KeptScan(items, last, n + 1) ==
            if !Retains(items, last, n) || KeptScan(items, last, n).None? then KeptScan(items, last, n)
            else Observe(KeptScan(items, last, n).value, items[n])
  {
    if Retains(items, last, n) { ScanStart(Kept(items, last, n), [items[n]], |Kept(items, last, n)|); }
  }

  lemma KeepsNext(items: seq<Item>, last: nat, n: nat, id: string)
    requires n < |items|
    ensures KeepsCall(items, last, n + 1, id) <==>
      KeepsCall(items, last, n, id) || (Retains(items, last, n) && IsCall(items[n]) && items[n].callId == id)
    ensures KeepsOutput(items, last, n + 1, id) <==>
            KeepsOutput(items, last, n, id) || (Retains(items, last, n) && IsOutput(items[n]) && items[n].callId == id)
  {
  }

  lemma {:induction false} ScanKept(items: seq<Item>, last: nat, n: nat)
    requires n <= |items|
    ensures ScanIs(items, last, n, KeptScan(items, last, n))
  {
    if n > 0 {
      ScanKept(items, last, n - 1);
      KeptScanNext(items, last, n - 1);
      forall id
        ensures KeptScan(items, last, n).Some? ==>
          && (id in KeptScan(items, last, n).value.seen <==> KeepsCall(items, last, n, id))
          && (id in KeptScan(items, last, n).value.open <==>
             KeepsCall(items, last, n, id) && !KeepsOutput(items, last, n, id))
          && (KeepsOutput(items, last, n, id) ==> KeepsCall(items, last, n, id))
      {
        KeepsNext(items, last, n - 1, id);
      }
    }
  }

  // ---- Balance ------------------------------------------------------------------------------------------------

  /** A kept item can be scanned when its pair is kept too. */
  lemma KeptFits(items: seq<Item>, last: nat, tail: nat, n: nat)
    requires n < tail <= |items| && Scan(items, tail).Some? && PairsTogether(items, last, tail) &&
      Retains(items, last, n)
    requires KeptScan(items, last, n).Some? && ScanIs(items, last, n, KeptScan(items, last, n))
    ensures Observe(KeptScan(items, last, n).value, items[n]).Some?
  {
    var t, id := KeptScan(items, last, n).value, items[n].callId;
    ScanPrefix(items, tail, n + 1);
    ScanPrefix(items, tail, n);
    if IsCall(items[n]) {
      if KeepsCall(items, last, n, id) {
        var i :| 0 <= i < n && Retains(items, last, i) && IsCall(items[i]) && items[i].callId == id;
        OneCall(items, tail, i, n);
      }
    } else if IsOutput(items[n]) {
      SeenAreCalls(items, n, id);
      var i :| 0 <= i < n && IsCall(items[i]) && items[i].callId == id;
      assert Pair(items[i], items[n]);
      assert KeepsCall(items, last, n, id);
      if KeepsOutput(items, last, n, id) {
        var j :| 0 <= j < n && Retains(items, last, j) && IsOutput(items[j]) && items[j].callId == id;
        OneOutput(items, tail, j, n);
      }
    }
  }

  lemma KeptConsistentNext(items: seq<Item>, last: nat, tail: nat, n: nat)
    requires n < tail <= |items| && Scan(items, tail).Some? && PairsTogether(items, last, tail) &&
      KeptScan(items, last, n).Some?
    ensures KeptScan(items, last, n + 1).Some?
  {
    ScanKept(items, last, n);
    KeptScanNext(items, last, n);
    if Retains(items, last, n) { KeptFits(items, last, tail, n); }
  }

  lemma {:induction false} KeptConsistent(items: seq<Item>, last: nat, tail: nat, n: nat)
    requires n <= tail <= |items| && Scan(items, tail).Some? && PairsTogether(items, last, tail)
    ensures KeptScan(items, last, n).Some?
    decreases n
  {
    if n == 0 {
      assert Kept(items, last, 0) == [];
    } else {
      KeptConsistent(items, last, tail, n - 1);
      KeptConsistentNext(items, last, tail, n - 1);
    }
  }

  lemma AnswerKept(items: seq<Item>, last: nat, tail: nat, id: string)
    requires IsTail(items, tail) && PairsTogether(items, last, tail) && KeepsCall(items, last, tail, id)
    ensures KeepsOutput(items, last, tail, id)
  {
    var i :| 0 <= i < tail && Retains(items, last, i) && IsCall(items[i]) && items[i].callId == id;
    AnsweredBefore(items, i, tail);
    var j :| i < j < tail && IsOutput(items[j]) && items[j].callId == id;
    assert Pair(items[i], items[j]);
  }

  lemma TogetherIsBalanced(items: seq<Item>, last: nat, tail: nat)
    requires IsTail(items, tail) && Consistent(items) && PairsTogether(items, last, tail)
    ensures Balanced(Kept(items, last, tail))
  {
    KeptConsistent(items, last, tail, tail);
    ScanKept(items, last, tail);
    var t := KeptScan(items, last, tail).value;
    forall id: string
      ensures id !in t.open
    {
      if KeepsCall(items, last, tail, id) { AnswerKept(items, last, tail, id); }
    }
    assert t.open == {};
  }

  lemma BalancedIsTogether(items: seq<Item>, last: nat, tail: nat)
    requires IsTail(items, tail) && Balanced(Kept(items, last, tail))
    ensures PairsTogether(items, last, tail)
  {
    ScanKept(items, last, tail);
    var t := KeptScan(items, last, tail).value;
    forall i, j | 0 <= i < j < tail && Pair(items[i], items[j])
      ensures Retains(items, last, i) <==> Retains(items, last, j)
    {
      var id := items[i].callId;
      assert id !in t.open;
      if Retains(items, last, i) {
        assert KeepsCall(items, last, tail, id);
        var k :| 0 <= k < tail && Retains(items, last, k) && IsOutput(items[k]) && items[k].callId == id;
        if k < j { OneOutput(items, tail, k, j); } else if j < k { OneOutput(items, tail, j, k); }
      }
      if Retains(items, last, j) {
        assert KeepsOutput(items, last, tail, id);
        var k :| 0 <= k < tail && Retains(items, last, k) && IsCall(items[k]) && items[k].callId == id;
        if k < i { OneCall(items, tail, k, i); } else if i < k { OneCall(items, tail, i, k); }
      }
    }
  }

  /**
   Compacting a window again keeps the same retained items, request and tail, whatever the
   summary says, exactly when no call before the tail is separated from its result: both
   are retained, or neither.
   */
  lemma WindowStableExactly(items: seq<Item>, render: Render, plan: Plan, last: nat, tail: nat, summary: Option<Item>)
    requires IsTail(items, tail) && Prepares(items, render, plan, last, tail)
    requires summary.Some? ==> IsSummary(summary.value) && render(summary.value).Some?
    ensures PairsTogether(items, last, tail) <==>
      exists again :: IsPlan(Window(plan, summary), render, again) && Same(plan, again)
  {
    WindowStable(items, render, plan, summary);
    if PairsTogether(items, last, tail) { TogetherIsBalanced(items, last, tail); }
    if Balanced(plan.retained) { BalancedIsTogether(items, last, tail); }
  }

  /** Calls and results without a role are never retained, so ordinary requests meet the condition. */
  lemma RolelessPairs(items: seq<Item>, last: nat, tail: nat)
    requires tail <= |items| && forall i :: 0 <= i < tail && (IsCall(items[i]) || IsOutput(items[i])) ==>
      items[i].role == ""
    ensures PairsTogether(items, last, tail)
  {
  }
}
