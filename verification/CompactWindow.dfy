/** The plan of a compaction, the window it produces, and what preparing that window again finds. */
module CompactWindow {
  import opened Collections
  import opened CompactPlan
  import opened CompactParts

  datatype Plan = Plan(retained: seq<Item>, latest: Option<Item>, tail: seq<Item>, parts: seq<Part>)

  /** How the transcript shows an item, or None where it cannot. */
  type Render = Item -> Option<seq<Part>>

  predicate IsLastUser(items: seq<Item>, u: nat) {
    u < |items| && IsUser(items[u]) && forall j :: u < j < |items| ==> !IsUser(items[j])
  }

  predicate Instruction(item: Item) {
    item.role == "system" || item.role == "developer" || item.kind == "additional_tools"
  }

  /** Instructions, and a short first user item that is not the latest request. */
  predicate Retains(items: seq<Item>, last: nat, i: nat)
    requires i < |items|
  {
    || Instruction(items[i])
    || (items[i].role == "user" && i != last && items[i].size <= MAX_RETAINED_BYTES && forall j :: 0 <= j < i ==>
       items[j].role != "user")
  }

  /** The retained ones among the first n items, in order. */
  function Kept(items: seq<Item>, last: nat, n: nat): seq<Item>
    requires n <= |items|
  {
    if n == 0 then []
    else if Retains(items, last, n - 1) then Kept(items, last, n - 1) + [items[n - 1]]
    else Kept(items, last, n - 1)
  }

  /** Something before the tail is neither kept nor the latest request. */
  predicate History(items: seq<Item>, last: nat, n: nat)
    requires n <= |items|
  {
    exists i :: 0 <= i < n && !Retains(items, last, i) && i != last
  }

  /** The transcript of the first n items. */
  function Rendered(items: seq<Item>, render: Render, n: nat): Option<seq<Part>>
    requires n <= |items|
  {
    if n == 0 then Some([])
    else if Rendered(items, render, n - 1).None? || render(items[n - 1]).None? then None
    else Some(Rendered(items, render, n - 1).value + render(items[n - 1]).value)
  }

  predicate Prepares(items: seq<Item>, render: Render, plan: Plan, last: nat, tail: nat)
    requires tail <= |items|
  {
    && (forall item :: item in items ==> Supported(item))
    && IsLastUser(items, last) && Consistent(items) && Rendered(items, render, tail).Some?
    && plan == Plan(Kept(items, last, tail), if last < tail then Some(items[last]) else None, items[tail..],
                    if History(items, last, tail) then Rendered(items, render, tail).value else [])
  }

  /** The plan of a request, if it has one. */
  ghost predicate IsPlan(items: seq<Item>, render: Render, plan: Plan) {
    exists last: nat, tail: nat :: IsTail(items, tail) && Prepares(items, render, plan, last, tail)
  }

  lemma TailUnique(items: seq<Item>, p: nat, q: nat)
    requires IsTail(items, p) && IsTail(items, q)
    ensures p == q
  {
  }

  lemma LastUserUnique(items: seq<Item>, u: nat, v: nat)
    requires IsLastUser(items, u) && IsLastUser(items, v)
    ensures u == v
  {
  }

  lemma PlanUnique(items: seq<Item>, render: Render, a: Plan, b: Plan)
    requires IsPlan(items, render, a) && IsPlan(items, render, b)
    ensures a == b
  {
    var u: nat, p: nat :| IsTail(items, p) && Prepares(items, render, a, u, p);
    var v: nat, q: nat :| IsTail(items, q) && Prepares(items, render, b, v, q);
    TailUnique(items, p, q);
    LastUserUnique(items, u, v);
  }

  lemma {:induction false} RenderedPrefix(items: seq<Item>, render: Render, n: nat, m: nat)
    requires m <= n <= |items| && Rendered(items, render, n).Some?
    ensures Rendered(items, render, m).Some? && (m < n ==> render(items[m]).Some?)
    decreases n - m
  {
    if m < n { RenderedPrefixStep(items, render, n, m); }
  }

  lemma {:induction false} RenderedPrefixStep(items: seq<Item>, render: Render, n: nat, m: nat)
    requires m < n <= |items| && Rendered(items, render, n).Some?
    ensures Rendered(items, render, m).Some? && render(items[m]).Some?
    decreases n
  {
    if m < n - 1 { RenderedPrefixStep(items, render, n - 1, m); }
  }

  /** Why a request has no plan. */
  ghost predicate Unplannable(items: seq<Item>, render: Render) {
    || (exists item :: item in items && !Supported(item))
    || (forall i :: 0 <= i < |items| ==> !IsUser(items[i]))
    || !Consistent(items)
    || (exists tail: nat, i: nat :: i < tail && IsTail(items, tail) && render(items[i]).None?)
  }

  lemma NoPlan(items: seq<Item>, render: Render, p: Plan)
    requires Unplannable(items, render)
    ensures !IsPlan(items, render, p)
  {
    if IsPlan(items, render, p) {
      var u: nat, q: nat :| IsTail(items, q) && Prepares(items, render, p, u, q);
      if tail: nat, i: nat :| i < tail && IsTail(items, tail) && render(items[i]).None? {
        TailUnique(items, tail, q);
        RenderedPrefix(items, render, tail, i);
      }
    }
  }

  method FindLastUser(items: seq<Item>) returns (last: int, ok: bool)
    ensures ok ==> (forall item :: item in items ==> Supported(item)) && last >= 0 && IsLastUser(items, last)
    ensures !ok ==>
      (exists item :: item in items && !Supported(item)) || forall i :: 0 <= i < |items| ==> !IsUser(items[i])
  {
    last := -1;
    var index := 0;
    while index < |items|
      invariant 0 <= index <= |items| && -1 <= last < index
      invariant forall i :: 0 <= i < index ==> Supported(items[i])
      invariant last >= 0 ==> IsUser(items[last])
      invariant forall i :: last < i < index ==> !IsUser(items[i])
    {
      if !Supported(items[index]) {
        assert items[index] in items;
        return last, false;
      }
      if items[index].role == "user" && (items[index].kind == "" || items[index].kind == "message") { last := index; }
      index := index + 1;
    }
    ok := last >= 0;
  }

  /** The second loop of Prepare: what is kept, and the transcript of everything before the tail. */
  method Collect(items: seq<Item>, render: Render, last: nat, tail: nat)
    returns (retained: seq<Item>, parts: seq<Part>, history: bool, ok: bool)
    requires tail <= |items|
    ensures ok ==> retained == Kept(items, last, tail) && Rendered(items, render, tail) == Some(parts)
    ensures ok ==> history == History(items, last, tail)
    ensures !ok ==> exists i: nat :: i < tail && render(items[i]).None?
  {
    var firstUser := true;
    retained, parts, history := [], [], false;
    var index := 0;
    while index < tail
      invariant 0 <= index <= tail
      invariant firstUser <==> forall j :: 0 <= j < index ==> items[j].role != "user"
      invariant retained == Kept(items, last, index) && Rendered(items, render, index) == Some(parts)
      invariant history <==> History(items, last, index)
    {
      var item := items[index];
      var keep := item.role == "system" || item.role == "developer" || item.kind == "additional_tools"
                  || (item.role == "user" && firstUser && index != last && item.size <= MAX_RETAINED_BYTES);
      assert keep == Retains(items, last, index);
      HistoryStep(items, last, index);
      if keep { retained := retained + [item]; }
      if item.role == "user" { firstUser := false; }
      history := history || (!keep && index != last);
      var shown := render(item);
      if shown.None? { return retained, parts, history, false; }
      parts := parts + shown.value;
      index := index + 1;
    }
    ok := true;
  }

  lemma HistoryStep(items: seq<Item>, last: nat, n: nat)
    requires n < |items|
    ensures History(items, last, n + 1) <==> History(items, last, n) || (!Retains(items, last, n) && n != last)
  {
  }

  method Prepare(items: seq<Item>, render: Render) returns (plan: Option<Plan>)
    ensures plan.Some? ==> IsPlan(items, render, plan.value)
    ensures plan.None? ==> Unplannable(items, render)
  {
    var lastUser, found := FindLastUser(items);
    if !found { return None; }
    var tail, consistent := PendingTail(items);
    if !consistent { return None; }
    var retained, parts, history, shown := Collect(items, render, lastUser, tail);
    if !shown { return None; }
    if !history { parts := []; }
    plan := Some(Plan(retained, if lastUser < tail then Some(items[lastUser]) else None, items[tail..], parts));
    assert Prepares(items, render, plan.value, lastUser, tail);
  }
}
