/** What is in a plan and in its window, item by item, and that the window of a finished run can be sealed. */
module CompactSummary {
  import opened Collections
  import Utf8
  import opened CompactParts
  import opened CompactPlan
  import opened CompactWindow
  import opened CompactStable
  import Calls = CompactCalls
  import Seal = CompactSeal
  import State = CompactState

  // ---- The plan -----------------------------------------------------------------------------------

  /** The kinds of items that can be planned: messages of four roles, calls, results, reasoning, tool inventories. */
  lemma SupportedKinds(item: Item)
    ensures Supported(item) <==>
      (item.kind in {"", "message"} && item.role in {"user", "assistant", "system", "developer"}) ||
      item.kind in {"function_call", "function_call_output", "custom_tool_call", "custom_tool_call_output", "reasoning",
        "additional_tools"}
  {
  }

  /** The first item of the user, if it is at position i. */
  predicate FirstOfUser(items: seq<Item>, i: nat) {
    i < |items| && items[i].role == "user" && forall j :: 0 <= j < i ==> items[j].role != "user"
  }

  /** What is retained word for word: instructions, tool inventories, and a short first item of the user. */
  predicate StaysVerbatim(items: seq<Item>, last: nat, i: nat)
    requires i < |items|
  {
    || items[i].role == "system" || items[i].role == "developer" || items[i].kind == "additional_tools"
    || (FirstOfUser(items, i) && i != last && items[i].size <= 32768)
  }

  lemma {:induction false} KeptAre(items: seq<Item>, last: nat, n: nat, keeps: nat -> bool)
    requires n <= |items| && forall i: nat :: i < |items| ==> keeps(i) == Retains(items, last, i)
    ensures Ascending(Where(n, keeps), n) && Kept(items, last, n) == Pick(items, Where(n, keeps))
  {
    WhereAre(n, keeps);
    if n > 0 {
      KeptAre(items, last, n - 1, keeps);
      PickMore(items, Where(n - 1, keeps), n - 1);
    }
  }

  lemma KeptPositions(items: seq<Item>, last: nat, n: nat) returns (kept: seq<nat>)
    requires n <= |items|
    ensures Ascending(kept, n) && Kept(items, last, n) == Pick(items, kept)
    ensures forall i: nat {:trigger i in kept} :: i < n ==> (i in kept <==> Retains(items, last, i))
  {
    var keeps := (i: nat) => i < |items| && Retains(items, last, i);
    KeptAre(items, last, n, keeps);
    WhereAre(n, keeps);
    kept := Where(n, keeps);
  }

  /** What each of the first n items shows. */
  predicate Shows(items: seq<Item>, render: Render, n: nat, shown: seq<seq<Part>>) {
    |shown| == n <= |items| && forall k :: 0 <= k < n ==> render(items[k]) == Some(shown[k])
  }

  /** The transcript of the first n items is what each of them shows, one after the other. */
  lemma {:induction false} TranscriptIs(items: seq<Item>, render: Render, n: nat) returns (shown: seq<seq<Part>>)
    requires n <= |items| && Rendered(items, render, n).Some?
    ensures Shows(items, render, n, shown) && Rendered(items, render, n).value == Concat(shown)
  {
    if n == 0 {
      shown := [];
    } else {
      var before := TranscriptIs(items, render, n - 1);
      var last := render(items[n - 1]).value;
      shown := before + [last];
      ConcatAppend(before, [last]);
      ConcatOne(last);
    }
  }

  /**
   The plan of a request: the tail begins where last no call is unanswered; of what comes
   before it, instructions and a short first item of the user are retained in order; the last
   user message is the latest request; and there is a transcript exactly if something else is left.
   */
  lemma PlanKeeps(items: seq<Item>, render: Render, plan: Plan) returns (last: nat, tail: nat, kept: seq<nat>)
    requires IsPlan(items, render, plan)
    ensures IsTail(items, tail) && IsLastUser(items, last) && plan.tail == items[tail..]
    ensures plan.latest == if last < tail then Some(items[last]) else None
    ensures Ascending(kept, tail) && plan.retained == Pick(items, kept)
    ensures forall i: nat :: i < tail ==> (i in kept <==> StaysVerbatim(items, last, i))
    ensures (forall i: nat :: i < tail ==> i in kept || i == last) ==> plan.parts == []
    ensures (exists i: nat :: i < tail && i !in kept && i != last) ==>
              exists shown :: Shows(items, render, tail, shown) && plan.parts == Concat(shown)
  {
    last, tail :| IsTail(items, tail) && Prepares(items, render, plan, last, tail);
    kept := KeptPositions(items, last, tail);
    forall i: nat | i < tail
      ensures i in kept <==> Retains(items, last, i)
    {
      assert StaysVerbatim(items, last, i) <==> Retains(items, last, i);
    }
    var shown := TranscriptIs(items, render, tail);
  }

  // ---- The window ---------------------------------------------------------------------------------

  /** Window as it is built: item after item. */
  method BuildWindow(plan: Plan, summary: Option<Item>) returns (output: seq<Item>)
    ensures output == Window(plan, summary)
  {
    output := plan.retained;
    if plan.latest.Some? { output := output + [plan.latest.value]; }
    if summary.Some? { output := output + [summary.value]; }
    output := output + plan.tail;
    assert output == plan.retained + Middle(plan, summary) + plan.tail;
  }

  function Latest(plan: Plan): seq<Item> {
    if plan.latest.Some? then [plan.latest.value] else []
  }

  lemma OneInserted(front: seq<Item>, x: Item, back: seq<Item>, whole: seq<Item>, bare: seq<Item>, p: nat)
    requires whole == front + [x] + back && bare == front + back && p == |front|
    ensures whole[p] == x && whole[p + 1..] == back && whole[..p] + whole[p + 1..] == bare
    ensures multiset(whole)[x] == multiset(bare)[x] + 1
  {
    assert whole[..p] == front && whole[p + 1..] == back;
  }

  lemma WindowIs(plan: Plan, summary: Item)
    ensures Window(plan, Some(summary)) == plan.retained + Latest(plan) + [summary] + plan.tail
    ensures Window(plan, None) == plan.retained + Latest(plan) + plan.tail
  {
    var front := plan.retained + Latest(plan);
    assert plan.retained + (Latest(plan) + [summary]) == front + [summary];
    assert Middle(plan, Some(summary)) == Latest(plan) + [summary];
    assert Middle(plan, None) == Latest(plan);
  }

  /**
   A summary is in the window, right before the tail and once more than without it, and apart
   from it the window is the one without a summary: retained items, latest request, tail.
   */
  lemma SummaryBeforeTail(plan: Plan, summary: Item, window: seq<Item>, bare: seq<Item>)
    requires window == Window(plan, Some(summary)) && bare == Window(plan, None)
    ensures bare == plan.retained + Latest(plan) + plan.tail
    ensures var p := |plan.retained + Latest(plan)|;
            && |window| == p + 1 + |plan.tail| && window[p] == summary && window[p + 1..] == plan.tail
            && window[..p] + window[p + 1..] == bare
    ensures multiset(window)[summary] == multiset(bare)[summary] + 1
  {
    var front := plan.retained + Latest(plan);
    WindowIs(plan, summary);
    OneInserted(front, summary, plan.tail, window, bare, |front|);
  }

  // ---- Its size -----------------------------------------------------------------------------------

  function Sizes(items: seq<Item>): seq<nat> {
    seq(|items|, k requires 0 <= k < |items| => items[k].size)
  }

  /** The summary as an item of the window: none when the text is empty. */
  predicate Carries(heading: seq<Utf8.byte>, text: seq<Utf8.byte>, summary: Option<Item>) {
    if text == [] then summary == None else summary.Some? && summary.value.size == State.SummarySize(heading, text)
  }

  /** The sizes that the check before inference counts are those of the window's items. */
  lemma WindowSizesAre(plan: Plan, heading: seq<Utf8.byte>, text: seq<Utf8.byte>, summary: Option<Item>)
    requires Carries(heading, text, summary)
    ensures State.WindowSizes(heading, Sizes(plan.retained + Latest(plan)), text, Sizes(plan.tail)) ==
      Sizes(Window(plan, summary))
  {
    var front := plan.retained + Latest(plan);
    if text == [] {
      assert Window(plan, summary) == front + plan.tail;
    } else {
      assert Window(plan, summary) == front + [summary.value] + plan.tail;
    }
  }

  /** encodeWindow succeeds for this window. */
  predicate Fits(window: seq<Item>, covered: seq<nat>) {
    State.ENVELOPE + State.ListSize(Sizes(window)) + State.ListSize(covered) <= State.MAX_STATE_BYTES
  }

  /**
   If the check passes on a plan before any request is sent, the window that the finished run
   produces can be sealed.
   */
  lemma FinishedWindowSeals(plan: Plan, sent: seq<Calls.Call>, result: Calls.Summary, heading: seq<Utf8.byte>,
                            covered: seq<nat>, summary: Option<Item>)
    requires Calls.Finished(plan.parts, sent, result) && Utf8.Valid(heading) && Carries(heading, result.text, summary)
    requires State.Validates(heading, Sizes(plan.retained + Latest(plan)), Sizes(plan.tail), covered, plan.parts == [])
    ensures Fits(Window(plan, summary), covered)
    ensures plan.parts == [] <==> summary == None
  {
    var front, tail := Sizes(plan.retained + Latest(plan)), Sizes(plan.tail);
    Seal.FinishedSummary(plan.parts, sent, result);
    Seal.FinishedRunSeals(plan.parts, sent, result, heading, front, tail, covered);
    WindowSizesAre(plan, heading, result.text, summary);
  }
}
