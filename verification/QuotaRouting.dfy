/** The routing loop, the binding it changes, and why a second look changes nothing. */
module QuotaRouting {
  import opened Collections
  import opened QuotaModel

  /** The best of the candidates so far. */
  ghost predicate BestSoFar(candidates: seq<Account>, n: nat, best: Option<nat>, current: int, standing: Standing,
                            now: int, room: int -> bool, bound: int -> nat) {
    && n <= |candidates|
    && match best
       case None => NoneEligible(candidates[..n], current, standing, now, room)
       case Some(k) => Best(candidates[..n], k, current, standing, now, room, bound)
  }

  /** One candidate more, which is not better. */
  lemma Passed(candidates: seq<Account>, n: nat, best: Option<nat>, current: int, standing: Standing, now: int,
               room: int -> bool, bound: int -> nat)
    requires n < |candidates| && BestSoFar(candidates, n, best, current, standing, now, room, bound)
    requires Eligible(candidates[n], current, standing, now, room) ==>
      best.Some? && !Ahead(candidates[n], candidates[best.value], now, bound)
    ensures BestSoFar(candidates, n + 1, best, current, standing, now, room, bound)
  {
    assert candidates[..n + 1] == candidates[..n] + [candidates[n]];
  }

  /** One candidate more, which is better than all before. */
  lemma Overtaken(candidates: seq<Account>, n: nat, best: Option<nat>, current: int, standing: Standing, now: int,
                  room: int -> bool, bound: int -> nat)
    requires n < |candidates| && BestSoFar(candidates, n, best, current, standing, now, room, bound)
    requires Eligible(candidates[n], current, standing, now, room)
    requires best.Some? ==> Ahead(candidates[n], candidates[best.value], now, bound)
    ensures BestSoFar(candidates, n + 1, Some(n), current, standing, now, room, bound)
  {
    var before, after := candidates[..n], candidates[..n + 1];
    forall j | 0 <= j < n + 1 && Eligible(after[j], current, standing, now, room)
      ensures !Ahead(after[j], after[n], now, bound) && (j < n ==> Ahead(after[n], after[j], now, bound))
    {
      if j < n {
        assert after[j] == before[j];
        AheadChain(candidates[n], candidates[best.value], candidates[j], now, bound);
      }
    }
  }

  /** The selection of PreferQuotaAccount. */
  method Select(candidates: seq<Account>, current: int, now: int, room: int -> bool, bound: int -> nat)
      returns (selected: int)
    ensures Chosen(candidates, current, now, room, bound, selected)
  {
    var standing := Standing(0, None);
    for n := 0 to |candidates|
      invariant standing == StandingOf(candidates[..n], current, now)
    {
      assert candidates[..n + 1][..n] == candidates[..n];
      if candidates[n].id == current {
        var rating := QuotaRoutingScore(candidates[n], now);
        standing := Standing(candidates[n].priority, rating);
      }
    }
    assert candidates[..|candidates|] == candidates;
    selected := current;
    var bestPriority := standing.priority;
    var bestScore := if standing.rating.Some? then standing.rating.value.score else 0.0;
    var bestLoad := 0.0;
    ghost var best: Option<nat> := None;
    for n := 0 to |candidates|
      invariant BestSoFar(candidates, n, best, current, standing, now, room, bound)
      invariant best.None? ==> selected == current && bestPriority == standing.priority
      invariant best.Some? ==>
        var k := candidates[best.value];
        selected == k.id && k.priority == bestPriority && Rate(k, now).Some? && Rate(k, now).value.score == bestScore &&
          Load(k, bound) == bestLoad
    {
      var c := candidates[n];
      var rating := QuotaRoutingScore(c, now);
      var better := false;
      if c.id != current && rating.Some? && c.priority <= bestPriority {
        var score := rating.value.score;
        if !(c.priority == standing.priority &&
             (standing.rating.None? || rating.value.plan != standing.rating.value.plan ||
               score <= standing.rating.value.score + MARGIN)) &&
           room(c.id) {
          var load := bound(c.id) as real / (if c.weight > 1 then c.weight else 1) as real;
          if c.priority < bestPriority || selected == current || score > bestScore ||
            (score == bestScore && load < bestLoad) {
            better, selected, bestPriority, bestScore, bestLoad := true, c.id, c.priority, score, load;
          }
        }
      }
      if better {
        Overtaken(candidates, n, best, current, standing, now, room, bound);
        best := Some(n);
      } else {
        Passed(candidates, n, best, current, standing, now, room, bound);
      }
    }
  }

  /** How many keys an account has. */
  ghost function KeysOf(binding: map<string, int>, id: int): nat {
    Count(binding, a => a == id)
  }

  /** The default binding of keys to accounts. */
  class Router {
    var enabled: bool
    var binding: map<string, int>
    var switches: nat

    constructor (enabled: bool)
      ensures this.enabled == enabled && binding == map[] && switches == 0
    {
      this.enabled := enabled;
      binding, switches := map[], 0;
    }

    /** PreferQuotaAccount, for a key that was routed to an account. */
    method PreferQuotaAccount(key: string, routed: int, codex: bool, candidates: seq<Account>, now: int,
                              room: int -> bool, bound: int -> nat)
      returns (selected: Option<int>)
      modifies this
      ensures enabled == old(enabled)
      ensures !enabled || !codex ==> selected == Some(routed) && binding == old(binding) && switches == old(switches)
      ensures enabled && codex && key !in old(binding) ==>
        selected == None && binding == old(binding) && switches == old(switches)
      ensures enabled && codex && key in old(binding) ==>
        && selected.Some? && Chosen(candidates, old(binding)[key], now, room, bound, selected.value)
        && binding == old(binding)[key := selected.value]
        && switches == old(switches) + (if selected.value != old(binding)[key] then 1 else 0)
        && forall id ::
             KeysOf(binding, id) ==
             KeysOf(old(binding), id) -
             (if id == old(binding)[key] then 1 else 0) + (if id == selected.value then 1 else 0)
    {
      if !enabled || !codex { return Some(routed); }
      if key !in binding { return None; }
      var current := binding[key];
      var id := Select(candidates, current, now, room, bound);
      forall i
        ensures KeysOf(binding[key := id], i) ==
          KeysOf(binding, i) - (if i == current then 1 else 0) + (if i == id then 1 else 0)
      {
        CountUpdate(binding, a => a == i, key, id);
      }
      if id != current {
        binding := binding[key := id];
        switches := switches + 1;
      } else {
        assert binding[key := id] == binding;
      }
      return Some(id);
    }
  }

  // ---- Moves --------------------------------------------------------------------------------------------------

  predicate Distinct(candidates: seq<Account>) {
    forall i, j :: 0 <= i < j < |candidates| ==> candidates[i].id != candidates[j].id
  }

  lemma {:induction false} StandsAt(candidates: seq<Account>, k: nat, now: int)
    requires Distinct(candidates) && k < |candidates|
    ensures StandingOf(candidates, candidates[k].id, now) == Standing(candidates[k].priority, Rate(candidates[k], now))
    decreases |candidates|
  {
    if k < |candidates| - 1 { StandsAt(candidates[..|candidates| - 1], k, now); }
  }

  /**
   A later look at the same quota data: no new accounts, the same ratings, and only the two
   accounts of the move have more or less room.
   */
  ghost predicate SameData(first: seq<Account>, now: int, room: int -> bool, second: seq<Account>, later: int,
                           room': int -> bool, current: int, selected: int) {
    && Distinct(first) && Distinct(second)
    && (forall i :: 0 <= i < |second| ==> exists j :: 0 <= j < |first| && SameAccount(first[j], now, second[i], later))
    && (forall id :: id != current && id != selected ==> room'(id) == room(id))
    && (exists i :: 0 <= i < |second| && second[i].id == selected)
  }

  predicate SameAccount(a: Account, now: int, b: Account, later: int) {
    a.id == b.id && a.priority == b.priority && Rate(a, now) == Rate(b, later)
  }

  /** An account that the second look would move to would have been chosen over the selected one the first time. */
  lemma WouldHaveBeenChosen(a: Account, s: Account, current: int, standing: Standing, now: int, room: int -> bool,
                            bound: int -> nat)
    requires Eligible(s, current, standing, now, room) && Worthwhile(a, Standing(s.priority, Rate(s, now)), now)
    ensures Worthwhile(a, standing, now) && Ahead(a, s, now, bound)
  {
  }

  /** The account that the key has left is not worth going back to. */
  lemma NotBack(a: Account, s: Account, current: int, standing: Standing, now: int, room: int -> bool)
    requires Eligible(s, current, standing, now, room) && standing == Standing(a.priority, Rate(a, now))
    ensures !Worthwhile(a, Standing(s.priority, Rate(s, now)), now)
  {
  }

  /**
   After a move a second look at the same data keeps the account, although the move took room at
   one account and made room at another.
   */
  lemma SecondLookKeeps(first: seq<Account>, current: int, now: int, room: int -> bool, bound: int -> nat,
                        selected: int,
                        second: seq<Account>, later: int, room': int -> bool, bound': int -> nat, again: int)
    requires Chosen(first, current, now, room, bound, selected) && selected != current
    requires SameData(first, now, room, second, later, room', current, selected)
    requires Chosen(second, selected, later, room', bound', again)
    ensures again == selected
  {
    var standing := StandingOf(first, current, now);
    var k: nat :| Best(first, k, current, standing, now, room, bound) && first[k].id == selected;
    var s: nat :| s < |second| && second[s].id == selected;
    StandsAt(second, s, later);
    var standing' := Standing(first[k].priority, Rate(first[k], now));
    var m :| 0 <= m < |first| && SameAccount(first[m], now, second[s], later);
    assert m == k;
    forall i | 0 <= i < |second|
      ensures !Eligible(second[i], selected, standing', later, room')
    {
      var j :| 0 <= j < |first| && SameAccount(first[j], now, second[i], later);
      if Eligible(second[i], selected, standing', later, room') {
        assert Worthwhile(first[j], standing', now);
        if first[j].id == current {
          StandsAt(first, j, now);
          NotBack(first[j], first[k], current, standing, now, room);
        } else {
          WouldHaveBeenChosen(first[j], first[k], current, standing, now, room, bound);
        }
      }
    }
  }

  /** To a better tier, or within the tier on the same plan and for more than the margin. */
  predicate MovesUp(a: Account, b: Account, now: int) {
    Rate(b, now).Some? &&
    (b.priority < a.priority ||
     (b.priority == a.priority && Rate(a, now).Some? && Rate(b, now).value.plan == Rate(a, now).value.plan &&
      Rate(b, now).value.score > Rate(a, now).value.score + MARGIN))
  }

  lemma MovesOnlyUp(candidates: seq<Account>, k: nat, current: int, now: int, room: int -> bool, bound: int -> nat,
                    selected: int)
    requires Distinct(candidates) && k < |candidates| && candidates[k].id == current
    requires Chosen(candidates, current, now, room, bound, selected) && selected != current
    ensures room(selected) &&
      exists j :: 0 <= j < |candidates| && candidates[j].id == selected && MovesUp(candidates[k], candidates[j], now)
  {
    StandsAt(candidates, k, now);
  }

  // ---- The choice, spelled out ------------------------------------------------------------------

  /** An account that the key may move to: rated, with room, and better by tier or by more than five points. */
  predicate MayMoveTo(c: Account, current: int, standing: Standing, now: int, room: int -> bool) {
    && c.id != current && room(c.id) && Rate(c, now).Some?
    && (c.priority < standing.priority ||
        (c.priority == standing.priority && standing.rating.Some? &&
         Rate(c, now).value.plan == standing.rating.value.plan &&
         Rate(c, now).value.score > standing.rating.value.score + 5.0))
  }

  lemma EligibleExactly(c: Account, current: int, standing: Standing, now: int, room: int -> bool)
    ensures Eligible(c, current, standing, now, room) <==> MayMoveTo(c, current, standing, now, room)
  {
  }

  /** Nothing that c offers is better than what b offers: tier first, then what is free, then the load. */
  predicate NotBetter(b: Account, c: Account, now: int, bound: int -> nat)
    requires Rate(b, now).Some? && Rate(c, now).Some?
  {
    var x, y := Rate(b, now).value.score, Rate(c, now).value.score;
    b.priority < c.priority ||
    (b.priority == c.priority && (x > y || (x == y && Load(b, bound) <= Load(c, bound))))
  }

  /** Candidate k may be moved to, and is the first that no other such one is better than. */
  predicate Foremost(candidates: seq<Account>, k: nat, current: int, standing: Standing, now: int, room: int -> bool,
                     bound: int -> nat) {
    && k < |candidates| && MayMoveTo(candidates[k], current, standing, now, room)
    && forall j :: 0 <= j < |candidates| && MayMoveTo(candidates[j], current, standing, now, room) ==>
         && NotBetter(candidates[k], candidates[j], now, bound)
         && (NotBetter(candidates[j], candidates[k], now, bound) ==> k <= j)
  }

  lemma {:induction false} StandsNowhere(candidates: seq<Account>, id: int, now: int)
    requires forall k :: 0 <= k < |candidates| ==> candidates[k].id != id
    ensures StandingOf(candidates, id, now) == Standing(0, None)
  {
    if candidates != [] { StandsNowhere(candidates[..|candidates| - 1], id, now); }
  }

  /**
   The key stays exactly if there is no account it may move to; otherwise it moves to one of those
   that no other of them is better than, the first of several equals.
   */
  lemma SelectExactly(candidates: seq<Account>, current: int, now: int, room: int -> bool, bound: int -> nat,
                      selected: int)
    requires Chosen(candidates, current, now, room, bound, selected)
    ensures var standing := StandingOf(candidates, current, now);
            && (selected == current <==>
                forall j :: 0 <= j < |candidates| ==> !MayMoveTo(candidates[j], current, standing, now, room))
            && (selected != current ==>
                  exists k: nat ::
                    Foremost(candidates, k, current, standing, now, room, bound) && candidates[k].id == selected)
  {
    var standing := StandingOf(candidates, current, now);
    forall j | 0 <= j < |candidates|
      ensures Eligible(candidates[j], current, standing, now, room) <==>
        MayMoveTo(candidates[j], current, standing, now, room)
    {
      EligibleExactly(candidates[j], current, standing, now, room);
    }
    if !NoneEligible(candidates, current, standing, now, room) {
      var k: nat :| Best(candidates, k, current, standing, now, room, bound) && candidates[k].id == selected;
      forall j | 0 <= j < |candidates| && MayMoveTo(candidates[j], current, standing, now, room)
        ensures NotBetter(candidates[k], candidates[j], now, bound) &&
          (NotBetter(candidates[j], candidates[k], now, bound) ==> k <= j)
      {
        assert Eligible(candidates[j], current, standing, now, room);
      }
      assert Foremost(candidates, k, current, standing, now, room, bound);
    }
  }
}
