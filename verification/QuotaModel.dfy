/** Quota routing: how accounts are rated, and which one a key should use. */
module QuotaModel {
  import opened Collections

  const MARGIN: real := 5.0
  const SECOND := 1_000_000_000
  const MAX_AGE := 15 * 60 * SECOND

  datatype Window = Window(used: Option<real>, resetAt: int)

  datatype Quota = Quota(plan: string, allowed: Option<bool>, fiveHour: Option<Window>, weekly: Option<Window>)

  /** A candidate; an unreadable snapshot is no quota. Times are in nanoseconds, but for a window's reset. */
  datatype Account = Account(id: int, priority: int, weight: int, quota: Option<Quota>, checked: Option<int>,
    error: string)

  datatype Rating = Rating(score: real, plan: string)

  // ---- Ratings ----------------------------------------------------------------------------------------------

  predicate Fresh(a: Account, now: int) {
    a.checked.Some? && a.checked.value <= now && now - a.checked.value <= MAX_AGE && a.error == ""
  }

  /** A window that is absent says nothing; one that is there must be complete and not used up. */
  predicate WindowOk(w: Option<Window>, now: int) {
    w.Some? ==> w.value.used.Some? && w.value.resetAt > now / SECOND && 0.0 <= w.value.used.value < 100.0
  }

  /** There is a rating. */
  predicate Rated(a: Account, now: int) {
    && Fresh(a, now) && a.quota.Some?
    && var q := a.quota.value;
       && q.plan != "" && q.allowed != Some(false) && (q.fiveHour.Some? || q.weekly.Some?)
       && WindowOk(q.fiveHour, now) && WindowOk(q.weekly, now)
  }

  /** What a window leaves free. */
  predicate Leaves(w: Option<Window>, free: real) {
    w.Some? && w.value.used.Some? && free == 100.0 - w.value.used.value
  }

  /** The rating is the plan and the least that a window leaves free. */
  predicate IsRating(a: Account, now: int, r: Option<Rating>) {
    && (r.Some? <==> Rated(a, now))
    && (r.Some? ==>
          var q, score := a.quota.value, r.value.score;
          && r.value.plan == q.plan && (Leaves(q.fiveHour, score) || Leaves(q.weekly, score))
          && (q.fiveHour.Some? ==> score <= 100.0 - q.fiveHour.value.used.value) &&
             (q.weekly.Some? ==> score <= 100.0 - q.weekly.value.used.value))
  }

  function Min(a: real, b: real): real {
    if a <= b then a else b
  }

  /** What a window bounds the score by. */
  function Free(w: Option<Window>): real {
    if w.Some? && w.value.used.Some? then 100.0 - w.value.used.value else 100.0
  }

  function Rate(a: Account, now: int): Option<Rating> {
    if Rated(a, now)
    then Some(Rating(Min(Free(a.quota.value.fiveHour), Free(a.quota.value.weekly)), a.quota.value.plan)) else None
  }

  lemma RatingExact(a: Account, now: int)
    ensures IsRating(a, now, Rate(a, now))
    ensures Rate(a, now).Some? ==> 0.0 < Rate(a, now).value.score <= 100.0
  {
    if Rated(a, now) {
      var q := a.quota.value;
      assert q.fiveHour.Some? ==> Leaves(q.fiveHour, Free(q.fiveHour));
      assert q.weekly.Some? ==> Leaves(q.weekly, Free(q.weekly));
    }
  }

  /** A window that resets after now and is neither full nor unreadable. */
  predicate Usable(w: Window, now: int) {
    w.used.Some? && 0.0 <= w.used.value < 100.0 && w.resetAt * 1_000_000_000 > now
  }

  /**
   There is a rating exactly for an account without an error whose quota was read within the last
   fifteen minutes, names a plan, allows requests, and has a window, each of them usable.
   */
  lemma RatedExactly(a: Account, now: int)
    ensures Rate(a, now).Some? <==>
      && a.error == "" && a.checked.Some? && 0 <= now - a.checked.value <= 900_000_000_000
      && a.quota.Some? && a.quota.value.plan != "" && a.quota.value.allowed != Some(false)
      && (a.quota.value.fiveHour.Some? || a.quota.value.weekly.Some?)
      && (a.quota.value.fiveHour.Some? ==> Usable(a.quota.value.fiveHour.value, now))
      && (a.quota.value.weekly.Some? ==> Usable(a.quota.value.weekly.value, now))
  {
  }

  /** quotaRoutingScore. */
  method QuotaRoutingScore(a: Account, now: int) returns (r: Option<Rating>)
    ensures r == Rate(a, now)
  {
    if a.checked.None? || a.checked.value > now || now - a.checked.value > MAX_AGE || a.error != "" { return None; }
    if a.quota.None? || a.quota.value.plan == "" || a.quota.value.allowed == Some(false) { return None; }
    var windows := [a.quota.value.fiveHour, a.quota.value.weekly];
    var score, count := 100.0, 0;
    for k := 0 to 2
      invariant forall j :: 0 <= j < k ==> WindowOk(windows[j], now)
      invariant count == 0 <==> forall j :: 0 <= j < k ==> windows[j].None?
      invariant score == if k == 0 then 100.0 else if k == 1 then Free(windows[0])
        else Min(Free(windows[0]), Free(windows[1]))
    {
      var w := windows[k];
      if w.Some? {
        if w.value.used.None? || w.value.resetAt <= now / SECOND || w.value.used.value < 0.0 ||
          w.value.used.value >= 100.0 {
          return None;
        }
        count := count + 1;
        score := Min(score, 100.0 - w.value.used.value);
      }
    }
    if count == 0 { return None; }
    r := Some(Rating(score, a.quota.value.plan));
  }

  // ---- The choice -------------------------------------------------------------------------------------------

  /** Where the key's account stands; an account that is not a candidate stands at priority zero without a rating. */
  datatype Standing = Standing(priority: int, rating: Option<Rating>)

  function StandingOf(candidates: seq<Account>, id: int, now: int): Standing {
    if candidates == [] then Standing(0, None)
    else
      var last := candidates[|candidates| - 1];
      if last.id == id then Standing(last.priority, Rate(last, now))
      else StandingOf(candidates[..|candidates| - 1], id, now)
  }

  /**
   A move would be for the better: to a better tier, or within the tier on the same plan and by
   more than the margin.
   */
  predicate Worthwhile(c: Account, standing: Standing, now: int) {
    && Rate(c, now).Some? && c.priority <= standing.priority
    && (c.priority == standing.priority ==>
          && standing.rating.Some? && Rate(c, now).value.plan == standing.rating.value.plan
          && Rate(c, now).value.score > standing.rating.value.score + MARGIN)
  }

  predicate Eligible(c: Account, current: int, standing: Standing, now: int, room: int -> bool) {
    c.id != current && Worthwhile(c, standing, now) && room(c.id)
  }

  function Load(c: Account, bound: int -> nat): real {
    bound(c.id) as real / (if c.weight > 1 then c.weight else 1) as real
  }

  /** The load is the number of bound keys for each unit of weight; a weight below one counts as one. */
  lemma LoadIs(c: Account, bound: int -> nat)
    ensures c.weight >= 1 ==> Load(c, bound) * c.weight as real == bound(c.id) as real
    ensures c.weight < 1 ==> Load(c, bound) == bound(c.id) as real
  {
  }

  /** a comes before b: by tier, then by score, then by load. */
  predicate Ahead(a: Account, b: Account, now: int, bound: int -> nat)
    requires Rate(a, now).Some? && Rate(b, now).Some?
  {
    var x, y := Rate(a, now).value.score, Rate(b, now).value.score;
    a.priority < b.priority || (a.priority == b.priority && (x > y || (x == y && Load(a, bound) < Load(b, bound))))
  }

  /** Candidate k is the best eligible one, and the first such. */
  ghost predicate Best(candidates: seq<Account>, k: nat, current: int, standing: Standing, now: int, room: int -> bool,
                       bound: int -> nat) {
    && k < |candidates| && Eligible(candidates[k], current, standing, now, room)
    && forall j :: 0 <= j < |candidates| && Eligible(candidates[j], current, standing, now, room) ==>
         !Ahead(candidates[j], candidates[k], now, bound) && (j < k ==> Ahead(candidates[k], candidates[j], now, bound))
  }

  ghost predicate NoneEligible(candidates: seq<Account>, current: int, standing: Standing, now: int,
                               room: int -> bool) {
    forall j :: 0 <= j < |candidates| ==> !Eligible(candidates[j], current, standing, now, room)
  }

  /** The account to use: the best eligible one, or the present one if there is none. */
  ghost predicate Chosen(candidates: seq<Account>, current: int, now: int, room: int -> bool, bound: int -> nat,
                         selected: int) {
    var standing := StandingOf(candidates, current, now);
    || (NoneEligible(candidates, current, standing, now, room) && selected == current)
    || exists k: nat :: Best(candidates, k, current, standing, now, room, bound) && candidates[k].id == selected
  }

  lemma AheadChain(a: Account, b: Account, c: Account, now: int, bound: int -> nat)
    requires Rate(a, now).Some? && Rate(b, now).Some? && Rate(c, now).Some?
    requires Ahead(a, b, now, bound) && !Ahead(c, b, now, bound)
    ensures Ahead(a, c, now, bound) && !Ahead(c, a, now, bound)
  {
  }

  lemma ChosenOnce(candidates: seq<Account>, current: int, now: int, room: int -> bool, bound: int -> nat, a: int,
                   b: int)
    requires Chosen(candidates, current, now, room, bound, a) && Chosen(candidates, current, now, room, bound, b)
    ensures a == b
  {
    var standing := StandingOf(candidates, current, now);
    if !NoneEligible(candidates, current, standing, now, room) {
      var j: nat :| Best(candidates, j, current, standing, now, room, bound) && candidates[j].id == a;
      var k: nat :| Best(candidates, k, current, standing, now, room, bound) && candidates[k].id == b;
      assert j == k;
    }
  }
}
