/** The in-flight byte budget shared by all requests, one atomic operation at a time. */
module BudgetModel {
  import opened Collections

  const MAX: int := 0x7FFF_FFFF_FFFF_FFFF

  /** Where the owner of a reservation is; a target is the size it is to have next. */
  datatype Pc =
    | Free
    | Trying(target: nat, seen: Option<int>)  // tryAcquireWithin, between the load and the swap
    | Won(target: nat)                        // acquired, the new size not yet written
    | Lowering(target: nat)                   // resize, before the budget is given back
    | Lowered(target: nat)                    // given back, the new size not yet written
    | Ending                                  // marked released, not yet given back

  datatype Reservation = Reservation(limit: int, bytes: nat, released: bool, pc: Pc)

  /** The budget's counter and every reservation ever made. */
  datatype Budget = Budget(used: int, all: map<nat, Reservation>)

  /** The bytes that the counter holds for a reservation. */
  function Held(r: Reservation): nat {
    match r.pc
    case Won(target) => target
    case Lowered(target) => target
    case Ending => r.bytes
    case _ => if r.released then 0 else r.bytes
  }

  datatype Action =
    | Open(limit: int)  // a reservation of no bytes
    | AskGrow(target: nat)
    | Load
    | Swap
    | WriteSize
    | AskShrink(target: nat)
    | Give
    | Release

  /** What tryAcquireWithin refuses before it looks at the counter. */
  predicate Refused(bytes: int, limit: int) {
    bytes < 0 || bytes > limit
  }

  /** One atomic step by the owner of a reservation; the counter after it and the reservation. */
  function Act(used: int, r: Reservation, a: Action): Option<(int, Reservation)> {
    match (a, r.pc)
    case (AskGrow(target), Free) =>
      if r.released || target < r.bytes then None
      else Some((used, if Refused(target - r.bytes, r.limit) then r else r.(pc := Trying(target, Option.None))))
    case (Load, Trying(target, _)) =>
      Some((used, if target - r.bytes > r.limit - used then r.(pc := Free) else r.(pc := Trying(target, Some(used)))))
    case (Swap, Trying(target, Some(seen))) =>
      if used == seen then Some((used + (target - r.bytes), r.(pc := Won(target))))
      else Some((used, r.(pc := Trying(target, Option.None))))
    case (WriteSize, Won(target)) => Some((used, r.(pc := Free, bytes := target)))
    case (AskShrink(target), Free) =>
      if target < r.bytes then Some((used, r.(pc := Lowering(target)))) else Some((used, r))
    case (Give, Lowering(target)) =>
      if target < r.bytes then Some((used - (r.bytes - target), r.(pc := Lowered(target)))) else None
    case (WriteSize, Lowered(target)) => Some((used, r.(pc := Free, bytes := target)))
    case (Release, Free) => Some((used, if r.released then r else r.(released := true, pc := Ending)))
    case (Give, Ending) => Some((used - r.bytes, r.(pc := Free)))
    case _ => None
  }

  ghost predicate Next(b: Budget, b': Budget, id: nat, a: Action) {
    if a.Open? then id !in b.all && a.limit <= MAX && b' == b.(all := b.all[id := Reservation(a.limit, 0, false, Free)])
    else
      && id in b.all && Act(b.used, b.all[id], a).Some?
      && (a.AskShrink? ==> !b.all[id].released)
      && b' == Budget(Act(b.used, b.all[id], a).value.0, b.all[id := Act(b.used, b.all[id], a).value.1])
  }

  // ---- The counter is the sum of what is held -------------------------------------------------------------

  function HeldBy(all: map<nat, Reservation>): nat -> nat {
    id => if id in all then Held(all[id]) else 0
  }

  ghost function Total(all: map<nat, Reservation>): nat {
    Sum(all.Keys, HeldBy(all))
  }

  lemma TotalUpdate(all: map<nat, Reservation>, id: nat, r: Reservation)
    ensures Total(all[id := r]) + HeldBy(all)(id) == Total(all) + Held(r)
  {
    var all' := all[id := r];
    var rest := all.Keys - {id};
    assert all'.Keys - {id} == rest;
    SumRemove(all'.Keys, HeldBy(all'), id);
    SumSame(rest, HeldBy(all), HeldBy(all'));
    if id in all {
      SumRemove(all.Keys, HeldBy(all), id);
    } else {
      assert rest == all.Keys;
    }
  }

  /** Sizes and phases of one reservation fit together. */
  predicate ReservationOk(r: Reservation) {
    && r.limit <= MAX
    && match r.pc
       case Free => true
       case Trying(target, _) => !r.released && r.bytes <= target && target - r.bytes <= r.limit
       case Won(target) => !r.released && r.bytes <= target
       case Lowering(target) => !r.released && target < r.bytes
       case Lowered(target) => !r.released && target < r.bytes
       case Ending => r.released
  }

  /** After a load, what was seen leaves room. */
  predicate SeenOk(r: Reservation) {
    r.pc.Trying? && r.pc.seen.Some? ==> r.pc.target - r.bytes <= r.limit - r.pc.seen.value
  }

  ghost predicate Ok(b: Budget) {
    && b.used == Total(b.all) && b.used <= MAX
    && forall id :: id in b.all ==> ReservationOk(b.all[id]) && SeenOk(b.all[id])
  }

  /** The counter moves by exactly what the step's own reservation gains or loses. */
  lemma StepExact(used: int, r: Reservation, a: Action)
    requires ReservationOk(r) && SeenOk(r) && Act(used, r, a).Some? && (a.AskShrink? ==> !r.released) && used <= MAX
    ensures var (used', r') := Act(used, r, a).value;
            && used' - used == Held(r') - Held(r) && ReservationOk(r') && SeenOk(r') && used' <= MAX
  {
  }

  /** No step unbalances the counter. */
  lemma NextOk(b: Budget, b': Budget, id: nat, a: Action)
    requires Ok(b) && Next(b, b', id, a)
    ensures Ok(b') && 0 <= b'.used
  {
    if a.Open? {
      TotalUpdate(b.all, id, Reservation(a.limit, 0, false, Free));
    } else {
      StepExact(b.used, b.all[id], a);
      TotalUpdate(b.all, id, Act(b.used, b.all[id], a).value.1);
    }
  }

  // ---- Runs ---------------------------------------------------------------------------------------------------

  ghost predicate IsRun(run: seq<Budget>, ids: seq<nat>, actions: seq<Action>) {
    && |run| == |ids| + 1 == |actions| + 1 && run[0] == Budget(0, map[])
    && forall k :: 0 <= k < |ids| ==> Next(run[k], run[k + 1], ids[k], actions[k])
  }

  lemma {:induction false} RunOk(run: seq<Budget>, ids: seq<nat>, actions: seq<Action>, k: nat)
    requires IsRun(run, ids, actions) && k < |run|
    ensures Ok(run[k])
    decreases k
  {
    if k > 0 {
      RunOk(run, ids, actions, k - 1);
      NextOk(run[k - 1], run[k], ids[k - 1], actions[k - 1]);
    }
  }

  /** The steps that raise the counter. */
  predicate Acquires(b: Budget, id: nat, a: Action) {
    a.Swap? && id in b.all && b.all[id].pc.Trying? && b.all[id].pc.seen == Some(b.used)
  }

  /** Arithmetic of an acquisition stays within 64 bits: the room that is left, and the new total. */
  predicate InRange(n: int) {
    -MAX - 1 <= n <= MAX
  }

  /** What every step promises. */
  ghost predicate StepPromises(b: Budget, b': Budget, id: nat, a: Action) {
    && b.used == Total(b.all) && 0 <= b.used && 0 <= b'.used && InRange(b.used)
    && (Acquires(b, id, a) ==> b'.used - b.used == b.all[id].pc.target - b.all[id].bytes && b'.used <= b.all[id].limit)
    && (b'.used > b.used ==> Acquires(b, id, a))
    && (id in b.all && b.all[id].pc.Trying? ==> InRange(b.all[id].limit - b.used))
    && ((forall i :: i in b.all ==> b.all[i].released && b.all[i].pc == Free) ==> b.used == 0)
  }

  lemma Raises(used: int, r: Reservation, a: Action)
    requires ReservationOk(r) && SeenOk(r) && Act(used, r, a).Some? && (a.AskShrink? ==> !r.released)
    ensures var used' := Act(used, r, a).value.0;
            if a.Swap? && r.pc.Trying? && r.pc.seen == Some(used) then used' - used == r.pc.target - r.bytes &&
              used' <= r.limit else used' <= used
  {
  }

  lemma StepKeepsPromises(b: Budget, b': Budget, id: nat, a: Action)
    requires Ok(b) && Next(b, b', id, a)
    ensures StepPromises(b, b', id, a)
  {
    NextOk(b, b', id, a);
    if !a.Open? { Raises(b.used, b.all[id], a); }
    if forall i :: i in b.all ==> b.all[i].released && b.all[i].pc == Free { NothingHeld(b.all); }
  }

  /**
   Every run of any number of requests: the counter is the sum of what they hold and is
   never negative, so giving back never panics; every acquisition leaves it within the
   limit that its own request was admitted under; nothing overflows; and when all have been
   released the counter is zero.
   */
  lemma EveryRun(run: seq<Budget>, ids: seq<nat>, actions: seq<Action>, k: nat)
    requires IsRun(run, ids, actions) && k < |ids|
    ensures StepPromises(run[k], run[k + 1], ids[k], actions[k])
  {
    RunOk(run, ids, actions, k);
    StepKeepsPromises(run[k], run[k + 1], ids[k], actions[k]);
  }

  lemma NothingHeld(all: map<nat, Reservation>)
    requires forall id :: id in all ==> Held(all[id]) == 0
    ensures Total(all) == 0
  {
    SumSame(all.Keys, HeldBy(all), _ => 0);
    SumZero(all.Keys);
  }

  lemma {:induction false} SumZero(keys: set<nat>)
    ensures Sum(keys, _ => 0) == 0
    decreases |keys|
  {
    if keys != {} {
      var k :| k in keys;
      SumRemove(keys, _ => 0, k);
      SumZero(keys - {k});
    }
  }

  /** A reservation is given back once: releasing it again changes nothing. */
  lemma ReleasedOnce(b: Budget, b': Budget, id: nat)
    requires Ok(b) && id in b.all && b.all[id].released && Next(b, b', id, Release)
    ensures b' == b
  {
    assert b.all[id := b.all[id]] == b.all;
  }

  /** Shrinking keeps the account exact if and only if the reservation has not been released. */
  lemma ShrinkExactlyWhileHeld(used: int, r: Reservation, target: nat)
    requires r.pc == Free && target < r.bytes
    ensures Act(used, r, AskShrink(target)).Some?
    ensures var asked := Act(used, r, AskShrink(target)).value.1;
            && Act(used, asked, Give).Some?
            && ((Act(used, asked, Give).value.0 - used ==
                 Held(Act(used, asked, Give).value.1.(pc := Free, bytes := target)) - Held(r)) <==> !r.released)
  {
  }
}
