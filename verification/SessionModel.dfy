/**
 One Responses WebSocket session as the critical sections of its threads: the client
 reader, the native upstream reader, the bridge runners and the closer. A step is what one
 thread does under one lock, or one counter or body release between two locks.
 */
module SessionModel {
  import opened Collections

  const MAX_CONNECTION_TURNS := 16
  const MAX_ACCOUNT_TURNS := 16
  const MAX_NAMED_STREAMS := 32

  /** A parsed response.create message; its id also names its body reservation and its turn. */
  datatype Req = Req(id: nat, stream: string, named: bool, continuation: bool)
  datatype Turn = Turn(stream: string, account: string, continuation: bool, forwarded: bool, finished: bool)
  datatype Stream = Stream(turns: seq<nat>, running: bool)

  /** The fields behind session.mu, and how often each request body was released. */
  datatype Shared = Shared(
    account: string, upstream: Option<nat>, native: bool, pinned: bool, switching: bool,
    closed: bool, cancelled: bool, streams: map<string, Stream>, pending: nat, named: set<string>,
    turns: map<nat, Turn>, next: nat, released: map<nat, nat>)

  /** Where a thread is between two critical sections. */
  datatype Pc =
    | Exit
    // client reader
    | Idle
    | Got(q: Req)
    | WriteBack(q: Req, routed: string)
    | Ensure(q: Req)
    | Pinning(q: Req)
    | PinnedNative(q: Req)
    | Ready(q: Req, first: bool)
    | Checked(q: Req, lease: string, first: bool)
    | Leased(q: Req, lease: string, first: bool)
    | Attached(q: Req, first: bool)
    | Writing(turn: nat)
    | Opening(q: Req)
    | OpenLeased(q: Req, lease: string)
    | ResetPin
    | Starting(stream: string)
    | Spawning(stream: string)
    | Drop(q: Req)
    // native upstream reader
    | UpIdle
    | UpReading(conn: nat)
    | UpEvent(seen: Option<nat>, conn: nat, limit: bool, terminal: bool)
    | UpSwitching(turn: nat, conn: nat, terminal: bool)
    | UpLeased(turn: nat, conn: nat, terminal: bool, lease: string)
    | UpWriting(turn: nat)
    | UpForward(seen: Option<nat>, limit: bool, terminal: bool)
    | UpWrote(seen: Option<nat>, limit: bool, terminal: bool)
    // bridge runner
    | RunLoop(stream: string)
    | RunTurn(stream: string, turn: nat)
    | RunWriteBack(stream: string, turn: nat, routed: string)
    | RunDone(stream: string)
    // closer
    | Cancelling(left: seq<nat>)
    | Closing(left: seq<nat>)

  datatype Tid = Reader | Upstream | Closer | Runner(n: nat)

  /** A thread: its position, and the body and the lease it must give back before it goes on. */
  datatype Thread = Thread(at: Pc, body: Option<nat>, lease: Option<string>)

  datatype Session = Session(d: Shared, threads: map<Tid, Thread>)

  /** The choices that locks, clients, upstreams and stores make. */
  datatype Action =
    | Receive(stream: string, named: bool, continuation: bool)
    | Leave
    | Reject
    | Go
    | Pin(account: string, native: bool, conn: nat)
    | Grant(account: string, granted: bool)
    | Succeed
    | Fail(resettable: bool)
    | Event(stream: string, limit: bool, terminal: bool)
    | Switch(reassigned: bool)
    | Transfer(conn: nat)
    | Spawn(n: nat)
    | Observe
    | Resolve

  // ---- Critical sections ---------------------------------------------------------------------

  function Head(d: Shared, stream: string): Option<nat> {
    if stream in d.streams && d.streams[stream].turns != [] then Some(d.streams[stream].turns[0]) else None
  }

  function Without(turns: seq<nat>, turn: nat): (rest: seq<nat>)
  {
    if turns == [] then [] else if turns[0] == turn then turns[1..] else [turns[0]] + Without(turns[1..], turn)
  }

  /** The last section of reserveTurn. */
  function AddTurn(d: Shared, q: Req, account: string): Shared {
    var queue := if q.stream in d.streams then d.streams[q.stream] else Stream([], false);
    d.(named := if q.named then d.named + {q.stream} else d.named,
       streams := d.streams[q.stream := queue.(turns := queue.turns + [q.id])],
       turns := d.turns[q.id := Turn(q.stream, account, q.continuation, false, false)],
       pending := d.pending + 1)
  }

  /** The locked part of finishTurn, for a turn that is not finished. */
  function FinishTurn(d: Shared, turn: nat): Shared
    requires turn in d.turns
  {
    var stream := d.turns[turn].stream;
    d.(turns := d.turns[turn := d.turns[turn].(finished := true)],
       streams := if stream in d.streams
                  then d.streams[stream := d.streams[stream].(turns := Without(d.streams[stream].turns, turn))]
                  else d.streams,
       pending := if d.pending > 0 then d.pending - 1 else 0)
  }

  /** observeTurn, as far as accounts are concerned. */
  function MarkForwarded(d: Shared, turn: nat): Shared {
    if turn !in d.turns || d.turns[turn].finished then d
    else d.(turns := d.turns[turn := d.turns[turn].(forwarded := true)])
  }

  function MoveTurn(d: Shared, turn: nat, account: string): Shared
    requires turn in d.turns
  {
    d.(account := account, turns := d.turns[turn := d.turns[turn].(account := account)])
  }

  function SetRunning(d: Shared, stream: string, running: bool): Shared
    requires stream in d.streams
  {
    d.(streams := d.streams[stream := d.streams[stream].(running := running)])
  }

  function Release(d: Shared, body: nat): Shared {
    d.(released := d.released[body := 1 + (if body in d.released then d.released[body] else 0)])
  }

  /** The result of one step: shared state, the thread itself, and a thread it started. */
  datatype Effect = Effect(d: Shared, self: Thread, started: map<Tid, Thread>)

  function At(pc: Pc): Thread {
    Thread(pc, None, None)
  }

  function Move(d: Shared, pc: Pc): Effect {
    Effect(d, At(pc), map[])
  }

  /** Continue at pc after giving a lease back. */
  function Free(d: Shared, lease: string, pc: Pc): Effect {
    Effect(d, Thread(pc, None, Some(lease)), map[])
  }

  /** finishTurn called by a thread that then continues at pc. */
  function Finish(d: Shared, turn: nat, pc: Pc): Effect {
    if turn !in d.turns || d.turns[turn].finished then Move(d, pc)
    else Effect(FinishTurn(d, turn), Thread(pc, Some(turn), Some(d.turns[turn].account)), map[])
  }

  // ---- The client reader ------------------------------------------------------------------------

  predicate NamedRoom(d: Shared, q: Req) {
    q.named && q.stream !in d.named ==> |d.named| < MAX_NAMED_STREAMS
  }

  /** handleRequest up to the reservation of the turn. */
  function ReaderAdmits(d: Shared, pc: Pc, a: Action): Option<Effect> {
    match (pc, a)
    case (Idle, Receive(stream, named, continuation)) =>
      Some(Move(d.(next := d.next + 1, released := d.released[d.next := 0]),
                Got(Req(d.next, stream, named, continuation))))
    case (Idle, Leave) => Some(Move(d, Exit))
    case (Got(q), Reject) => Some(Move(d, Drop(q)))
    case (WriteBack(q, _), Reject) => Some(Move(d, Drop(q)))
    case (Ensure(q), Reject) => Some(Move(d, Drop(q)))
    case (Pinning(q), Reject) => Some(Move(d, Drop(q)))
    case (Ready(q, _), Reject) => Some(Move(d, Drop(q)))
    case (Got(q), Go) => Some(Move(d, if d.pinned then WriteBack(q, d.account) else Ensure(q)))
    case (WriteBack(q, routed), Go) => Some(Move(d.(account := routed), Ensure(q)))
    case (Ensure(q), Go) =>
      Some(Move(d, if !d.pinned then Pinning(q) else if d.switching then Drop(q) else Ready(q, false)))
    case (Pinning(q), Pin(account, native, conn)) =>
      if d.closed then Some(Move(d, Drop(q)))
      else
        Some(Move(d.(account := account, upstream := if native then Some(conn)
          else None, native := native, pinned := true),
                  if native then PinnedNative(q) else Ready(q, true)))
    case (PinnedNative(q), Go) =>
      if d.closed then Some(Move(d, Drop(q))) else Some(Effect(d, At(Ready(q, false)), map[Upstream := At(UpIdle)]))
    case (Ready(q, first), Go) =>
      if d.closed || d.switching || d.pending >= MAX_CONNECTION_TURNS || !NamedRoom(d, q) then Some(Move(d, Drop(q)))
      else Some(Move(d, Checked(q, d.account, first)))
    case (Checked(q, lease, first), Grant(account, granted)) =>
      if account != lease then None
      else Some(Move(d, if granted then Leased(q, lease, first) else Drop(q)))
    case (Leased(q, lease, first), Go) =>
      if d.closed || d.switching then Some(Free(d, lease, Drop(q)))
      else Some(Move(AddTurn(d, q, lease), Attached(q, first)))
    case (Drop(q), Go) => Some(Move(Release(d, q.id), Idle))
    case _ => None
  }

  /** handleRequest after the reservation: native write, bridge failover, bridge start. */
  function ReaderStarts(d: Shared, pc: Pc, a: Action): Option<Effect> {
    match (pc, a)
    case (Attached(q, first), Go) =>
      Some(Move(d, if d.native then Writing(q.id) else if first then Opening(q) else Starting(q.stream)))
    case (Writing(turn), Succeed) => Some(Move(d, Idle))
    case (Writing(turn), Fail(_)) => Some(Finish(d, turn, Exit))
    case (Opening(q), Succeed) => Some(Move(d, Starting(q.stream)))
    case (Opening(q), Fail(resettable)) => Some(Finish(d, q.id, if resettable then ResetPin else Idle))
    case (Opening(q), Grant(account, granted)) =>
      if q.continuation then None else Some(Move(d, if granted then OpenLeased(q, account) else Opening(q)))
    case (OpenLeased(q, lease), Go) =>
      if d.closed || d.native || !d.pinned || q.id !in d.turns || d.turns[q.id].finished
      then Some(Free(d, lease, Opening(q)))
      else Some(Free(MoveTurn(d, q.id, lease), d.turns[q.id].account, Opening(q)))
    case (ResetPin, Go) =>
      Some(Move(if !d.closed && !d.native && d.pending == 0 then d.(pinned := false, account := "") else d, Idle))
    case (Starting(stream), Go) =>
      if d.closed || stream !in d.streams || d.streams[stream].running then Some(Move(d, Idle))
      else Some(Move(SetRunning(d, stream, true), Spawning(stream)))
    case (Spawning(stream), Spawn(n)) =>
      Some(if d.closed then Move(d, Idle) else Effect(d, At(Idle), map[Runner(n) := At(RunLoop(stream))]))
    case _ => None
  }

  // ---- The native upstream reader --------------------------------------------------------------------

  /** The first section of retryNativeLimitedTurn. */
  predicate OwnsSwitch(d: Shared, conn: nat) {
    d.native && d.upstream == Some(conn) && !d.switching
  }

  predicate RetrySafe(d: Shared, seen: Option<nat>, conn: nat) {
    && OwnsSwitch(d, conn) && seen.Some? && seen.value in d.turns && d.pending == 1
    && var t := d.turns[seen.value]; !t.finished && !t.continuation && !t.forwarded
  }

  /** transferNativeAccount's test. */
  predicate MayTransfer(d: Shared, turn: nat, conn: nat) {
    && !d.closed && d.native && d.switching && d.upstream == Some(conn)
    && turn in d.turns && !d.turns[turn].finished && !d.turns[turn].forwarded && d.pending == 1
  }

  function UpstreamSteps(d: Shared, pc: Pc, a: Action): Option<Effect> {
    match (pc, a)
    case (UpIdle, Go) => if d.upstream.Some? then Some(Move(d, UpReading(d.upstream.value))) else None
    case (UpReading(conn), Event(stream, limit, terminal)) =>
      Some(Move(d, UpEvent(Head(d, stream), conn, limit, terminal)))
    case (UpReading(_), Leave) => Some(Move(d, Exit))
    case (UpEvent(seen, conn, limit, terminal), Switch(reassigned)) =>
      if !limit then Some(Move(d, UpForward(seen, false, terminal)))
      else
        Some(Move(if OwnsSwitch(d, conn) then d.(switching := true) else d,
                  if RetrySafe(d, seen, conn) && reassigned then UpSwitching(seen.value, conn, terminal)
                  else UpForward(seen, true, terminal)))
    case (UpSwitching(turn, conn, terminal), Grant(account, granted)) =>
      Some(Move(d, if granted then UpLeased(turn, conn, terminal, account) else pc))
    case (UpSwitching(turn, conn, terminal), Leave) => Some(Move(d, UpForward(Some(turn), true, terminal)))
    case (UpLeased(turn, conn, terminal, lease), Transfer(replacement)) =>
      if MayTransfer(d, turn, conn) then
        Some(Free(MoveTurn(d, turn, lease).(upstream := Some(replacement)), d.turns[turn].account, UpWriting(turn)))
      else Some(Free(d, lease, UpForward(Some(turn), true, terminal)))
    case (UpWriting(turn), Succeed) => Some(Move(d.(switching := false), UpIdle))
    case (UpWriting(turn), Fail(_)) => Some(Move(d, UpIdle))
    case (UpForward(seen, limit, terminal), Go) =>
      Some(Move(if seen.Some? then MarkForwarded(d, seen.value) else d,
                UpWrote(seen, limit, terminal)))
    case (UpWrote(seen, limit, terminal), Fail(_)) => Some(Move(d, Exit))
    case (UpWrote(seen, limit, terminal), Succeed) =>
      var ret := if limit then Exit else UpIdle;
      Some(if seen.Some? && terminal then Finish(d, seen.value, ret) else Move(d, ret))
    case _ => None
  }

  // ---- Bridge runners, the closer, and the shared tail ---------------------------------------------------

  function RunnerSteps(d: Shared, pc: Pc, a: Action): Option<Effect> {
    match (pc, a)
    case (RunLoop(stream), Go) =>
      if stream !in d.streams then Some(Move(d, Exit))
      else if d.streams[stream].turns == [] then Some(Move(SetRunning(d, stream, false), Exit))
      else Some(Move(d, RunTurn(stream, d.streams[stream].turns[0])))
    case (RunTurn(stream, turn), Resolve) =>
      Some(Move(d, if d.pinned then RunWriteBack(stream, turn, d.account) else pc))
    case (RunWriteBack(stream, turn, routed), Go) => Some(Move(d.(account := routed), RunTurn(stream, turn)))
    case (RunTurn(stream, turn), Observe) =>
      Some(Move(MarkForwarded(d, turn), pc))
    case (RunTurn(stream, turn), Go) =>
      Some(Finish(d, turn, RunDone(stream)))
    case (RunDone(stream), Go) => Some(Move(d, if d.cancelled then Exit else RunLoop(stream)))
    case _ => None
  }

  function CloserSteps(d: Shared, pc: Pc, a: Action): Option<Effect> {
    match (pc, a)
    case (Cancelling(left), Go) => Some(Move(d.(cancelled := true), Closing(left)))
    case (Closing(left), Go) =>
      if left == [] then Some(Move(d, Exit))
      else Some(Finish(d, left[0], Closing(left[1..])))
    case _ => None
  }

  /** What one thread does; None where it cannot do that. Debts come first: the body, then the lease. */
  function Do(d: Shared, tid: Tid, t: Thread, a: Action): Option<Effect> {
    if t.body.Some? then if a.Go? then Some(Effect(Release(d, t.body.value), t.(body := None), map[])) else None
    else if t.lease.Some? then if a.Go? then Some(Effect(d, t.(lease := None), map[])) else None
    else
      match tid
      case Reader => if StartsBridge(t.at) then ReaderStarts(d, t.at, a) else ReaderAdmits(d, t.at, a)
      case Upstream => UpstreamSteps(d, t.at, a)
      case Closer => CloserSteps(d, t.at, a)
      case Runner(_) => RunnerSteps(d, t.at, a)
  }

  predicate StartsBridge(pc: Pc) {
    pc.Attached? || pc.Writing? || pc.Opening? || pc.OpenLeased? || pc.ResetPin? || pc.Starting? || pc.Spawning?
  }

  /** The account whose counter a step raises, and the one it lowers. */
  function Raises(a: Action): Option<string> {
    if a.Grant? && a.granted then Some(a.account) else None
  }

  function Lowers(t: Thread): Option<string> {
    if t.body.None? then t.lease else None
  }

  /** One step of one thread of a session; new runners take an unused number. */
  ghost predicate ThreadStep(s: Session, s': Session, tid: Tid, a: Action) {
    && tid in s.threads
    && (a.Spawn? ==> Runner(a.n) !in s.threads)
    && var e := Do(s.d, tid, s.threads[tid], a);
       e.Some? && s' == Session(e.value.d, s.threads[tid := e.value.self] + e.value.started)
  }

  /** The turns that close collects: every queued turn, in any order. */
  predicate Collected(d: Shared, left: seq<nat>) {
    && (forall stream, k :: stream in d.streams && 0 <= k < |d.streams[stream].turns| ==>
       d.streams[stream].turns[k] in left)
    && (forall k :: 0 <= k < |left| ==> left[k] in d.turns)
  }

  /** close, run once by whichever thread calls it first. */
  ghost predicate CloseStep(s: Session, s': Session, left: seq<nat>) {
    && Closer !in s.threads && Collected(s.d, left)
    && s' == Session(s.d.(closed := true), s.threads[Closer := At(Cancelling(left))])
  }

  /** The session's context ends on its own: life time, client or server shutdown. */
  ghost predicate CancelStep(s: Session, s': Session) {
    s' == s.(d := s.d.(cancelled := true))
  }

  const FRESH := Session(
    Shared("", None, false, false, false, false, false, map[], 0, {}, map[], 0, map[]),
    map[Reader := At(Idle)])
}
