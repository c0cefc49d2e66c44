/**
 What every reachable session state satisfies, thread by thread. `Keeps` is what any step
 leaves to the other threads, `Aside` what the threads other than the client reader leave to
 the reader; each thread's own assertion survives them.
 */
module SessionInvariant {
  import opened Collections
  import opened SessionModel

  // ---- The shared state -----------------------------------------------------------------------

  predicate Unfinished(t: Turn) {
    !t.finished
  }

  predicate Increasing(turns: seq<nat>) {
    forall i, j :: 0 <= i < j < |turns| ==> turns[i] < turns[j]
  }

  /** A queue holds unfinished turns of its stream, in the order of their arrival. */
  predicate StreamOk(d: Shared, s: string)
    requires s in d.streams
  {
    && Increasing(d.streams[s].turns)
    && forall t :: t in d.streams[s].turns ==> t in d.turns && !d.turns[t].finished && d.turns[t].stream == s
  }

  /** A turn that is not finished waits in the queue of its stream. */
  predicate TurnOk(d: Shared, t: nat)
    requires t in d.turns
  {
    && t < d.next
    && (!d.turns[t].finished ==> d.turns[t].stream in d.streams && t in d.streams[d.turns[t].stream].turns)
  }

  predicate Queued(d: Shared) {
    && (forall s :: s in d.streams ==> StreamOk(d, s))
    && (forall t :: t in d.turns ==> TurnOk(d, t))
  }

  /** Nothing is in flight except possibly one turn, and nothing runs. */
  predicate Only(d: Shared, id: Option<nat>) {
    && !d.native
    && (forall t :: t in d.turns && Some(t) != id ==> d.turns[t].finished)
    && (forall s :: s in d.streams ==> !d.streams[s].running)
  }

  ghost predicate SharedOk(d: Shared) {
    && Queued(d)
    && d.pending == Count(d.turns, Unfinished) && d.pending <= MAX_CONNECTION_TURNS
    && |d.named| <= MAX_NAMED_STREAMS
    && (d.native ==> d.pinned)
    && (!d.pinned ==> Only(d, None))
    && (forall r: nat :: r in d.released <==> r < d.next)
  }

  // ---- What each thread may rely on ---------------------------------------------------------------

  /** A request that has not become a turn: newer than every turn. */
  predicate Unborn(d: Shared, q: Req) {
    q.id < d.next && forall t :: t in d.turns ==> t < q.id
  }

  predicate Born(d: Shared, q: Req) {
    q.id in d.turns && d.turns[q.id].stream == q.stream
  }

  predicate Runs(d: Shared, s: string) {
    d.pinned && !d.native && s in d.streams && d.streams[s].running
  }

  predicate Room(d: Shared, q: Req) {
    d.pending < MAX_CONNECTION_TURNS && NamedRoom(d, q)
  }

  /** The turn of the first bridge request, before anything of it reached the client. */
  predicate Untouched(d: Shared, q: Req) {
    Born(d, q) && Only(d, Some(q.id)) && !d.turns[q.id].forwarded
  }

  predicate ReaderOk(d: Shared, pc: Pc) {
    match pc
    case Exit => true
    case Idle => true
    case Got(q) => Unborn(d, q)
    case WriteBack(q, _) => Unborn(d, q)
    case Ensure(q) => Unborn(d, q)
    case Drop(q) => Unborn(d, q)
    case Pinning(q) => Unborn(d, q) && !d.pinned
    case PinnedNative(q) => Unborn(d, q) && d.pinned && d.native
    case Ready(q, first) => Unborn(d, q) && d.pinned && (first ==> Only(d, None))
    case Checked(q, _, first) => Unborn(d, q) && d.pinned && Room(d, q) && (first ==> Only(d, None))
    case Leased(q, _, first) => Unborn(d, q) && d.pinned && Room(d, q) && (first ==> Only(d, None))
    case Attached(q, first) => d.pinned && Born(d, q) && (first ==> Untouched(d, q))
    case Writing(turn) => d.pinned && d.native
    case Opening(q) => d.pinned && Untouched(d, q)
    case OpenLeased(q, _) => d.pinned && Untouched(d, q)
    case ResetPin => d.pinned && Only(d, None)
    case Starting(_) => d.pinned && !d.native
    case Spawning(s) => Runs(d, s)
    case _ => false
  }

  predicate UpstreamOk(d: Shared, pc: Pc) {
    && d.pinned && d.native
    && (pc.Exit? || pc.UpIdle? || pc.UpReading? || pc.UpEvent? || pc.UpSwitching? || pc.UpLeased? || pc.UpWriting?
        || pc.UpForward? || pc.UpWrote?)
  }

  /** The turn a runner serves is the oldest of its stream until it is finished. */
  predicate Serves(d: Shared, s: string, turn: nat) {
    && Runs(d, s) && turn in d.turns && d.turns[turn].stream == s
    && (d.turns[turn].finished || Head(d, s) == Some(turn))
  }

  predicate RunnerOk(d: Shared, pc: Pc) {
    match pc
    case Exit => true
    case RunLoop(s) => Runs(d, s)
    case RunTurn(s, turn) => Serves(d, s, turn)
    case RunWriteBack(s, turn, _) => Serves(d, s, turn)
    case RunDone(s) => Runs(d, s)
    case _ => false
  }

  /** Every turn still in flight is on the closer's list. */
  predicate Covered(d: Shared, left: seq<nat>) {
    forall t :: t in d.turns && !d.turns[t].finished ==> t in left
  }

  predicate CloserOk(d: Shared, pc: Pc) {
    && d.closed
    && match pc
       case Cancelling(left) => Covered(d, left)
       case Closing(left) => Covered(d, left)
       case Exit => Covered(d, [])
       case _ => false
  }

  predicate ThreadOk(d: Shared, tid: Tid, t: Thread) {
    && (t.body.Some? ==> t.body.value < d.next)
    && match tid
       case Reader => ReaderOk(d, t.at)
       case Upstream => UpstreamOk(d, t.at)
       case Closer => CloserOk(d, t.at)
       case Runner(_) => RunnerOk(d, t.at)
  }

  /** The stream whose running flag a thread answers for. */
  function Owns(pc: Pc): Option<string> {
    match pc
    case Spawning(s) => Some(s)
    case RunLoop(s) => Some(s)
    case RunTurn(s, _) => Some(s)
    case RunWriteBack(s, _, _) => Some(s)
    case RunDone(s) => Some(s)
    case _ => None
  }

  // ---- What a step leaves to the other threads ---------------------------------------------------

  /** Turns and queues only move forward: a head stays head until it is finished. */
  predicate Advances(d: Shared, d': Shared) {
    && (forall t :: t in d.turns ==>
          t in d'.turns && d'.turns[t].stream == d.turns[t].stream && (d.turns[t].finished ==> d'.turns[t].finished))
    && (forall s :: s in d.streams ==> s in d'.streams)
    && (forall s :: s in d.streams && Head(d, s).Some? ==>
          Head(d', s) == Head(d, s) || (Head(d, s).value in d'.turns && d'.turns[Head(d, s).value].finished))
  }

  /** Any step, by a thread that answers for the stream `own`. */
  predicate Keeps(d: Shared, d': Shared, own: Option<string>) {
    && Advances(d, d') && d.next <= d'.next
    && d.closed == d'.closed && (d.cancelled ==> d'.cancelled)
    && (d.closed ==> forall t :: t in d'.turns && !d'.turns[t].finished ==> t in d.turns && !d.turns[t].finished)
    && (d.pinned && d.native ==> d'.pinned && d'.native)
    && (forall s :: s in d.streams && d.streams[s].running ==>
          && (d.pinned ==> d'.pinned && d'.native == d.native)
          && (Some(s) != own ==> s in d'.streams && d'.streams[s].running))
  }

  /** A step of a thread other than the client reader. */
  predicate Aside(d: Shared, d': Shared) {
    && d'.turns.Keys == d.turns.Keys && d'.streams.Keys == d.streams.Keys && d'.next == d.next
    && d'.named == d.named && d'.pinned == d.pinned && d'.native == d.native && d'.pending <= d.pending
    && (forall s :: s in d.streams ==>
          && (d'.streams[s].running ==> d.streams[s].running)
          && (Head(d', s).Some? ==> Head(d, s).Some?))
    && (forall t :: t in d.turns && d'.turns[t].forwarded && !d.turns[t].forwarded ==>
          d.native || (d.turns[t].stream in d.streams && d.streams[d.turns[t].stream].running))
  }

  lemma ReaderStable(d: Shared, d': Shared, own: Option<string>, pc: Pc)
    requires ReaderOk(d, pc) && Keeps(d, d', own) && Aside(d, d')
    requires pc.Spawning? ==> own != Some(pc.stream)
    ensures ReaderOk(d', pc)
  {
  }

  lemma OtherStable(d: Shared, d': Shared, own: Option<string>, tid: Tid, t: Thread)
    requires tid != Reader && ThreadOk(d, tid, t) && Keeps(d, d', own)
    requires Owns(t.at).Some? ==> own != Owns(t.at)
    ensures ThreadOk(d', tid, t)
  {
  }

  // ---- The operations ------------------------------------------------------------------------------

  lemma {:induction false} WithoutMember(turns: seq<nat>, x: nat, y: nat)
    requires Increasing(turns)
    ensures y in Without(turns, x) <==> y in turns && y != x
  {
    if turns != [] {
      assert turns == [turns[0]] + turns[1..];
      if turns[0] == x {
        assert forall k :: 0 <= k < |turns[1..]| ==> turns[1..][k] > x;
      } else {
        WithoutMember(turns[1..], x, y);
      }
    }
  }

  lemma {:induction false} WithoutIncreasing(turns: seq<nat>, x: nat)
    requires Increasing(turns)
    ensures Increasing(Without(turns, x))
    ensures turns != [] && turns[0] != x ==> Without(turns, x) != [] && Without(turns, x)[0] == turns[0]
  {
    if turns != [] && turns[0] != x {
      WithoutIncreasing(turns[1..], x);
      var rest := Without(turns[1..], x);
      forall k | 0 <= k < |rest|
        ensures turns[0] < rest[k]
      {
        assert rest[k] in rest;
        WithoutMember(turns[1..], x, rest[k]);
        assert rest[k] in turns[1..];
      }
    }
  }

  lemma FinishQueued(d: Shared, turn: nat)
    requires Queued(d) && turn in d.turns && !d.turns[turn].finished
    ensures Queued(FinishTurn(d, turn)) && Advances(d, FinishTurn(d, turn))
    ensures forall s :: s in d.streams && Head(FinishTurn(d, turn), s).Some? ==> Head(d, s).Some?
  {
    var d' := FinishTurn(d, turn);
    assert TurnOk(d, turn);
    var s0 := d.turns[turn].stream;
    assert StreamOk(d, s0);
    WithoutIncreasing(d.streams[s0].turns, turn);
    forall y: nat
      ensures y in Without(d.streams[s0].turns, turn) <==> y in d.streams[s0].turns && y != turn
    {
      WithoutMember(d.streams[s0].turns, turn, y);
    }
    forall s | s in d'.streams
      ensures StreamOk(d', s)
    {
      assert StreamOk(d, s);
    }
    forall t | t in d'.turns
      ensures TurnOk(d', t)
    {
      assert TurnOk(d, t);
    }
  }

  lemma AddStream(d: Shared, q: Req, account: string, s: string)
    requires Queued(d) && Unborn(d, q) && s in AddTurn(d, q, account).streams
    ensures StreamOk(AddTurn(d, q, account), s)
  {
    if s in d.streams {
      assert StreamOk(d, s);
      var queue := d.streams[s].turns;
      forall k | 0 <= k < |queue|
        ensures queue[k] < q.id
      {
        assert queue[k] in queue;
      }
    }
  }

  lemma AddQueued(d: Shared, q: Req, account: string)
    requires Queued(d) && Unborn(d, q)
    ensures Queued(AddTurn(d, q, account)) && Advances(d, AddTurn(d, q, account))
  {
    var d' := AddTurn(d, q, account);
    forall s | s in d'.streams
      ensures StreamOk(d', s)
    {
      AddStream(d, q, account, s);
    }
    forall t | t in d'.turns
      ensures TurnOk(d', t)
    {
      if t in d.turns { assert TurnOk(d, t); }
    }
  }

  /** Writing to a turn without finishing or moving it between streams. */
  lemma TouchQueued(d: Shared, turn: nat, t: Turn)
    requires Queued(d) && turn in d.turns && t.stream == d.turns[turn].stream && t.finished == d.turns[turn].finished
    ensures Queued(d.(turns := d.turns[turn := t]))
  {
    var d' := d.(turns := d.turns[turn := t]);
    forall s | s in d'.streams
      ensures StreamOk(d', s)
    {
      assert StreamOk(d, s);
    }
    forall x | x in d'.turns
      ensures TurnOk(d', x)
    {
      assert TurnOk(d, x);
    }
  }

  lemma RunningQueued(d: Shared, s: string, running: bool)
    requires Queued(d) && s in d.streams
    ensures Queued(SetRunning(d, s, running))
  {
    var d' := SetRunning(d, s, running);
    forall x | x in d'.streams
      ensures StreamOk(d', x)
    {
      assert StreamOk(d, x);
    }
    forall t | t in d'.turns
      ensures TurnOk(d', t)
    {
      assert TurnOk(d, t);
    }
  }

  lemma FinishShared(d: Shared, turn: nat)
    requires SharedOk(d) && turn in d.turns && !d.turns[turn].finished
    ensures SharedOk(FinishTurn(d, turn))
  {
    FinishQueued(d, turn);
    CountUpdate(d.turns, Unfinished, turn, d.turns[turn].(finished := true));
    assert d.pinned;
  }

  lemma FinishKeeps(d: Shared, turn: nat, own: Option<string>)
    requires Queued(d) && turn in d.turns && !d.turns[turn].finished
    ensures Keeps(d, FinishTurn(d, turn), own) && Aside(d, FinishTurn(d, turn))
  {
    FinishQueued(d, turn);
    var d' := FinishTurn(d, turn);
    assert TurnOk(d, turn);
    assert d'.turns.Keys == d.turns.Keys;
    assert d'.streams.Keys == d.streams.Keys;
  }

  lemma FinishOk(d: Shared, turn: nat, pc: Pc, own: Option<string>)
    requires SharedOk(d)
    ensures var e := Finish(d, turn, pc); SharedOk(e.d) && Keeps(d, e.d, own) && Aside(d, e.d)
    ensures var e := Finish(d, turn, pc); e.self.body.Some? ==> e.self.body.value < e.d.next
    ensures var e := Finish(d, turn, pc); turn in e.d.turns ==> e.d.turns[turn].finished
  {
    if turn in d.turns && !d.turns[turn].finished {
      FinishShared(d, turn);
      FinishKeeps(d, turn, own);
      assert TurnOk(d, turn);
    } else {
      FieldsOk(d, d, own);
    }
  }

  lemma AddOk(d: Shared, q: Req, account: string)
    requires SharedOk(d) && Unborn(d, q) && d.pinned && Room(d, q) && !d.closed
    ensures var d' := AddTurn(d, q, account); SharedOk(d') && Keeps(d, d', None) && Born(d', q)
  {
    AddQueued(d, q, account);
    CountUpdate(d.turns, Unfinished, q.id, Turn(q.stream, account, q.continuation, false, false));
  }

  lemma TouchKeeps(d: Shared, turn: nat, t: Turn, own: Option<string>)
    requires Queued(d) && turn in d.turns && t.stream == d.turns[turn].stream && t.finished == d.turns[turn].finished
    requires t.forwarded && !d.turns[turn].forwarded ==>
               d.native || (t.stream in d.streams && d.streams[t.stream].running)
    ensures var d' := d.(turns := d.turns[turn := t]); Keeps(d, d', own) && Aside(d, d')
  {
    TouchQueued(d, turn, t);
    assert d.(turns := d.turns[turn := t]).turns.Keys == d.turns.Keys;
  }

  lemma TouchOk(d: Shared, turn: nat, t: Turn, own: Option<string>)
    requires SharedOk(d) && turn in d.turns && t.stream == d.turns[turn].stream && t.finished == d.turns[turn].finished
    requires t.forwarded && !d.turns[turn].forwarded ==>
               d.native || (t.stream in d.streams && d.streams[t.stream].running)
    ensures var d' := d.(turns := d.turns[turn := t]); SharedOk(d') && Keeps(d, d', own) && Aside(d, d')
  {
    TouchKeeps(d, turn, t, own);
    TouchQueued(d, turn, t);
    CountUpdate(d.turns, Unfinished, turn, t);
    assert d.(turns := d.turns[turn := t]).turns.Keys == d.turns.Keys;
  }

  lemma MarkOk(d: Shared, turn: nat, own: Option<string>)
    requires SharedOk(d)
    requires turn in d.turns ==>
      d.native || (d.turns[turn].stream in d.streams && d.streams[d.turns[turn].stream].running)
    ensures var d' := MarkForwarded(d, turn); SharedOk(d') && Keeps(d, d', own) && Aside(d, d')
  {
    if turn in d.turns && !d.turns[turn].finished {
      TouchOk(d, turn, d.turns[turn].(forwarded := true), own);
    } else {
      FieldsOk(d, d, own);
    }
  }

  lemma RunningOk(d: Shared, s: string, running: bool, own: Option<string>)
    requires SharedOk(d) && s in d.streams && d.pinned && (running || own == Some(s))
    ensures var d' := SetRunning(d, s, running); SharedOk(d') && Keeps(d, d', own)
    ensures !running ==> Aside(d, SetRunning(d, s, running))
  {
    RunningQueued(d, s, running);
    assert SetRunning(d, s, running).streams.Keys == d.streams.Keys;
  }

  lemma SameQueued(d: Shared, d': Shared)
    requires Queued(d) && d'.turns == d.turns && d'.streams == d.streams && d.next <= d'.next
    ensures Queued(d') && Advances(d, d')
  {
    forall s | s in d'.streams
      ensures StreamOk(d', s)
    {
      assert StreamOk(d, s);
    }
    forall t | t in d'.turns
      ensures TurnOk(d', t)
    {
      assert TurnOk(d, t);
    }
  }

  /** A new request gets a number and a body nobody has released. */
  lemma ReceiveOk(d: Shared, q: Req)
    requires SharedOk(d) && q.id == d.next
    ensures var d' := d.(next := d.next + 1, released := d.released[d.next := 0]);
            SharedOk(d') && Keeps(d, d', None) && Unborn(d', q)
  {
    SameQueued(d, d.(next := d.next + 1, released := d.released[d.next := 0]));
    forall t | t in d.turns
      ensures t < q.id
    {
      assert TurnOk(d, t);
    }
  }

  /** Pinning, switching the mode and unpinning happen only while nothing is in flight. */
  lemma PinOk(d: Shared, d': Shared)
    requires SharedOk(d) && Only(d, None)
    requires d' == d.(account := d'.account, upstream := d'.upstream, native := d'.native, pinned := d'.pinned)
    requires d'.native ==> d'.pinned
    requires d.pinned ==> !d'.native
    ensures SharedOk(d') && Keeps(d, d', None)
  {
    SameQueued(d, d');
  }

  /** Fields that no queue depends on. */
  lemma FieldsOk(d: Shared, d': Shared, own: Option<string>)
    requires SharedOk(d)
    requires d' ==
      d.(account := d'.account, upstream := d'.upstream, switching := d'.switching, cancelled := d'.cancelled,
                      released := d'.released)
    requires d.cancelled ==> d'.cancelled
    requires d'.released.Keys == d.released.Keys
    ensures SharedOk(d') && Keeps(d, d', own) && Aside(d, d')
  {
    SameQueued(d, d');
  }

  lemma MoveOk(d: Shared, turn: nat, account: string, upstream: Option<nat>, own: Option<string>)
    requires SharedOk(d) && turn in d.turns
    ensures var d' := MoveTurn(d, turn, account).(upstream := upstream);
            SharedOk(d') && Keeps(d, d', own) && Aside(d, d')
  {
    var d0 := d.(turns := d.turns[turn := d.turns[turn].(account := account)]);
    TouchOk(d, turn, d.turns[turn].(account := account), own);
    FieldsOk(d0, MoveTurn(d, turn, account).(upstream := upstream), own);
  }
}
