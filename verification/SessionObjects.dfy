/**
 The hub and the session as the objects the program has: fields behind a mutex, changed in
 place. Each method is one critical section and is tied to the step it performs in
 SessionModel.
 */
module SessionObjects {
  import opened Collections
  import opened SessionModel
  import opened SessionInvariant
  import opened SessionSystem

  const MAX_CONNECTIONS := 256
  const MAX_CONNECTIONS_PER_KEY := 32

  ghost function PerKey(connections: map<string, nat>): string -> nat {
    (key: string) => Held(connections, key)
  }

  /** How many connections the per-key counters add up to. */
  ghost function AllConnections(connections: map<string, nat>): nat {
    Sum(connections.Keys, PerKey(connections))
  }

  lemma AllConnectionsUpdate(connections: map<string, nat>, key: string, n: nat)
    ensures AllConnections(connections[key := n]) + Held(connections, key) == AllConnections(connections) + n
  {
    var connections' := connections[key := n];
    var f, f' := PerKey(connections), PerKey(connections');
    var rest := connections.Keys - {key};
    assert connections'.Keys - {key} == rest;
    SumRemove(connections'.Keys, f', key);
    SumSame(rest, f, f');
    if key in connections {
      SumRemove(connections.Keys, f, key);
    } else {
      assert rest == connections.Keys;
    }
  }

  lemma AllConnectionsRemove(connections: map<string, nat>, key: string)
    requires key in connections
    ensures AllConnections(connections) == connections[key] + AllConnections(connections - {key})
  {
    var f, f' := PerKey(connections), PerKey(connections - {key});
    assert (connections - {key}).Keys == connections.Keys - {key};
    SumRemove(connections.Keys, f, key);
    SumSame(connections.Keys - {key}, f, f');
  }

  lemma LowerConnections(connections: map<string, nat>, key: string)
    requires forall k :: k in connections ==> connections[k] > 0
    ensures Held(connections, key) > 0 ==> AllConnections(Lower(connections, key)) == AllConnections(connections) - 1
  {
    if key in connections {
      if connections[key] <= 1 {
        AllConnectionsRemove(connections, key);
      } else {
        AllConnectionsUpdate(connections, key, connections[key] - 1);
      }
    }
  }

  class Hub {
    var accountTurns: map<string, nat>
    var connections: map<string, nat>
    var activeConnections: nat
    var sessions: set<nat>
    var closing: bool

    /** The counters agree and respect their limits; a key without connections has no entry. */
    ghost predicate Valid()
      reads this
    {
      && activeConnections == AllConnections(connections) <= MAX_CONNECTIONS
      && (forall key :: key in connections ==> 0 < connections[key] <= MAX_CONNECTIONS_PER_KEY)
      && (forall account :: account in accountTurns ==> 0 < accountTurns[account] <= MAX_ACCOUNT_TURNS)
    }

    constructor ()
      ensures Valid() && accountTurns == map[] && sessions == {} && !closing
    {
      accountTurns, connections, activeConnections, sessions, closing := map[], map[], 0, {}, false;
    }

    method ReserveConnection(key: string) returns (ok: bool)
      requires Valid()
      modifies this`connections, this`activeConnections
      ensures Valid()
      ensures ok == (!old(closing) && old(activeConnections) < MAX_CONNECTIONS
                     && Held(old(connections), key) < MAX_CONNECTIONS_PER_KEY)
      ensures activeConnections == old(activeConnections) + if ok then 1 else 0
      ensures connections == if ok then old(connections)[key := Held(old(connections), key) + 1] else old(connections)
    {
      var held := if key in connections then connections[key] else 0;
      if closing || activeConnections >= MAX_CONNECTIONS || held >= MAX_CONNECTIONS_PER_KEY {
        return false;
      }
      AllConnectionsUpdate(connections, key, held + 1);
      activeConnections := activeConnections + 1;
      connections := connections[key := held + 1];
      return true;
    }

    /** Undoes ReserveConnection; the counters stay in agreement when the key really has a connection. */
    method ReleaseConnection(key: string)
      requires Valid()
      modifies this`connections, this`activeConnections
      ensures Held(old(connections), key) > 0 ==> Valid()
      ensures activeConnections == if old(activeConnections) > 0 then old(activeConnections) - 1 else 0
      ensures connections == Lower(old(connections), key)
    {
      LowerConnections(connections, key);
      if activeConnections > 0 { activeConnections := activeConnections - 1; }
      if (if key in connections then connections[key] else 0) <= 1 {
        connections := connections - {key};
      } else {
        connections := connections[key := connections[key] - 1];
      }
    }

    method ReserveAccountTurn(account: string) returns (ok: bool)
      requires Valid()
      modifies this`accountTurns
      ensures Valid()
      ensures ok == (Held(old(accountTurns), account) < MAX_ACCOUNT_TURNS)
      ensures accountTurns == if ok then Raise(old(accountTurns), account) else old(accountTurns)
    {
      var held := if account in accountTurns then accountTurns[account] else 0;
      if held >= MAX_ACCOUNT_TURNS { return false; }
      accountTurns := accountTurns[account := held + 1];
      return true;
    }

    method ReleaseAccountTurn(account: string)
      requires Valid()
      modifies this`accountTurns
      ensures Valid()
      ensures accountTurns == Lower(old(accountTurns), account)
    {
      if (if account in accountTurns then accountTurns[account] else 0) <= 1 {
        accountTurns := accountTurns - {account};
      } else {
        accountTurns := accountTurns[account := accountTurns[account] - 1];
      }
    }

    /** Once the hub is closing no session can slip past CloseAll. */
    method AddSession(session: nat) returns (ok: bool)
      modifies this`sessions
      ensures ok == !closing
      ensures sessions == if ok then old(sessions) + {session} else old(sessions)
    {
      if closing { return false; }
      sessions := sessions + {session};
      return true;
    }

    method RemoveSession(session: nat, key: string)
      requires Valid()
      modifies this`sessions, this`connections, this`activeConnections
      ensures Held(old(connections), key) > 0 ==> Valid()
      ensures sessions == old(sessions) - {session}
      ensures connections == Lower(old(connections), key)
    {
      sessions := sessions - {session};
      ReleaseConnection(key);
    }

    method StartClosing() returns (open: set<nat>)
      modifies this`closing
      ensures closing && open == sessions
    {
      closing := true;
      return sessions;
    }
  }

  /** Where a turn first appears in a queue is where Without cuts. */
  lemma {:induction false} WithoutAt(turns: seq<nat>, turn: nat, i: nat)
    requires i < |turns| && turns[i] == turn && turn !in turns[..i]
    ensures Without(turns, turn) == turns[..i] + turns[i + 1..]
  {
    if i > 0 {
      assert turns[0] == turns[..i][0];
      assert turns[1..][..i - 1] == turns[..i][1..];
      WithoutAt(turns[1..], turn, i - 1);
      assert turns[..i] + turns[i + 1..] == [turns[0]] + (turns[1..][..i - 1] + turns[1..][i..]);
    }
  }

  lemma {:induction false} WithoutNone(turns: seq<nat>, turn: nat)
    requires turn !in turns
    ensures Without(turns, turn) == turns
  {
    if turns != [] {
      WithoutNone(turns[1..], turn);
    }
  }

  class ResponsesSession {
    var account: string
    var upstream: Option<nat>
    var native: bool
    var pinned: bool
    var switching: bool
    var closed: bool
    var cancelled: bool
    var streams: map<string, Stream>
    var pending: nat
    var named: set<string>
    var turns: map<nat, Turn>
    ghost var next: nat
    ghost var released: map<nat, nat>

    ghost function View(): Shared
      reads this
    {
      Shared(account, upstream, native, pinned, switching, closed, cancelled, streams, pending, named, turns, next,
        released)
    }

    constructor ()
      ensures View() == FRESH.d
    {
      account, upstream, native, pinned, switching := "", None, false, false, false;
      closed, cancelled, streams, pending, named := false, false, map[], 0, {};
      turns, next, released := map[], 0, map[];
    }

    method PinAccount(q: Req, chosen: string, asNative: bool, conn: nat) returns (ok: bool)
      modifies this`account, this`upstream, this`native, this`pinned
      ensures ok == !closed
      ensures ok ==> account == chosen && pinned && native == asNative
      ensures ok ==> upstream == if asNative then Some(conn) else None
      ensures !ok ==> View() == old(View())
      ensures ReaderAdmits(old(View()), Pinning(q), Pin(chosen, asNative, conn)) ==
              Some(Move(View(), if !ok then Drop(q) else if asNative then PinnedNative(q) else Ready(q, true)))
    {
      if closed { return false; }
      account := chosen;
      upstream := if asNative then Some(conn) else None;
      native := asNative;
      pinned := true;
      return true;
    }

    /** The first critical section of reserveTurn: which account to lease a turn of. */
    method CheckTurn(q: Req, first: bool) returns (lease: Option<string>)
      ensures lease == Some(account) || lease == None
      ensures lease.Some? <==> !closed && !switching && pending < MAX_CONNECTION_TURNS &&
                               (q.named && q.stream !in named ==> |named| < MAX_NAMED_STREAMS)
      ensures ReaderAdmits(View(), Ready(q, first), Go) ==
              Some(Move(View(), if lease.Some? then Checked(q, lease.value, first) else Drop(q)))
    {
      if closed || switching || pending >= MAX_CONNECTION_TURNS { return None; }
      if q.named && q.stream !in named && |named| >= MAX_NAMED_STREAMS { return None; }
      return Some(account);
    }

    /** The second critical section of reserveTurn: queue the turn unless the session changed meanwhile. */
    method AttachTurn(q: Req, lease: string, first: bool) returns (ok: bool)
      modifies this`named, this`turns, this`streams, this`pending
      ensures ok == (!closed && !switching)
      ensures ok ==> turns == old(turns)[q.id := Turn(q.stream, lease, q.continuation, false, false)] &&
                     pending == old(pending) + 1 && named == old(named) + (if q.named then {q.stream} else {})
      ensures ok ==> streams == old(streams)[q.stream :=
                       if q.stream in old(streams)
                       then Stream(old(streams)[q.stream].turns + [q.id], old(streams)[q.stream].running)
                       else Stream([] + [q.id], false)]
      ensures !ok ==> View() == old(View())
      ensures ReaderAdmits(old(View()), Leased(q, lease, first), Go) ==
              Some(if ok then Move(View(), Attached(q, first)) else Free(View(), lease, Drop(q)))
    {
      if closed || switching { return false; }
      if q.named { named := named + {q.stream}; }
      var stream := if q.stream in streams then streams[q.stream] else Stream([], false);
      turns := turns[q.id := Turn(q.stream, lease, q.continuation, false, false)];
      streams := streams[q.stream := stream.(turns := stream.turns + [q.id])];
      pending := pending + 1;
      return true;
    }

    /** finishTurn: the first caller takes the turn out of its queue and learns which lease and body to give back. */
    method FinishOnce(turn: nat, pc: Pc) returns (lease: Option<string>)
      modifies this`turns, this`streams, this`pending
      ensures lease == if turn in old(turns) && !old(turns)[turn].finished then Some(old(turns)[turn].account) else None
      ensures lease.Some? ==> turns == old(turns)[turn := old(turns)[turn].(finished := true)] &&
                              pending == (if old(pending) > 0 then old(pending) - 1 else 0)
      ensures lease.None? ==> View() == old(View())
      ensures Finish(old(View()), turn, pc) ==
        Effect(View(), Thread(pc, if lease.Some? then Some(turn) else None, lease), map[])
    {
      if turn !in turns || turns[turn].finished { return None; }
      lease := Some(turns[turn].account);
      var name := turns[turn].stream;
      if name in streams {
        var queue := streams[name].turns;
        var i := 0;
        while i < |queue| && queue[i] != turn
          invariant 0 <= i <= |queue| && turn !in queue[..i]
        {
          i := i + 1;
        }
        if i < |queue| {
          WithoutAt(queue, turn, i);
          streams := streams[name := streams[name].(turns := queue[..i] + queue[i + 1..])];
        } else {
          assert queue[..i] == queue;
          WithoutNone(queue, turn);
          streams := streams[name := streams[name].(turns := queue)];
        }
      }
      turns := turns[turn := turns[turn].(finished := true)];
      if pending > 0 { pending := pending - 1; }
    }

    /** An unfinished turn is marked as seen; nothing else changes. */
    method Observe(turn: nat)
      modifies this`turns
      ensures turn in old(turns) && !old(turns)[turn].finished ==>
                turns == old(turns)[turn := old(turns)[turn].(forwarded := true)]
      ensures turn !in old(turns) || old(turns)[turn].finished ==> turns == old(turns)
      ensures View() == MarkForwarded(old(View()), turn)
    {
      if turn in turns && !turns[turn].finished {
        turns := turns[turn := turns[turn].(forwarded := true)];
      }
    }

    /**
     The first section of retryNativeLimitedTurn: the first limit of the live connection starts a
     switch, and the turn may be retried if it is alone, continues nothing and was not shown.
     */
    method BeginSwitch(seen: Option<nat>, failed: nat, terminal: bool, reassigned: bool) returns (retry: bool)
      modifies this`switching
      ensures switching == (old(switching) || (native && upstream == Some(failed)))
      ensures retry <==>
        native && upstream == Some(failed) && !old(switching) && pending == 1 && seen.Some? && seen.value in turns &&
        !turns[seen.value].finished && !turns[seen.value].continuation && !turns[seen.value].forwarded
      ensures UpstreamSteps(old(View()), UpEvent(seen, failed, true, terminal), Switch(reassigned)) ==
              Some(Move(View(), if retry && reassigned then UpSwitching(seen.value, failed, terminal)
                                else UpForward(seen, true, terminal)))
    {
      var owns := native && upstream == Some(failed) && !switching;
      retry := owns && seen.Some? && seen.value in turns && !turns[seen.value].finished &&
        !turns[seen.value].continuation && !turns[seen.value].forwarded && pending == 1;
      if owns { switching := true; }
    }

    /** finishNativeSwitch, after the turn was written to the replacement: new turns are admitted again. */
    method FinishSwitch(turn: nat)
      modifies this`switching
      ensures !switching
      ensures UpstreamSteps(old(View()), UpWriting(turn), Succeed) == Some(Move(View(), UpIdle))
    {
      switching := false;
    }

    /** transferNativeAccount: the replacement takes over only while nothing was shown to the client. */
    method TransferNative(turn: nat, failed: nat, replacement: nat, lease: string, terminal: bool)
        returns (previous: Option<string>)
      modifies this`account, this`upstream, this`turns
      ensures previous.Some? <==>
        !closed && native && switching && old(upstream) == Some(failed) && turn in old(turns) &&
        !old(turns)[turn].finished && !old(turns)[turn].forwarded && pending == 1
      ensures previous.Some? ==> previous.value == old(turns)[turn].account && account == lease
      ensures previous.Some? ==> upstream == Some(replacement)
      ensures previous.Some? ==> turns == old(turns)[turn := old(turns)[turn].(account := lease)]
      ensures previous.None? ==> View() == old(View())
      ensures UpstreamSteps(old(View()), UpLeased(turn, failed, terminal, lease), Transfer(replacement)) ==
              Some(if previous.Some? then Free(View(), previous.value, UpWriting(turn))
                   else Free(View(), lease, UpForward(Some(turn), true, terminal)))
    {
      if closed || !native || !switching || upstream != Some(failed) || turn !in turns
         || turns[turn].finished || turns[turn].forwarded || pending != 1 {
        return None;
      }
      previous := Some(turns[turn].account);
      account := lease;
      upstream := Some(replacement);
      turns := turns[turn := turns[turn].(account := lease)];
    }

    /** transferBridgeAccount, after the hub granted the lease. */
    method TransferBridge(q: Req, lease: string) returns (owed: string)
      modifies this`account, this`turns
      ensures if !closed && !native && pinned && q.id in old(turns) && !old(turns)[q.id].finished
              then owed == old(turns)[q.id].account && account == lease &&
                   turns == old(turns)[q.id := old(turns)[q.id].(account := lease)]
              else owed == lease && View() == old(View())
      ensures ReaderStarts(old(View()), OpenLeased(q, lease), Go) == Some(Free(View(), owed, Opening(q)))
    {
      if closed || native || !pinned || q.id !in turns || turns[q.id].finished { return lease; }
      owed := turns[q.id].account;
      account := lease;
      turns := turns[q.id := turns[q.id].(account := lease)];
    }

    method ResetBridgePin()
      modifies this`pinned, this`account
      ensures if !closed && !native && pending == 0 then !pinned && account == "" else View() == old(View())
      ensures ReaderStarts(old(View()), ResetPin, Go) == Some(Move(View(), Idle))
    {
      if !closed && !native && pending == 0 {
        pinned := false;
        account := "";
      }
    }

    /** The critical section of startBridge: the caller that raises the flag starts the runner. */
    method RaiseRunning(name: string) returns (raised: bool)
      modifies this`streams
      ensures raised <==> !closed && name in old(streams) && !old(streams)[name].running
      ensures streams == if raised then old(streams)[name := Stream(old(streams)[name].turns, true)] else old(streams)
      ensures ReaderStarts(old(View()), Starting(name), Go) ==
        Some(Move(View(), if raised then Spawning(name) else Idle))
    {
      if closed || name !in streams || streams[name].running { return false; }
      streams := streams[name := streams[name].(running := true)];
      return true;
    }

    /** The critical section at the top of runBridge's loop. */
    method NextTurn(name: string) returns (turn: Option<nat>)
      modifies this`streams
      ensures turn == if name in old(streams) && |old(streams)[name].turns| > 0
                      then Some(old(streams)[name].turns[0]) else None
      ensures streams == if name in old(streams) && |old(streams)[name].turns| == 0
                         then old(streams)[name := Stream([], false)] else old(streams)
      ensures RunnerSteps(old(View()), RunLoop(name), Go) ==
              Some(Move(View(), if turn.Some? then RunTurn(name, turn.value) else Exit))
    {
      if name !in streams { return None; }
      if |streams[name].turns| == 0 {
        streams := streams[name := streams[name].(running := false)];
        return None;
      }
      return Some(streams[name].turns[0]);
    }

    /** The critical section of close: from here on nothing is queued, and every queued turn is on the list. */
    method BeginClose() returns (left: seq<nat>)
      requires Queued(View())
      modifies this`closed
      ensures View() == old(View()).(closed := true) && Collected(old(View()), left)
    {
      closed := true;
      left := [];
      ghost var done: set<string> := {};
      var todo := streams.Keys;
      while todo != {}
        invariant todo <= streams.Keys && done == streams.Keys - todo
        invariant forall name, k :: name in done && 0 <= k < |streams[name].turns| ==> streams[name].turns[k] in left
        invariant forall k :: 0 <= k < |left| ==> left[k] in turns
        decreases todo
      {
        var name :| name in todo;
        assert StreamOk(View(), name);
        forall k | 0 <= k < |streams[name].turns|
          ensures streams[name].turns[k] in turns
        {
          assert streams[name].turns[k] in streams[name].turns;
        }
        left := left + streams[name].turns;
        todo := todo - {name};
        done := done + {name};
      }
    }
  }
}
