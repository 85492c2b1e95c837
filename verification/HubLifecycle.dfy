/** What the registry operations do to a list of connections, and how the registry, the
    listener tasks and the endpoint coroutines of a board stay tied to each other. */
module HubLifecycle {
  import opened Models
  import opened Hub

  // ---- Registry operations as filters ----

  predicate Distinct(s: seq<Conn>) {
    forall i, j :: 0 <= i < j < |s| ==> s[i] != s[j]
  }

  /** The elements of `s` that are not in `gone`, in their order. */
  function Without(s: seq<Conn>, gone: set<Conn>): seq<Conn> {
    if s == [] then []
    else (if s[0] in gone then [] else [s[0]]) + Without(s[1..], gone)
  }

  lemma {:induction false} WithoutMembers(s: seq<Conn>, gone: set<Conn>)
    ensures forall c :: c in Without(s, gone) <==> c in s && c !in gone
    ensures Distinct(s) ==> Distinct(Without(s, gone))
  {
    if s != [] {
      WithoutMembers(s[1..], gone);
    }
  }

  lemma {:induction false} WithoutTwice(s: seq<Conn>, first: set<Conn>, second: set<Conn>)
    ensures Without(Without(s, first), second) == Without(s, first + second)
  {
    if s != [] {
      WithoutTwice(s[1..], first, second);
      if s[0] !in first {
        assert Without(s, first) == [s[0]] + Without(s[1..], first);
        assert Without(s, first)[1..] == Without(s[1..], first);
      } else {
        assert Without(s, first) == Without(s[1..], first);
      }
    }
  }

  lemma {:induction false} WithoutNothing(s: seq<Conn>, gone: set<Conn>)
    requires forall c :: c in s ==> c !in gone
    ensures Without(s, gone) == s
  {
    if s != [] {
      WithoutNothing(s[1..], gone);
    }
  }

  lemma {:induction false} RemoveIsWithout(s: seq<Conn>, c: Conn)
    requires Distinct(s)
    ensures Remove(s, c) == Without(s, {c})
  {
    if s != [] {
      if s[0] == c {
        WithoutNothing(s[1..], {c});
      } else {
        RemoveIsWithout(s[1..], c);
      }
    }
  }

  /** A board's key exists only with a non-empty list, and no connection is listed twice. */
  predicate Normal(active: Option<seq<Conn>>) {
    active.Some? ==> active.value != [] && Distinct(active.value)
  }

  /** disconnect takes out exactly that connection, whether or not it was still listed. */
  lemma DisconnectFilters(active: Option<seq<Conn>>, c: Conn)
    requires Normal(active)
    ensures Normal(Disconnect(active, c))
    ensures Connections(Disconnect(active, c)) == Without(Connections(active), {c})
  {
    var s := Connections(active);
    WithoutMembers(s, {c});
    RemoveIsWithout(s, c);
    if c !in s {
      WithoutNothing(s, {c});
    }
  }

  lemma FailedSplit(snapshot: seq<Conn>, failed: set<Conn>)
    requires snapshot != []
    ensures var later := set d | d in snapshot[1..] && d in failed;
            (set c | c in snapshot && c in failed) == if snapshot[0] in failed then {snapshot[0]} + later else later
  {
    assert snapshot == [snapshot[0]] + snapshot[1..];
  }

  /** The loop after a gather takes out exactly the snapshot's failed connections that are still
      listed, and keeps all others in order, whoever joined or left during the sends. */
  lemma {:induction false} DropFailedFilters(active: Option<seq<Conn>>, snapshot: seq<Conn>, failed: set<Conn>)
    requires Normal(active)
    ensures Normal(DropFailed(active, snapshot, failed))
    ensures Connections(DropFailed(active, snapshot, failed)) == Without(Connections(active), set c | c in snapshot && c in failed)
    decreases |snapshot|
  {
    var gone := set c | c in snapshot && c in failed;
    if snapshot == [] {
      WithoutNothing(Connections(active), gone);
    } else {
      var c, rest := snapshot[0], snapshot[1..];
      var later := set d | d in rest && d in failed;
      if c in failed {
        DisconnectFilters(active, c);
        DropFailedFilters(Disconnect(active, c), rest, failed);
        WithoutTwice(Connections(active), {c}, later);
        FailedSplit(snapshot, failed);
      } else {
        DropFailedFilters(active, rest, failed);
        FailedSplit(snapshot, failed);
      }
    }
  }

  lemma {:induction false} OfUserMembers(s: seq<Conn>, user: int)
    ensures forall c :: c in OfUser(s, user) <==> c in s && c.user == user
  {
    if s != [] {
      OfUserMembers(s[1..], user);
    }
  }

  // ---- Lifecycle ----

  /** Unfinished and not cancelled. */
  predicate Live(x: Listener) {
    !x.cancelled && !x.phase.Ended?
  }

  /** Cancelled or crashed, and past its last step for anybody. */
  predicate Gone(x: Listener) {
    x.phase.Dying? || x.phase.Ended?
  }

  ghost predicate Lifecycle(b: Board) {
    && Normal(b.active)
    // registered connections have a running endpoint
    && (forall c :: c in Connections(b.active) ==> c in b.running)
    && (forall c :: c in b.running ==> c.id < b.nextConn)
    // a board in active_connections is in redis_tasks
    && (b.active.Some? ==> b.task.Some?)
    // a board in redis_tasks has a running endpoint, and its task was not cancelled
    && (b.task.Some? ==> b.running != {} && b.task.value < |b.listeners| && !b.listeners[b.task.value].cancelled)
    // the only live listener is the one in redis_tasks
    && (forall l :: 0 <= l < |b.listeners| && Live(b.listeners[l]) ==> b.task == Some(l))
  }

  /** How one step may change the list of registered connections. */
  ghost predicate ListStep(b: Board, move: Label, b': Board) {
    var s, s' := Connections(b.active), Connections(b'.active);
    match move
    case Join(user) => s' == s + [Conn(b.nextConn, user)]
    case Leave(c) => s' == Without(s, {c}) || s' == s
    case GatherDone(l) =>
      s' == s || (Enabled(b, move) && s' == Without(s, set c | c in b.listeners[l].phase.snapshot && c in b.listeners[l].phase.failed))
    case Receive(l) => s' == s || (Enabled(b, move) && exists c :: c in Revoked(b, b.listeners[l].buffer[0]) && s' == Without(s, {c}))
    case CloseDone(l) => s' == s || (Enabled(b, move) && exists c :: c in b.listeners[l].phase.left && s' == Without(s, {c}))
    case _ => s' == s
  }

  lemma StepChangesList(b: Board, move: Label)
    requires Lifecycle(b)
    ensures ListStep(b, move, Step(b, move)) && Normal(Step(b, move).active)
  {
    if Enabled(b, move) {
      match move {
        case Leave(c) => DisconnectFilters(b.active, c);
        case GatherDone(l) => DropFailedFilters(b.active, b.listeners[l].phase.snapshot, b.listeners[l].phase.failed);
        case Receive(l) => ReceiveChangesList(b, l);
        case CloseDone(l) => CloseDoneChangesList(b, l);
        case _ =>
      }
    }
  }

  lemma ReceiveChangesList(b: Board, l: nat)
    requires Normal(b.active) && Enabled(b, Receive(l))
    ensures ListStep(b, Receive(l), Step(b, Receive(l))) && Normal(Step(b, Receive(l)).active)
  {
    var revoked := Revoked(b, b.listeners[l].buffer[0]);
    if revoked != [] { DisconnectFilters(b.active, revoked[0]); }
  }

  lemma CloseDoneChangesList(b: Board, l: nat)
    requires Normal(b.active) && Enabled(b, CloseDone(l))
    ensures ListStep(b, CloseDone(l), Step(b, CloseDone(l))) && Normal(Step(b, CloseDone(l)).active)
  {
    var left := b.listeners[l].phase.left;
    if left != [] { DisconnectFilters(b.active, left[0]); }
  }

  lemma JoinKeepsLifecycle(b: Board, user: int)
    requires Lifecycle(b)
    ensures Lifecycle(DoJoin(b, user))
  {
    var b' := DoJoin(b, user);
    StepChangesList(b, Join(user));
    forall l | 0 <= l < |b'.listeners| && Live(b'.listeners[l])
      ensures b'.task == Some(l)
    {
      if l < |b.listeners| {
        assert Live(b.listeners[l]);
      }
    }
  }

  lemma LeaveKeepsLifecycle(b: Board, c: Conn)
    requires Lifecycle(b) && c in b.running
    ensures Lifecycle(DoLeave(b, c))
  {
    var b' := DoLeave(b, c);
    DisconnectFilters(b.active, c);
    WithoutMembers(Connections(b.active), {c});
    if b'.active.Some? {
      assert b'.active.value[0] in Connections(b'.active);
    }
    forall l | 0 <= l < |b'.listeners| && Live(b'.listeners[l])
      ensures b'.task == Some(l)
    {
      assert Live(b.listeners[l]);
    }
  }

  /** A move that starts and cancels no listener, and registers nobody. */
  ghost predicate Quiet(b: Board, b': Board) {
    && b'.task == b.task && b'.running == b.running && b'.nextConn == b.nextConn && |b'.listeners| == |b.listeners|
    && (forall l :: 0 <= l < |b.listeners| ==> b'.listeners[l].cancelled == b.listeners[l].cancelled)
    && (forall l :: 0 <= l < |b.listeners| && Live(b'.listeners[l]) ==> Live(b.listeners[l]))
    && (forall c :: c in Connections(b'.active) ==> c in Connections(b.active))
  }

  lemma QuietKeepsLifecycle(b: Board, b': Board)
    requires Lifecycle(b) && Normal(b'.active) && Quiet(b, b')
    ensures Lifecycle(b')
  {
    if b'.active.Some? {
      assert b'.active.value[0] in Connections(b'.active);
    }
  }

  lemma OthersRegisterNobody(b: Board, move: Label, c: Conn)
    requires Lifecycle(b) && !move.Join? && !move.Leave? && c in Connections(Step(b, move).active)
    ensures c in Connections(b.active)
  {
    StepChangesList(b, move);
    var s, s' := Connections(b.active), Connections(Step(b, move).active);
    if s' != s {
      match move {
        case GatherDone(l) =>
          WithoutMembers(s, set d | d in b.listeners[l].phase.snapshot && d in b.listeners[l].phase.failed);
        case Receive(l) =>
          var d :| d in Revoked(b, b.listeners[l].buffer[0]) && s' == Without(s, {d});
          WithoutMembers(s, {d});
        case CloseDone(l) =>
          var d :| d in b.listeners[l].phase.left && s' == Without(s, {d});
          WithoutMembers(s, {d});
        case _ =>
      }
    }
  }

  /** `l` moved between phases and nothing else happened to the tasks. */
  ghost predicate Moved(b: Board, b': Board, l: nat) {
    && b'.task == b.task && b'.running == b.running && b'.nextConn == b.nextConn && |b'.listeners| == |b.listeners|
    && l < |b.listeners| && b'.listeners == b.listeners[l := b'.listeners[l]]
    && b'.listeners[l].cancelled == b.listeners[l].cancelled
    && (b.listeners[l].phase.Ended? ==> b'.listeners[l].phase.Ended?)
  }

  lemma OthersMoveOneListener(b: Board, move: Label)
    requires !move.Join? && !move.Leave? && !move.Publish? && Enabled(b, move)
    ensures Moved(b, Step(b, move), move.l)
  {
    match move {
      case Receive(l) =>
        var x := b.listeners[l];
        var b1 := Put(b, l, x.(buffer := x.buffer[1..], notes := x.notes + [Forwarded(x.buffer[0])]));
        RevokeNextMoves(b1, l, x.buffer[0], Revoked(b, x.buffer[0]));
      case CloseDone(l) => RevokeNextMoves(b, l, b.listeners[l].phase.msg, b.listeners[l].phase.left);
      case Subscribed(l) => SubscribedMoves(b, l);
      case GatherDone(l) =>
      case _ => SimpleStepMoves(b, move);
    }
  }

  lemma RevokeNextMoves(b: Board, l: nat, msg: Msg, left: seq<Conn>)
    requires l < |b.listeners| && !b.listeners[l].phase.Ended?
    ensures Moved(b, RevokeNext(b, l, msg, left), l)
  {
  }

  lemma SubscribedMoves(b: Board, l: nat)
    requires l < |b.listeners| && !b.listeners[l].phase.Ended?
    ensures Moved(b, DoSubscribed(b, l), l)
  {
  }

  lemma SimpleStepMoves(b: Board, move: Label)
    requires Enabled(b, move)
    requires move.SubscribeFails? || move.SendOk? || move.SendFails? || move.LoseConnection? || move.Detect? || move.Closed?
             || move.Wake? || move.Crash? || move.Unwind? || move.Died?
    ensures Moved(b, Step(b, move), move.l)
  {
  }

  lemma OtherStepsAreQuiet(b: Board, move: Label)
    requires Lifecycle(b) && !move.Join? && !move.Leave?
    ensures Quiet(b, Step(b, move))
  {
    if Enabled(b, move) && !move.Publish? {
      OthersMoveOneListener(b, move);
    }
    forall c | c in Connections(Step(b, move).active)
      ensures c in Connections(b.active)
    {
      OthersRegisterNobody(b, move, c);
    }
  }

  /** At every await point: each board in active_connections has an entry in redis_tasks, at most
      one listener of the board is live, it is the one in redis_tasks, and both entries exist
      only while some endpoint of the board is running. */
  lemma StepKeepsLifecycle(b: Board, move: Label)
    requires Lifecycle(b)
    ensures Lifecycle(Step(b, move))
  {
    match move {
      case Join(user) => JoinKeepsLifecycle(b, user);
      case Leave(c) =>
        if c in b.running { LeaveKeepsLifecycle(b, c); }
      case _ =>
        StepChangesList(b, move);
        OtherStepsAreQuiet(b, move);
        QuietKeepsLifecycle(b, Step(b, move));
    }
  }

  lemma {:induction false} RunKeepsLifecycle(b: Board, moves: seq<Label>)
    requires Lifecycle(b)
    ensures Lifecycle(Run(b, moves))
    decreases |moves|
  {
    if moves != [] {
      StepKeepsLifecycle(b, moves[0]);
      RunKeepsLifecycle(Step(b, moves[0]), moves[1..]);
    }
  }

  /** Spelled out for every schedule of the event loop from an idle board. */
  lemma ListenerLifecycle(moves: seq<Label>)
    ensures var b := Run(EMPTY, moves);
            && (b.active.Some? ==> b.task.Some?)
            && (forall k, l ::
                  (0 <= k < |b.listeners| && 0 <= l < |b.listeners| && Live(b.listeners[k]) && Live(b.listeners[l])) ==> k == l)
            && (b.running == {} ==> b.active.None? && b.task.None?)
  {
    RunKeepsLifecycle(EMPTY, moves);
    var b := Run(EMPTY, moves);
    if b.active.Some? {
      assert b.active.value[0] in Connections(b.active);
    }
  }

  /** A listener is cancelled only while its board has no registered connection. */
  lemma CancelledOnlyWhenNobodyIsRegistered(b: Board, move: Label, l: nat)
    requires Lifecycle(b) && l < |b.listeners|
    requires !b.listeners[l].cancelled && Step(b, move).listeners[l].cancelled
    ensures Step(b, move).active.None? && b.task == Some(l) && move.Leave?
  {
    if !move.Join? && !move.Leave? {
      OtherStepsAreQuiet(b, move);
    }
  }

  /** While connections are registered and the listener has not crashed, exactly one live
      listener serves them. */
  lemma RegisteredHaveListener(b: Board)
    requires Lifecycle(b) && b.active.Some? && !TaskDone(b)
    ensures Live(b.listeners[b.task.value])
  {
  }

  /** Whatever ran before, after a registration the board's task is a live listener: a new one, in
      its first subscribe, exactly if there was none or the last one had ended; otherwise the one
      that was there. Either way the socket is registered last and no other listener is touched. */
  lemma JoinIsServed(before: seq<Label>, user: int)
    ensures var b := Run(EMPTY, before);
            var b' := Step(b, Join(user));
            && Connections(b'.active) == Connections(b.active) + [Conn(b.nextConn, user)] && b.listeners <= b'.listeners
            && b'.task.Some? && b'.task.value < |b'.listeners| && Live(b'.listeners[b'.task.value])
            && (b'.task.value >= |b.listeners| <==> b.task == None || HasEnded(b, b.task.value))
            && (if b'.task.value >= |b.listeners| then
                  b'.listeners == b.listeners + [b'.listeners[b'.task.value]] && Fresh(b'.listeners[b'.task.value])
                else b'.task == b.task && b'.listeners == b.listeners)
  {
    RunKeepsLifecycle(EMPTY, before);
  }

  predicate HasEnded(b: Board, l: nat) {
    l < |b.listeners| && b.listeners[l].phase == Ended
  }

  predicate Fresh(x: Listener) {
    x.phase == Subscribing && !x.recovering && !x.cancelled && !x.online && x.buffer == [] && x.delay == 0.5
  }

  /** A listener that the last endpoint left behind would hear for nobody: once a leaving endpoint
      leaves nobody registered, the board has no task and no listener is live. While somebody is
      still registered, the task and its listener stay as they are. */
  lemma LastLeaveReleases(before: seq<Label>, c: Conn)
    requires c in Run(EMPTY, before).running
    ensures var b := Run(EMPTY, before);
            var b' := Step(b, Leave(c));
            && c !in b'.running && Connections(b'.active) == Without(Connections(b.active), {c})
            && (Connections(b'.active) == [] ==>
                  b'.task == None && forall l :: 0 <= l < |b'.listeners| ==> !Live(b'.listeners[l]))
            && (Connections(b'.active) != [] ==> b'.task == b.task && b'.listeners == b.listeners)
  {
    RunKeepsLifecycle(EMPTY, before);
    var b := Run(EMPTY, before);
    StepKeepsLifecycle(b, Leave(c));
    DisconnectFilters(b.active, c);
  }
}
