/** A removed member's sockets go silent before anyone hears of the removal. */
module HubRevocation {
  import opened Models
  import opened Hub
  import opened HubLifecycle
  import opened HubDelivery

  /** `c` is out, or next in line to be put out, and no send to it is under way. */
  ghost predicate Doomed(b: Board, c: Conn) {
    && c in b.received
    && (forall l :: 0 <= l < |b.listeners| && b.listeners[l].phase.Sending? ==> c !in b.listeners[l].phase.waiting)
    && (Registered(b, c) ==>
          && b.task.Some? && b.task.value < |b.listeners|
          && b.listeners[b.task.value].phase.Revoking? && c in b.listeners[b.task.value].phase.left)
  }

  lemma RevokeNextKeepsDoomed(b: Board, l: nat, msg: Msg, left: seq<Conn>, c: Conn)
    requires Delivery(b) && b.task == Some(l) && l < |b.listeners| && c in b.received
    requires forall k :: 0 <= k < |b.listeners| && b.listeners[k].phase.Sending? ==> c !in b.listeners[k].phase.waiting
    requires Registered(b, c) ==> c in left
    ensures Doomed(RevokeNext(b, l, msg, left), c)
    ensures RevokeNext(b, l, msg, left).received == b.received
  {
    if left != [] {
      DisconnectFilters(b.active, left[0]);
      WithoutMembers(Connections(b.active), {left[0]});
    }
  }

  lemma LeaveKeepsDoomed(b: Board, gone: Conn, c: Conn)
    requires Delivery(b) && gone in b.running && Doomed(b, c)
    ensures Doomed(DoLeave(b, gone), c)
  {
    NobodyElseRegisters(b, Leave(gone));
  }

  lemma JoinKeepsDoomed(b: Board, user: int, c: Conn)
    requires Delivery(b) && Doomed(b, c)
    ensures Doomed(DoJoin(b, user), c) && DoJoin(b, user).received[c] == b.received[c]
  {
    assert ConnSound(b, c);
  }

  lemma SendKeepsDoomed(b: Board, move: Label, c: Conn)
    requires Delivery(b) && Doomed(b, c) && Enabled(b, move) && (move.SendOk? || move.SendFails?)
    ensures Doomed(Step(b, move), c) && Step(b, move).received[c] == b.received[c]
  {
  }

  lemma GatherKeepsDoomed(b: Board, move: Label, c: Conn)
    requires Delivery(b) && Doomed(b, c) && Enabled(b, move) && (move.GatherDone? || move.Subscribed?)
    ensures Doomed(Step(b, move), c) && Step(b, move).received[c] == b.received[c]
  {
    assert Live(b.listeners[move.l]);
    NobodyElseRegisters(b, move);
  }

  lemma ReceiveDooms(b: Board, l: nat, c: Conn)
    requires Delivery(b) && Enabled(b, Receive(l)) && c in b.received
    requires forall k :: 0 <= k < |b.listeners| && b.listeners[k].phase.Sending? ==> c !in b.listeners[k].phase.waiting
    requires Registered(b, c) ==> c in Revoked(b, b.listeners[l].buffer[0])
    ensures Doomed(Step(b, Receive(l)), c)
    ensures Step(b, Receive(l)).received == b.received
  {
    var x := b.listeners[l];
    assert Live(x);
    var b1 := Put(b, l, x.(buffer := x.buffer[1..], notes := x.notes + [Forwarded(x.buffer[0])]));
    OffStageKeepsFlow(b, b1);
    QuietKeepsLifecycle(b, b1);
    RevokeNextKeepsDoomed(b1, l, x.buffer[0], Revoked(b, x.buffer[0]), c);
  }

  lemma StepKeepsDoomed(b: Board, move: Label, c: Conn)
    requires Delivery(b) && Doomed(b, c)
    ensures Doomed(Step(b, move), c)
    ensures Step(b, move).received[c] == b.received[c]
  {
    if Enabled(b, move) {
      match move {
        case Join(user) => JoinKeepsDoomed(b, user, c);
        case Leave(gone) => LeaveKeepsDoomed(b, gone, c);
        case Receive(_) => RevokingKeepsDoomed(b, move, c);
        case CloseDone(_) => RevokingKeepsDoomed(b, move, c);
        case GatherDone(_) => GatherKeepsDoomed(b, move, c);
        case Subscribed(_) => GatherKeepsDoomed(b, move, c);
        case SendOk(_, _) => SendKeepsDoomed(b, move, c);
        case SendFails(_, _) => SendKeepsDoomed(b, move, c);
        case _ => OffStageKeepsDoomed(b, move, c);
      }
    }
  }

  lemma RevokingKeepsDoomed(b: Board, move: Label, c: Conn)
    requires Delivery(b) && Doomed(b, c) && Enabled(b, move) && (move.Receive? || move.CloseDone?)
    ensures Doomed(Step(b, move), c) && Step(b, move).received[c] == b.received[c]
  {
    assert Live(b.listeners[move.l]);
    if move.Receive? {
      ReceiveDooms(b, move.l, c);
    } else {
      var p := b.listeners[move.l].phase;
      RevokeNextKeepsDoomed(b, move.l, p.msg, p.left, c);
    }
  }

  lemma OffStageKeepsDoomed(b: Board, move: Label, c: Conn)
    requires Delivery(b) && Doomed(b, c) && Enabled(b, move)
    requires move.Publish? || move.SubscribeFails? || move.LoseConnection? || move.Detect? || move.Closed?
             || move.Wake? || move.Crash? || move.Unwind? || move.Died?
    ensures Doomed(Step(b, move), c)
  {
    OtherStepsAreOffStage(b, move);
  }

  lemma {:induction false} RunKeepsDoomed(b: Board, moves: seq<Label>, c: Conn)
    requires Delivery(b) && Doomed(b, c)
    ensures var b' := Run(b, moves); c in b'.received && b'.received[c] == b.received[c]
    decreases |moves|
  {
    if moves != [] {
      StepKeepsDelivery(b, moves[0]);
      StepKeepsDoomed(b, moves[0], c);
      RunKeepsDoomed(Step(b, moves[0]), moves[1..], c);
    }
  }

  /** When a listener takes up member_removed(u), no connection of `u` that is registered then
      is ever sent that event or any later message, whatever joins, leaves, failures,
      cancellations and crashes are interleaved with the closes and sends that follow. */
  lemma RemovedUserHearsNothing(before: seq<Label>, l: nat, user: int, commit: nat, c: Conn, after: seq<Label>)
    requires var b := Run(EMPTY, before);
             && Enabled(b, Receive(l)) && b.listeners[l].buffer[0] == Event(MemberRemoved(user), commit)
             && Registered(b, c) && c.user == user
    ensures var b := Run(EMPTY, before);
            var b' := Run(Step(b, Receive(l)), after);
            c in b.received && c in b'.received && b'.received[c] == b.received[c]
  {
    RunKeepsDelivery(EMPTY, before);
    var b := Run(EMPTY, before);
    assert Live(b.listeners[l]);
    OfUserMembers(Connections(b.active), user);
    forall k | 0 <= k < |b.listeners| && b.listeners[k].phase.Sending?
      ensures c !in b.listeners[k].phase.waiting
    {
      assert SendSound(b, k);
    }
    ReceiveDooms(b, l, c);
    StepKeepsDelivery(b, Receive(l));
    RunKeepsDoomed(Step(b, Receive(l)), after, c);
  }

  // ---- Everyone else ----

  /** What is left to revoke are connections of the removed user. */
  predicate RevokesOnly(x: Listener) {
    x.phase.Revoking? ==>
      && x.phase.msg.Event? && x.phase.msg.kind.MemberRemoved?
      && forall c :: c in x.phase.left ==> c.user == x.phase.msg.kind.user
  }

  predicate AllRevokeOnly(b: Board) {
    forall l :: 0 <= l < |b.listeners| ==> RevokesOnly(b.listeners[l])
  }

  lemma RevokeNextRevokesOnly(b: Board, l: nat, msg: Msg, left: seq<Conn>)
    requires AllRevokeOnly(b) && l < |b.listeners|
    requires left != [] ==> msg.Event? && msg.kind.MemberRemoved?
    requires forall c :: c in left ==> msg.Event? && msg.kind.MemberRemoved? && c.user == msg.kind.user
    ensures AllRevokeOnly(RevokeNext(b, l, msg, left))
  {
  }

  lemma ReceiveRevokesOnly(b: Board, l: nat)
    requires AllRevokeOnly(b) && Enabled(b, Receive(l))
    ensures AllRevokeOnly(Step(b, Receive(l)))
  {
    var x := b.listeners[l];
    var msg := x.buffer[0];
    if msg.Event? && msg.kind.MemberRemoved? { OfUserMembers(Connections(b.active), msg.kind.user); }
    var b1 := Put(b, l, x.(buffer := x.buffer[1..], notes := x.notes + [Forwarded(msg)]));
    RevokeNextRevokesOnly(b1, l, msg, Revoked(b, msg));
  }

  lemma StepRevokesOnly(b: Board, move: Label)
    requires AllRevokeOnly(b)
    ensures AllRevokeOnly(Step(b, move))
  {
    if Enabled(b, move) {
      match move {
        case Receive(l) => ReceiveRevokesOnly(b, l);
        case CloseDone(l) => RevokeNextRevokesOnly(b, l, b.listeners[l].phase.msg, b.listeners[l].phase.left);
        case Join(_) =>
        case Leave(_) =>
        case Publish(_) =>
        case _ => SimpleStepRevokesOnly(b, move);
      }
    }
  }

  lemma SimpleStepRevokesOnly(b: Board, move: Label)
    requires AllRevokeOnly(b) && Enabled(b, move)
    requires !move.Join? && !move.Leave? && !move.Publish? && !move.Receive? && !move.CloseDone?
    ensures AllRevokeOnly(Step(b, move))
  {
    var b' := Step(b, move);
    OthersMoveOneListener(b, move);
    SimpleStepStartsNoRevoking(b, move);
  }

  lemma SimpleStepStartsNoRevoking(b: Board, move: Label)
    requires Enabled(b, move)
    requires !move.Join? && !move.Leave? && !move.Publish? && !move.Receive? && !move.CloseDone?
    ensures move.l < |Step(b, move).listeners|
    ensures Step(b, move).listeners[move.l].phase.Revoking? ==>
              Step(b, move).listeners[move.l].phase == b.listeners[move.l].phase
  {
  }

  lemma {:induction false} RunRevokesOnly(b: Board, moves: seq<Label>)
    requires AllRevokeOnly(b)
    ensures AllRevokeOnly(Run(b, moves))
    decreases |moves|
  {
    if moves != [] {
      StepRevokesOnly(b, moves[0]);
      RunRevokesOnly(Step(b, moves[0]), moves[1..]);
    }
  }

  /** The user being removed by the listener that takes this step, if it is revoking. */
  function Removing(b: Board, move: Label): Option<int> {
    if !Enabled(b, move) then None
    else match move
      case Receive(l) =>
        var msg := b.listeners[l].buffer[0];
        if msg.Event? && msg.kind.MemberRemoved? then Some(msg.kind.user) else None
      case CloseDone(l) =>
        var msg := b.listeners[l].phase.msg;
        if msg.Event? && msg.kind.MemberRemoved? then Some(msg.kind.user) else None
      case _ => None
  }

  /** Exactly the connections in `gone` leave the list, each for a reason of its own. */
  ghost predicate OrderlyChange(b: Board, move: Label, gone: set<Conn>) {
    var s := Connections(b.active);
    && Connections(Step(b, move).active) == Without(s, gone) + (if move.Join? then [Conn(b.nextConn, move.user)] else [])
    && forall c :: c in gone && c in s ==>
         || move == Leave(c)
         || (move.GatherDone? && Enabled(b, move) && c in b.listeners[move.l].phase.failed)
         || Removing(b, move) == Some(c.user)
  }

  /** The connections that one iteration of disconnect_user puts out. */
  function Next(left: seq<Conn>): set<Conn> {
    if left == [] then {} else {left[0]}
  }

  lemma RevokeNextDrops(b: Board, l: nat, msg: Msg, left: seq<Conn>)
    requires Normal(b.active) && l < |b.listeners|
    ensures Connections(RevokeNext(b, l, msg, left).active) == Without(Connections(b.active), Next(left))
  {
    if left == [] {
      WithoutNothing(Connections(b.active), {});
    } else {
      DisconnectFilters(b.active, left[0]);
    }
  }

  lemma ReceiveDrops(b: Board, l: nat)
    requires Normal(b.active) && Enabled(b, Receive(l))
    ensures Connections(Step(b, Receive(l)).active) == Without(Connections(b.active), Next(Revoked(b, b.listeners[l].buffer[0])))
  {
    var x := b.listeners[l];
    var b1 := Put(b, l, x.(buffer := x.buffer[1..], notes := x.notes + [Forwarded(x.buffer[0])]));
    RevokeNextDrops(b1, l, x.buffer[0], Revoked(b, x.buffer[0]));
  }

  lemma ReceiveIsOrderly(b: Board, l: nat) returns (gone: set<Conn>)
    requires Lifecycle(b) && Enabled(b, Receive(l))
    ensures OrderlyChange(b, Receive(l), gone)
  {
    var msg := b.listeners[l].buffer[0];
    gone := Next(Revoked(b, msg));
    ReceiveDrops(b, l);
    if msg.Event? && msg.kind.MemberRemoved? { OfUserMembers(Connections(b.active), msg.kind.user); }
    assert Without(Connections(b.active), gone) + [] == Without(Connections(b.active), gone);
  }

  lemma CloseDoneIsOrderly(b: Board, l: nat) returns (gone: set<Conn>)
    requires Lifecycle(b) && AllRevokeOnly(b) && Enabled(b, CloseDone(l))
    ensures OrderlyChange(b, CloseDone(l), gone)
  {
    var s, p := Connections(b.active), b.listeners[l].phase;
    assert RevokesOnly(b.listeners[l]);
    RevokeNextDrops(b, l, p.msg, p.left);
    gone := Next(p.left);
    assert Without(s, gone) + [] == Without(s, gone);
  }

  /** A registered connection is dropped only by its own endpoint, by a failed send to it, or
      because its own user is being removed; all others stay, in their order. */
  lemma OthersStayInOrder(before: seq<Label>, move: Label) returns (gone: set<Conn>)
    ensures OrderlyChange(Run(EMPTY, before), move, gone)
  {
    RunKeepsLifecycle(EMPTY, before);
    RunRevokesOnly(EMPTY, before);
    var b := Run(EMPTY, before);
    if Enabled(b, move) && move.Receive? {
      gone := ReceiveIsOrderly(b, move.l);
    } else if Enabled(b, move) && move.CloseDone? {
      gone := CloseDoneIsOrderly(b, move.l);
    } else {
      var s, s' := Connections(b.active), Connections(Step(b, move).active);
      StepChangesList(b, move);
      gone := if s' == s || move.Join? then {}
              else if move.Leave? then {move.conn}
              else set c | c in b.listeners[move.l].phase.snapshot && c in b.listeners[move.l].phase.failed;
      WithoutNothing(s, {});
      assert !move.Join? ==> s' == Without(s, gone) + [];
    }
  }
}
