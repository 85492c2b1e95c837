/** What reaches each socket: a contiguous slice of what its instance broadcast for the board. */
module HubDelivery {
  import opened Models
  import opened Hub
  import opened HubLifecycle

  predicate Registered(b: Board, c: Conn) {
    c in Connections(b.active)
  }

  /** How far into `sent` the connection has been served. */
  function ServedTo(b: Board, c: Conn): nat
    requires c in b.received && c in b.joined
  {
    b.joined[c] + |b.received[c]|
  }

  predicate Slice(b: Board, c: Conn)
    requires c in b.received && c in b.joined
  {
    ServedTo(b, c) <= |b.sent| && b.received[c] == b.sent[b.joined[c]..ServedTo(b, c)]
  }

  /** The board's listener is sending the latest message, and not yet (or not successfully) to `c`. */
  predicate Outstanding(b: Board, c: Conn) {
    && b.task.Some? && b.task.value < |b.listeners|
    && var p := b.listeners[b.task.value].phase;
       p.Sending? && p.index == |b.sent| - 1 && (c in p.waiting || c in p.failed)
  }

  predicate ConnSound(b: Board, c: Conn)
    requires c in b.received
  {
    && c.id < b.nextConn && c in b.joined && Slice(b, c)
    && (if Registered(b, c) then
          c !in b.dropped && (ServedTo(b, c) == |b.sent| || (Outstanding(b, c) && ServedTo(b, c) == |b.sent| - 1))
        else
          c in b.dropped && b.dropped[c] <= |b.sent| && b.dropped[c] - 1 <= ServedTo(b, c) <= b.dropped[c])
  }

  /** A connection waiting for a send has been served exactly up to that message. */
  predicate WaitSound(b: Board, c: Conn, index: nat) {
    && c in b.received && c in b.joined && ServedTo(b, c) == index
    && (!Registered(b, c) ==> c in b.dropped && b.dropped[c] == index + 1)
  }

  ghost predicate SendSound(b: Board, l: nat)
    requires l < |b.listeners|
  {
    var p := b.listeners[l].phase;
    p.Sending? ==>
      && p.index < |b.sent| && b.sent[p.index] == p.msg && p.waiting !! p.failed
      && (forall c :: c in p.waiting || c in p.failed ==> c in p.snapshot)
      && (forall c :: c in p.waiting ==> WaitSound(b, c, p.index))
      && (b.task != Some(l) ==> forall c :: c in p.waiting ==> !Registered(b, c))
      && (b.task == Some(l) ==> p.index == |b.sent| - 1)
  }

  predicate Apart(p: Phase, q: Phase) {
    p.Sending? && q.Sending? ==> p.waiting !! q.waiting
  }

  ghost predicate Flow(b: Board) {
    && (forall c :: Registered(b, c) ==> c in b.received)
    && (forall c :: c in b.dropped ==> c in b.received)
    && (forall c :: c in b.received ==> ConnSound(b, c))
    && (forall l :: 0 <= l < |b.listeners| ==> SendSound(b, l))
    && (forall k, l :: 0 <= k < l < |b.listeners| ==> Apart(b.listeners[k].phase, b.listeners[l].phase))
  }

  ghost predicate Delivery(b: Board) {
    Lifecycle(b) && Flow(b)
  }

  // ---- One lemma per kind of change ----

  /** Nothing changes for sockets, registry and history; listeners move between phases other
      than Sending, or one that is not the board's gives up sending. */
  ghost predicate OffStage(b: Board, b': Board) {
    && b'.active == b.active && b'.task == b.task && b'.nextConn == b.nextConn
    && b'.received == b.received && b'.sent == b.sent && b'.joined == b.joined && b'.dropped == b.dropped
    && |b'.listeners| == |b.listeners|
    && forall l :: 0 <= l < |b.listeners| ==>
         b'.listeners[l].phase == b.listeners[l].phase ||
         (!b'.listeners[l].phase.Sending? && (b.listeners[l].phase.Sending? ==> b.task != Some(l)))
  }

  lemma OffStageKeepsFlow(b: Board, b': Board)
    requires Flow(b) && OffStage(b, b')
    ensures Flow(b')
  {
    forall c | c in b'.received
      ensures ConnSound(b', c)
    {
      assert ConnSound(b, c);
    }
    forall l | 0 <= l < |b'.listeners|
      ensures SendSound(b', l)
    {
      SendFrame(b, b', l);
    }
  }

  lemma SendFrame(b: Board, b': Board, l: nat)
    requires Flow(b) && OffStage(b, b') && l < |b.listeners|
    ensures SendSound(b', l)
  {
    assert SendSound(b, l);
    var p := b'.listeners[l].phase;
    if p.Sending? {
      forall c | c in p.waiting
        ensures WaitSound(b', c, p.index)
      {
        assert WaitSound(b, c, p.index);
      }
    }
  }

  /** A new listener takes the place of one that is done, or of none. */
  lemma NewListenerKeepsFlow(b: Board)
    requires Flow(b) && (b.task.None? || TaskDone(b))
    ensures Flow(b.(task := Some(|b.listeners|), listeners := b.listeners + [NEW_LISTENER]))
  {
    var b' := b.(task := Some(|b.listeners|), listeners := b.listeners + [NEW_LISTENER]);
    forall c | c in b'.received
      ensures ConnSound(b', c)
    {
      assert ConnSound(b, c) && !Outstanding(b, c);
    }
    forall l | 0 <= l < |b'.listeners|
      ensures SendSound(b', l)
    {
      if l < |b.listeners| {
        assert SendSound(b, l);
        var p := b.listeners[l].phase;
        if p.Sending? {
          forall c | c in p.waiting
            ensures WaitSound(b', c, p.index)
          {
            assert WaitSound(b, c, p.index);
          }
        }
      }
    }
  }

  function AddConn(b: Board, c: Conn): Board {
    b.(active := Connect(b.active, c), running := b.running + {c}, nextConn := c.id + 1,
       received := b.received[c := []], joined := b.joined[c := |b.sent|])
  }

  lemma AddConnKeepsFlow(b: Board, user: int)
    requires Flow(b)
    ensures Flow(AddConn(b, Conn(b.nextConn, user)))
  {
    var c := Conn(b.nextConn, user);
    var b' := AddConn(b, c);
    forall d | d in b.received
      ensures d.id < b.nextConn
    {
      assert ConnSound(b, d);
    }
    forall d | d in b'.received
      ensures ConnSound(b', d)
    {
      if d != c {
        assert ConnSound(b, d);
      }
    }
    forall l | 0 <= l < |b'.listeners|
      ensures SendSound(b', l)
    {
      assert SendSound(b, l);
      var p := b.listeners[l].phase;
      if p.Sending? {
        forall d | d in p.waiting
          ensures WaitSound(b', d, p.index) && d != c
        {
          assert WaitSound(b, d, p.index);
        }
      }
    }
  }

  /** Some registered connections go; nobody comes. */
  lemma ShrinkKeepsFlow(b: Board, active: Option<seq<Conn>>)
    requires Flow(b)
    requires forall d :: d in Connections(active) ==> Registered(b, d)
    ensures Flow(WithActive(b, active))
  {
    var b' := WithActive(b, active);
    forall c | c in b'.received
      ensures ConnSound(b', c)
    {
      assert ConnSound(b, c);
    }
    forall l | 0 <= l < |b'.listeners|
      ensures SendSound(b', l)
    {
      ShrinkKeepsSend(b, active, l);
    }
  }

  lemma ShrinkKeepsSend(b: Board, active: Option<seq<Conn>>, l: nat)
    requires Flow(b) && l < |b.listeners|
    requires forall d :: d in Connections(active) ==> Registered(b, d)
    ensures SendSound(WithActive(b, active), l)
  {
    assert SendSound(b, l);
    var b' := WithActive(b, active);
    var p := b.listeners[l].phase;
    if p.Sending? {
      forall c | c in p.waiting
        ensures WaitSound(b', c, p.index)
      {
        assert WaitSound(b, c, p.index);
      }
    }
  }

  lemma DisconnectKeepsFlow(b: Board, c: Conn)
    requires Flow(b) && Normal(b.active)
    ensures Flow(WithActive(b, Disconnect(b.active, c)))
  {
    DisconnectFilters(b.active, c);
    WithoutMembers(Connections(b.active), {c});
    ShrinkKeepsFlow(b, Disconnect(b.active, c));
  }

  /** With nobody registered the listener can be let go in any phase. */
  lemma ReleaseKeepsFlow(b: Board, running: set<Conn>, l: nat)
    requires Flow(b) && b.active.None? && l < |b.listeners|
    ensures Flow(Put(b, l, b.listeners[l].(cancelled := true)).(task := None, running := running))
  {
    var b' := Put(b, l, b.listeners[l].(cancelled := true)).(task := None, running := running);
    forall c | c in b'.received
      ensures ConnSound(b', c)
    {
      assert ConnSound(b, c);
    }
    forall k | 0 <= k < |b'.listeners|
      ensures SendSound(b', k)
    {
      assert SendSound(b, k);
      var p := b.listeners[k].phase;
      if p.Sending? {
        forall d | d in p.waiting
          ensures WaitSound(b', d, p.index)
        {
          assert WaitSound(b, d, p.index);
        }
      }
    }
    forall k, m | 0 <= k < m < |b'.listeners|
      ensures Apart(b'.listeners[k].phase, b'.listeners[m].phase)
    {
      assert Apart(b.listeners[k].phase, b.listeners[m].phase);
    }
  }

  /** The board's listener starts a broadcast. */
  lemma StartSendKeepsConn(b: Board, l: nat, msg: Msg, c: Conn)
    requires Flow(b) && b.task == Some(l) && l < |b.listeners| && !b.listeners[l].phase.Sending? && c in b.received
    ensures ConnSound(StartSend(b, l, msg), c)
  {
    var b' := StartSend(b, l, msg);
    assert ConnSound(b, c);
    assert b.sent <= b'.sent && |b'.sent| == |b.sent| + 1;
    assert b'.sent[b.joined[c]..ServedTo(b, c)] == b.sent[b.joined[c]..ServedTo(b, c)];
  }

  lemma StartSendKeepsSend(b: Board, l: nat, msg: Msg, k: nat)
    requires Flow(b) && b.task == Some(l) && l < |b.listeners| && !b.listeners[l].phase.Sending? && k < |b.listeners|
    ensures SendSound(StartSend(b, l, msg), k)
  {
    var b' := StartSend(b, l, msg);
    assert SendSound(b, k);
    var p := b'.listeners[k].phase;
    if p.Sending? {
      forall c | c in p.waiting
        ensures WaitSound(b', c, p.index)
      {
        if k == l {
          assert Registered(b, c) && ConnSound(b, c);
        } else {
          assert WaitSound(b, c, p.index);
        }
      }
    }
  }

  lemma StartSendKeepsFlow(b: Board, l: nat, msg: Msg)
    requires Flow(b) && b.task == Some(l) && l < |b.listeners| && !b.listeners[l].phase.Sending?
    ensures Flow(StartSend(b, l, msg))
  {
    var b' := StartSend(b, l, msg);
    forall c | c in b'.received
      ensures ConnSound(b', c)
    {
      StartSendKeepsConn(b, l, msg, c);
    }
    forall k | 0 <= k < |b'.listeners|
      ensures SendSound(b', k)
    {
      StartSendKeepsSend(b, l, msg, k);
    }
    forall k, m | 0 <= k < m < |b'.listeners|
      ensures Apart(b'.listeners[k].phase, b'.listeners[m].phase)
    {
      assert Apart(b.listeners[k].phase, b.listeners[m].phase) && SendSound(b, k) && SendSound(b, m);
    }
  }

  lemma SendOkKeepsSend(b: Board, l: nat, c: Conn, k: nat)
    requires Flow(b) && Enabled(b, SendOk(l, c)) && k < |b.listeners|
    ensures SendSound(Step(b, SendOk(l, c)), k)
  {
    var b' := Step(b, SendOk(l, c));
    assert SendSound(b, k);
    var p := b'.listeners[k].phase;
    if p.Sending? {
      forall d | d in p.waiting
        ensures WaitSound(b', d, p.index)
      {
        assert k < l ==> Apart(b.listeners[k].phase, b.listeners[l].phase);
        assert l < k ==> Apart(b.listeners[l].phase, b.listeners[k].phase);
        assert d != c && WaitSound(b, d, p.index);
      }
    }
  }

  lemma SendOkKeepsConn(b: Board, l: nat, c: Conn, d: Conn)
    requires Flow(b) && Enabled(b, SendOk(l, c)) && d in b.received
    ensures ConnSound(Step(b, SendOk(l, c)), d)
  {
    var b' := Step(b, SendOk(l, c));
    assert SendSound(b, l) && WaitSound(b, c, b.listeners[l].phase.index);
    assert ConnSound(b, d);
    if d == c {
      SliceGrows(b.sent, b.joined[c], ServedTo(b, c));
    }
  }

  lemma SliceGrows(sent: seq<Msg>, from: nat, to: nat)
    requires from <= to < |sent|
    ensures sent[from..to] + [sent[to]] == sent[from..to + 1]
  {
  }

  lemma SendOkKeepsFlow(b: Board, l: nat, c: Conn)
    requires Flow(b) && Enabled(b, SendOk(l, c))
    ensures Flow(Step(b, SendOk(l, c)))
  {
    var b' := Step(b, SendOk(l, c));
    forall d | d in b'.received
      ensures ConnSound(b', d)
    {
      SendOkKeepsConn(b, l, c, d);
    }
    forall k | 0 <= k < |b'.listeners|
      ensures SendSound(b', k)
    {
      SendOkKeepsSend(b, l, c, k);
    }
    forall k, m | 0 <= k < m < |b'.listeners|
      ensures Apart(b'.listeners[k].phase, b'.listeners[m].phase)
    {
      assert Apart(b.listeners[k].phase, b.listeners[m].phase);
    }
  }

  lemma SendFailsKeepsFlow(b: Board, l: nat, c: Conn)
    requires Flow(b) && Enabled(b, SendFails(l, c))
    ensures Flow(Step(b, SendFails(l, c)))
  {
    var b' := Step(b, SendFails(l, c));
    forall d | d in b'.received
      ensures ConnSound(b', d)
    {
      assert ConnSound(b, d);
    }
    forall k | 0 <= k < |b'.listeners|
      ensures SendSound(b', k)
    {
      assert SendSound(b, k);
      var p := b'.listeners[k].phase;
      if p.Sending? {
        forall d | d in p.waiting
          ensures WaitSound(b', d, p.index)
        {
          assert WaitSound(b, d, p.index);
        }
      }
    }
    forall k, m | 0 <= k < m < |b'.listeners|
      ensures Apart(b'.listeners[k].phase, b'.listeners[m].phase)
    {
      assert Apart(b.listeners[k].phase, b.listeners[m].phase);
    }
  }

  /** Every send has succeeded, or failed on a connection that is no longer registered. */
  lemma StopSendKeepsFlow(b: Board, l: nat, x: Listener)
    requires Flow(b) && b.task == Some(l) && l < |b.listeners|
    requires var p := b.listeners[l].phase; p.Sending? && p.waiting == {} && forall c :: c in p.failed ==> !Registered(b, c)
    requires !x.phase.Sending?
    ensures Flow(Put(b, l, x))
  {
    var b' := Put(b, l, x);
    forall c | c in b'.received
      ensures ConnSound(b', c)
    {
      assert ConnSound(b, c);
    }
    forall k | 0 <= k < |b'.listeners|
      ensures SendSound(b', k)
    {
      assert SendSound(b, k);
      var p := b'.listeners[k].phase;
      if p.Sending? {
        forall d | d in p.waiting
          ensures WaitSound(b', d, p.index)
        {
          assert WaitSound(b, d, p.index);
        }
      }
    }
    forall k, m | 0 <= k < m < |b'.listeners|
      ensures Apart(b'.listeners[k].phase, b'.listeners[m].phase)
    {
      assert Apart(b.listeners[k].phase, b.listeners[m].phase);
    }
  }

  // ---- The steps, put together from those changes ----

  lemma JoinKeepsFlow(b: Board, user: int)
    requires Flow(b)
    ensures Flow(DoJoin(b, user))
  {
    var b1 := AddConn(b, Conn(b.nextConn, user));
    AddConnKeepsFlow(b, user);
    if b1.task.None? || TaskDone(b1) {
      NewListenerKeepsFlow(b1);
    }
  }

  lemma LeaveKeepsFlow(b: Board, c: Conn)
    requires Flow(b) && Normal(b.active)
    ensures Flow(DoLeave(b, c))
  {
    var b0 := WithActive(b, Disconnect(b.active, c));
    var b1 := b0.(running := b0.running - {c});
    DisconnectKeepsFlow(b, c);
    OffStageKeepsFlow(b0, b1);
    if b1.active.None? && b1.task.Some? && b1.task.value < |b1.listeners| {
      ReleaseKeepsFlow(b1, b1.running, b1.task.value);
      var l := b1.task.value;
      assert DoLeave(b, c) == Put(b1, l, b1.listeners[l].(cancelled := true)).(task := None, running := b1.running);
    }
  }

  lemma GatherDoneKeepsFlow(b: Board, l: nat)
    requires Delivery(b) && Enabled(b, GatherDone(l))
    ensures Flow(Step(b, GatherDone(l)))
  {
    assert Live(b.listeners[l]) && SendSound(b, l);
    var p := b.listeners[l].phase;
    var gone := set c | c in p.snapshot && c in p.failed;
    var active := DropFailed(b.active, p.snapshot, p.failed);
    DropFailedFilters(b.active, p.snapshot, p.failed);
    WithoutMembers(Connections(b.active), gone);
    ShrinkKeepsFlow(b, active);
    var b' := Step(b, GatherDone(l));
    StopSendKeepsFlow(WithActive(b, active), l, b'.listeners[l]);
  }

  lemma RevokeKeepsFlow(b: Board, l: nat, msg: Msg, left: seq<Conn>)
    requires Flow(b) && Normal(b.active) && b.task == Some(l) && l < |b.listeners| && !b.listeners[l].phase.Sending?
    ensures Flow(RevokeNext(b, l, msg, left))
  {
    if left == [] {
      StartSendKeepsFlow(b, l, msg);
    } else {
      DisconnectKeepsFlow(b, left[0]);
      OffStageKeepsFlow(WithActive(b, Disconnect(b.active, left[0])), RevokeNext(b, l, msg, left));
    }
  }

  lemma ReceiveKeepsFlow(b: Board, l: nat)
    requires Delivery(b) && Enabled(b, Receive(l))
    ensures Flow(Step(b, Receive(l)))
  {
    var x := b.listeners[l];
    assert Live(x);
    var b1 := Put(b, l, x.(buffer := x.buffer[1..], notes := x.notes + [Forwarded(x.buffer[0])]));
    OffStageKeepsFlow(b, b1);
    RevokeKeepsFlow(b1, l, x.buffer[0], Revoked(b, x.buffer[0]));
  }

  lemma SubscribedKeepsFlow(b: Board, l: nat)
    requires Delivery(b) && Enabled(b, Subscribed(l))
    ensures Flow(Step(b, Subscribed(l)))
  {
    var x := b.listeners[l];
    assert Live(x);
    if x.recovering {
      var b1 := Put(b, l, x.(online := true, buffer := []));
      OffStageKeepsFlow(b, b1);
      StartSendKeepsFlow(b1, l, Resync);
    } else {
      OffStageKeepsFlow(b, Step(b, Subscribed(l)));
    }
  }

  lemma OtherStepsAreOffStage(b: Board, move: Label)
    requires Lifecycle(b) && Enabled(b, move)
    requires move.Publish? || move.SubscribeFails? || move.LoseConnection? || move.Detect? || move.Closed?
             || move.Wake? || move.Crash? || move.Unwind? || move.Died?
    ensures OffStage(b, Step(b, move))
  {
    if !move.Publish? {
      OthersMoveOneListener(b, move);
      LeavesTheStage(b, move);
    }
  }

  lemma LeavesTheStage(b: Board, move: Label)
    requires Lifecycle(b) && Enabled(b, move)
    requires move.SubscribeFails? || move.LoseConnection? || move.Detect? || move.Closed?
             || move.Wake? || move.Crash? || move.Unwind? || move.Died?
    ensures var b' := Step(b, move);
            && b'.active == b.active && b'.received == b.received && b'.sent == b.sent && b'.joined == b.joined
            && b'.dropped == b.dropped && |b'.listeners| == |b.listeners|
            && var p, p' := b.listeners[move.l].phase, b'.listeners[move.l].phase;
               p' == p || (!p'.Sending? && (p.Sending? ==> b.task != Some(move.l)))
  {
  }

  lemma StepKeepsDelivery(b: Board, move: Label)
    requires Delivery(b)
    ensures Delivery(Step(b, move))
  {
    StepKeepsLifecycle(b, move);
    if Enabled(b, move) {
      match move {
        case Join(user) => JoinKeepsFlow(b, user);
        case Leave(c) => LeaveKeepsFlow(b, c);
        case Subscribed(l) => SubscribedKeepsFlow(b, l);
        case Receive(l) => ReceiveKeepsFlow(b, l);
        case CloseDone(l) =>
          assert Live(b.listeners[l]);
          RevokeKeepsFlow(b, l, b.listeners[l].phase.msg, b.listeners[l].phase.left);
        case SendOk(l, c) => SendOkKeepsFlow(b, l, c);
        case SendFails(l, c) => SendFailsKeepsFlow(b, l, c);
        case GatherDone(l) => GatherDoneKeepsFlow(b, l);
        case _ =>
          OtherStepsAreOffStage(b, move);
          OffStageKeepsFlow(b, Step(b, move));
      }
    }
  }

  lemma {:induction false} RunKeepsDelivery(b: Board, moves: seq<Label>)
    requires Delivery(b)
    ensures Delivery(Run(b, moves))
    decreases |moves|
  {
    if moves != [] {
      StepKeepsDelivery(b, moves[0]);
      RunKeepsDelivery(Step(b, moves[0]), moves[1..]);
    }
  }

  /** How a step may change the log and one connection's history. */
  ghost predicate Honest(b: Board, b': Board, c: Conn) {
    && b.sent <= b'.sent
    && (c in b.received ==>
          && c in b'.received && c in b.joined && c in b'.joined && b'.joined[c] == b.joined[c]
          && b.received[c] <= b'.received[c] && |b'.received[c]| <= |b.received[c]| + 1)
    && (c in b.dropped ==> c in b'.dropped && b'.dropped[c] == b.dropped[c])
    && (Registered(b', c) && !Registered(b, c) ==> c !in b.received && c in b'.joined && b'.joined[c] == |b.sent|)
    && (Registered(b, c) && !Registered(b', c) ==> c in b'.dropped && b'.dropped[c] == |b.sent|)
  }

  lemma JoinIsHonest(b: Board, user: int, c: Conn)
    requires Flow(b)
    ensures Honest(b, DoJoin(b, user), c)
  {
    if c in b.received {
      assert ConnSound(b, c);
    }
  }

  lemma OffStageIsHonest(b: Board, b': Board, c: Conn)
    requires Flow(b) && OffStage(b, b')
    ensures Honest(b, b', c)
  {
    if c in b.received {
      assert ConnSound(b, c);
    }
  }

  lemma ShrinkIsHonest(b: Board, move: Label, c: Conn)
    requires Delivery(b) && Enabled(b, move) && (move.Leave? || move.GatherDone?)
    ensures Honest(b, Step(b, move), c)
  {
    if c in b.received {
      assert ConnSound(b, c);
    }
    NobodyElseRegisters(b, move);
  }

  lemma SendIsHonest(b: Board, move: Label, c: Conn)
    requires Flow(b) && Enabled(b, move) && (move.SendOk? || move.SendFails? || move.Subscribed?)
    ensures Honest(b, Step(b, move), c)
  {
    if c in b.received {
      assert ConnSound(b, c);
    }
  }

  lemma RevokeIsHonest(b: Board, l: nat, msg: Msg, left: seq<Conn>, c: Conn)
    requires Delivery(b) && b.task == Some(l) && l < |b.listeners|
    ensures Honest(b, RevokeNext(b, l, msg, left), c)
  {
    if c in b.received {
      assert ConnSound(b, c);
    }
    if left != [] {
      DisconnectFilters(b.active, left[0]);
      WithoutMembers(Connections(b.active), {left[0]});
    }
  }

  /** `sent`, `joined` and `dropped` are what their names say: the log only grows, a connection's
      marks are made when it comes and when it goes and never change, and a step hands a
      connection at most one message. */
  lemma ReceiveIsHonest(b: Board, l: nat, c: Conn)
    requires Delivery(b) && Enabled(b, Receive(l))
    ensures Honest(b, Step(b, Receive(l)), c)
  {
    var x := b.listeners[l];
    assert Live(x);
    var b1 := Put(b, l, x.(buffer := x.buffer[1..], notes := x.notes + [Forwarded(x.buffer[0])]));
    OffStageKeepsFlow(b, b1);
    QuietKeepsLifecycle(b, b1);
    RevokeIsHonest(b1, l, x.buffer[0], Revoked(b, x.buffer[0]), c);
  }

  lemma HistoryIsHonest(b: Board, move: Label, c: Conn)
    requires Delivery(b)
    ensures Honest(b, Step(b, move), c)
  {
    if Enabled(b, move) {
      match move {
        case Join(user) => JoinIsHonest(b, user, c);
        case Leave(d) => ShrinkIsHonest(b, move, c);
        case GatherDone(l) => ShrinkIsHonest(b, move, c);
        case Subscribed(l) => SendIsHonest(b, move, c);
        case Receive(l) => ReceiveIsHonest(b, l, c);
        case CloseDone(l) =>
          assert Live(b.listeners[l]);
          RevokeIsHonest(b, l, b.listeners[l].phase.msg, b.listeners[l].phase.left, c);
        case SendOk(_, _) => SendIsHonest(b, move, c);
        case SendFails(_, _) => SendIsHonest(b, move, c);
        case _ =>
          OtherStepsAreOffStage(b, move);
          OffStageIsHonest(b, Step(b, move), c);
      }
    } else {
      OffStageIsHonest(b, b, c);
    }
  }

  lemma NobodyElseRegisters(b: Board, move: Label)
    requires Lifecycle(b) && !move.Join?
    ensures forall c :: Registered(Step(b, move), c) ==> Registered(b, c)
  {
    if move.Leave? {
      DisconnectFilters(b.active, move.conn);
      WithoutMembers(Connections(b.active), {move.conn});
    } else {
      OtherStepsAreQuiet(b, move);
    }
  }

  lemma GatherDropsFailed(b: Board, l: nat, c: Conn)
    requires Delivery(b) && Enabled(b, GatherDone(l)) && Registered(Step(b, GatherDone(l)), c)
    ensures b.task == Some(l) && Step(b, GatherDone(l)).task == b.task && c !in b.listeners[l].phase.failed
  {
    var p := b.listeners[l].phase;
    assert Live(b.listeners[l]) && SendSound(b, l);
    DropFailedFilters(b.active, p.snapshot, p.failed);
    WithoutMembers(Connections(b.active), set d | d in p.snapshot && d in p.failed);
  }

  /** For every schedule: each socket received exactly the messages broadcast from its
      registration on, in order and once each, up to now while it is registered (short of one
      send that is still out) and up to its drop once it is not (short of its last send). */
  lemma SocketsReceiveContiguousSlices(moves: seq<Label>)
    ensures var b := Run(EMPTY, moves);
            forall c :: c in b.received ==>
              && c in b.joined
              && b.joined[c] + |b.received[c]| <= |b.sent|
              && b.received[c] == b.sent[b.joined[c]..b.joined[c] + |b.received[c]|]
              && (Registered(b, c) ==>
                    || b.joined[c] + |b.received[c]| == |b.sent|
                    || (Outstanding(b, c) && b.joined[c] + |b.received[c]| == |b.sent| - 1))
              && (!Registered(b, c) ==>
                    && c in b.dropped && b.dropped[c] <= |b.sent|
                    && b.dropped[c] - 1 <= b.joined[c] + |b.received[c]| <= b.dropped[c])
  {
    RunKeepsDelivery(EMPTY, moves);
    var b := Run(EMPTY, moves);
    forall c | c in b.received
      ensures ConnSound(b, c)
    {
    }
  }
}
