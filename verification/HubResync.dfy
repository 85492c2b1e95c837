/** Who gets the `resync` that ends a gap: everyone registered when the listener resubscribed, as
    far as they are still there when the broadcast is over. */
module HubResync {
  import opened Models
  import opened Hub
  import opened HubLifecycle
  import opened HubDelivery
  import opened HubRecovery

  /** A snapshot holds only connections that were registered when the send began. */
  predicate SnapshotSound(b: Board, p: Phase) {
    p.Sending? ==> forall c :: c in p.snapshot ==> c in b.received && c in b.joined && b.joined[c] <= p.index
  }

  predicate AllSnapshotsSound(b: Board) {
    forall l :: 0 <= l < |b.listeners| ==> SnapshotSound(b, b.listeners[l].phase)
  }

  /** The send, if any, is one that was under way before, or takes its snapshot now. */
  predicate SnapshotStep(b: Board, b': Board, p: Phase, p': Phase) {
    p'.Sending? ==>
      || (p.Sending? && p'.snapshot == p.snapshot && p'.index == p.index)
      || (p'.index == |b.sent| && forall c :: c in p'.snapshot ==> Registered(b, c))
  }

  lemma RevokeNextSnapshots(b: Board, l: nat, msg: Msg, left: seq<Conn>)
    requires l < |b.listeners|
    ensures SnapshotStep(b, b, b.listeners[l].phase, RevokeNext(b, l, msg, left).listeners[l].phase)
  {
    var p' := RevokeNext(b, l, msg, left).listeners[l].phase;
    if left == [] {
      assert p'.index == |b.sent| && p'.snapshot == Connections(b.active);
    } else {
      assert p' == Revoking(msg, left[1..]);
    }
  }

  lemma OwnSnapshotStep(b: Board, move: Label)
    requires Enabled(b, move) && !move.Join? && !move.Leave? && !move.Publish?
    ensures move.l < |Step(b, move).listeners|
    ensures SnapshotStep(b, b, b.listeners[move.l].phase, Step(b, move).listeners[move.l].phase)
  {
    match move {
      case Receive(l) =>
        var x := b.listeners[l];
        var b1 := Put(b, l, x.(buffer := x.buffer[1..], notes := x.notes + [Forwarded(x.buffer[0])]));
        RevokeNextSnapshots(b1, l, x.buffer[0], Revoked(b, x.buffer[0]));
      case CloseDone(l) => RevokeNextSnapshots(b, l, b.listeners[l].phase.msg, b.listeners[l].phase.left);
      case _ =>
    }
  }

  lemma SnapshotStepKeeps(b: Board, b': Board, p: Phase, p': Phase)
    requires Flow(b) && SnapshotSound(b, p) && SnapshotStep(b, b, p, p')
    requires forall c :: c in b.received ==> Honest(b, b', c)
    ensures SnapshotSound(b', p')
  {
    if p'.Sending? {
      forall c | c in p'.snapshot
        ensures c in b'.received && c in b'.joined && b'.joined[c] <= p'.index
      {
        assert c in b.received;
        assert Honest(b, b', c) && ConnSound(b, c);
      }
    }
  }

  lemma StepKeepsSnapshots(b: Board, move: Label)
    requires Delivery(b) && AllSnapshotsSound(b)
    ensures AllSnapshotsSound(Step(b, move))
  {
    var b' := Step(b, move);
    forall c | c in b.received
      ensures Honest(b, b', c)
    {
      HistoryIsHonest(b, move, c);
    }
    ListenersAfter(b, move);
    forall l | 0 <= l < |b.listeners|
      ensures SnapshotSound(b', b'.listeners[l].phase)
    {
      PhaseMoves(b, move, l);
      SnapshotStepKeeps(b, b', b.listeners[l].phase, b'.listeners[l].phase);
    }
  }

  lemma PhaseMoves(b: Board, move: Label, l: nat)
    requires l < |b.listeners|
    ensures l < |Step(b, move).listeners|
    ensures SnapshotStep(b, b, b.listeners[l].phase, Step(b, move).listeners[l].phase)
  {
    if Enabled(b, move) && !move.Join? && !move.Leave? && !move.Publish? {
      OthersMoveOneListener(b, move);
      if move.l == l { OwnSnapshotStep(b, move); }
    }
  }

  lemma {:induction false} RunKeepsSnapshots(b: Board, moves: seq<Label>)
    requires Delivery(b) && AllSnapshotsSound(b)
    ensures Delivery(Run(b, moves)) && AllSnapshotsSound(Run(b, moves))
    decreases |moves|
  {
    if moves != [] {
      StepKeepsDelivery(b, moves[0]);
      StepKeepsSnapshots(b, moves[0]);
      RunKeepsSnapshots(Step(b, moves[0]), moves[1..]);
    }
  }

  // ---- The end of a broadcast ----

  /** The connection received the message that the listener is sending, and nothing since. */
  predicate HeardLast(b: Board, c: Conn, p: Phase)
    requires p.Sending?
  {
    && c in b.received && c in b.joined && p.index == |b.sent| - 1 && b.sent[p.index] == p.msg
    && b.joined[c] <= p.index && ServedTo(b, c) == |b.sent|
    && b.received[c] != [] && b.received[c][|b.received[c]| - 1] == p.msg
  }

  lemma GatherIsHeard(b: Board, l: nat, c: Conn)
    requires Delivery(b) && Enabled(b, GatherDone(l)) && SnapshotSound(b, b.listeners[l].phase)
    requires c in b.listeners[l].phase.snapshot && Registered(Step(b, GatherDone(l)), c)
    ensures HeardLast(b, c, b.listeners[l].phase)
    ensures Step(b, GatherDone(l)).received == b.received && Step(b, GatherDone(l)).joined == b.joined
    ensures Step(b, GatherDone(l)).sent == b.sent
  {
    GatherDropsFailed(b, l, c);
    NobodyElseRegisters(b, GatherDone(l));
    SentMeansHeard(b, l, c);
  }

  /** A registered connection that the send neither waits for nor failed on has the message. */
  lemma SentMeansHeard(b: Board, l: nat, c: Conn)
    requires Delivery(b) && l < |b.listeners| && b.task == Some(l) && b.listeners[l].phase.Sending?
    requires SnapshotSound(b, b.listeners[l].phase) && c in b.listeners[l].phase.snapshot && Registered(b, c)
    requires c !in b.listeners[l].phase.waiting && c !in b.listeners[l].phase.failed
    ensures HeardLast(b, c, b.listeners[l].phase)
  {
    assert SendSound(b, l) && ConnSound(b, c);
    LastOfSlice(b.sent, b.joined[c]);
  }

  lemma LastOfSlice(sent: seq<Msg>, from: nat)
    requires from < |sent|
    ensures var slice := sent[from..|sent|]; slice != [] && slice[|slice| - 1] == sent[|sent| - 1]
  {
  }

  /** In every schedule: when the broadcast of a recovering listener is over, the last thing that
      every connection of its snapshot received that is still registered is `resync`. */
  lemma ResyncIsHeard(before: seq<Label>, l: nat, c: Conn)
    requires var b := Run(EMPTY, before);
             && Enabled(b, GatherDone(l)) && b.listeners[l].recovering
             && c in b.listeners[l].phase.snapshot && Registered(Step(b, GatherDone(l)), c)
    ensures var received := Step(Run(EMPTY, before), GatherDone(l)).received;
            c in received && received[c] != [] && received[c][|received[c]| - 1] == Resync
  {
    RunKeepsSnapshots(EMPTY, before);
    RecoveringSendsResync(before, l);
    GatherEndsWith(Run(EMPTY, before), l, c);
  }

  lemma GatherEndsWith(b: Board, l: nat, c: Conn)
    requires Delivery(b) && AllSnapshotsSound(b) && Enabled(b, GatherDone(l))
    requires c in b.listeners[l].phase.snapshot && Registered(Step(b, GatherDone(l)), c)
    ensures var received := Step(b, GatherDone(l)).received;
            c in received && received[c] != [] && received[c][|received[c]| - 1] == b.listeners[l].phase.msg
  {
    GatherIsHeard(b, l, c);
  }

  lemma RecoveringSendsResync(before: seq<Label>, l: nat)
    requires var b := Run(EMPTY, before); l < |b.listeners| && b.listeners[l].phase.Sending? && b.listeners[l].recovering
    ensures Run(EMPTY, before).listeners[l].phase.msg == Resync
  {
    RunKeepsSound(EMPTY, before);
    assert Sound(Run(EMPTY, before).listeners[l]);
  }

  // ---- From resubscribing to the end of the gap and on ----

  /** `c` was there for the n-th broadcast, which was `resync`, and received it. */
  predicate Heard(b: Board, c: Conn, n: nat) {
    && c in b.received && c in b.joined && b.joined[c] <= n < ServedTo(b, c)
    && b.received[c][n - b.joined[c]] == Resync
  }

  /** Since the listener resubscribed with `k` notes and `n` messages sent: the broadcast to `conns`
      is under way or was given up, or it is noted and was heard by all who are still there. */
  ghost predicate Resyncing(b: Board, l: nat, k: nat, n: nat, conns: seq<Conn>) {
    && l < |b.listeners| && |b.listeners[l].notes| >= k
    && (forall c :: c in conns ==> c in b.received)
    && if |b.listeners[l].notes| == k then Underway(b.listeners[l], n, conns) else Over(b, l, k, n, conns)
  }

  predicate Underway(x: Listener, n: nat, conns: seq<Conn>) {
    || x.phase.Dying? || x.phase.Ended?
    || (x.phase.Sending? && x.recovering && x.phase.msg == Resync && x.phase.index == n && x.phase.snapshot == conns)
  }

  ghost predicate Over(b: Board, l: nat, k: nat, n: nat, conns: seq<Conn>)
    requires l < |b.listeners| && k < |b.listeners[l].notes|
  {
    && b.listeners[l].notes[k] == Resynced(conns)
    && forall c :: c in conns && Registered(b, c) ==> Heard(b, c, n)
  }

  lemma NotesGrow(b: Board, move: Label, l: nat)
    requires l < |b.listeners|
    ensures l < |Step(b, move).listeners| && b.listeners[l].notes <= Step(b, move).listeners[l].notes
  {
    if Enabled(b, move) && !move.Join? && !move.Leave? && !move.Publish? {
      OthersMoveOneListener(b, move);
      if move.l == l { OwnNotesGrow(b, move); }
    }
  }

  lemma OwnNotesGrow(b: Board, move: Label)
    requires Enabled(b, move) && !move.Join? && !move.Leave? && !move.Publish?
    ensures move.l < |Step(b, move).listeners| && b.listeners[move.l].notes <= Step(b, move).listeners[move.l].notes
  {
    match move {
      case Receive(l) =>
        var x := b.listeners[l];
        var b1 := Put(b, l, x.(buffer := x.buffer[1..], notes := x.notes + [Forwarded(x.buffer[0])]));
        assert RevokeNext(b1, l, x.buffer[0], Revoked(b, x.buffer[0])).listeners[l].notes == b1.listeners[l].notes;
      case _ =>
    }
  }

  lemma StaysHeard(b: Board, b': Board, c: Conn, n: nat)
    requires Honest(b, b', c) && Heard(b, c, n)
    ensures Heard(b', c, n)
  {
    assert b'.received[c][n - b.joined[c]] == b.received[c][n - b.joined[c]];
  }

  /** A step of the listener while the resync is being sent. */
  lemma UnderwayMoves(b: Board, move: Label, n: nat, conns: seq<Conn>)
    requires Enabled(b, move) && !move.Join? && !move.Leave? && !move.Publish? && !move.GatherDone?
    requires Underway(b.listeners[move.l], n, conns)
    ensures move.l < |Step(b, move).listeners|
    ensures Step(b, move).listeners[move.l].notes == b.listeners[move.l].notes
    ensures Underway(Step(b, move).listeners[move.l], n, conns)
  {
  }

  lemma GatherEndsResync(b: Board, l: nat, k: nat, n: nat, conns: seq<Conn>)
    requires Delivery(b) && AllSnapshotsSound(b) && Enabled(b, GatherDone(l))
    requires Resyncing(b, l, k, n, conns) && |b.listeners[l].notes| == k
    ensures Resyncing(Step(b, GatherDone(l)), l, k, n, conns)
  {
    var b' := Step(b, GatherDone(l));
    assert b'.listeners[l].notes == b.listeners[l].notes + [Resynced(conns)];
    forall c | c in conns && Registered(b', c)
      ensures Heard(b', c, n)
    {
      GatherIsHeard(b, l, c);
    }
  }

  /** Once the resync is over it stays noted and heard. */
  lemma OverStays(b: Board, move: Label, l: nat, k: nat, n: nat, conns: seq<Conn>)
    requires Delivery(b) && Resyncing(b, l, k, n, conns) && |b.listeners[l].notes| > k
    ensures Resyncing(Step(b, move), l, k, n, conns)
  {
    var b' := Step(b, move);
    NotesGrow(b, move, l);
    forall c | c in conns
      ensures c in b'.received && (Registered(b', c) ==> Heard(b', c, n))
    {
      HistoryIsHonest(b, move, c);
      if Registered(b', c) { StaysHeard(b, b', c, n); }
    }
  }

  lemma StepKeepsResyncing(b: Board, move: Label, l: nat, k: nat, n: nat, conns: seq<Conn>)
    requires Delivery(b) && AllSnapshotsSound(b) && Resyncing(b, l, k, n, conns)
    ensures Resyncing(Step(b, move), l, k, n, conns)
  {
    if |b.listeners[l].notes| > k {
      OverStays(b, move, l, k, n, conns);
    } else {
      var b' := Step(b, move);
      forall c | c in conns
        ensures c in b'.received
      {
        HistoryIsHonest(b, move, c);
      }
      if Enabled(b, move) && !move.Join? && !move.Leave? && !move.Publish? {
        OthersMoveOneListener(b, move);
        if move == GatherDone(l) {
          GatherEndsResync(b, l, k, n, conns);
        } else if move.l == l {
          UnderwayMoves(b, move, n, conns);
        }
      }
    }
  }

  lemma {:induction false} RunKeepsResyncing(b: Board, moves: seq<Label>, l: nat, k: nat, n: nat, conns: seq<Conn>)
    requires Delivery(b) && AllSnapshotsSound(b) && Resyncing(b, l, k, n, conns)
    ensures Resyncing(Run(b, moves), l, k, n, conns)
    decreases |moves|
  {
    if moves != [] {
      StepKeepsDelivery(b, moves[0]);
      StepKeepsSnapshots(b, moves[0]);
      StepKeepsResyncing(b, moves[0], l, k, n, conns);
      RunKeepsResyncing(Step(b, moves[0]), moves[1..], l, k, n, conns);
    }
  }

  /** A listener resubscribes after a gap in any schedule. Whatever happens then: before it notes
      anything else, a forwarded message or a new loss, it has noted the resync of exactly the
      connections registered when it resubscribed, and each of those that is still registered has
      received `resync` in its place among the broadcasts. */
  lemma GapEndsInResync(before: seq<Label>, l: nat, after: seq<Label>)
    requires Enabled(Run(EMPTY, before), Subscribed(l)) && Run(EMPTY, before).listeners[l].recovering
    ensures var b := Run(EMPTY, before);
            var b' := Run(Step(b, Subscribed(l)), after);
            var k, n, conns := |b.listeners[l].notes|, |b.sent|, Connections(b.active);
            && l < |b'.listeners| && |b'.listeners[l].notes| >= k
            && (|b'.listeners[l].notes| > k ==> Over(b', l, k, n, conns))
  {
    RunKeepsSnapshots(EMPTY, before);
    var b := Run(EMPTY, before);
    var b1 := Step(b, Subscribed(l));
    StepKeepsDelivery(b, Subscribed(l));
    StepKeepsSnapshots(b, Subscribed(l));
    ResyncGoesToEveryone(b, l);
    RunKeepsResyncing(b1, after, l, |b.listeners[l].notes|, |b.sent|, Connections(b.active));
  }
}
