/** How a listener gets over a gap in its subscription, and how long it waits between attempts. */
module HubRecovery {
  import opened Models
  import Backoff
  import opened Hub
  import opened HubLifecycle

  /** Something ended since the last completed resync. */
  function GapOpen(notes: seq<Note>): bool {
    if notes == [] then false
    else match notes[|notes| - 1]
      case Lost => true
      case Resynced(_) => false
      case Forwarded(_) => GapOpen(notes[..|notes| - 1])
  }

  /** How many attempts or subscriptions ended in a row, up to now. */
  function Streak(notes: seq<Note>): nat {
    if notes == [] || !notes[|notes| - 1].Lost? then 0 else 1 + Streak(notes[..|notes| - 1])
  }

  /** The wait after `k` failures in a row. */
  function DelayAfter(k: nat): real {
    Backoff.Capped(INITIAL_DELAY, MAX_DELAY, k)
  }

  /** A message is forwarded only after every earlier gap was closed by a resync. */
  predicate ForwardsAfterResync(notes: seq<Note>) {
    forall i, j :: 0 <= i < j < |notes| && notes[i].Lost? && notes[j].Forwarded? ==>
      exists k :: i < k < j && notes[k].Resynced?
  }

  /** Between the moment the subscription ends and the end of aclose() the flag still lags. */
  predicate FlagSound(x: Listener) {
    match x.phase
    case Closing => GapOpen(x.notes)
    case Dying => true
    case Ended => true
    case _ => x.recovering == GapOpen(x.notes)
  }

  predicate PhaseSound(x: Listener) {
    match x.phase
    case Listening => !x.recovering && x.failures == 0
    case Revoking(_, _) => !x.recovering && x.failures == 0
    case Sending(msg, _, _, _, _) => if x.recovering then msg == Resync else x.failures == 0
    case Closing => x.failures >= 1
    case Sleeping => x.failures >= 1 && x.recovering
    case _ => true
  }

  /** The delay in force: in Closing and Sleeping the next wait, otherwise the one after it. */
  predicate DelaySound(x: Listener) {
    match x.phase
    case Closing => x.failures >= 1 && x.delay == DelayAfter(x.failures - 1)
    case Sleeping => x.failures >= 1 && x.delay == DelayAfter(x.failures - 1)
    case Dying => true
    case Ended => true
    case _ => x.delay == DelayAfter(x.failures)
  }

  predicate CountSound(x: Listener) {
    x.phase.Dying? || x.phase.Ended? || x.failures == Streak(x.notes)
  }

  predicate Sound(x: Listener) {
    CountSound(x) && FlagSound(x) && PhaseSound(x) && DelaySound(x) && ForwardsAfterResync(x.notes)
  }

  lemma {:induction false} ClosedGapHasResync(notes: seq<Note>, i: nat)
    requires !GapOpen(notes) && i < |notes| && notes[i].Lost?
    ensures exists k :: i < k < |notes| && notes[k].Resynced?
  {
    var rest := notes[..|notes| - 1];
    if notes[|notes| - 1].Forwarded? {
      ClosedGapHasResync(rest, i);
      var k :| i < k < |rest| && rest[k].Resynced?;
      assert notes[k].Resynced?;
    }
  }

  lemma ForwardKeepsOrder(notes: seq<Note>, msg: Msg)
    requires ForwardsAfterResync(notes) && !GapOpen(notes)
    ensures ForwardsAfterResync(notes + [Forwarded(msg)]) && !GapOpen(notes + [Forwarded(msg)])
    ensures Streak(notes + [Forwarded(msg)]) == 0
  {
    var more := notes + [Forwarded(msg)];
    assert more[..|more| - 1] == notes;
    forall i, j | 0 <= i < j < |more| && more[i].Lost? && more[j].Forwarded?
      ensures exists k :: i < k < j && more[k].Resynced?
    {
      if j == |notes| {
        ClosedGapHasResync(notes, i);
        var k :| i < k < |notes| && notes[k].Resynced?;
        assert more[k].Resynced?;
      } else {
        var k :| i < k < j && notes[k].Resynced?;
        assert more[k].Resynced?;
      }
    }
  }

  lemma NoteKeepsOrder(notes: seq<Note>, note: Note)
    requires ForwardsAfterResync(notes) && !note.Forwarded?
    ensures ForwardsAfterResync(notes + [note]) && GapOpen(notes + [note]) == note.Lost?
    ensures Streak(notes + [note]) == if note.Lost? then 1 + Streak(notes) else 0
  {
    var more := notes + [note];
    assert more[..|more| - 1] == notes;
    forall i, j | 0 <= i < j < |more| && more[i].Lost? && more[j].Forwarded?
      ensures exists k :: i < k < j && more[k].Resynced?
    {
      var k :| i < k < j && notes[k].Resynced?;
      assert more[k].Resynced?;
    }
  }

  lemma LossKeepsSound(x: Listener)
    requires Sound(x) && (x.phase.Subscribing? || x.phase.Listening?)
    ensures Sound(LoseSubscription(x))
  {
    NoteKeepsOrder(x.notes, Lost);
  }

  lemma DeliveringKeepsSound(b: Board, move: Label)
    requires Enabled(b, move) && (move.Receive? || move.CloseDone? || move.Subscribed? || move.GatherDone?)
    requires Sound(b.listeners[move.l])
    ensures Sound(Step(b, move).listeners[move.l])
  {
    var x := b.listeners[move.l];
    match move {
      case Receive(l) =>
        var x1 := x.(buffer := x.buffer[1..], notes := x.notes + [Forwarded(x.buffer[0])]);
        ForwardKeepsOrder(x.notes, x.buffer[0]);
        RevokeNextKeepsSound(Put(b, l, x1), l, x.buffer[0], Revoked(b, x.buffer[0]));
      case CloseDone(l) => RevokeNextKeepsSound(b, l, x.phase.msg, x.phase.left);
      case GatherDone(l) => GatherKeepsSound(b, l);
      case Subscribed(l) => SubscribedKeepsSound(b, l);
      case _ => assert false;
    }
  }

  lemma RevokeNextKeepsSound(b: Board, l: nat, msg: Msg, left: seq<Conn>)
    requires l < |b.listeners| && Sound(b.listeners[l]) && (b.listeners[l].phase.Listening? || b.listeners[l].phase.Revoking?)
    ensures Sound(RevokeNext(b, l, msg, left).listeners[l])
  {
    var x := b.listeners[l];
    if left == [] {
      assert RevokeNext(b, l, msg, left).listeners[l].(phase := x.phase) == x;
    } else {
      assert RevokeNext(b, l, msg, left).listeners[l] == x.(phase := Revoking(msg, left[1..]));
    }
  }

  lemma GatherKeepsSound(b: Board, l: nat)
    requires Enabled(b, GatherDone(l)) && Sound(b.listeners[l])
    ensures Sound(DoGatherDone(b, l).listeners[l])
  {
    var x := b.listeners[l];
    if x.recovering {
      NoteKeepsOrder(x.notes, Resynced(x.phase.snapshot));
    }
  }

  lemma SubscribedKeepsSound(b: Board, l: nat)
    requires Enabled(b, Subscribed(l)) && Sound(b.listeners[l])
    ensures Sound(DoSubscribed(b, l).listeners[l])
  {
  }

  lemma OwnStepKeepsSound(b: Board, move: Label)
    requires Enabled(b, move) && !move.Join? && !move.Leave? && !move.Publish? && Sound(b.listeners[move.l])
    ensures Sound(Step(b, move).listeners[move.l])
  {
    var x := b.listeners[move.l];
    match move {
      case SubscribeFails(_) => LossKeepsSound(x);
      case Detect(_) => LossKeepsSound(x);
      case Receive(_) => DeliveringKeepsSound(b, move);
      case CloseDone(_) => DeliveringKeepsSound(b, move);
      case Subscribed(_) => DeliveringKeepsSound(b, move);
      case GatherDone(_) => DeliveringKeepsSound(b, move);
      case Wake(_) => Backoff.DoublingStep(INITIAL_DELAY, MAX_DELAY, x.failures - 1);
      case _ =>
    }
  }

  lemma StepKeepsSound(b: Board, move: Label, l: nat)
    requires l < |b.listeners| && Sound(b.listeners[l])
    ensures Sound(Step(b, move).listeners[l])
  {
    if Enabled(b, move) && !move.Join? && !move.Leave? && !move.Publish? {
      OthersMoveOneListener(b, move);
      if move.l == l {
        OwnStepKeepsSound(b, move);
      }
    }
  }

  predicate AllSound(b: Board) {
    forall l :: 0 <= l < |b.listeners| ==> Sound(b.listeners[l])
  }

  lemma ListenersAfter(b: Board, move: Label)
    ensures |b.listeners| <= |Step(b, move).listeners|
    ensures |Step(b, move).listeners| > |b.listeners| ==>
              Step(b, move).listeners == b.listeners + [NEW_LISTENER]
  {
    if Enabled(b, move) && !move.Join? && !move.Leave? && !move.Publish? {
      OthersMoveOneListener(b, move);
    }
  }

  lemma StepKeepsAllSound(b: Board, move: Label)
    requires AllSound(b)
    ensures AllSound(Step(b, move))
  {
    var b' := Step(b, move);
    ListenersAfter(b, move);
    forall l | 0 <= l < |b'.listeners|
      ensures Sound(b'.listeners[l])
    {
      if l < |b.listeners| {
        StepKeepsSound(b, move, l);
      } else {
        NewListenerIsSound();
      }
    }
  }

  lemma NewListenerIsSound()
    ensures Sound(NEW_LISTENER)
  {
  }

  lemma {:induction false} RunKeepsSound(b: Board, moves: seq<Label>)
    requires AllSound(b)
    ensures AllSound(Run(b, moves))
    decreases |moves|
  {
    if moves != [] {
      StepKeepsAllSound(b, moves[0]);
      RunKeepsSound(Step(b, moves[0]), moves[1..]);
    }
  }

  /** In every schedule, for every listener: the `recovering` flag says exactly that an attempt or
      subscription ended since the last completed resync, no message is forwarded between the
      end of a subscription and the next resync, and a sleep after k + 1 attempts or subscriptions
      that ended in a row lasts min(30, 0.5 * 2^k) seconds. */
  lemma GapsAreRecovered(moves: seq<Label>)
    ensures var b := Run(EMPTY, moves);
            forall l :: 0 <= l < |b.listeners| ==>
              var x := b.listeners[l];
              && (!x.phase.Closing? && !x.phase.Dying? && !x.phase.Ended? ==> x.recovering == GapOpen(x.notes))
              && ForwardsAfterResync(x.notes)
              && (x.phase.Sleeping? ==> Streak(x.notes) >= 1 && IsBackoff(x.delay, Streak(x.notes) - 1))
  {
    RunKeepsSound(EMPTY, moves);
    forall l | 0 <= l < |Run(EMPTY, moves).listeners|
      ensures Sound(Run(EMPTY, moves).listeners[l])
    {
    }
  }

  /** min(30, 0.5 * 2^k) */
  predicate IsBackoff(delay: real, k: nat) {
    var full := 0.5 * Backoff.Pow2(k);
    delay == if full <= 30.0 then full else 30.0
  }

  /** The resync after a gap goes to every connection registered at the moment of resubscribing. */
  lemma ResyncGoesToEveryone(b: Board, l: nat)
    requires Enabled(b, Subscribed(l)) && b.listeners[l].recovering
    ensures var x := Step(b, Subscribed(l)).listeners[l];
            && x.phase.Sending? && x.phase.msg == Resync && x.phase.snapshot == Connections(b.active)
            && forall c :: c in Connections(b.active) <==> c in x.phase.waiting
  {
  }
}
