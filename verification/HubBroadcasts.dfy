/** What a listener broadcasts is what it took from its subscription, and what it takes is what was
    published while it was subscribed: nothing is left out, changed, doubled or put in between. */
module HubBroadcasts {
  import opened Models
  import opened Hub
  import opened HubLifecycle
  import opened HubDelivery
  import opened HubRevocation
  import opened HubRecovery

  /** The message the step takes from the subscription of `l`. */
  function Takes(b: Board, move: Label, l: nat): seq<Msg> {
    if move == Receive(l) && Enabled(b, move) then [b.listeners[l].buffer[0]] else []
  }

  function Appended(b: Board, b': Board): seq<Msg> {
    if |b.sent| <= |b'.sent| then b'.sent[|b.sent|..] else []
  }

  /** What the step of `l` broadcasts, other than at a resubscription. */
  function Airs(b: Board, move: Label, l: nat): seq<Msg> {
    if move == Receive(l) || move == CloseDone(l) then Appended(b, Step(b, move)) else []
  }

  function Taken(b: Board, moves: seq<Label>, l: nat): seq<Msg>
    decreases |moves|
  {
    if moves == [] then [] else Takes(b, moves[0], l) + Taken(Step(b, moves[0]), moves[1..], l)
  }

  function Aired(b: Board, moves: seq<Label>, l: nat): seq<Msg>
    decreases |moves|
  {
    if moves == [] then [] else Airs(b, moves[0], l) + Aired(Step(b, moves[0]), moves[1..], l)
  }

  function Published(moves: seq<Label>): seq<Msg> {
    if moves == [] then [] else (if moves[0].Publish? then [moves[0].msg] else []) + Published(moves[1..])
  }

  /** A message that waits for the closes of removed connections. */
  function Held(x: Listener): seq<Msg> {
    if x.phase.Revoking? then [x.phase.msg] else []
  }

  /** All that was taken was broadcast, short of the one message held back now, or held back when
      the listener was cancelled. */
  predicate Ledger(b: Board, l: nat, taken: seq<Msg>, aired: seq<Msg>) {
    if l >= |b.listeners| then taken == [] && aired == []
    else if Gone(b.listeners[l]) then aired == taken || (|aired| + 1 == |taken| && aired < taken)
    else taken == aired + Held(b.listeners[l])
  }

  lemma RevokeNextAirs(b: Board, l: nat, msg: Msg, left: seq<Conn>)
    requires l < |b.listeners|
    ensures var b' := RevokeNext(b, l, msg, left);
            |b'.listeners| == |b.listeners| && !Gone(b'.listeners[l]) && [msg] == Appended(b, b') + Held(b'.listeners[l])
  {
    if left == [] {
      assert (b.sent + [msg])[|b.sent|..] == [msg];
    }
  }

  lemma ReceiveBalances(b: Board, l: nat)
    requires Enabled(b, Receive(l))
    ensures var b' := Step(b, Receive(l));
            && |b'.listeners| == |b.listeners| && !Gone(b'.listeners[l])
            && Takes(b, Receive(l), l) == Airs(b, Receive(l), l) + Held(b'.listeners[l])
  {
    var x := b.listeners[l];
    var b1 := Put(b, l, x.(buffer := x.buffer[1..], notes := x.notes + [Forwarded(x.buffer[0])]));
    RevokeNextAirs(b1, l, x.buffer[0], Revoked(b, x.buffer[0]));
  }

  lemma CloseDoneBalances(b: Board, l: nat)
    requires Enabled(b, CloseDone(l))
    ensures var b' := Step(b, CloseDone(l));
            && |b'.listeners| == |b.listeners| && !Gone(b'.listeners[l])
            && Held(b.listeners[l]) == Airs(b, CloseDone(l), l) + Held(b'.listeners[l])
  {
    RevokeNextAirs(b, l, b.listeners[l].phase.msg, b.listeners[l].phase.left);
  }

  /** Any other step of a listener starts or drops no held message, unless the listener goes. */
  lemma OtherStepsBalance(b: Board, move: Label, l: nat)
    requires l < |b.listeners| && move != Receive(l) && move != CloseDone(l)
    ensures l < |Step(b, move).listeners|
    ensures Gone(b.listeners[l]) ==> Gone(Step(b, move).listeners[l])
    ensures !Gone(Step(b, move).listeners[l]) ==> Held(Step(b, move).listeners[l]) == Held(b.listeners[l])
  {
    if Enabled(b, move) && !move.Join? && !move.Leave? && !move.Publish? {
      OthersMoveOneListener(b, move);
      if move.l == l { SimpleStepHolds(b, move); }
    }
  }

  lemma SimpleStepHolds(b: Board, move: Label)
    requires Enabled(b, move) && !move.Join? && !move.Leave? && !move.Publish? && !move.Receive? && !move.CloseDone?
    ensures move.l < |Step(b, move).listeners|
    ensures Gone(b.listeners[move.l]) ==> Gone(Step(b, move).listeners[move.l])
    ensures !Gone(Step(b, move).listeners[move.l]) ==> Held(Step(b, move).listeners[move.l]) == Held(b.listeners[move.l])
  {
    SimpleStepStartsNoRevoking(b, move);
  }

  lemma StepKeepsLedger(b: Board, move: Label, l: nat, taken: seq<Msg>, aired: seq<Msg>)
    requires Ledger(b, l, taken, aired)
    ensures Ledger(Step(b, move), l, taken + Takes(b, move, l), aired + Airs(b, move, l))
  {
    if l >= |b.listeners| {
      ListenersAfter(b, move);
      NothingYet(b, move, l);
    } else if move == Receive(l) && Enabled(b, move) {
      ReceiveBalances(b, l);
      assert taken + Takes(b, move, l) == aired + Airs(b, move, l) + Held(Step(b, move).listeners[l]);
    } else if move == CloseDone(l) && Enabled(b, move) {
      CloseDoneBalances(b, l);
      assert aired + Held(b.listeners[l]) == aired + Airs(b, move, l) + Held(Step(b, move).listeners[l]);
    } else {
      NothingYet(b, move, l);
      assert taken + Takes(b, move, l) == taken && aired + Airs(b, move, l) == aired;
      if move != Receive(l) && move != CloseDone(l) { OtherStepsBalance(b, move, l); }
    }
  }

  lemma NothingYet(b: Board, move: Label, l: nat)
    requires l >= |b.listeners| || !Enabled(b, move) || (move != Receive(l) && move != CloseDone(l))
    ensures Takes(b, move, l) == [] && Airs(b, move, l) == []
  {
  }

  lemma Unroll(b: Board, moves: seq<Label>, l: nat)
    requires moves != []
    ensures Run(b, moves) == Run(Step(b, moves[0]), moves[1..])
    ensures Taken(b, moves, l) == Takes(b, moves[0], l) + Taken(Step(b, moves[0]), moves[1..], l)
    ensures Aired(b, moves, l) == Airs(b, moves[0], l) + Aired(Step(b, moves[0]), moves[1..], l)
    ensures Published(moves) == Published([moves[0]]) + Published(moves[1..])
  {
    assert [moves[0]][1..] == [];
  }

  lemma Associates(a: seq<Msg>, b: seq<Msg>, c: seq<Msg>)
    ensures a + (b + c) == (a + b) + c
  {
  }

  lemma {:induction false} RunKeepsLedger(b: Board, moves: seq<Label>, l: nat, taken: seq<Msg>, aired: seq<Msg>)
    requires Ledger(b, l, taken, aired)
    ensures Ledger(Run(b, moves), l, taken + Taken(b, moves, l), aired + Aired(b, moves, l))
    decreases |moves|
  {
    if moves == [] {
      assert taken + [] == taken && aired + [] == aired;
    } else {
      var move, rest := moves[0], moves[1..];
      Unroll(b, moves, l);
      StepKeepsLedger(b, move, l, taken, aired);
      var t, a := Takes(b, move, l), Airs(b, move, l);
      var b1 := Step(b, move);
      RunKeepsLedger(b1, rest, l, taken + t, aired + a);
      Associates(taken, t, Taken(b1, rest, l));
      Associates(aired, a, Aired(b1, rest, l));
    }
  }

  /** In every schedule, outside resubscriptions a listener has broadcast exactly the messages it
      took from its subscription, in that order, short of one that it is holding back until the
      closes of a removed member's sockets are over, or was when it was cancelled. */
  lemma BroadcastsAreWhatWasTaken(moves: seq<Label>, l: nat)
    requires l < |Run(EMPTY, moves).listeners|
    ensures var x, taken, aired := Run(EMPTY, moves).listeners[l], Taken(EMPTY, moves, l), Aired(EMPTY, moves, l);
            && (!Gone(x) ==> taken == aired + if x.phase.Revoking? then [x.phase.msg] else [])
            && (Gone(x) ==> aired == taken || (|aired| + 1 == |taken| && aired < taken))
  {
    RunKeepsLedger(EMPTY, moves, l, [], []);
    assert [] + Taken(EMPTY, moves, l) == Taken(EMPTY, moves, l) && [] + Aired(EMPTY, moves, l) == Aired(EMPTY, moves, l);
  }

  /** Nothing else is ever broadcast, but the `resync` of a listener that resubscribes after a gap. */
  lemma NothingElseIsBroadcast(b: Board, move: Label)
    ensures Step(b, move).sent == b.sent + match move
                                           case Receive(l) => Airs(b, move, l)
                                           case CloseDone(l) => Airs(b, move, l)
                                           case Subscribed(l) => if Enabled(b, move) && b.listeners[l].recovering then [Resync] else []
                                           case _ => []
  {
    match move {
      case Receive(l) => SentGrows(b, Step(b, move));
      case CloseDone(l) => SentGrows(b, Step(b, move));
      case Subscribed(l) =>
      case _ => OthersSendNothing(b, move);
    }
  }

  lemma OthersSendNothing(b: Board, move: Label)
    requires !move.Receive? && !move.CloseDone? && !move.Subscribed?
    ensures Step(b, move).sent == b.sent
  {
  }

  lemma SentGrows(b: Board, b': Board)
    requires b.sent <= b'.sent
    ensures b'.sent == b.sent + Appended(b, b')
  {
  }

  /** Once the last of the removed member's sockets is closed, everyone who is registered at that
      moment is sent the `member_removed` event itself, the last message the listener took. */
  lemma RemovalIsBroadcast(before: seq<Label>, l: nat)
    requires var b := Run(EMPTY, before); Enabled(b, CloseDone(l)) && b.listeners[l].phase.left == []
    ensures var b := Run(EMPTY, before);
            var b', taken := Step(b, CloseDone(l)), Taken(EMPTY, before, l);
            && taken != [] && taken[|taken| - 1].Event? && taken[|taken| - 1].kind.MemberRemoved?
            && b'.sent == b.sent + [taken[|taken| - 1]]
            && b'.listeners[l].phase == Sending(taken[|taken| - 1], |b.sent|, Connections(b.active),
                                                set c | c in Connections(b.active), {})
  {
    BroadcastsAreWhatWasTaken(before, l);
    RunRevokesOnly(EMPTY, before);
    assert RevokesOnly(Run(EMPTY, before).listeners[l]);
  }

  // ---- From publishing to taking ----

  /** The subscription of `l` is up before, during and after the schedule. */
  predicate StaysOnline(b: Board, moves: seq<Label>, l: nat)
    decreases |moves|
  {
    l < |b.listeners| && b.listeners[l].online && (moves != [] ==> StaysOnline(Step(b, moves[0]), moves[1..], l))
  }

  /** Between its subscriptions a listener hears nothing. */
  predicate OffAir(x: Listener) {
    x.phase.Subscribing? || x.phase.Closing? || x.phase.Sleeping? ==> !x.online && x.buffer == []
  }

  predicate AllOffAir(b: Board) {
    forall l :: 0 <= l < |b.listeners| ==> OffAir(b.listeners[l])
  }

  lemma StepKeepsOffAir(b: Board, move: Label)
    requires AllOffAir(b)
    ensures AllOffAir(Step(b, move))
  {
    if Enabled(b, move) {
      if move.Join? || move.Leave? || move.Publish? {
        EndpointsKeepOffAir(b, move);
      } else {
        OthersMoveOneListener(b, move);
        if move.Receive? || move.CloseDone? { BroadcastKeepsOffAir(b, move); } else { OwnStepKeepsOffAir(b, move); }
        OneMovesOffAir(b, Step(b, move), move.l);
      }
    }
  }

  lemma OneMovesOffAir(b: Board, b': Board, l: nat)
    requires AllOffAir(b) && Moved(b, b', l) && OffAir(b'.listeners[l])
    ensures AllOffAir(b')
  {
  }

  lemma EndpointsKeepOffAir(b: Board, move: Label)
    requires AllOffAir(b) && Enabled(b, move) && (move.Join? || move.Leave? || move.Publish?)
    ensures AllOffAir(Step(b, move))
  {
  }

  lemma BroadcastKeepsOffAir(b: Board, move: Label)
    requires Enabled(b, move) && (move.Receive? || move.CloseDone?)
    ensures move.l < |Step(b, move).listeners| && OffAir(Step(b, move).listeners[move.l])
  {
    match move {
      case Receive(l) =>
        var x := b.listeners[l];
        var b1 := Put(b, l, x.(buffer := x.buffer[1..], notes := x.notes + [Forwarded(x.buffer[0])]));
        RevokeNextOffAir(b1, l, x.buffer[0], Revoked(b, x.buffer[0]));
      case CloseDone(l) => RevokeNextOffAir(b, l, b.listeners[l].phase.msg, b.listeners[l].phase.left);
      case _ => assert false;
    }
  }

  lemma RevokeNextOffAir(b: Board, l: nat, msg: Msg, left: seq<Conn>)
    requires l < |b.listeners|
    ensures l < |RevokeNext(b, l, msg, left).listeners| && OffAir(RevokeNext(b, l, msg, left).listeners[l])
  {
  }

  lemma OwnStepKeepsOffAir(b: Board, move: Label)
    requires Enabled(b, move) && !move.Join? && !move.Leave? && !move.Publish? && !move.Receive? && !move.CloseDone?
    requires OffAir(b.listeners[move.l])
    ensures move.l < |Step(b, move).listeners| && OffAir(Step(b, move).listeners[move.l])
  {
  }

  lemma {:induction false} RunKeepsOffAir(b: Board, moves: seq<Label>)
    requires AllOffAir(b)
    ensures AllOffAir(Run(b, moves))
    decreases |moves|
  {
    if moves != [] {
      StepKeepsOffAir(b, moves[0]);
      RunKeepsOffAir(Step(b, moves[0]), moves[1..]);
    }
  }

  lemma OnlineStep(b: Board, move: Label, l: nat)
    requires AllOffAir(b) && l < |b.listeners| && b.listeners[l].online
    requires l < |Step(b, move).listeners| && Step(b, move).listeners[l].online
    ensures b.listeners[l].buffer + Published([move]) == Takes(b, move, l) + Step(b, move).listeners[l].buffer
  {
    assert Published([move]) == if move.Publish? then [move.msg] else [];
    if Enabled(b, move) && !move.Join? && !move.Leave? && !move.Publish? {
      OthersMoveOneListener(b, move);
      if move == Receive(l) {
        assert b.listeners[l].buffer == [b.listeners[l].buffer[0]] + b.listeners[l].buffer[1..];
      } else if move.l == l {
        OwnStepKeepsBuffer(b, move);
      }
    }
  }

  lemma OwnStepKeepsBuffer(b: Board, move: Label)
    requires Enabled(b, move) && !move.Join? && !move.Leave? && !move.Publish? && !move.Receive?
    requires OffAir(b.listeners[move.l]) && b.listeners[move.l].online
    requires move.l < |Step(b, move).listeners| && Step(b, move).listeners[move.l].online
    ensures Step(b, move).listeners[move.l].buffer == b.listeners[move.l].buffer
  {
  }

  lemma {:induction false} OnlineRun(b: Board, moves: seq<Label>, l: nat)
    requires AllOffAir(b) && StaysOnline(b, moves, l)
    ensures l < |Run(b, moves).listeners|
    ensures b.listeners[l].buffer + Published(moves) == Taken(b, moves, l) + Run(b, moves).listeners[l].buffer
    decreases |moves|
  {
    if moves != [] {
      var move, rest := moves[0], moves[1..];
      Unroll(b, moves, l);
      StepKeepsOffAir(b, move);
      OnlineStep(b, move, l);
      var b1, p, t := Step(b, move), Published([move]), Takes(b, move, l);
      OnlineRun(b1, rest, l);
      Associates(b.listeners[l].buffer, p, Published(rest));
      Associates(t, b1.listeners[l].buffer, Published(rest));
      Associates(t, Taken(b1, rest, l), Run(b, moves).listeners[l].buffer);
    } else {
      assert b.listeners[l].buffer + [] == [] + b.listeners[l].buffer;
    }
  }

  /** While a subscription stays up, everything published is taken or still waiting to be, in the
      order of publishing; so with what is said of broadcasts above, the sockets are sent exactly
      what was published, in that order. */
  lemma PublishedIsTakenInOrder(before: seq<Label>, moves: seq<Label>, l: nat)
    requires Enabled(Run(EMPTY, before), Subscribed(l))
    requires StaysOnline(Step(Run(EMPTY, before), Subscribed(l)), moves, l)
    ensures var b := Step(Run(EMPTY, before), Subscribed(l));
            l < |Run(b, moves).listeners| && Published(moves) == Taken(b, moves, l) + Run(b, moves).listeners[l].buffer
  {
    RunKeepsOffAir(EMPTY, before);
    StepKeepsOffAir(Run(EMPTY, before), Subscribed(l));
    var b := Step(Run(EMPTY, before), Subscribed(l));
    OnlineRun(b, moves, l);
    assert [] + Published(moves) == Published(moves);
  }
}
