/** Everything can come to rest: if nothing more is committed, lost or failed, and the page's user is
    not being removed, some schedule ends with nothing under way for the page. */
module Rest {
  import opened Models
  import opened Hub
  import opened HubLifecycle
  import opened HubDelivery
  import opened HubRecovery
  import opened Convergence
  import opened OpenPages

  // ---- The instance ----

  predicate Removes(msg: Msg, user: int) {
    msg.Event? && msg.kind == MemberRemoved(user)
  }

  /** The listener is not about to put the connection out. */
  predicate Spares(x: Listener, c: Conn) {
    && (forall k :: 0 <= k < |x.buffer| ==> !Removes(x.buffer[k], c.user))
    && (x.phase.Revoking? ==> c !in x.phase.left)
  }

  predicate Ready(b: Board, c: Conn, l: nat) {
    ServedBy(b, c, l) && Healthy(b, c) && Spares(b.listeners[l], c)
  }

  predicate HubAtRest(b: Board, l: nat) {
    l < |b.listeners| && b.listeners[l].phase.Listening? && b.listeners[l].online && b.listeners[l].buffer == []
  }

  predicate Working(x: Listener) {
    x.phase.Listening? || x.phase.Sending? || x.phase.Revoking?
  }

  /** How far the listener is from rest: before it notices that its connection is gone, on the way to
      the next subscription, or subscribed. */
  function Stretch(x: Listener): nat {
    if !Working(x) then 1 else if x.online then 0 else 2
  }

  function Unread(x: Listener): nat {
    if Working(x) then |x.buffer| else 0
  }

  function PhaseRank(x: Listener): nat {
    match x.phase
    case Revoking(_, _) => 3
    case Sending(_, _, _, _, _) => 2
    case Listening => 1
    case Closing => 3
    case Sleeping => 2
    case Subscribing => 1
    case _ => 0
  }

  function Outstanding(x: Listener): nat {
    match x.phase
    case Revoking(_, left) => |left|
    case Sending(_, _, _, waiting, _) => |waiting|
    case _ => 0
  }

  predicate Closer(x': Listener, x: Listener) {
    || Stretch(x') < Stretch(x)
    || (Stretch(x') == Stretch(x) &&
          (|| Unread(x') < Unread(x)
           || (Unread(x') == Unread(x) &&
                 (PhaseRank(x') < PhaseRank(x) || (PhaseRank(x') == PhaseRank(x) && Outstanding(x') < Outstanding(x))))))
  }

  /** A step of the listener in which nothing fails. */
  predicate Benign(move: Label) {
    move.Receive? || move.CloseDone? || move.SendOk? || move.GatherDone? || move.Detect? || move.Closed? || move.Wake?
    || move.Subscribed?
  }

  predicate Advances(b: Board, move: Label, c: Conn, l: nat)
    requires l < |b.listeners|
  {
    && Benign(move) && Enabled(b, move) && move.l == l && Ready(Step(b, move), c, l)
    && Closer(Step(b, move).listeners[l], b.listeners[l])
  }

  lemma RevokeNextStaysReady(b: Board, c: Conn, l: nat, msg: Msg, left: seq<Conn>)
    requires Lifecycle(b) && b.task == Some(l) && l < |b.listeners| && Registered(b, c) && c !in left
    requires !b.listeners[l].phase.Ended? && !b.listeners[l].phase.Dying?
    requires forall k :: 0 <= k < |b.listeners[l].buffer| ==> !Removes(b.listeners[l].buffer[k], c.user)
    ensures Ready(RevokeNext(b, l, msg, left), c, l)
    ensures var x, x' := b.listeners[l], RevokeNext(b, l, msg, left).listeners[l];
            && x'.buffer == x.buffer && x'.online == x.online
            && (if left == [] then x'.phase.Sending? else x'.phase == Revoking(msg, left[1..]))
  {
    if left != [] {
      DisconnectFilters(b.active, left[0]);
      WithoutMembers(Connections(b.active), {left[0]});
    }
  }

  lemma ReceiveAdvances(b: Board, c: Conn, l: nat)
    requires Delivery(b) && Ready(b, c, l) && Enabled(b, Receive(l))
    ensures Advances(b, Receive(l), c, l)
  {
    var x := b.listeners[l];
    var msg := x.buffer[0];
    var b1 := Put(b, l, x.(buffer := x.buffer[1..], notes := x.notes + [Forwarded(msg)]));
    assert Live(x);
    QuietKeepsLifecycle(b, b1);
    if msg.Event? && msg.kind.MemberRemoved? { OfUserMembers(Connections(b.active), msg.kind.user); }
    RevokeNextStaysReady(b1, c, l, msg, Revoked(b, msg));
  }

  lemma CloseDoneAdvances(b: Board, c: Conn, l: nat)
    requires Delivery(b) && Ready(b, c, l) && Enabled(b, CloseDone(l))
    ensures Advances(b, CloseDone(l), c, l)
  {
    RevokeNextStaysReady(b, c, l, b.listeners[l].phase.msg, b.listeners[l].phase.left);
  }

  lemma SendAdvances(b: Board, c: Conn, l: nat) returns (d: Conn)
    requires Delivery(b) && Ready(b, c, l) && b.listeners[l].phase.Sending? && b.listeners[l].phase.waiting != {}
    ensures Advances(b, SendOk(l, d), c, l)
  {
    var waiting := b.listeners[l].phase.waiting;
    d := AnyOf(waiting);
    assert SendSound(b, l) && WaitSound(b, d, b.listeners[l].phase.index);
    assert |waiting - {d}| < |waiting|;
  }

  lemma GatherAdvances(b: Board, c: Conn, l: nat)
    requires Delivery(b) && Ready(b, c, l) && Enabled(b, GatherDone(l))
    ensures Advances(b, GatherDone(l), c, l)
  {
    var p := b.listeners[l].phase;
    DropFailedFilters(b.active, p.snapshot, p.failed);
    WithoutMembers(Connections(b.active), set d | d in p.snapshot && d in p.failed);
  }

  lemma WaitingAdvances(b: Board, move: Label, c: Conn, l: nat)
    requires AllSound(b) && Ready(b, c, l) && Enabled(b, move) && (move == Detect(l) || move == Closed(l) || move == Wake(l))
    ensures Advances(b, move, c, l)
  {
    assert Sound(b.listeners[l]);
  }

  lemma SubscribedAdvances(b: Board, c: Conn, l: nat)
    requires Ready(b, c, l) && Enabled(b, Subscribed(l))
    ensures Advances(b, Subscribed(l), c, l)
  {
  }

  /** A listener that is not at rest has a step that brings it closer. */
  lemma SomeStepAdvances(b: Board, c: Conn, l: nat) returns (move: Label)
    requires Delivery(b) && AllSound(b) && Ready(b, c, l) && !HubAtRest(b, l)
    ensures Advances(b, move, c, l)
  {
    var x := b.listeners[l];
    assert !x.cancelled;
    match x.phase {
      case Revoking(_, _) =>
        move := CloseDone(l);
        CloseDoneAdvances(b, c, l);
      case Sending(_, _, _, waiting, _) =>
        if waiting == {} {
          move := GatherDone(l);
          GatherAdvances(b, c, l);
        } else {
          var d := SendAdvances(b, c, l);
          move := SendOk(l, d);
        }
      case Listening =>
        if x.buffer != [] {
          move := Receive(l);
          ReceiveAdvances(b, c, l);
        } else {
          move := Detect(l);
          WaitingAdvances(b, move, c, l);
        }
      case Closing =>
        move := Closed(l);
        WaitingAdvances(b, move, c, l);
      case Sleeping =>
        move := Wake(l);
        WaitingAdvances(b, move, c, l);
      case Subscribing =>
        move := Subscribed(l);
        SubscribedAdvances(b, c, l);
    }
  }

  // ---- The whole system ----

  /** Moves that commit, lose and fail nothing, and are not the page's own idea. */
  predicate Settling(m: Move) {
    m.PublishOk? || m.Handle? || m.Serve? || m.Apply? || (m.Local? && Benign(m.step))
  }

  predicate AllSettling(ms: seq<Move>) {
    forall k :: 0 <= k < |ms| ==> Settling(ms[k])
  }

  /** No publish that is still to come removes the page's user. */
  predicate NoRemovalPending(s: System, c: Conn) {
    forall j :: j in s.pending && j < |s.commits| ==> s.commits[j] != MemberRemoved(c.user)
  }

  ghost predicate Settleable(s: System, i: int, c: Conn, l: nat) {
    && Good(s) && (i, c) in s.clients && Ready(HubAt(s, i), c, l) && NoRemovalPending(s, c)
    && !s.clients[(i, c)].tasks.failed && !s.clients[(i, c)].lists.failed
  }

  lemma OneThen(s: System, m: Move, ms: seq<Move>)
    requires Settling(m) && AllSettling(ms)
    ensures AllSettling([m] + ms) && RunAll(s, [m] + ms) == RunAll(Next(s, m), ms)
  {
    assert ([m] + ms)[1..] == ms;
  }

  lemma Then(s: System, a: seq<Move>, b: seq<Move>)
    requires AllSettling(a) && AllSettling(b)
    ensures AllSettling(a + b) && RunAll(s, a + b) == RunAll(RunAll(s, a), b)
  {
    RunAllAppend(s, a, b);
  }

  lemma PublishKeepsReady(b: Board, c: Conn, l: nat, msg: Msg)
    requires Ready(b, c, l) && !Removes(msg, c.user)
    ensures Ready(Step(b, Publish(msg)), c, l)
  {
    var b' := Step(b, Publish(msg));
    assert b'.listeners[l] == Deliver(b.listeners[l], msg);
  }

  lemma PublishSettles(s: System, i: int, c: Conn, l: nat, j: nat)
    requires Settleable(s, i, c, l) && j in s.pending
    ensures Settleable(Next(s, PublishOk(j)), i, c, l)
    ensures Next(s, PublishOk(j)).pending == s.pending - {j}
  {
    NextKeepsGood(s, PublishOk(j));
    PublishKeepsReady(HubAt(s, i), c, l, Event(s.commits[j], j));
  }

  lemma {:induction false} PublishAll(s: System, i: int, c: Conn, l: nat) returns (ms: seq<Move>)
    requires Settleable(s, i, c, l)
    ensures AllSettling(ms) && Settleable(RunAll(s, ms), i, c, l) && RunAll(s, ms).pending == {}
    decreases |s.pending|
  {
    ms := [];
    if s.pending != {} {
      var j := AnyOf(s.pending);
      PublishSettles(s, i, c, l, j);
      assert |s.pending - {j}| < |s.pending|;
      var rest := PublishAll(Next(s, PublishOk(j)), i, c, l);
      ms := [PublishOk(j)] + rest;
      OneThen(s, PublishOk(j), rest);
    }
  }

  function At(s: System, i: int, l: nat): Listener {
    if l < |HubAt(s, i).listeners| then HubAt(s, i).listeners[l] else NEW_LISTENER
  }

  lemma DriveStep(s: System, i: int, c: Conn, l: nat) returns (m: Move)
    requires Settleable(s, i, c, l) && s.pending == {} && !HubAtRest(HubAt(s, i), l)
    ensures Settling(m) && Settleable(Next(s, m), i, c, l) && Next(s, m).pending == {}
    ensures Closer(At(Next(s, m), i, l), At(s, i, l))
  {
    EmptyIsGood();
    var move := SomeStepAdvances(HubAt(s, i), c, l);
    m := Local(i, move);
    NextKeepsGood(s, m);
    assert HubAt(Next(s, m), i) == Step(HubAt(s, i), move);
  }

  lemma {:induction false} DriveListener(s: System, i: int, c: Conn, l: nat) returns (ms: seq<Move>)
    requires Settleable(s, i, c, l) && s.pending == {}
    ensures AllSettling(ms) && Settleable(RunAll(s, ms), i, c, l) && RunAll(s, ms).pending == {}
    ensures HubAtRest(HubAt(RunAll(s, ms), i), l)
    decreases Stretch(At(s, i, l)), Unread(At(s, i, l)), PhaseRank(At(s, i, l)), Outstanding(At(s, i, l))
  {
    ms := [];
    if !HubAtRest(HubAt(s, i), l) {
      var m := DriveStep(s, i, c, l);
      var rest := DriveListener(Next(s, m), i, c, l);
      ms := [m] + rest;
      OneThen(s, m, rest);
    }
  }

  // ---- The page ----

  ghost predicate HubSettled(s: System, i: int, c: Conn, l: nat) {
    Settleable(s, i, c, l) && s.pending == {} && HubAtRest(HubAt(s, i), l)
  }

  lemma HandleSettles(s: System, i: int, c: Conn, l: nat)
    requires HubSettled(s, i, c, l) && CanMove(s, Handle(i, c))
    ensures var s1 := Next(s, Handle(i, c));
            && HubSettled(s1, i, c, l) && HubAt(s1, i) == HubAt(s, i)
            && s1.clients[(i, c)].handled == s.clients[(i, c)].handled + 1
  {
    NextKeepsGood(s, Handle(i, c));
  }

  lemma {:induction false} HandleAll(s: System, i: int, c: Conn, l: nat) returns (ms: seq<Move>)
    requires HubSettled(s, i, c, l) && c in HubAt(s, i).received
    requires s.clients[(i, c)].handled <= |HubAt(s, i).received[c]|
    ensures var t := RunAll(s, ms);
            && AllSettling(ms) && HubSettled(t, i, c, l) && c in HubAt(t, i).received
            && t.clients[(i, c)].handled == |HubAt(t, i).received[c]|
    decreases |HubAt(s, i).received[c]| - s.clients[(i, c)].handled
  {
    ms := [];
    if s.clients[(i, c)].handled < |HubAt(s, i).received[c]| {
      HandleSettles(s, i, c, l);
      var rest := HandleAll(Next(s, Handle(i, c)), i, c, l);
      ms := [Handle(i, c)] + rest;
      OneThen(s, Handle(i, c), rest);
    }
  }

  /** Everything reached the page. */
  ghost predicate Delivered(s: System, i: int, c: Conn, l: nat) {
    && HubSettled(s, i, c, l) && c in HubAt(s, i).received
    && s.clients[(i, c)].handled == |HubAt(s, i).received[c]|
  }

  function QueueOf(s: System, i: int, c: Conn, v: View): seq<Slot>
    requires (i, c) in s.clients
  {
    Get(s.clients[(i, c)], v).queue
  }

  lemma AnswerSettles(s: System, i: int, c: Conn, l: nat, v: View)
    requires Delivered(s, i, c, l) && QueueOf(s, i, c, v) != [] && QueueOf(s, i, c, v)[0].Asked?
    ensures var s1 := Next(s, Serve(i, c, v, 0));
            && Delivered(s1, i, c, l) && |QueueOf(s1, i, c, v)| == |QueueOf(s, i, c, v)| && QueueOf(s1, i, c, v)[0].Got?
            && forall w :: w != v ==> QueueOf(s1, i, c, w) == QueueOf(s, i, c, w)
  {
    NextKeepsGood(s, Serve(i, c, v, 0));
  }

  lemma ShowSettles(s: System, i: int, c: Conn, l: nat, v: View)
    requires Delivered(s, i, c, l) && QueueOf(s, i, c, v) != [] && QueueOf(s, i, c, v)[0].Got?
    ensures var s1 := Next(s, Convergence.Apply(i, c, v));
            && Delivered(s1, i, c, l) && QueueOf(s1, i, c, v) == QueueOf(s, i, c, v)[1..]
            && forall w :: w != v ==> QueueOf(s1, i, c, w) == QueueOf(s, i, c, w)
  {
    NextKeepsGood(s, Convergence.Apply(i, c, v));
  }

  lemma {:induction false} ShowAll(s: System, i: int, c: Conn, l: nat, v: View) returns (ms: seq<Move>)
    requires Delivered(s, i, c, l)
    ensures var t := RunAll(s, ms);
            && AllSettling(ms) && Delivered(t, i, c, l) && QueueOf(t, i, c, v) == []
            && forall w :: w != v ==> QueueOf(t, i, c, w) == QueueOf(s, i, c, w)
    decreases |QueueOf(s, i, c, v)|, if QueueOf(s, i, c, v) != [] && QueueOf(s, i, c, v)[0].Asked? then 1 else 0
  {
    ms := [];
    var queue := QueueOf(s, i, c, v);
    if queue != [] {
      var m;
      if queue[0].Asked? {
        m := Serve(i, c, v, 0);
        AnswerSettles(s, i, c, l, v);
      } else {
        m := Convergence.Apply(i, c, v);
        ShowSettles(s, i, c, l, v);
      }
      var rest := ShowAll(Next(s, m), i, c, l, v);
      ms := [m] + rest;
      OneThen(s, m, rest);
    }
  }

  // ---- Rest ----

  lemma SettleHub(s: System, i: int, c: Conn, l: nat) returns (ms: seq<Move>)
    requires Settleable(s, i, c, l)
    ensures AllSettling(ms) && HubSettled(RunAll(s, ms), i, c, l)
  {
    var m1 := PublishAll(s, i, c, l);
    var m2 := DriveListener(RunAll(s, m1), i, c, l);
    Then(s, m1, m2);
    ms := m1 + m2;
  }

  lemma NotAhead(s: System, i: int, c: Conn)
    requires Good(s) && (i, c) in s.clients
    ensures c in HubAt(s, i).received && s.clients[(i, c)].handled <= |HubAt(s, i).received[c]|
  {
    assert ClientSound(s, i, c);
  }

  lemma SettlePage(s: System, i: int, c: Conn, l: nat) returns (ms: seq<Move>)
    requires HubSettled(s, i, c, l)
    ensures AllSettling(ms)
    ensures var t := RunAll(s, ms); Delivered(t, i, c, l) && QueueOf(t, i, c, Tasks) == [] && QueueOf(t, i, c, Lists) == []
  {
    NotAhead(s, i, c);
    var m1 := HandleAll(s, i, c, l);
    var m2 := ShowAll(RunAll(s, m1), i, c, l, Tasks);
    Then(s, m1, m2);
    var m3 := ShowAll(RunAll(s, m1 + m2), i, c, l, Lists);
    Then(s, m1 + m2, m3);
    ms := m1 + m2 + m3;
  }

  lemma Settle(s: System, i: int, c: Conn, l: nat) returns (ms: seq<Move>)
    requires Settleable(s, i, c, l)
    ensures AllSettling(ms)
    ensures AtRest(RunAll(s, ms), i, c, Tasks, l) && AtRest(RunAll(s, ms), i, c, Lists, l)
  {
    var m1 := SettleHub(s, i, c, l);
    var m2 := SettlePage(RunAll(s, m1), i, c, l);
    Then(s, m1, m2);
    ms := m1 + m2;
  }

  /** From every reachable state in which a listener covers the page, no send to the page and none of
      its newest requests has failed, and its user is not being removed: publishes, the listener's
      own steps, the page's handling of its messages and the answers to its requests can bring
      everything to rest, with nothing more committed, lost or failed. Then the page shows
      exactly what the database holds, unless a commit was lost or published before that state and
      the page never showed it. */
  lemma RestIsReachable(before: seq<Move>, i: int, c: Conn, l: nat) returns (after: seq<Move>)
    requires var s := RunAll(START, before);
             && (i, c) in s.clients && Ready(HubAt(s, i), c, l) && NoRemovalPending(s, c)
             && !s.clients[(i, c)].tasks.failed && !s.clients[(i, c)].lists.failed
    ensures AllSettling(after)
    ensures var t := RunAll(RunAll(START, before), after);
            AtRest(t, i, c, Tasks, l) && AtRest(t, i, c, Lists, l)
    ensures forall v: View :: ShowsAllUnlessMissed(RunAll(START, before), RunAll(RunAll(START, before), after), i, c, v)
  {
    RunForgetsNothing(START, before);
    after := Settle(RunAll(START, before), i, c, l);
    forall v: View
      ensures ShowsAllUnlessMissed(RunAll(START, before), RunAll(RunAll(START, before), after), i, c, v)
    {
      assert v == Tasks || v == Lists;
      AtRestExactly(before, after, i, c, v, l);
    }
  }

  ghost predicate ShowsAllUnlessMissed(s0: System, s: System, i: int, c: Conn, v: View) {
    && (i, c) in s.clients && Get(s.clients[(i, c)], v).shown <= |s.commits|
    && var shown := Get(s.clients[(i, c)], v).shown;
       Changes(s.commits, v, shown) == Changes(s.commits, v, |s.commits|) <==> forall j: nat :: !Missed(s0, s, v, shown, j)
  }
}
