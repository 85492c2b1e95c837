/** From a commit to every screen: the database's commits on one board, the background
    publishes, any number of server instances, and the open boards that refetch on events. */
module Convergence {
  import opened Models
  import opened Hub
  import opened HubLifecycle
  import opened HubDelivery
  import opened HubRecovery

  datatype View = Tasks | Lists

  /** What a commit changes in the result of GET /boards/{id}/tasks and /lists. */
  predicate Affects(kind: Kind, v: View) {
    match kind
    case TaskCreated => v == Tasks
    case TaskUpdated => v == Tasks
    case TaskDeleted => v == Tasks
    case ListCreated => v == Lists
    case ListDeleted => true
    case _ => false
  }

  predicate IsMemberEvent(kind: Kind) {
    kind.MemberAdded? || kind.MemberRoleChanged? || kind.MemberRemoved?
  }

  /** The client's dispatch on a message: which views it refetches. */
  predicate Refetches(msg: Msg, v: View) {
    match msg
    case Garbled => false
    case Resync => true
    case Event(kind, _) =>
      if IsMemberEvent(kind) then false
      else if kind.ListCreated? || kind.ListDeleted? then true
      else v == Tasks
  }

  /** One request of a view: sent, or answered with the state after `index` commits. */
  datatype Slot = Asked | Got(index: nat)

  /** `shown` is the commit index on screen, `queue` the requests in the order they were made.
      `primed` and `failed` are history: the listener under which the newest answer was read, and
      whether the newest request has failed since. A failed request is logged, not repeated. */
  datatype ViewState = ViewState(shown: nat, queue: seq<Slot>, primed: Option<nat>, failed: bool)

  /** An open page behind one socket; it has handled the first `handled` messages. */
  datatype Client = Client(handled: nat, tasks: ViewState, lists: ViewState)

  /** `lost` is history: commits whose event was never published. */
  datatype System = System(
    commits: seq<Kind>, pending: set<nat>, lost: set<nat>,
    hubs: map<int, Board>, clients: map<(int, Conn), Client>)

  datatype Move =
    | Commit(kind: Kind)
    | PublishOk(commit: nat)
    | PublishFails(commit: nat)
    | Open(i: int, user: int, tasks: ViewState, lists: ViewState)
    | Local(i: int, step: Label)                    // an instance's event loop
    | Handle(i: int, c: Conn)                       // the page handles its next message
    | Ask(i: int, c: Conn, v: View)                 // any other reason to refetch
    | Serve(i: int, c: Conn, v: View, k: nat)       // the database answers a request
    | Apply(i: int, c: Conn, v: View)               // the oldest request's answer is shown
    | FetchFails(i: int, c: Conn, v: View, k: nat)

  const START := System([], {}, {}, map[], map[])

  function HubAt(s: System, i: int): Board {
    if i in s.hubs then s.hubs[i] else EMPTY
  }

  function Get(client: Client, v: View): ViewState {
    if v == Tasks then client.tasks else client.lists
  }

  function Set(client: Client, v: View, state: ViewState): Client {
    if v == Tasks then client.(tasks := state) else client.(lists := state)
  }

  function PushAsk(state: ViewState): ViewState {
    state.(queue := state.queue + [Asked])
  }

  function AskIf(state: ViewState, ask: bool): ViewState {
    if ask then PushAsk(state) else state
  }

  /** A page may come with anything it showed or asked for before its socket was registered. */
  predicate Carried(state: ViewState, now: nat) {
    && state.primed.None? && state.shown <= now
    && forall k :: 0 <= k < |state.queue| ==> (state.queue[k].Got? ==> state.queue[k].index <= now)
  }

  /** The listener will make up for whatever is published from here on: it is subscribed, or
      will send `resync` once it is again. Only the first subscribe attempt is neither. */
  predicate Covering(x: Listener) {
    !x.phase.Dying? && !x.phase.Ended? && (x.phase.Subscribing? ==> x.recovering)
  }

  predicate ServedBy(b: Board, c: Conn, l: nat) {
    b.task == Some(l) && l < |b.listeners| && Registered(b, c) && Covering(b.listeners[l])
  }

  predicate CanMove(s: System, m: Move) {
    match m
    case Commit(_) => true
    case PublishOk(j) => j in s.pending && j < |s.commits|
    case PublishFails(j) => j in s.pending
    case Open(i, user, tasks, lists) => Carried(tasks, |s.commits|) && Carried(lists, |s.commits|)
    case Local(_, step) => !step.Join? && !step.Publish?
    case Handle(i, c) => (i, c) in s.clients && c in HubAt(s, i).received && s.clients[(i, c)].handled < |HubAt(s, i).received[c]|
    case Ask(i, c, _) => (i, c) in s.clients
    case Serve(i, c, v, k) =>
      (i, c) in s.clients && k < |Get(s.clients[(i, c)], v).queue| && Get(s.clients[(i, c)], v).queue[k].Asked?
    case Apply(i, c, v) =>
      (i, c) in s.clients && Get(s.clients[(i, c)], v).queue != [] && Get(s.clients[(i, c)], v).queue[0].Got?
    case FetchFails(i, c, v, k) => (i, c) in s.clients && k < |Get(s.clients[(i, c)], v).queue|
  }

  predicate LaterAllAsked(queue: seq<Slot>, k: nat) {
    forall n :: k < n < |queue| ==> queue[n].Asked?
  }

  function Answer(s: System, i: int, c: Conn, state: ViewState, k: nat): ViewState
    requires k < |state.queue|
  {
    var b := HubAt(s, i);
    var answered := state.(queue := state.queue[k := Got(|s.commits|)]);
    if !LaterAllAsked(state.queue, k) then answered
    else if b.task.Some? && ServedBy(b, c, b.task.value) then answered.(primed := b.task, failed := false)
    else answered.(failed := false)
  }

  /** The oldest request's answer comes on screen. */
  function Show(state: ViewState): ViewState
    requires state.queue != [] && state.queue[0].Got?
  {
    state.(shown := state.queue[0].index, queue := state.queue[1..])
  }

  /** The request is given up; what is on screen stays. */
  function Fail(state: ViewState, k: nat): ViewState
    requires k < |state.queue|
  {
    state.(queue := state.queue[..k] + state.queue[k + 1..], failed := state.failed || k == |state.queue| - 1)
  }

  function PutClient(s: System, i: int, c: Conn, client: Client): System {
    s.(clients := s.clients[(i, c) := client])
  }

  function Next(s: System, m: Move): System {
    if !CanMove(s, m) then s else
    match m
    case Commit(kind) => s.(commits := s.commits + [kind], pending := s.pending + {|s.commits|})
    case PublishOk(j) =>
      s.(pending := s.pending - {j}, hubs := map i | i in s.hubs :: Step(s.hubs[i], Publish(Event(s.commits[j], j))))
    case PublishFails(j) => s.(pending := s.pending - {j}, lost := s.lost + {j})
    case Open(i, user, tasks, lists) =>
      var b := HubAt(s, i);
      PutClient(s, i, Conn(b.nextConn, user), Client(0, tasks, lists)).(hubs := s.hubs[i := Step(b, Join(user))])
    case Local(i, step) => s.(hubs := s.hubs[i := Step(HubAt(s, i), step)])
    case Handle(i, c) =>
      var client := s.clients[(i, c)];
      var msg := HubAt(s, i).received[c][client.handled];
      PutClient(s, i, c, Client(client.handled + 1, AskIf(client.tasks, Refetches(msg, Tasks)),
                                AskIf(client.lists, Refetches(msg, Lists))))
    case Ask(i, c, v) => PutClient(s, i, c, Set(s.clients[(i, c)], v, PushAsk(Get(s.clients[(i, c)], v))))
    case Serve(i, c, v, k) =>
      PutClient(s, i, c, Set(s.clients[(i, c)], v, Answer(s, i, c, Get(s.clients[(i, c)], v), k)))
    case Apply(i, c, v) =>
      PutClient(s, i, c, Set(s.clients[(i, c)], v, Show(Get(s.clients[(i, c)], v))))
    case FetchFails(i, c, v, k) =>
      var state := Get(s.clients[(i, c)], v);
      PutClient(s, i, c, Set(s.clients[(i, c)], v, Fail(state, k)))
  }

  function RunAll(s: System, ms: seq<Move>): System
    decreases |ms|
  {
    if ms == [] then s else RunAll(Next(s, ms[0]), ms[1..])
  }

  // ---- Where an unseen commit can be ----

  /** Handling `msg` makes the page refetch `v`, and that is due to commit `j` or later. */
  predicate Carries(msg: Msg, v: View, j: nat) {
    Refetches(msg, v) && (msg == Resync || (msg.Event? && msg.commit == j))
  }

  predicate Healthy(b: Board, c: Conn) {
    && Registered(b, c)
    && (b.task.Some? && b.task.value < |b.listeners| ==>
          var p := b.listeners[b.task.value].phase; p.Sending? ==> c !in p.failed)
  }

  /** The listener is in a gap, or will find itself in one, and then broadcasts `resync`. */
  predicate GapAhead(x: Listener) {
    match x.phase
    case Closing => true
    case Sleeping => true
    case Subscribing => x.recovering
    case Dying => false
    case Ended => false
    case _ => !x.online
  }

  /** On the instance: in the subscription's buffer, in a send to this socket, or in a gap. */
  ghost predicate OnInstance(x: Listener, c: Conn, v: View, j: nat) {
    || (exists k :: 0 <= k < |x.buffer| && Carries(x.buffer[k], v, j))
    || (x.phase.Sending? && c in x.phase.waiting && Carries(x.phase.msg, v, j))
    || GapAhead(x)
  }

  /** In the socket, not handled yet. */
  ghost predicate InSocket(messages: seq<Msg>, handled: nat, v: View, j: nat) {
    exists k :: handled <= k < |messages| && Carries(messages[k], v, j)
  }

  /** The page shows commit `j`, or will once the requests under way are answered. */
  predicate Settled(state: ViewState, j: nat) {
    if state.queue == [] then state.shown > j
    else var newest := state.queue[|state.queue| - 1]; newest.Asked? || newest.index > j
  }

  /** A registered socket, its board's listener, an answer read under that listener, and no newest
      request that failed since. */
  predicate Tracked(s: System, i: int, c: Conn, v: View) {
    && (i, c) in s.clients
    && Get(s.clients[(i, c)], v).primed.Some? && !Get(s.clients[(i, c)], v).failed
    && ServedBy(HubAt(s, i), c, Get(s.clients[(i, c)], v).primed.value) && Healthy(HubAt(s, i), c)
  }

  ghost predicate Covered(s: System, i: int, c: Conn, v: View, j: nat)
    requires (i, c) in s.clients
  {
    var b := HubAt(s, i);
    var client := s.clients[(i, c)];
    || j in s.pending
    || j in s.lost
    || Settled(Get(client, v), j)
    || (c in b.received && InSocket(b.received[c], client.handled, v, j))
    || (b.task.Some? && b.task.value < |b.listeners| && OnInstance(b.listeners[b.task.value], c, v, j))
  }

  /** The listener a view was read under keeps covering the board until it dies. */
  predicate PrimedSound(b: Board, primed: Option<nat>) {
    primed.Some? ==>
      && primed.value < |b.listeners|
      && (b.task == primed ==> Covering(b.listeners[primed.value]) || Gone(b.listeners[primed.value]))
  }

  predicate ClientSound(s: System, i: int, c: Conn) {
    && (i, c) in s.clients
    && c in HubAt(s, i).received && s.clients[(i, c)].handled <= |HubAt(s, i).received[c]|
    && PrimedSound(HubAt(s, i), s.clients[(i, c)].tasks.primed)
    && PrimedSound(HubAt(s, i), s.clients[(i, c)].lists.primed)
  }

  ghost predicate Good(s: System) {
    && (forall i :: i in s.hubs ==> Delivery(s.hubs[i]) && AllSound(s.hubs[i]))
    && (forall i, c :: (i, c) in s.clients ==> ClientSound(s, i, c))
    && (forall j :: j in s.pending ==> j < |s.commits|)
  }

  /** No commit that a tracked page does not show is forgotten. */
  ghost predicate NothingForgotten(s: System) {
    forall i, c, v: View, j: nat {:trigger Covered(s, i, c, v, j)} ::
      Tracked(s, i, c, v) && j < |s.commits| && Affects(s.commits[j], v) ==> Covered(s, i, c, v, j)
  }

  // ---- An instance's own steps ----

  lemma HealthyBefore(b: Board, step: Label, c: Conn)
    requires Delivery(b) && Healthy(Step(b, step), c) && c in b.received && !step.Publish?
    ensures Registered(b, c)
    ensures Step(b, step).task == b.task ==> Healthy(b, c)
  {
    assert ConnSound(b, c);
    if !step.Join? { NobodyElseRegisters(b, step); }
    if Enabled(b, step) {
      if step.GatherDone? {
        GatherDropsFailed(b, step.l, c);
      } else if Step(b, step).task == b.task && FailedNow(b, c) {
        FailedStaysFailed(b, step, c);
      }
    }
  }

  predicate FailedNow(b: Board, c: Conn) {
    b.task.Some? && b.task.value < |b.listeners|
    && var p := b.listeners[b.task.value].phase; p.Sending? && c in p.failed
  }

  /** Only the end of a broadcast, or of its listener, forgets who failed. */
  lemma FailedStaysFailed(b: Board, step: Label, c: Conn)
    requires Delivery(b) && Enabled(b, step) && !step.GatherDone? && !step.Publish? && Step(b, step).task == b.task
    requires FailedNow(b, c) && Registered(Step(b, step), c)
    ensures FailedNow(Step(b, step), c) || Gone(Step(b, step).listeners[b.task.value])
  {
    if !step.Join? && !step.Leave? { OthersMoveOneListener(b, step); }
  }

  /** Where the unseen commit is after a step: still on the instance, or the latest message in
      the socket. */
  ghost predicate CarriedOn(b: Board, b': Board, l: nat, c: Conn, v: View, j: nat) {
    && l < |b'.listeners| && c in b.received && c in b'.received
    && (OnInstance(b'.listeners[l], c, v, j) ||
        (|b'.received[c]| > |b.received[c]| && Carries(b'.received[c][|b.received[c]|], v, j)))
  }

  lemma ReceiveKeepsCarrying(b: Board, b': Board, l: nat, c: Conn, v: View, j: nat)
    requires Delivery(b) && Enabled(b, Receive(l)) && b.task == Some(l) && b' == Step(b, Receive(l))
    requires Registered(b, c) && Registered(b', c) && c in b.received && OnInstance(b.listeners[l], c, v, j)
    ensures CarriedOn(b, b', l, c, v, j)
  {
    var x, x' := b.listeners[l], b'.listeners[l];
    ReceiveTakesOne(b, l);
    if !GapAhead(x) {
      var k :| 0 <= k < |x.buffer| && Carries(x.buffer[k], v, j);
      if k > 0 {
        assert x'.buffer[k - 1] == x.buffer[k];
      } else {
        assert c in x'.phase.waiting;
      }
    }
  }

  lemma ReceiveTakesOne(b: Board, l: nat)
    requires Enabled(b, Receive(l))
    ensures var b' := Step(b, Receive(l));
            && |b'.listeners| == |b.listeners| && b'.received == b.received
            && var x, x' := b.listeners[l], b'.listeners[l];
               && x'.buffer == x.buffer[1..] && x'.online == x.online
               && (x'.phase.Sending? || x'.phase.Revoking?)
               && (!(x.buffer[0].Event? && x.buffer[0].kind.MemberRemoved?) ==>
                     x'.phase.Sending? && x'.phase.msg == x.buffer[0]
                     && forall c :: Registered(b, c) ==> c in x'.phase.waiting)
  {
  }

  lemma OfflineStepKeepsCarrying(b: Board, b': Board, step: Label, l: nat, c: Conn, v: View, j: nat)
    requires AllSound(b) && Enabled(b, step) && c in b.received && b' == Step(b, step)
    requires step.SubscribeFails? || step.Detect? || step.Closed? || step.Wake? || step.LoseConnection?
    requires step.l == l && Covering(b.listeners[l]) && OnInstance(b.listeners[l], c, v, j)
    ensures CarriedOn(b, b', l, c, v, j)
  {
    assert Sound(b.listeners[l]);
    assert GapAhead(b'.listeners[l]);
  }

  lemma BroadcastKeepsCarrying(b: Board, b': Board, step: Label, l: nat, c: Conn, v: View, j: nat)
    requires AllSound(b) && Enabled(b, step) && c in b.received && b' == Step(b, step)
    requires step.Subscribed? || step.CloseDone? || step.GatherDone? || step.SendFails?
    requires step.l == l && b.task == Some(l) && Covering(b.listeners[l]) && OnInstance(b.listeners[l], c, v, j)
    requires Registered(b, c) && Healthy(b', c)
    ensures CarriedOn(b, b', l, c, v, j)
  {
    var x, x' := b.listeners[l], b'.listeners[l];
    assert Sound(x);
    if step.Subscribed? {
      assert x'.phase.Sending? && c in x'.phase.waiting && Carries(Resync, v, j);
    } else {
      assert x'.buffer == x.buffer && x'.online == x.online;
    }
  }

  lemma SendKeepsCarrying(b: Board, b': Board, l: nat, d: Conn, c: Conn, v: View, j: nat)
    requires Enabled(b, SendOk(l, d)) && c in b.received && OnInstance(b.listeners[l], c, v, j)
    requires b' == Step(b, SendOk(l, d))
    ensures CarriedOn(b, b', l, c, v, j)
  {
    var x, x' := b.listeners[l], b'.listeners[l];
    assert x'.buffer == x.buffer && x'.online == x.online;
  }

  /** A step of another listener or of an endpoint. */
  lemma OtherKeepsCarrying(b: Board, b': Board, step: Label, l: nat, c: Conn, v: View, j: nat)
    requires l < |b.listeners| && !step.Publish? && (step.Join? || step.Leave? || step.l != l) && b' == Step(b, step)
    requires c in b.received && c.id < b.nextConn && OnInstance(b.listeners[l], c, v, j)
    ensures CarriedOn(b, b', l, c, v, j)
  {
    if Enabled(b, step) && !step.Join? && !step.Leave? {
      OthersMoveOneListener(b, step);
    }
    assert b'.listeners[l] == b.listeners[l].(cancelled := b'.listeners[l].cancelled);
  }

  lemma OwnStepKeepsCarrying(b: Board, b': Board, step: Label, l: nat, c: Conn, v: View, j: nat)
    requires Delivery(b) && AllSound(b) && Enabled(b, step) && b' == Step(b, step)
    requires !step.Publish? && !step.Join? && !step.Leave? && step.l == l
    requires ServedBy(b, c, l) && ServedBy(b', c, l) && Healthy(b', c)
    requires c in b.received && OnInstance(b.listeners[l], c, v, j)
    ensures CarriedOn(b, b', l, c, v, j)
  {
    match step {
      case Receive(_) => ReceiveKeepsCarrying(b, b', l, c, v, j);
      case SendOk(_, d) => SendKeepsCarrying(b, b', l, d, c, v, j);
      case Subscribed(_) => BroadcastKeepsCarrying(b, b', step, l, c, v, j);
      case CloseDone(_) => BroadcastKeepsCarrying(b, b', step, l, c, v, j);
      case GatherDone(_) => BroadcastKeepsCarrying(b, b', step, l, c, v, j);
      case SendFails(_, _) => BroadcastKeepsCarrying(b, b', step, l, c, v, j);
      case Crash(_) =>
      case Unwind(_) =>
      case Died(_) =>
      case _ => OfflineStepKeepsCarrying(b, b', step, l, c, v, j);
    }
  }

  /** Whatever carries an unseen commit on the instance keeps carrying it, or hands it to the
      socket, as long as the socket and its listener live. */
  lemma InstanceKeepsCarrying(b: Board, b': Board, step: Label, l: nat, c: Conn, v: View, j: nat)
    requires Delivery(b) && AllSound(b) && !step.Publish? && b' == Step(b, step)
    requires ServedBy(b, c, l) && ServedBy(b', c, l) && Healthy(b', c)
    requires c in b.received && OnInstance(b.listeners[l], c, v, j)
    ensures CarriedOn(b, b', l, c, v, j)
  {
    assert ConnSound(b, c);
    if step.Join? || step.Leave? || step.l != l {
      OtherKeepsCarrying(b, b', step, l, c, v, j);
    } else if Enabled(b, step) {
      OwnStepKeepsCarrying(b, b', step, l, c, v, j);
    }
  }

  // ---- Steps of the whole system ----

  lemma ListenerStaysOrDies(b: Board, step: Label, l: nat)
    requires AllSound(b) && l < |b.listeners|
    ensures l < |Step(b, step).listeners|
    ensures Gone(b.listeners[l]) ==> Gone(Step(b, step).listeners[l])
    ensures Covering(b.listeners[l]) ==> Covering(Step(b, step).listeners[l]) || Gone(Step(b, step).listeners[l])
  {
    assert Sound(b.listeners[l]);
    if Enabled(b, step) && !step.Join? && !step.Leave? && !step.Publish? {
      OthersMoveOneListener(b, step);
    }
  }

  lemma TaskStaysOrIsNew(b: Board, step: Label)
    requires Lifecycle(b)
    ensures var b' := Step(b, step); b'.task == b.task || b'.task.None? || (step.Join? && b'.task == Some(|b.listeners|))
  {
    if !step.Join? && !step.Leave? { OtherStepsAreQuiet(b, step); }
  }

  lemma HubStepKeepsClient(s: System, s': System, i: int, step: Label, k: int, c: Conn)
    requires Good(s) && ClientSound(s, k, c)
    requires (k, c) in s'.clients && s'.clients[(k, c)] == s.clients[(k, c)]
    requires HubAt(s', k) == if k == i then Step(HubAt(s, k), step) else HubAt(s, k)
    ensures ClientSound(s', k, c)
  {
    var b := HubAt(s, k);
    EmptyIsGood();
    if k == i {
      HistoryIsHonest(b, step, c);
      PrimedStaysSound(b, step, s.clients[(k, c)].tasks.primed);
      PrimedStaysSound(b, step, s.clients[(k, c)].lists.primed);
    }
  }

  lemma PrimedStaysSound(b: Board, step: Label, primed: Option<nat>)
    requires Lifecycle(b) && AllSound(b) && PrimedSound(b, primed)
    ensures PrimedSound(Step(b, step), primed)
  {
    TaskStaysOrIsNew(b, step);
    if primed.Some? {
      ListenerStaysOrDies(b, step, primed.value);
    }
  }

  lemma EmptyIsGood()
    ensures Delivery(EMPTY) && AllSound(EMPTY)
  {
  }

  lemma HubsStayGood(s: System, m: Move)
    requires Good(s)
    ensures forall i :: i in Next(s, m).hubs ==> Delivery(Next(s, m).hubs[i]) && AllSound(Next(s, m).hubs[i])
  {
    EmptyIsGood();
    if CanMove(s, m) {
      match m {
        case PublishOk(j) =>
          forall i | i in s.hubs
            ensures Delivery(Next(s, m).hubs[i]) && AllSound(Next(s, m).hubs[i])
          {
            StepKeepsDelivery(s.hubs[i], Publish(Event(s.commits[j], j)));
            StepKeepsAllSound(s.hubs[i], Publish(Event(s.commits[j], j)));
          }
        case Open(i, user, _, _) =>
          StepKeepsDelivery(HubAt(s, i), Join(user));
          StepKeepsAllSound(HubAt(s, i), Join(user));
        case Local(i, step) =>
          StepKeepsDelivery(HubAt(s, i), step);
          StepKeepsAllSound(HubAt(s, i), step);
        case _ =>
      }
    }
  }

  lemma PageMoveKeepsClient(s: System, m: Move, i: int, c: Conn)
    requires Good(s) && (i, c) in s.clients && ClientSound(s, i, c)
    requires m.Handle? || m.Ask? || m.Serve? || m.Apply? || m.FetchFails?
    ensures ClientSound(Next(s, m), i, c)
  {
    if CanMove(s, m) && m.Serve? {
      ServeKeepsClient(s, m, i, c);
    }
  }

  lemma ServeKeepsClient(s: System, m: Move, i: int, c: Conn)
    requires Good(s) && ClientSound(s, i, c) && m.Serve? && CanMove(s, m)
    ensures ClientSound(Next(s, m), i, c)
  {
    assert Next(s, m).hubs == s.hubs;
    if (m.i, m.c) == (i, c) {
      AnswerIsSound(s, i, c, Get(s.clients[(i, c)], m.v), m.k);
    }
  }

  lemma AnswerIsSound(s: System, i: int, c: Conn, state: ViewState, k: nat)
    requires Good(s) && k < |state.queue| && PrimedSound(HubAt(s, i), state.primed)
    ensures PrimedSound(HubAt(s, i), Answer(s, i, c, state, k).primed)
  {
    EmptyIsGood();
    assert Lifecycle(HubAt(s, i));
  }

  lemma OpenKeepsClients(s: System, m: Move, i: int, c: Conn)
    requires Good(s) && m.Open? && CanMove(s, m) && (i, c) in Next(s, m).clients
    ensures ClientSound(Next(s, m), i, c)
  {
    var b := HubAt(s, m.i);
    if (i, c) in s.clients {
      assert ClientSound(s, i, c);
      EmptyIsGood();
      assert i == m.i ==> ConnSound(b, c);
      HubStepKeepsClient(s, Next(s, m), m.i, Join(m.user), i, c);
    } else {
      assert i == m.i && c == Conn(b.nextConn, m.user);
      assert HubAt(Next(s, m), i).received[c] == [];
    }
  }

  lemma ClientsStaySound(s: System, m: Move, i: int, c: Conn)
    requires Good(s) && (i, c) in Next(s, m).clients
    ensures ClientSound(Next(s, m), i, c)
  {
    var s' := Next(s, m);
    if CanMove(s, m) {
      match m {
        case Commit(_) => assert ClientSound(s, i, c);
        case PublishFails(_) => assert ClientSound(s, i, c);
        case PublishOk(j) =>
          assert ClientSound(s, i, c);
          HubStepKeepsClient(s, s', i, Publish(Event(s.commits[j], j)), i, c);
        case Open(_, _, _, _) => OpenKeepsClients(s, m, i, c);
        case Local(k, step) =>
          assert ClientSound(s, i, c);
          HubStepKeepsClient(s, s', k, step, i, c);
        case _ =>
          assert ClientSound(s, i, c);
          PageMoveKeepsClient(s, m, i, c);
      }
    } else {
      assert ClientSound(s, i, c);
    }
  }

  lemma NextKeepsGood(s: System, m: Move)
    requires Good(s)
    ensures Good(Next(s, m))
  {
    HubsStayGood(s, m);
    forall i, c | (i, c) in Next(s, m).clients
      ensures ClientSound(Next(s, m), i, c)
    {
      ClientsStaySound(s, m, i, c);
    }
  }

  // ---- No unseen commit is forgotten ----

  lemma PublishCovers(s: System, j0: nat, i: int, c: Conn, v: View, j: nat)
    requires Good(s) && CanMove(s, PublishOk(j0))
    requires Tracked(Next(s, PublishOk(j0)), i, c, v) && j < |s.commits| && Affects(s.commits[j], v)
    requires Tracked(s, i, c, v) ==> Covered(s, i, c, v, j)
    ensures Covered(Next(s, PublishOk(j0)), i, c, v, j)
  {
    var s' := Next(s, PublishOk(j0));
    var b, b' := HubAt(s, i), HubAt(s', i);
    var l := Get(s.clients[(i, c)], v).primed.value;
    assert b' == Step(b, Publish(Event(s.commits[j0], j0)));
    var x, x' := b.listeners[l], b'.listeners[l];
    assert x' == Deliver(x, Event(s.commits[j0], j0));
    assert Tracked(s, i, c, v);
    if j == j0 {
      PublishedIsOnInstance(x, s.commits[j0], c, v, j);
    } else if OnInstance(x, c, v, j) {
      DeliveryKeepsCarrying(x, Event(s.commits[j0], j0), c, v, j);
    }
  }

  lemma PublishedIsOnInstance(x: Listener, kind: Kind, c: Conn, v: View, j: nat)
    requires Affects(kind, v) && Covering(x)
    ensures OnInstance(Deliver(x, Event(kind, j)), c, v, j)
  {
    var x' := Deliver(x, Event(kind, j));
    if x.online { assert Carries(x'.buffer[|x.buffer|], v, j); }
  }

  lemma DeliveryKeepsCarrying(x: Listener, msg: Msg, c: Conn, v: View, j: nat)
    requires OnInstance(x, c, v, j)
    ensures OnInstance(Deliver(x, msg), c, v, j)
  {
    var x' := Deliver(x, msg);
    if exists k :: 0 <= k < |x.buffer| && Carries(x.buffer[k], v, j) {
      var k :| 0 <= k < |x.buffer| && Carries(x.buffer[k], v, j);
      assert x'.buffer[k] == x.buffer[k];
    }
  }

  /** A page is tracked only under a listener that it was already tracked under. */
  lemma WasTracked(s: System, s': System, step: Label, i: int, c: Conn, v: View)
    requires Good(s) && !step.Publish? && HubAt(s', i) == Step(HubAt(s, i), step)
    requires (i, c) in s.clients && (i, c) in s'.clients && s'.clients[(i, c)] == s.clients[(i, c)]
    requires Tracked(s', i, c, v)
    ensures Tracked(s, i, c, v)
  {
    var b := HubAt(s, i);
    assert ClientSound(s, i, c);
    EmptyIsGood();
    TaskStaysOrIsNew(b, step);
    ListenerStaysOrDies(b, step, Get(s.clients[(i, c)], v).primed.value);
    HealthyBefore(b, step, c);
    assert Lifecycle(b);
  }

  /** A step of one instance's event loop, possibly one that registers a new page. */
  lemma HubStepCovers(s: System, s': System, k: int, step: Label, i: int, c: Conn, v: View, j: nat)
    requires Good(s) && !step.Publish?
    requires (i, c) in s.clients && (i, c) in s'.clients && s'.clients[(i, c)] == s.clients[(i, c)]
    requires s'.commits == s.commits && s'.pending == s.pending && s'.lost == s.lost
    requires HubAt(s', i) == if i == k then Step(HubAt(s, i), step) else HubAt(s, i)
    requires Tracked(s', i, c, v)
    requires Tracked(s, i, c, v) ==> Covered(s, i, c, v, j)
    ensures Covered(s', i, c, v, j)
  {
    var b, b' := HubAt(s, i), HubAt(s', i);
    if i == k {
      EmptyIsGood();
      var l := Get(s.clients[(i, c)], v).primed.value;
      WasTracked(s, s', step, i, c, v);
      HistoryIsHonest(b, step, c);
      var handled := s.clients[(i, c)].handled;
      if OnInstance(b.listeners[l], c, v, j) {
        InstanceKeepsCarrying(b, b', step, l, c, v, j);
        if !OnInstance(b'.listeners[l], c, v, j) {
          CarriedInto(b'.received[c], handled, v, j, |b.received[c]|);
        }
      } else if InSocket(b.received[c], handled, v, j) {
        var n :| handled <= n < |b.received[c]| && Carries(b.received[c][n], v, j);
        CarriedInto(b'.received[c], handled, v, j, n);
      }
    }
  }

  lemma CarriedInto(messages: seq<Msg>, handled: nat, v: View, j: nat, n: nat)
    requires handled <= n < |messages| && Carries(messages[n], v, j)
    ensures InSocket(messages, handled, v, j)
  {
  }

  lemma HandlingCovers(s: System, i: int, c: Conn, v: View, j: nat)
    requires CanMove(s, Handle(i, c)) && Covered(s, i, c, v, j)
    ensures Covered(Next(s, Handle(i, c)), i, c, v, j)
  {
    var s' := Next(s, Handle(i, c));
    var client, client' := s.clients[(i, c)], s'.clients[(i, c)];
    var messages := HubAt(s, i).received[c];
    if InSocket(messages, client.handled, v, j) && !Settled(Get(client', v), j) {
      var k :| client.handled <= k < |messages| && Carries(messages[k], v, j);
      assert k != client.handled;
      assert InSocket(messages, client'.handled, v, j);
    }
  }

  lemma ServingCovers(s: System, i: int, c: Conn, w: View, k: nat, v: View, j: nat)
    requires CanMove(s, Serve(i, c, w, k)) && j < |s.commits| && Tracked(Next(s, Serve(i, c, w, k)), i, c, v)
    requires Tracked(s, i, c, v) ==> Covered(s, i, c, v, j)
    ensures Covered(Next(s, Serve(i, c, w, k)), i, c, v, j)
  {
    var state := Get(s.clients[(i, c)], v);
    var s' := Next(s, Serve(i, c, w, k));
    assert Get(s'.clients[(i, c)], v) == if v == w then Answer(s, i, c, state, k) else state;
    if Get(s'.clients[(i, c)], v).primed != state.primed || Get(s'.clients[(i, c)], v).failed != state.failed {
      assert Settled(Get(s'.clients[(i, c)], v), j);
    }
  }

  lemma AskingCovers(s: System, m: Move, i: int, c: Conn, v: View, j: nat)
    requires CanMove(s, m) && (m.Ask? || m.Apply? || m.FetchFails?) && (m.i, m.c) == (i, c)
    requires Tracked(Next(s, m), i, c, v)
    requires Tracked(s, i, c, v) ==> Covered(s, i, c, v, j)
    ensures Covered(Next(s, m), i, c, v, j)
  {
  }

  lemma PageMoveCovers(s: System, m: Move, i: int, c: Conn, v: View, j: nat)
    requires CanMove(s, m) && (m.Handle? || m.Ask? || m.Serve? || m.Apply? || m.FetchFails?)
    requires j < |s.commits| && Tracked(Next(s, m), i, c, v)
    requires Tracked(s, i, c, v) ==> Covered(s, i, c, v, j)
    ensures Covered(Next(s, m), i, c, v, j)
  {
    if (m.i, m.c) == (i, c) {
      match m {
        case Handle(_, _) => HandlingCovers(s, i, c, v, j);
        case Serve(_, _, w, k) => ServingCovers(s, i, c, w, k, v, j);
        case _ => AskingCovers(s, m, i, c, v, j);
      }
    }
  }

  lemma OpenCovers(s: System, m: Move, i: int, c: Conn, v: View, j: nat)
    requires Good(s) && m.Open? && CanMove(s, m) && Tracked(Next(s, m), i, c, v)
    requires Tracked(s, i, c, v) ==> Covered(s, i, c, v, j)
    ensures Covered(Next(s, m), i, c, v, j)
  {
    OpenKeepsPages(s, m, i, c, v);
    HubStepCovers(s, Next(s, m), m.i, Join(m.user), i, c, v, j);
  }

  /** A page that is tracked was there before, and is not the new one. */
  lemma OpenKeepsPages(s: System, m: Move, i: int, c: Conn, v: View)
    requires Good(s) && m.Open? && CanMove(s, m) && (i, c) in Next(s, m).clients
    requires Get(Next(s, m).clients[(i, c)], v).primed.Some?
    ensures (i, c) in s.clients && Next(s, m).clients[(i, c)] == s.clients[(i, c)]
    ensures HubAt(Next(s, m), i) == if i == m.i then Step(HubAt(s, i), Join(m.user)) else HubAt(s, i)
  {
    if (i, c) in s.clients && i == m.i {
      assert ClientSound(s, i, c);
      EmptyIsGood();
      assert ConnSound(HubAt(s, i), c);
    }
  }

  lemma NextForgetsNothing(s: System, m: Move)
    requires Good(s) && NothingForgotten(s)
    ensures NothingForgotten(Next(s, m))
  {
    var s' := Next(s, m);
    NextKeepsGood(s, m);
    if CanMove(s, m) {
      forall i, c, v: View, j: nat | Tracked(s', i, c, v) && j < |s'.commits| && Affects(s'.commits[j], v)
        ensures Covered(s', i, c, v, j)
      {
        match m {
          case Commit(_) =>
            assert j < |s.commits| ==> Covered(s, i, c, v, j);
          case PublishFails(_) => assert Covered(s, i, c, v, j);
          case PublishOk(j0) =>
            assert Tracked(s, i, c, v) ==> Covered(s, i, c, v, j);
            PublishCovers(s, j0, i, c, v, j);
          case Open(_, _, _, _) =>
            assert Tracked(s, i, c, v) ==> Covered(s, i, c, v, j);
            OpenCovers(s, m, i, c, v, j);
          case Local(k, step) =>
            assert Tracked(s, i, c, v) ==> Covered(s, i, c, v, j);
            HubStepCovers(s, s', k, step, i, c, v, j);
          case _ =>
            assert Tracked(s, i, c, v) ==> Covered(s, i, c, v, j);
            PageMoveCovers(s, m, i, c, v, j);
        }
      }
    }
  }

  lemma {:induction false} RunForgetsNothing(s: System, ms: seq<Move>)
    requires Good(s) && NothingForgotten(s)
    ensures Good(RunAll(s, ms)) && NothingForgotten(RunAll(s, ms))
    decreases |ms|
  {
    if ms != [] {
      NextKeepsGood(s, ms[0]);
      NextForgetsNothing(s, ms[0]);
      RunForgetsNothing(Next(s, ms[0]), ms[1..]);
    }
  }

  // ---- Convergence ----

  /** The commits that made a view's content what it is, out of the first `index`. */
  function Changes(commits: seq<Kind>, v: View, index: nat): seq<nat>
    requires index <= |commits|
  {
    if index == 0 then []
    else Changes(commits, v, index - 1) + (if Affects(commits[index - 1], v) then [index - 1] else [])
  }

  lemma {:induction false} SameChanges(commits: seq<Kind>, v: View, low: nat, high: nat)
    requires low <= high <= |commits|
    requires forall j :: low <= j < high ==> !Affects(commits[j], v)
    ensures Changes(commits, v, low) == Changes(commits, v, high)
  {
    if low < high {
      SameChanges(commits, v, low, high - 1);
    }
  }

  /** Nothing is under way for this page: no publish, no buffered message, no send, no gap, no
      unhandled message and no request. */
  predicate Quiescent(s: System, i: int, c: Conn, v: View) {
    && s.pending == {} && Tracked(s, i, c, v)
    && Get(s.clients[(i, c)], v).queue == []
    && var b := HubAt(s, i);
       var x := b.listeners[b.task.value];
       && x.phase.Listening? && x.online && x.buffer == []
       && c in b.received && s.clients[(i, c)].handled == |b.received[c]|
  }

  predicate LostNothing(s: System, v: View) {
    forall j :: j in s.lost && j < |s.commits| ==> !Affects(s.commits[j], v)
  }

  /** Pages never show or hold answers from the future. */
  predicate InTime(state: ViewState, now: nat) {
    state.shown <= now && forall k :: 0 <= k < |state.queue| && state.queue[k].Got? ==> state.queue[k].index <= now
  }

  predicate AllInTime(s: System) {
    forall q :: q in s.clients ==> InTime(s.clients[q].tasks, |s.commits|) && InTime(s.clients[q].lists, |s.commits|)
  }

  lemma PageStaysInTime(s: System, m: Move, q: (int, Conn))
    requires CanMove(s, m) && q in Next(s, m).clients
    requires q in s.clients ==> InTime(s.clients[q].tasks, |s.commits|) && InTime(s.clients[q].lists, |s.commits|)
    ensures InTime(Next(s, m).clients[q].tasks, |s.commits|) && InTime(Next(s, m).clients[q].lists, |s.commits|)
  {
    if m.Handle? || m.Ask? || m.Serve? || m.Apply? || m.FetchFails? {
      PageMoveStaysInTime(s, m, q);
    }
  }

  lemma PageMoveStaysInTime(s: System, m: Move, q: (int, Conn))
    requires m.Handle? || m.Ask? || m.Serve? || m.Apply? || m.FetchFails?
    requires CanMove(s, m) && q in Next(s, m).clients
    requires q in s.clients ==> InTime(s.clients[q].tasks, |s.commits|) && InTime(s.clients[q].lists, |s.commits|)
    ensures InTime(Next(s, m).clients[q].tasks, |s.commits|) && InTime(Next(s, m).clients[q].lists, |s.commits|)
  {
    if (m.i, m.c) == q {
      var client := s.clients[q];
      match m {
        case Handle(_, _) =>
          AskStaysInTime(client.tasks, |s.commits|);
          AskStaysInTime(client.lists, |s.commits|);
        case Ask(_, _, v) => AskStaysInTime(Get(client, v), |s.commits|);
        case Serve(i, c, v, k) => AnswerStaysInTime(s, i, c, Get(client, v), k);
        case Apply(_, _, v) => ShowStaysInTime(Get(client, v), |s.commits|);
        case FetchFails(_, _, v, k) => FailStaysInTime(Get(client, v), k, |s.commits|);
        case _ => assert false;
      }
    }
  }

  lemma AskStaysInTime(state: ViewState, now: nat)
    requires InTime(state, now)
    ensures InTime(PushAsk(state), now)
  {
  }

  lemma AnswerStaysInTime(s: System, i: int, c: Conn, state: ViewState, k: nat)
    requires k < |state.queue| && InTime(state, |s.commits|)
    ensures InTime(Answer(s, i, c, state, k), |s.commits|)
  {
  }

  lemma FailStaysInTime(state: ViewState, k: nat, now: nat)
    requires k < |state.queue| && InTime(state, now)
    ensures InTime(Fail(state, k), now)
  {
  }

  lemma ShowStaysInTime(state: ViewState, now: nat)
    requires state.queue != [] && state.queue[0].Got? && InTime(state, now)
    ensures InTime(Show(state), now)
  {
  }

  lemma NextStaysInTime(s: System, m: Move)
    requires AllInTime(s)
    ensures AllInTime(Next(s, m))
  {
    if CanMove(s, m) {
      forall q | q in Next(s, m).clients
        ensures InTime(Next(s, m).clients[q].tasks, |Next(s, m).commits|) && InTime(Next(s, m).clients[q].lists, |Next(s, m).commits|)
      {
        PageStaysInTime(s, m, q);
      }
    }
  }

  lemma {:induction false} RunStaysInTime(s: System, ms: seq<Move>)
    requires AllInTime(s)
    ensures AllInTime(RunAll(s, ms))
    decreases |ms|
  {
    if ms != [] {
      NextStaysInTime(s, ms[0]);
      RunStaysInTime(Next(s, ms[0]), ms[1..]);
    }
  }

  /** In every reachable state, a commit that a tracked page does not show is still to be
      published, was never published, or is on its way: in the subscription's buffer, in a send,
      in the socket, covered by a request under way, or behind a gap that ends in `resync`. */
  lemma UnseenCommitIsOnItsWay(ms: seq<Move>, i: int, c: Conn, v: View, j: nat)
    requires var s := RunAll(START, ms);
             Tracked(s, i, c, v) && j < |s.commits| && Affects(s.commits[j], v) && !Settled(Get(s.clients[(i, c)], v), j)
    ensures var s := RunAll(START, ms);
            var b := HubAt(s, i);
            || j in s.pending
            || j in s.lost
            || (c in b.received && InSocket(b.received[c], s.clients[(i, c)].handled, v, j))
            || OnInstance(b.listeners[b.task.value], c, v, j)
  {
    RunForgetsNothing(START, ms);
    assert Covered(RunAll(START, ms), i, c, v, j);
  }

  /** So once everything has come to rest and no publish was lost, the page shows exactly what
      the database holds. */
  lemma QuiescentPagesShowTheDatabase(ms: seq<Move>, i: int, c: Conn, v: View)
    requires var s := RunAll(START, ms); Quiescent(s, i, c, v) && LostNothing(s, v)
    ensures var s := RunAll(START, ms);
            var shown := Get(s.clients[(i, c)], v).shown;
            shown <= |s.commits| && Changes(s.commits, v, shown) == Changes(s.commits, v, |s.commits|)
  {
    RunForgetsNothing(START, ms);
    RunStaysInTime(START, ms);
    var s := RunAll(START, ms);
    var state := Get(s.clients[(i, c)], v);
    assert (i, c) in s.clients;
    forall j: nat | state.shown <= j < |s.commits|
      ensures !Affects(s.commits[j], v)
    {
      assert Affects(s.commits[j], v) ==> Covered(s, i, c, v, j);
    }
    SameChanges(s.commits, v, state.shown, |s.commits|);
  }

  /** The condition on the listener is needed: a page that registers before the first
      subscription stands, and whose answer was read before that, can stay behind for good,
      with nothing lost and everything at rest, because the first subscription sends no
      `resync`. */
  lemma FirstSubscriptionSendsNoResync(user: int)
    ensures var c := Conn(0, user);
            var page := ViewState(0, [Asked], None, false);
            var s := RunAll(START, [Open(0, user, page, page), Serve(0, c, Tasks, 0), Apply(0, c, Tasks),
                                    Commit(TaskCreated), PublishOk(0), Local(0, Subscribed(0))]);
            && s.pending == {} && s.lost == {} && Healthy(HubAt(s, 0), c)
            && |HubAt(s, 0).listeners| == 1
            && (var x := HubAt(s, 0).listeners[0]; x.phase == Listening && x.online && x.buffer == [])
            && (0, c) in s.clients && s.clients[(0, c)].tasks == ViewState(0, [], None, false)
            && Changes(s.commits, Tasks, 0) != Changes(s.commits, Tasks, |s.commits|)
  {
    var c := Conn(0, user);
    var page := ViewState(0, [Asked], None, false);
    var s1 := Next(START, Open(0, user, page, page));
    var s2 := Next(s1, Serve(0, c, Tasks, 0));
    assert Get(s1.clients[(0, c)], Tasks).queue[0].Asked?;
    assert s2.clients[(0, c)].tasks == ViewState(0, [Got(0)], None, false);
    var s3 := Next(s2, Apply(0, c, Tasks));
    assert s3.clients[(0, c)].tasks == ViewState(0, [], None, false);
    var s4 := Next(s3, Commit(TaskCreated));
    var s5 := Next(s4, PublishOk(0));
    OnePageMisses(user, Event(TaskCreated, 0));
    assert HubAt(s5, 0) == OnePage(user, NEW_LISTENER, [], []);
    var s6 := Next(s5, Local(0, Subscribed(0)));
    RunSix(START, [Open(0, user, page, page), Serve(0, c, Tasks, 0), Apply(0, c, Tasks),
                   Commit(TaskCreated), PublishOk(0), Local(0, Subscribed(0))]);
  }

  /** The same for what a page brings along: it reads its lists before its socket is registered
      and does not read them again, so a list created in between stays off the screen although
      the subscription stands, nothing was lost and the tasks are tracked and at rest. */
  lemma ListsReadBeforeTheSocketCanStayBehind(user: int)
    ensures var c := Conn(0, user);
            var s := RunAll(START, [Commit(ListCreated), PublishOk(0),
                                    Open(0, user, FRESH, ViewState(0, [], None, false)),
                                    Local(0, Subscribed(0)), Serve(0, c, Tasks, 0), Apply(0, c, Tasks)]);
            && Quiescent(s, 0, c, Tasks) && s.lost == {}
            && s.clients[(0, c)].lists == ViewState(0, [], None, false)
            && Changes(s.commits, Lists, 0) != Changes(s.commits, Lists, |s.commits|)
  {
    var c, lists := Conn(0, user), ViewState(0, [], None, false);
    var s2 := Next(Next(START, Commit(ListCreated)), PublishOk(0));
    assert s2 == System([ListCreated], {}, {}, map[], map[]);
    OnlyPageOpens([ListCreated], user, FRESH, lists);
    OnlyPageReads([ListCreated], user, lists);
    RunSix(START, [Commit(ListCreated), PublishOk(0), Open(0, user, FRESH, lists),
                   Local(0, Subscribed(0)), Serve(0, c, Tasks, 0), Apply(0, c, Tasks)]);
  }

  lemma {:induction false} RunAllAppend(s: System, a: seq<Move>, b: seq<Move>)
    ensures RunAll(s, a + b) == RunAll(RunAll(s, a), b)
    decreases |a|
  {
    if a == [] {
      assert a + b == b;
    } else {
      assert (a + b)[1..] == a[1..] + b;
      RunAllAppend(Next(s, a[0]), a[1..], b);
    }
  }

  /** A page that reads its tasks under its listener, and a task created and published then. */
  function ReadThenCreated(user: int): seq<Move> {
    var c := Conn(0, user);
    [Open(0, user, FRESH, FRESH), Local(0, Subscribed(0)), Serve(0, c, Tasks, 0), Apply(0, c, Tasks), Commit(TaskCreated), PublishOk(0)]
  }

  /** The event reaches the page, whose refetch fails. */
  function HeardButFailed(c: Conn): seq<Move> {
    [Local(0, Receive(0)), Local(0, SendOk(0, c)), Local(0, GatherDone(0)), Handle(0, c), FetchFails(0, c, Tasks, 0), Ask(0, c, Lists)]
  }

  /** One page on an instance, with its listener. */
  function OnePage(user: int, x: Listener, received: seq<Msg>, sent: seq<Msg>): Board {
    var c := Conn(0, user);
    Board(Some([c]), Some(0), [x], {c}, 1, map[c := received], sent, map[c := 0], map[])
  }

  /** What is published before the subscription stands is not buffered. */
  lemma OnePageMisses(user: int, msg: Msg)
    ensures Step(Step(EMPTY, Join(user)), Publish(msg)) == OnePage(user, NEW_LISTENER, [], [])
    ensures Step(OnePage(user, NEW_LISTENER, [], []), Subscribed(0)) == OnePage(user, IDLE, [], [])
  {
    OnePageSubscribes(user);
    var b := Step(OnePage(user, NEW_LISTENER, [], []), Publish(msg));
    assert b.listeners == [NEW_LISTENER];
  }

  lemma OnePageSubscribes(user: int)
    ensures Step(EMPTY, Join(user)) == OnePage(user, NEW_LISTENER, [], [])
    ensures Step(OnePage(user, NEW_LISTENER, [], []), Subscribed(0)) == OnePage(user, IDLE, [], [])
  {
    var c := Conn(0, user);
    var b := Step(EMPTY, Join(user));
    assert [] + [c] == [c] && {} + {c} == {c} && [] + [NEW_LISTENER] == [NEW_LISTENER];
    assert b.received == map[c := []] && b.joined == map[c := 0] && b.dropped == map[];
    assert [NEW_LISTENER][0 := IDLE] == [IDLE];
  }

  function Send(msg: Msg, c: Conn, waiting: set<Conn>): Phase {
    Sending(msg, 0, [c], waiting, {})
  }

  lemma OnePageReceives(user: int, x: Listener, msg: Msg)
    requires x.phase == Listening && x.online && x.buffer == [] && !x.cancelled
    requires msg.Event? && !msg.kind.MemberRemoved?
    ensures var c := Conn(0, user);
            var sending := x.(notes := x.notes + [Forwarded(msg)], phase := Send(msg, c, {c}));
            Step(Step(OnePage(user, x, [], []), Publish(msg)), Receive(0)) == OnePage(user, sending, [], [msg])
  {
    var c := Conn(0, user);
    var x1 := x.(buffer := [msg]);
    var b1 := Step(OnePage(user, x, [], []), Publish(msg));
    assert x.buffer + [msg] == [msg];
    assert b1.listeners == [x1];
    assert b1 == OnePage(user, x1, [], []);
    assert x1.buffer[1..] == [];
    assert (set d | d in [c]) == {c};
    assert [] + [msg] == [msg];
  }

  lemma OnePageIsSent(user: int, x: Listener, msg: Msg)
    requires var c := Conn(0, user); x.phase == Send(msg, c, {c})
    ensures var c := Conn(0, user);
            Step(OnePage(user, x, [], [msg]), SendOk(0, c)) == OnePage(user, x.(phase := Send(msg, c, {})), [msg], [msg])
  {
    var c := Conn(0, user);
    var b := Step(OnePage(user, x, [], [msg]), SendOk(0, c));
    assert {c} - {c} == {};
    assert [] + [msg] == [msg];
    assert b.received == map[c := [msg]];
    assert b.listeners == [x.(phase := Send(msg, c, {}))];
  }

  lemma OnePageIsDone(user: int, x: Listener, msg: Msg)
    requires var c := Conn(0, user); x.phase == Send(msg, c, {}) && !x.cancelled && !x.recovering
    ensures Step(OnePage(user, x, [msg], [msg]), GatherDone(0)) == OnePage(user, x.(phase := Listening), [msg], [msg])
  {
    var c := Conn(0, user);
    var b := OnePage(user, x, [msg], [msg]);
    assert DropFailed(b.active, [c], {}) == b.active by {
      assert [c][1..] == [];
    }
    assert WithActive(b, b.active).dropped == map[];
    assert [x][0 := x.(phase := Listening)] == [x.(phase := Listening)];
  }

  lemma OnePageHears(user: int, x: Listener, msg: Msg)
    requires x.phase == Listening && x.online && x.buffer == [] && !x.cancelled && !x.recovering
    requires msg.Event? && !msg.kind.MemberRemoved?
    ensures var c := Conn(0, user);
            var b1 := Step(OnePage(user, x, [], []), Publish(msg));
            var b4 := Step(Step(Step(b1, Receive(0)), SendOk(0, c)), GatherDone(0));
            b4 == OnePage(user, x.(notes := x.notes + [Forwarded(msg)]), [msg], [msg])
  {
    var c := Conn(0, user);
    var x1 := x.(notes := x.notes + [Forwarded(msg)]);
    OnePageReceives(user, x, msg);
    OnePageIsSent(user, x1.(phase := Send(msg, c, {c})), msg);
    OnePageIsDone(user, x1.(phase := Send(msg, c, {})), msg);
  }

  const IDLE := NEW_LISTENER.(phase := Listening, online := true)
  const FRESH := ViewState(0, [Asked], None, false)

  /** One page on instance 0, with nothing pending or lost. */
  function OnlyPage(commits: seq<Kind>, b: Board, user: int, client: Client): System {
    System(commits, {}, {}, map[0 := b], map[(0, Conn(0, user)) := client])
  }

  lemma OnlyPageOpens(commits: seq<Kind>, user: int, tasks: ViewState, lists: ViewState)
    requires Carried(tasks, |commits|) && Carried(lists, |commits|)
    ensures var s := System(commits, {}, {}, map[], map[]);
            var t := OnlyPage(commits, OnePage(user, IDLE, [], []), user, Client(0, tasks, lists));
            Next(Next(s, Open(0, user, tasks, lists)), Local(0, Subscribed(0))) == t
  {
    OnePageSubscribes(user);
    var s := System(commits, {}, {}, map[], map[]);
    var s1 := Next(s, Open(0, user, tasks, lists));
    assert s1 == OnlyPage(commits, OnePage(user, NEW_LISTENER, [], []), user, Client(0, tasks, lists));
    assert Next(s1, Local(0, Subscribed(0))).hubs == map[0 := OnePage(user, IDLE, [], [])];
  }

  lemma OnlyPageReads(commits: seq<Kind>, user: int, lists: ViewState)
    ensures var s := OnlyPage(commits, OnePage(user, IDLE, [], []), user, Client(0, FRESH, lists));
            var read := ViewState(|commits|, [], Some(0), false);
            var t := OnlyPage(commits, OnePage(user, IDLE, [], []), user, Client(0, read, lists));
            Next(Next(s, Serve(0, Conn(0, user), Tasks, 0)), Apply(0, Conn(0, user), Tasks)) == t
  {
    var c := Conn(0, user);
    var s := OnlyPage(commits, OnePage(user, IDLE, [], []), user, Client(0, FRESH, lists));
    var s1 := Next(s, Serve(0, c, Tasks, 0));
    assert FRESH.queue[0 := Got(|commits|)] == [Got(|commits|)] && [Got(|commits|)][1..] == [];
    assert s1.clients[(0, c)].tasks == ViewState(0, [Got(|commits|)], Some(0), false);
    var s2 := Next(s1, Apply(0, c, Tasks));
    assert s2.clients[(0, c)].tasks == ViewState(|commits|, [], Some(0), false);
    assert s2.clients == map[(0, c) := Client(0, ViewState(|commits|, [], Some(0), false), lists)];
  }

  lemma ReadThenCreatedEnds(user: int)
    ensures RunAll(START, ReadThenCreated(user)) == OnlyPage(
              [TaskCreated], Step(OnePage(user, IDLE, [], []), Publish(Event(TaskCreated, 0))), user,
              Client(0, ViewState(0, [], Some(0), false), FRESH))
  {
    OnlyPageOpens([], user, FRESH, FRESH);
    OnlyPageReads([], user, FRESH);
    var s4 := OnlyPage([], OnePage(user, IDLE, [], []), user, Client(0, ViewState(0, [], Some(0), false), FRESH));
    var s5 := Next(s4, Commit(TaskCreated));
    assert s5 == s4.(commits := [TaskCreated], pending := {0});
    var s6 := Next(s5, PublishOk(0));
    assert s6.pending == {} && s6.hubs == map[0 := Step(OnePage(user, IDLE, [], []), Publish(Event(TaskCreated, 0)))];
    RunSix(START, ReadThenCreated(user));
  }

  /** Nor does the code retry: a page that read its tasks under its listener stays behind for good
      when the refetch that an event asks for fails, with nothing lost and everything at rest. */
  lemma FailedRefetchLeavesThePageBehind(user: int)
    ensures var c := Conn(0, user);
            var s := RunAll(START, ReadThenCreated(user) + HeardButFailed(c));
            var b := HubAt(s, 0);
            && s.pending == {} && s.lost == {} && ServedBy(b, c, 0) && Healthy(b, c)
            && (var x := b.listeners[0]; x.phase == Listening && x.online && x.buffer == [])
            && (0, c) in s.clients && c in b.received && s.clients[(0, c)].handled == |b.received[c]|
            && s.clients[(0, c)].tasks == ViewState(0, [], Some(0), true)
            && Changes(s.commits, Tasks, 0) != Changes(s.commits, Tasks, |s.commits|)
  {
    var c := Conn(0, user);
    var s := RunAll(START, ReadThenCreated(user));
    ReadThenCreatedEnds(user);
    OnePageHears(user, IDLE, Event(TaskCreated, 0));
    RunAllAppend(START, ReadThenCreated(user), HeardButFailed(c));
    RunSix(s, HeardButFailed(c));
    var s1 := Next(s, Local(0, Receive(0)));
    var s2 := Next(s1, Local(0, SendOk(0, c)));
    var s3 := Next(s2, Local(0, GatherDone(0)));
    assert s3.clients == s.clients;
    var event := Event(TaskCreated, 0);
    assert s3.hubs[0] == OnePage(user, IDLE.(notes := [] + [Forwarded(event)]), [event], [event]);
    HandledButFailed(s3, c);
  }

  lemma HandledButFailed(s: System, c: Conn)
    requires (0, c) in s.clients && 0 in s.hubs && c in s.hubs[0].received && s.hubs[0].received[c] == [Event(TaskCreated, 0)]
    requires s.clients[(0, c)].handled == 0 && s.clients[(0, c)].tasks == ViewState(0, [], Some(0), false)
    ensures var t := Next(Next(Next(s, Handle(0, c)), FetchFails(0, c, Tasks, 0)), Ask(0, c, Lists));
            && t.hubs == s.hubs && t.pending == s.pending && t.lost == s.lost && t.commits == s.commits
            && (0, c) in t.clients && t.clients[(0, c)].handled == 1
            && t.clients[(0, c)].tasks == ViewState(0, [], Some(0), true)
  {
    var s1 := Next(s, Handle(0, c));
    assert s1.clients[(0, c)].tasks == ViewState(0, [] + [Asked], Some(0), false);
    var s2 := Next(s1, FetchFails(0, c, Tasks, 0));
  }

  lemma RunSix(s: System, ms: seq<Move>)
    requires |ms| == 6
    ensures RunAll(s, ms) == Next(Next(Next(Next(Next(Next(s, ms[0]), ms[1]), ms[2]), ms[3]), ms[4]), ms[5])
  {
    var s3 := Next(Next(Next(s, ms[0]), ms[1]), ms[2]);
    assert RunAll(s, ms) == RunAll(Next(s, ms[0]), ms[1..]) == RunAll(Next(Next(s, ms[0]), ms[1]), ms[1..][1..]);
    assert RunAll(s, ms) == RunAll(s3, ms[1..][1..][1..]);
    var rest := ms[1..][1..][1..];
    assert RunAll(s3, rest) == RunAll(Next(s3, ms[3]), rest[1..]) == RunAll(Next(Next(s3, ms[3]), ms[4]), rest[1..][1..]);
  }
}
