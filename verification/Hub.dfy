/** One board on one server instance: its entries in `active_connections` and `redis_tasks`,
    the listener tasks ever started for it, and its endpoint coroutines. Each label is a
    code segment between two awaits (or one outcome of something awaited); a label that is
    not enabled changes nothing, so every sequence of labels is a schedule of the event loop. */
module Hub {
  import opened Models
  import Backoff

  /** An open socket. Connection objects compare by identity, which `id` stands for. */
  datatype Conn = Conn(id: nat, user: int)

  datatype Kind =
    | TaskCreated | TaskUpdated | TaskDeleted | ListCreated | ListDeleted
    | MemberAdded(user: int) | MemberRoleChanged(user: int) | MemberRemoved(user: int)

  /** `commit` only records which commit an event announces. Garbled is anything that is not JSON. */
  datatype Msg = Resync | Event(kind: Kind, commit: nat) | Garbled

  datatype Phase =
    | Subscribing
    | Listening
    | Revoking(msg: Msg, left: seq<Conn>)
    | Sending(msg: Msg, index: nat, snapshot: seq<Conn>, waiting: set<Conn>, failed: set<Conn>)
    | Closing   // the subscription ended: awaiting aclose()
    | Sleeping
    | Dying     // cancelled or crashed: awaiting aclose() while the exception propagates
    | Ended     // done()

  datatype Note = Lost | Resynced(conns: seq<Conn>) | Forwarded(msg: Msg)

  /** `notes` and `failures` are history: what the listener went through, and how many attempts
      or subscriptions ended since it last got past subscribe. */
  datatype Listener = Listener(
    phase: Phase, recovering: bool, delay: real, cancelled: bool,
    online: bool, buffer: seq<Msg>, notes: seq<Note>, failures: nat)

  /** `received`, `sent`, `joined` and `dropped` are history: what reached each socket, every
      message broadcast so far, and how long `sent` was when a connection came and went. */
  datatype Board = Board(
    active: Option<seq<Conn>>, task: Option<nat>, listeners: seq<Listener>, running: set<Conn>, nextConn: nat,
    received: map<Conn, seq<Msg>>, sent: seq<Msg>, joined: map<Conn, nat>, dropped: map<Conn, nat>)

  datatype Label =
    | Join(user: int)           // accept() returned: register, start the listener if needed
    | Leave(conn: Conn)         // the endpoint's finally
    | Publish(msg: Msg)         // Redis hands a message to every live subscription
    | Subscribed(l: nat)
    | SubscribeFails(l: nat)
    | Receive(l: nat)
    | CloseDone(l: nat)         // the awaited close() of a revoked socket is over
    | SendOk(l: nat, conn: Conn)
    | SendFails(l: nat, conn: Conn)
    | GatherDone(l: nat)
    | LoseConnection(l: nat, keep: nat)
    | Detect(l: nat)            // listen() raises or ends
    | Closed(l: nat)
    | Wake(l: nat)
    | Crash(l: nat)             // an exception that is neither RedisError nor OSError
    | Unwind(l: nat)            // a cancelled task meets its CancelledError
    | Died(l: nat)

  const INITIAL_DELAY := 0.5
  const MAX_DELAY := 30.0

  const NEW_LISTENER := Listener(Subscribing, false, INITIAL_DELAY, false, false, [], [], 0)
  const EMPTY := Board(None, None, [], {}, 0, map[], [], map[], map[])

  // ---- connection_manager.py ----

  /** active_connections.get(board_id, []) */
  function Connections(active: Option<seq<Conn>>): seq<Conn> {
    if active.None? then [] else active.value
  }

  /** list.remove: the first occurrence goes. */
  function Remove(s: seq<Conn>, c: Conn): seq<Conn> {
    if s == [] then [] else if s[0] == c then s[1..] else [s[0]] + Remove(s[1..], c)
  }

  function Connect(active: Option<seq<Conn>>, c: Conn): Option<seq<Conn>> {
    Some(Connections(active) + [c])
  }

  function Disconnect(active: Option<seq<Conn>>, c: Conn): Option<seq<Conn>> {
    if active.None? || c !in active.value then active
    else
      var rest := Remove(active.value, c);
      if rest == [] then None else Some(rest)
  }

  /** The loop over zip(connections, results) after a gather. */
  function DropFailed(active: Option<seq<Conn>>, snapshot: seq<Conn>, failed: set<Conn>): Option<seq<Conn>>
    decreases |snapshot|
  {
    if snapshot == [] then active
    else DropFailed(if snapshot[0] in failed then Disconnect(active, snapshot[0]) else active, snapshot[1..], failed)
  }

  /** [c for c in connections if c.user_id == user_id] */
  function OfUser(s: seq<Conn>, user: int): seq<Conn> {
    if s == [] then []
    else (if s[0].user == user then [s[0]] else []) + OfUser(s[1..], user)
  }

  // ---- Segments ----

  /** Replaces the registry entry, remembering when connections went. */
  function WithActive(b: Board, active: Option<seq<Conn>>): Board {
    b.(active := active,
       dropped := b.dropped + map c | c in Connections(b.active) && c !in Connections(active) :: |b.sent|)
  }

  function Put(b: Board, l: nat, x: Listener): Board
    requires l < |b.listeners|
  {
    b.(listeners := b.listeners[l := x])
  }

  function Enter(b: Board, l: nat, phase: Phase): Board
    requires l < |b.listeners|
  {
    Put(b, l, b.listeners[l].(phase := phase))
  }

  predicate TaskDone(b: Board) {
    b.task.Some? && b.task.value < |b.listeners| && b.listeners[b.task.value].phase.Ended?
  }

  function DoJoin(b: Board, user: int): Board {
    var c := Conn(b.nextConn, user);
    var b1 := b.(
      active := Connect(b.active, c), running := b.running + {c}, nextConn := b.nextConn + 1,
      received := b.received[c := []], joined := b.joined[c := |b.sent|]);
    if b1.task.None? || TaskDone(b1) then
      b1.(task := Some(|b1.listeners|), listeners := b1.listeners + [NEW_LISTENER])
    else b1
  }

  function DoLeave(b: Board, c: Conn): Board {
    var b1 := WithActive(b, Disconnect(b.active, c)).(running := b.running - {c});
    if b1.active.None? && b1.task.Some? && b1.task.value < |b1.listeners| then
      Put(b1, b1.task.value, b1.listeners[b1.task.value].(cancelled := true)).(task := None)
    else b1
  }

  /** broadcast up to its gather: the snapshot and one pending send per connection. */
  function StartSend(b: Board, l: nat, msg: Msg): Board
    requires l < |b.listeners|
  {
    var conns := Connections(b.active);
    Enter(b, l, Sending(msg, |b.sent|, conns, set c | c in conns, {})).(sent := b.sent + [msg])
  }

  /** disconnect_user from one close to the next, and on into broadcast after the last. */
  function RevokeNext(b: Board, l: nat, msg: Msg, left: seq<Conn>): Board
    requires l < |b.listeners|
  {
    if left == [] then StartSend(b, l, msg)
    else Enter(WithActive(b, Disconnect(b.active, left[0])), l, Revoking(msg, left[1..]))
  }

  function Revoked(b: Board, msg: Msg): seq<Conn> {
    if msg.Event? && msg.kind.MemberRemoved? then OfUser(Connections(b.active), msg.kind.user) else []
  }

  function DoReceive(b: Board, l: nat): Board
    requires l < |b.listeners| && b.listeners[l].buffer != []
  {
    var x := b.listeners[l];
    var msg := x.buffer[0];
    RevokeNext(Put(b, l, x.(buffer := x.buffer[1..], notes := x.notes + [Forwarded(msg)])), l, msg, Revoked(b, msg))
  }

  function DoSubscribed(b: Board, l: nat): Board
    requires l < |b.listeners|
  {
    var x := b.listeners[l].(online := true, buffer := []);
    if x.recovering then StartSend(Put(b, l, x), l, Resync)
    else Put(b, l, x.(phase := Listening, delay := INITIAL_DELAY, failures := 0))
  }

  function DoGatherDone(b: Board, l: nat): Board
    requires l < |b.listeners| && b.listeners[l].phase.Sending?
  {
    var x := b.listeners[l];
    // recovering is true exactly in the broadcast of the resync event
    var x' := if x.recovering
              then x.(recovering := false, delay := INITIAL_DELAY, failures := 0, notes := x.notes + [Resynced(x.phase.snapshot)])
              else x;
    Put(WithActive(b, DropFailed(b.active, x.phase.snapshot, x.phase.failed)), l, x'.(phase := Listening))
  }

  /** The subscription or the attempt to subscribe ended without a cancellation. */
  function LoseSubscription(x: Listener): Listener {
    x.(phase := Closing, online := false, buffer := [], notes := x.notes + [Lost], failures := x.failures + 1)
  }

  function Deliver(x: Listener, msg: Msg): Listener {
    if x.online then x.(buffer := x.buffer + [msg]) else x
  }

  predicate Enabled(b: Board, move: Label) {
    match move
    case Join(_) => true
    case Leave(c) => c in b.running
    case Publish(_) => true
    case SendOk(l, c) => l < |b.listeners| && b.listeners[l].phase.Sending? && c in b.listeners[l].phase.waiting && c in b.received
    case SendFails(l, c) => l < |b.listeners| && b.listeners[l].phase.Sending? && c in b.listeners[l].phase.waiting
    case LoseConnection(l, keep) => l < |b.listeners| && b.listeners[l].online && keep <= |b.listeners[l].buffer|
    case Unwind(l) => l < |b.listeners| && b.listeners[l].cancelled && !b.listeners[l].phase.Ended?
    case Died(l) => l < |b.listeners| && b.listeners[l].phase.Dying?
    case _ =>
      && move.l < |b.listeners| && !b.listeners[move.l].cancelled
      && var x := b.listeners[move.l];
         match move
         case Subscribed(_) => x.phase.Subscribing?
         case SubscribeFails(_) => x.phase.Subscribing?
         case Receive(_) => x.phase.Listening? && x.buffer != []
         case CloseDone(_) => x.phase.Revoking?
         case GatherDone(_) => x.phase.Sending? && x.phase.waiting == {}
         case Detect(_) => x.phase.Listening? && !x.online && x.buffer == []
         case Closed(_) => x.phase.Closing?
         case Wake(_) => x.phase.Sleeping?
         case _ => x.phase.Subscribing? || x.phase.Listening?
  }

  function Fire(b: Board, move: Label): Board
    requires Enabled(b, move)
  {
    match move
    case Join(user) => DoJoin(b, user)
    case Leave(c) => DoLeave(b, c)
    case Publish(msg) => b.(listeners := seq(|b.listeners|, i requires 0 <= i < |b.listeners| => Deliver(b.listeners[i], msg)))
    case Subscribed(l) => DoSubscribed(b, l)
    case SubscribeFails(l) => Put(b, l, LoseSubscription(b.listeners[l]))
    case Receive(l) => DoReceive(b, l)
    case CloseDone(l) => RevokeNext(b, l, b.listeners[l].phase.msg, b.listeners[l].phase.left)
    case SendOk(l, c) =>
      var x := b.listeners[l];
      Put(b, l, x.(phase := x.phase.(waiting := x.phase.waiting - {c}))).(
        received := b.received[c := b.received[c] + [x.phase.msg]])
    case SendFails(l, c) =>
      var x := b.listeners[l];
      Put(b, l, x.(phase := x.phase.(waiting := x.phase.waiting - {c}, failed := x.phase.failed + {c})))
    case GatherDone(l) => DoGatherDone(b, l)
    case LoseConnection(l, keep) =>
      var x := b.listeners[l];
      Put(b, l, x.(online := false, buffer := x.buffer[..keep]))
    case Detect(l) => Put(b, l, LoseSubscription(b.listeners[l]))
    case Closed(l) => Put(b, l, b.listeners[l].(phase := Sleeping, recovering := true))
    case Wake(l) =>
      var x := b.listeners[l];
      Put(b, l, x.(phase := Subscribing, delay := Backoff.Min(x.delay * 2.0, MAX_DELAY)))
    case Crash(l) => Enter(b, l, Dying)
    case Unwind(l) => Enter(b, l, Dying)
    case Died(l) => Put(b, l, b.listeners[l].(phase := Ended, online := false, buffer := []))
  }

  function Step(b: Board, move: Label): Board {
    if Enabled(b, move) then Fire(b, move) else b
  }

  function Run(b: Board, moves: seq<Label>): Board
    decreases |moves|
  {
    if moves == [] then b else Run(Step(b, moves[0]), moves[1..])
  }
}
