/** One server process: the connection manager, the `redis_tasks` dictionary and the segments of
    the endpoint and listener coroutines, as methods that update them in place. Every method is
    proved to be the step of module Hub that it stands for, on its board, and to leave every
    other board alone. */
module Instance {
  import opened Models
  import opened Hub
  import opened HubLifecycle

  class ConnectionManager {
    var activeConnections: map<int, seq<Conn>>

    constructor ()
      ensures activeConnections == map[]
    {
      activeConnections := map[];
    }

    function Entry(board: int): Option<seq<Conn>>
      reads this
    {
      if board in activeConnections then Some(activeConnections[board]) else None
    }

    /** The part of connect after accept(): setdefault(board_id, []).append(connection). */
    method Connect(connection: Conn, board: int)
      modifies this
      ensures Entry(board) == Hub.Connect(old(Entry(board)), connection)
      ensures forall other :: other != board ==> Entry(other) == old(Entry(other))
    {
      if board !in activeConnections {
        activeConnections := activeConnections[board := []];
      }
      activeConnections := activeConnections[board := activeConnections[board] + [connection]];
    }

    method Disconnect(connection: Conn, board: int)
      modifies this
      ensures Entry(board) == Hub.Disconnect(old(Entry(board)), connection)
      ensures forall other :: other != board ==> Entry(other) == old(Entry(other))
    {
      if board !in activeConnections || connection !in activeConnections[board] {
        return;
      }
      activeConnections := activeConnections[board := Remove(activeConnections[board], connection)];
      if activeConnections[board] == [] {
        activeConnections := activeConnections - {board};
      }
    }

    /** broadcast after its gather: drops the connections whose send raised. */
    method DropAfterGather(connections: seq<Conn>, failed: set<Conn>, board: int)
      modifies this
      ensures Entry(board) == DropFailed(old(Entry(board)), connections, failed)
      ensures forall other :: other != board ==> Entry(other) == old(Entry(other))
    {
      for i := 0 to |connections|
        invariant DropFailed(Entry(board), connections[i..], failed) == DropFailed(old(Entry(board)), connections, failed)
        invariant forall other :: other != board ==> Entry(other) == old(Entry(other))
      {
        assert connections[i..][1..] == connections[i + 1..];
        if connections[i] in failed {
          Disconnect(connections[i], board);
        }
      }
    }

    /** The list comprehension at the top of disconnect_user. */
    method ConnectionsOf(board: int, user: int) returns (revoked: seq<Conn>)
      ensures revoked == OfUser(Connections(Entry(board)), user)
    {
      var connections := if board in activeConnections then activeConnections[board] else [];
      revoked := [];
      assert connections[0..] == connections;
      for i := 0 to |connections|
        invariant revoked + OfUser(connections[i..], user) == OfUser(connections, user)
      {
        assert connections[i..][1..] == connections[i + 1..];
        if connections[i].user == user {
          assert revoked + OfUser(connections[i..], user) == revoked + [connections[i]] + OfUser(connections[i + 1..], user);
          revoked := revoked + [connections[i]];
        } else {
          assert OfUser(connections[i..], user) == OfUser(connections[i + 1..], user);
        }
      }
    }
  }

  class Server {
    const manager: ConnectionManager
    var redisTasks: map<int, nat>
    /** The event loop's tasks and the history variables, per board; its `active` and `task`
        fields are not used. */
    var runtime: map<int, Board>

    constructor ()
      ensures fresh(manager)
      ensures forall board :: View(board) == EMPTY
    {
      manager := new ConnectionManager();
      redisTasks, runtime := map[], map[];
    }

    function Rest(board: int): Board
      reads this
    {
      if board in runtime then runtime[board] else EMPTY
    }

    function Task(board: int): Option<nat>
      reads this
    {
      if board in redisTasks then Some(redisTasks[board]) else None
    }

    function View(board: int): Board
      reads this, manager
    {
      Rest(board).(active := manager.Entry(board), task := Task(board))
    }

    twostate predicate OthersUntouched(board: int)
      reads this, manager
    {
      forall other :: other != board ==> View(other) == old(View(other))
    }

    method SetRest(board: int, rest: Board)
      modifies this`runtime
      ensures View(board) == rest.(active := old(View(board)).active, task := old(View(board)).task)
      ensures OthersUntouched(board)
    {
      runtime := runtime[board := rest];
    }

    /** Removes a connection and notes when it went. */
    method DropConnection(connection: Conn, board: int)
      modifies this`runtime, manager
      ensures View(board) == WithActive(old(View(board)), Hub.Disconnect(old(View(board)).active, connection))
      ensures OthersUntouched(board)
    {
      var before := View(board);
      manager.Disconnect(connection, board);
      SetRest(board, WithActive(before, manager.Entry(board)));
    }

    /** websocket_endpoint from the return of accept() to its first receive_text(). */
    method Register(board: int, user: int)
      modifies this, manager
      ensures View(board) == Step(old(View(board)), Join(user))
      ensures OthersUntouched(board)
    {
      var b := View(board);
      var connection := Conn(b.nextConn, user);
      manager.Connect(connection, board);
      b := b.(running := b.running + {connection}, nextConn := b.nextConn + 1,
              received := b.received[connection := []], joined := b.joined[connection := |b.sent|]);
      if board !in redisTasks || (redisTasks[board] < |b.listeners| && b.listeners[redisTasks[board]].phase.Ended?) {
        redisTasks := redisTasks[board := |b.listeners|];
        b := b.(listeners := b.listeners + [NEW_LISTENER]);
      }
      SetRest(board, b);
    }

    /** The `finally` of websocket_endpoint. */
    method LeaveBoard(board: int, connection: Conn)
      requires Enabled(View(board), Leave(connection)) && Lifecycle(View(board))
      modifies this, manager
      ensures View(board) == Step(old(View(board)), Leave(connection))
      ensures OthersUntouched(board)
    {
      DropConnection(connection, board);
      var b := View(board);
      b := b.(running := b.running - {connection});
      if board !in manager.activeConnections && board in redisTasks {
        var l := redisTasks[board];
        redisTasks := redisTasks - {board};
        b := b.(listeners := b.listeners[l := b.listeners[l].(cancelled := true)]);
      }
      SetRest(board, b);
    }

    /** broadcast up to its gather. */
    method StartBroadcast(board: int, l: nat, msg: Msg)
      requires l < |View(board).listeners|
      modifies this
      ensures View(board) == StartSend(old(View(board)), l, msg)
      ensures OthersUntouched(board)
    {
      var b := View(board);
      var connections := if board in manager.activeConnections then manager.activeConnections[board] else [];
      var phase := Sending(msg, |b.sent|, connections, set c | c in connections, {});
      SetRest(board, b.(sent := b.sent + [msg], listeners := b.listeners[l := b.listeners[l].(phase := phase)]));
    }

    method FinishBroadcast(board: int, l: nat)
      requires Enabled(View(board), GatherDone(l))
      modifies this, manager
      ensures View(board) == Step(old(View(board)), GatherDone(l))
      ensures OthersUntouched(board)
    {
      var b := View(board);
      var x := b.listeners[l];
      manager.DropAfterGather(x.phase.snapshot, x.phase.failed, board);
      b := WithActive(b, manager.Entry(board));
      if x.recovering {
        x := x.(recovering := false, delay := INITIAL_DELAY, failures := 0, notes := x.notes + [Resynced(x.phase.snapshot)]);
      }
      SetRest(board, b.(listeners := b.listeners[l := x.(phase := Listening)]));
    }

    /** disconnect_user from one awaited close to the next, then on into broadcast. */
    method Revoke(board: int, l: nat, msg: Msg, left: seq<Conn>)
      requires l < |View(board).listeners|
      modifies this, manager
      ensures View(board) == RevokeNext(old(View(board)), l, msg, left)
      ensures OthersUntouched(board)
    {
      if left == [] {
        StartBroadcast(board, l, msg);
      } else {
        DropConnection(left[0], board);
        var b := View(board);
        SetRest(board, b.(listeners := b.listeners[l := b.listeners[l].(phase := Revoking(msg, left[1..]))]));
      }
    }

    /** One iteration of `async for message in pubsub.listen()`, up to its first await. */
    method Deliver(board: int, l: nat)
      requires Enabled(View(board), Receive(l))
      modifies this, manager
      ensures View(board) == Step(old(View(board)), Receive(l))
      ensures OthersUntouched(board)
    {
      var b := View(board);
      var x := b.listeners[l];
      var msg := x.buffer[0];
      SetRest(board, b.(listeners := b.listeners[l := x.(buffer := x.buffer[1..], notes := x.notes + [Forwarded(msg)])]));
      var revoked := [];
      if msg.Event? && msg.kind.MemberRemoved? {
        revoked := manager.ConnectionsOf(board, msg.kind.user);
      }
      Revoke(board, l, msg, revoked);
    }

    method ContinueRevoking(board: int, l: nat)
      requires Enabled(View(board), CloseDone(l))
      modifies this, manager
      ensures View(board) == Step(old(View(board)), CloseDone(l))
      ensures OthersUntouched(board)
    {
      Revoke(board, l, View(board).listeners[l].phase.msg, View(board).listeners[l].phase.left);
    }

    /** subscribe() returned. */
    method OnSubscribed(board: int, l: nat)
      requires Enabled(View(board), Subscribed(l))
      modifies this
      ensures View(board) == Step(old(View(board)), Subscribed(l))
      ensures OthersUntouched(board)
    {
      var b := View(board);
      var x := b.listeners[l].(online := true, buffer := []);
      if x.recovering {
        SetRest(board, b.(listeners := b.listeners[l := x]));
        StartBroadcast(board, l, Resync);
      } else {
        SetRest(board, b.(listeners := b.listeners[l := x.(phase := Listening, delay := INITIAL_DELAY, failures := 0)]));
      }
    }

    /** aclose() returned after the subscription ended: start the pause. */
    method OnClosed(board: int, l: nat)
      requires Enabled(View(board), Closed(l))
      modifies this
      ensures View(board) == Step(old(View(board)), Closed(l))
      ensures OthersUntouched(board)
    {
      var b := View(board);
      SetRest(board, b.(listeners := b.listeners[l := b.listeners[l].(recovering := true, phase := Sleeping)]));
    }

    /** sleep(delay) returned: double the delay and try again. */
    method OnWake(board: int, l: nat)
      requires Enabled(View(board), Wake(l))
      modifies this
      ensures View(board) == Step(old(View(board)), Wake(l))
      ensures OthersUntouched(board)
    {
      var b := View(board);
      var x := b.listeners[l];
      var delay := x.delay * 2.0;
      if delay > MAX_DELAY {
        delay := MAX_DELAY;
      }
      SetRest(board, b.(listeners := b.listeners[l := x.(delay := delay, phase := Subscribing)]));
    }
  }
}
