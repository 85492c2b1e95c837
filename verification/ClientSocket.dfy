/** The page's socket: when it connects, reconnects, gives up and lets go. Handlers and timers of
    one page run one at a time, in any order; the sockets and timers it once made may still
    call back later. */
module ClientSocket {
  import opened Models
  import Backoff

  const CLOSE_UNAUTHENTICATED := 4401
  const CLOSE_NOT_A_MEMBER := 4403
  const BASE_DELAY_MS := 1000.0
  const MAX_DELAY_MS := 30000.0

  /** `timers` are the timeouts that have not fired; `timer` is the handle last stored. `waits` is
      history: every wait ever scheduled, with the number of attempts it followed. */
  datatype Page = Page(
    board: Option<int>, token: bool, ws: Option<nat>, attempts: nat, timer: Option<nat>, timers: set<nat>,
    nextSocket: nat, nextTimer: nat, reloads: nat, waits: seq<(nat, real)>)

  datatype Label =
    | Connect                                // switchBoard once the lists are loaded
    | Fire(timer: nat)
    | Opened(socket: nat)
    | ClosedBy(socket: nat, code: int, jitter: real)
    | Switch(board: int)                     // switchBoard up to its await
    | NoBoards                               // loadBoards found none
    | LeaveBoard                             // leaveBoard up to its request
    | Logout
    | Login

  const START := Page(None, false, None, 0, None, {}, 0, 0, 0, [])

  function BackoffAfter(attempts: nat): real {
    Backoff.Capped(BASE_DELAY_MS, MAX_DELAY_MS, attempts)
  }

  function ClearTimer(p: Page): Page {
    if p.timer.Some? then p.(timers := p.timers - {p.timer.value}) else p
  }

  function ConnectWebSocket(p: Page): Page {
    var q := ClearTimer(p);
    if q.board.None? || !q.token then q
    else q.(ws := Some(q.nextSocket), nextSocket := q.nextSocket + 1)
  }

  function Jittered(full: real, jitter: real): real {
    full * (0.5 + jitter / 2.0)
  }

  /** Math.random() is `jitter`. */
  function ScheduleReconnect(p: Page, jitter: real): Page {
    p.(attempts := p.attempts + 1, timer := Some(p.nextTimer), timers := p.timers + {p.nextTimer}, nextTimer := p.nextTimer + 1,
       waits := p.waits + [(p.attempts, Jittered(BackoffAfter(p.attempts), jitter))])
  }

  function DisconnectWebSocket(p: Page): Page {
    ClearTimer(p).(attempts := 0, ws := None)
  }

  function DoLogout(p: Page): Page {
    DisconnectWebSocket(p.(token := false, board := None))
  }

  function OnClose(p: Page, socket: nat, code: int, jitter: real): Page {
    if p.ws != Some(socket) then p
    else
      var q := p.(ws := None);
      if code == CLOSE_UNAUTHENTICATED then DoLogout(q)
      else if code == CLOSE_NOT_A_MEMBER then q
      else ScheduleReconnect(q, jitter)
  }

  function Step(p: Page, l: Label): Page {
    match l
    case Connect => ConnectWebSocket(p)
    case Fire(timer) => if timer in p.timers then ConnectWebSocket(p.(timers := p.timers - {timer})) else p
    case Opened(socket) =>
      if socket < p.nextSocket then p.(reloads := p.reloads + (if p.attempts > 0 then 1 else 0), attempts := 0) else p
    case ClosedBy(socket, code, jitter) => if socket < p.nextSocket && 0.0 <= jitter < 1.0 then OnClose(p, socket, code, jitter) else p
    case Switch(board) => DisconnectWebSocket(p.(board := Some(board)))
    case NoBoards => DisconnectWebSocket(p.(board := None))
    case LeaveBoard => DisconnectWebSocket(p)
    case Logout => DoLogout(p)
    case Login => p.(token := true)
  }

  function Run(p: Page, ls: seq<Label>): Page
    decreases |ls|
  {
    if ls == [] then p else Run(Step(p, ls[0]), ls[1..])
  }

  /** Never a socket and a pending reconnect at once, and never two pending reconnects; every wait
      lay between half the backoff and the backoff. */
  predicate Tidy(p: Page) {
    && (p.ws.Some? ==> p.ws.value < p.nextSocket && p.timers == {})
    && (forall t :: t in p.timers ==> p.timer == Some(t))
    && (p.timer.Some? ==> p.timer.value < p.nextTimer)
    && (forall i :: 0 <= i < |p.waits| ==> Bounded(p.waits[i]))
  }

  predicate Bounded(wait: (nat, real)) {
    InHalf(BackoffAfter(wait.0), wait.1)
  }

  predicate InHalf(full: real, wait: real) {
    full / 2.0 <= wait <= full
  }

  lemma JitterHalves(full: real, jitter: real)
    requires full > 0.0 && 0.0 <= jitter < 1.0
    ensures InHalf(full, Jittered(full, jitter))
  {
    var part := full * (jitter / 2.0);
    assert Jittered(full, jitter) == full / 2.0 + part;
    assert part == (full / 2.0) * jitter;
    assert 0.0 <= part <= full / 2.0;
  }

  lemma CloseKeepsTidy(p: Page, socket: nat, code: int, jitter: real)
    requires Tidy(p) && 0.0 <= jitter < 1.0
    ensures Tidy(OnClose(p, socket, code, jitter))
  {
    Backoff.Positive(BASE_DELAY_MS, MAX_DELAY_MS, p.attempts);
    JitterHalves(BackoffAfter(p.attempts), jitter);
  }

  lemma StepKeepsTidy(p: Page, l: Label)
    requires Tidy(p)
    ensures Tidy(Step(p, l))
  {
    if l.ClosedBy? && 0.0 <= l.jitter < 1.0 {
      CloseKeepsTidy(p, l.socket, l.code, l.jitter);
    }
  }

  lemma {:induction false} RunKeepsTidy(p: Page, ls: seq<Label>)
    requires Tidy(p)
    ensures Tidy(Run(p, ls))
    decreases |ls|
  {
    if ls != [] {
      StepKeepsTidy(p, ls[0]);
      RunKeepsTidy(Step(p, ls[0]), ls[1..]);
    }
  }

  /** A socket the page has let go of. */
  predicate Retired(p: Page, socket: nat) {
    socket < p.nextSocket && p.ws != Some(socket)
  }

  lemma {:induction false} StaysRetired(p: Page, ls: seq<Label>, socket: nat)
    requires Retired(p, socket)
    ensures Retired(Run(p, ls), socket)
    decreases |ls|
  {
    if ls != [] {
      StaysRetired(Step(p, ls[0]), ls[1..], socket);
    }
  }

  /** Whatever happens after the page disconnected or replaced a socket on purpose, that socket's
      close changes nothing: no reconnect, no logout, no attempt counted. */
  lemma CloseOfRetiredSocketDoesNothing(before: seq<Label>, replace: Label, after: seq<Label>, socket: nat, code: int, jitter: real)
    requires Run(START, before).ws == Some(socket)
    requires replace.Switch? || replace.NoBoards? || replace.LeaveBoard? || replace.Logout?
             || (replace.Connect? && Run(START, before).board.Some? && Run(START, before).token)
    ensures var p := Run(Step(Run(START, before), replace), after);
            Step(p, ClosedBy(socket, code, jitter)) == p
  {
    RunKeepsTidy(START, before);
    StaysRetired(Step(Run(START, before), replace), after, socket);
  }

  /** A dropped current socket always leads to exactly one pending reconnect and leaves login and
      board alone; 4401 logs out and 4403 gives up, neither with a reconnect. */
  lemma DropSchedulesOneReconnect(before: seq<Label>, socket: nat, code: int, jitter: real)
    requires Run(START, before).ws == Some(socket) && 0.0 <= jitter < 1.0
    ensures var p, q := Run(START, before), Step(Run(START, before), ClosedBy(socket, code, jitter));
            && q.ws == None && q.reloads == p.reloads
            && (if code == 4401 then q.token == false && q.board == None && q.timers == {} && q.attempts == 0 && q.waits == p.waits
                else if code == 4403 then q == p.(ws := None) && q.timers == {}
                else
                  && q.token == p.token && q.board == p.board && q.attempts == p.attempts + 1
                  && q.timer.Some? && q.timers == {q.timer.value} && |q.waits| == |p.waits| + 1)
  {
    RunKeepsTidy(START, before);
  }

  /** In every run each wait lay between half of min(30 s, 1 s * 2^attempts) and all of it, and
      a page never has a socket together with a pending reconnect. */
  lemma WaitsAreBackedOff(ls: seq<Label>)
    ensures var p := Run(START, ls);
            && (forall i :: 0 <= i < |p.waits| ==> IsJitteredBackoff(p.waits[i].1, p.waits[i].0))
            && (p.ws.Some? ==> p.timers == {})
            && (forall s, t :: s in p.timers && t in p.timers ==> s == t)
  {
    RunKeepsTidy(START, ls);
    forall i | 0 <= i < |Run(START, ls).waits|
      ensures Bounded(Run(START, ls).waits[i])
    {
    }
  }

  /** In milliseconds. */
  predicate IsJitteredBackoff(wait: real, attempts: nat) {
    var doubled := 1000.0 * Backoff.Pow2(attempts);
    var full := if doubled <= 30000.0 then doubled else 30000.0;
    full / 2.0 <= wait <= full
  }

  /** A socket exists only while logged in and on a board. */
  predicate Entitled(p: Page) {
    p.ws.Some? ==> p.token && p.board.Some?
  }

  lemma {:induction false} SocketNeedsLoginAndBoard(p: Page, ls: seq<Label>)
    requires Entitled(p)
    ensures Entitled(Run(p, ls))
    decreases |ls|
  {
    if ls != [] {
      assert Entitled(Step(p, ls[0]));
      SocketNeedsLoginAndBoard(Step(p, ls[0]), ls[1..]);
    }
  }

  // ---- When the page refetches ----

  /** Whether a drop is still to be made up for after a step. */
  predicate OwesRefetch(p: Page, l: Label, owed: bool) {
    match l
    case ClosedBy(socket, code, jitter) =>
      if p.ws != Some(socket) || socket >= p.nextSocket || !(0.0 <= jitter < 1.0) || code == 4403 then owed
      else code != 4401
    case Opened(socket) => owed && socket >= p.nextSocket
    case Connect => owed
    case Fire(_) => owed
    case Login => owed
    case _ => false
  }

  /** A current socket was dropped, and since then no socket opened and the page did not disconnect
      on purpose. */
  predicate DroppedSince(p: Page, ls: seq<Label>, owed: bool)
    decreases |ls|
  {
    if ls == [] then owed else DroppedSince(Step(p, ls[0]), ls[1..], OwesRefetch(p, ls[0], owed))
  }

  lemma {:induction false} AttemptsRememberDrops(p: Page, ls: seq<Label>, owed: bool)
    requires p.attempts > 0 <==> owed
    ensures Run(p, ls).attempts > 0 <==> DroppedSince(p, ls, owed)
    decreases |ls|
  {
    if ls != [] {
      AttemptsRememberDrops(Step(p, ls[0]), ls[1..], OwesRefetch(p, ls[0], owed));
    }
  }

  /** In every run, a socket that opens makes the page refetch the board exactly if a drop has not
      been made up for: events published in between are lost. Nothing else in this machine does. */
  lemma OpenRefetchesAfterDrop(ls: seq<Label>, l: Label)
    ensures var p := Run(START, ls);
            Step(p, l).reloads ==
              if l.Opened? && l.socket < p.nextSocket && DroppedSince(START, ls, false) then p.reloads + 1 else p.reloads
  {
    AttemptsRememberDrops(START, ls, false);
  }

  // ---- app.js, with its module variables ----

  class Client {
    var currentBoardId: Option<int>
    var currentToken: bool
    var ws: Option<nat>
    var reconnectAttempts: nat
    var reconnectTimer: Option<nat>
    /** The browser's timeouts and the history. */
    var timers: set<nat>
    var nextSocket: nat
    var nextTimer: nat
    var reloads: nat
    var waits: seq<(nat, real)>

    constructor ()
      ensures View() == START
    {
      currentBoardId, currentToken, ws, reconnectAttempts, reconnectTimer := None, false, None, 0, None;
      timers, nextSocket, nextTimer, reloads, waits := {}, 0, 0, 0, [];
    }

    function View(): Page
      reads this
    {
      Page(currentBoardId, currentToken, ws, reconnectAttempts, reconnectTimer, timers, nextSocket, nextTimer, reloads, waits)
    }

    method ClearTimeout()
      modifies this`timers
      ensures View() == ClearTimer(old(View()))
    {
      if reconnectTimer.Some? {
        timers := timers - {reconnectTimer.value};
      }
    }

    method ConnectSocket()
      modifies this
      ensures View() == Step(old(View()), Connect)
    {
      ClearTimeout();
      if currentBoardId.None? || !currentToken {
        return;
      }
      ws := Some(nextSocket);
      nextSocket := nextSocket + 1;
    }

    method DisconnectSocket()
      modifies this
      ensures View() == DisconnectWebSocket(old(View()))
    {
      ClearTimeout();
      reconnectAttempts := 0;
      if ws.Some? {
        ws := None;
      }
    }

    method LogOut()
      modifies this
      ensures View() == Step(old(View()), Logout)
    {
      currentToken := false;
      currentBoardId := None;
      DisconnectSocket();
    }

    method SwitchBoard(board: int)
      modifies this
      ensures View() == Step(old(View()), Switch(board))
    {
      currentBoardId := Some(board);
      DisconnectSocket();
    }

    method ShowNoBoards()
      modifies this
      ensures View() == Step(old(View()), NoBoards)
    {
      currentBoardId := None;
      DisconnectSocket();
    }

    /** The page stops reconnecting before it asks to be removed from the board. */
    method StopForLeaving()
      modifies this
      ensures View() == Step(old(View()), LeaveBoard)
    {
      DisconnectSocket();
    }

    method OnOpen(socket: nat)
      requires socket < nextSocket
      modifies this
      ensures View() == Step(old(View()), Opened(socket))
    {
      if reconnectAttempts > 0 {
        reloads := reloads + 1;
      }
      reconnectAttempts := 0;
    }

    method ScheduleNext(jitter: real)
      modifies this
      ensures View() == ScheduleReconnect(old(View()), jitter)
    {
      waits := waits + [(reconnectAttempts, Jittered(BackoffAfter(reconnectAttempts), jitter))];
      reconnectAttempts := reconnectAttempts + 1;
      reconnectTimer := Some(nextTimer);
      timers := timers + {nextTimer};
      nextTimer := nextTimer + 1;
    }

    method OnCloseEvent(socket: nat, code: int, jitter: real)
      requires socket < nextSocket && 0.0 <= jitter < 1.0
      modifies this
      ensures View() == Step(old(View()), ClosedBy(socket, code, jitter))
    {
      if ws != Some(socket) {
        return;
      }
      ws := None;
      if code == CLOSE_UNAUTHENTICATED {
        LogOut();
      } else if code != CLOSE_NOT_A_MEMBER {
        ScheduleNext(jitter);
      }
    }
  }
}
