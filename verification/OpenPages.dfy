/** What an open page shows once everything is at rest, whenever its views were read: exactly what
    it is missing can be said from the moment its listener covers the board. */
module OpenPages {
  import opened Models
  import opened Hub
  import opened HubLifecycle
  import opened HubDelivery
  import opened HubRecovery
  import opened Convergence

  // ---- No transition depends on `primed` and `lost` ----

  predicate SameView(x: ViewState, y: ViewState) {
    x.shown == y.shown && x.queue == y.queue && x.failed == y.failed
  }

  predicate SamePage(x: Client, y: Client) {
    x.handled == y.handled && SameView(x.tasks, y.tasks) && SameView(x.lists, y.lists)
  }

  /** `t` is `s` but for the history of answers and lost publishes. */
  ghost predicate Alike(s: System, t: System, extra: set<nat>) {
    && t.commits == s.commits && t.pending == s.pending && t.hubs == s.hubs && t.lost == s.lost + extra
    && t.clients.Keys == s.clients.Keys
    && forall q :: q in s.clients ==> SamePage(s.clients[q], t.clients[q])
  }

  lemma SameMoves(s: System, t: System, m: Move, extra: set<nat>)
    requires Alike(s, t, extra)
    ensures CanMove(t, m) == CanMove(s, m)
  {
    assert forall q :: q in s.clients <==> q in t.clients;
    if m.Handle? || m.Ask? || m.Serve? || m.Apply? || m.FetchFails? {
      if (m.i, m.c) in s.clients { assert SamePage(s.clients[(m.i, m.c)], t.clients[(m.i, m.c)]); }
    }
  }

  lemma SameAnswer(s: System, t: System, i: int, c: Conn, x: ViewState, y: ViewState, k: nat)
    requires t.hubs == s.hubs && t.commits == s.commits && SameView(x, y) && k < |x.queue|
    ensures SameView(Answer(s, i, c, x, k), Answer(t, i, c, y, k))
  {
  }

  /** What a page's own move makes of the page. */
  function PageAfter(s: System, m: Move): Client
    requires (m.Handle? || m.Ask? || m.Serve? || m.Apply? || m.FetchFails?) && CanMove(s, m)
  {
    Next(s, m).clients[(m.i, m.c)]
  }

  lemma SamePageMoves(s: System, t: System, m: Move, extra: set<nat>)
    requires Alike(s, t, extra) && CanMove(s, m) && CanMove(t, m)
    requires m.Handle? || m.Ask? || m.Serve? || m.Apply? || m.FetchFails?
    ensures SamePage(PageAfter(s, m), PageAfter(t, m))
  {
    var x, y := s.clients[(m.i, m.c)], t.clients[(m.i, m.c)];
    assert SamePage(x, y);
    if m.Serve? { SameAnswer(s, t, m.i, m.c, Get(x, m.v), Get(y, m.v), m.k); }
  }

  lemma NextAlike(s: System, t: System, m: Move, extra: set<nat>)
    requires Alike(s, t, extra)
    ensures Alike(Next(s, m), Next(t, m), extra)
  {
    SameMoves(s, t, m, extra);
    if CanMove(s, m) {
      if m.Handle? || m.Ask? || m.Serve? || m.Apply? || m.FetchFails? {
        SamePageMoves(s, t, m, extra);
        PageMoveAlike(s, t, m, extra);
      } else {
        OtherMoveAlike(s, t, m, extra);
      }
    }
  }

  lemma PageMoveAlike(s: System, t: System, m: Move, extra: set<nat>)
    requires Alike(s, t, extra) && CanMove(s, m) && CanMove(t, m)
    requires m.Handle? || m.Ask? || m.Serve? || m.Apply? || m.FetchFails?
    requires SamePage(PageAfter(s, m), PageAfter(t, m))
    ensures Alike(Next(s, m), Next(t, m), extra)
  {
    var q := (m.i, m.c);
    assert Next(s, m) == s.(clients := s.clients[q := PageAfter(s, m)]);
    assert Next(t, m) == t.(clients := t.clients[q := PageAfter(t, m)]);
  }

  lemma OtherMoveAlike(s: System, t: System, m: Move, extra: set<nat>)
    requires Alike(s, t, extra) && CanMove(s, m) && CanMove(t, m)
    requires m.Commit? || m.PublishOk? || m.PublishFails? || m.Open? || m.Local?
    ensures Alike(Next(s, m), Next(t, m), extra)
  {
    if m.PublishFails? {
      assert s.lost + {m.commit} + extra == s.lost + extra + {m.commit};
    }
  }

  lemma {:induction false} RunAlike(s: System, t: System, ms: seq<Move>, extra: set<nat>)
    requires Alike(s, t, extra)
    ensures Alike(RunAll(s, ms), RunAll(t, ms), extra)
    decreases |ms|
  {
    if ms != [] {
      NextAlike(s, t, ms[0], extra);
      RunAlike(Next(s, ms[0]), Next(t, ms[0]), ms[1..], extra);
    }
  }

  // ---- A view counted as read under its listener ----

  /** While the board's listener is `l`, that is the listener the view was read under. */
  predicate Marked(t: System, i: int, c: Conn, v: View, l: nat) {
    && (i, c) in t.clients && l < |HubAt(t, i).listeners|
    && (HubAt(t, i).task == Some(l) ==> Get(t.clients[(i, c)], v).primed == Some(l))
  }

  /** A listener that the board has turned away from does not come back. */
  lemma TaskNeverReturns(b: Board, step: Label, l: nat)
    requires Lifecycle(b) && l < |b.listeners|
    ensures l < |Step(b, step).listeners| && (Step(b, step).task == Some(l) ==> b.task == Some(l))
  {
    TaskStaysOrIsNew(b, step);
    ListenersAfter(b, step);
  }

  lemma HubMoves(t: System, m: Move, i: int, l: nat)
    requires Good(t) && l < |HubAt(t, i).listeners|
    ensures l < |HubAt(Next(t, m), i).listeners|
    ensures HubAt(Next(t, m), i).task == Some(l) ==> HubAt(t, i).task == Some(l)
  {
    if CanMove(t, m) {
      match m {
        case PublishOk(j) => TaskNeverReturns(HubAt(t, i), Publish(Event(t.commits[j], j)), l);
        case Open(k, user, _, _) => if k == i { TaskNeverReturns(HubAt(t, i), Join(user), l); }
        case Local(k, step) => if k == i { TaskNeverReturns(HubAt(t, i), step, l); }
        case _ =>
      }
    }
  }

  /** A page's history of answers changes only by an answer under the current listener. */
  predicate PrimedMove(t: System, t': System, i: int, x: ViewState, x': ViewState) {
    x'.primed == x.primed || (x'.primed == HubAt(t, i).task && HubAt(t', i) == HubAt(t, i))
  }

  lemma OpenLeavesPages(t: System, m: Move, i: int, c: Conn)
    requires Good(t) && m.Open? && CanMove(t, m) && (i, c) in t.clients
    ensures (i, c) in Next(t, m).clients && Next(t, m).clients[(i, c)] == t.clients[(i, c)]
  {
    if m.i == i {
      assert ClientSound(t, i, c);
      EmptyIsGood();
      assert ConnSound(HubAt(t, i), c);
    }
  }

  lemma ServePrimes(t: System, m: Move, v: View)
    requires m.Serve? && CanMove(t, m)
    ensures PrimedMove(t, Next(t, m), m.i, Get(t.clients[(m.i, m.c)], v), Get(PageAfter(t, m), v))
  {
    var x := Get(t.clients[(m.i, m.c)], v);
    assert Next(t, m).hubs == t.hubs;
    assert Get(PageAfter(t, m), v) == if v == m.v then Answer(t, m.i, m.c, x, m.k) else x;
  }

  lemma OtherPageMovesKeepPrimed(t: System, m: Move, v: View)
    requires (m.Handle? || m.Ask? || m.Apply? || m.FetchFails?) && CanMove(t, m)
    ensures Get(PageAfter(t, m), v).primed == Get(t.clients[(m.i, m.c)], v).primed
  {
  }

  lemma PrimedMoves(t: System, m: Move, i: int, c: Conn, v: View)
    requires Good(t) && (i, c) in t.clients
    ensures (i, c) in Next(t, m).clients
    ensures PrimedMove(t, Next(t, m), i, Get(t.clients[(i, c)], v), Get(Next(t, m).clients[(i, c)], v))
  {
    if CanMove(t, m) {
      if m.Open? {
        OpenLeavesPages(t, m, i, c);
      } else if m.Serve? {
        if (m.i, m.c) == (i, c) { ServePrimes(t, m, v); }
      } else if m.Handle? || m.Ask? || m.Apply? || m.FetchFails? {
        if (m.i, m.c) == (i, c) { OtherPageMovesKeepPrimed(t, m, v); }
      }
    }
  }

  lemma NextMarked(t: System, m: Move, i: int, c: Conn, v: View, l: nat)
    requires Good(t) && Marked(t, i, c, v, l)
    ensures Marked(Next(t, m), i, c, v, l)
  {
    HubMoves(t, m, i, l);
    PrimedMoves(t, m, i, c, v);
  }

  lemma {:induction false} RunMarked(t: System, ms: seq<Move>, i: int, c: Conn, v: View, l: nat)
    requires Good(t) && Marked(t, i, c, v, l)
    ensures Marked(RunAll(t, ms), i, c, v, l)
    decreases |ms|
  {
    if ms != [] {
      NextKeepsGood(t, ms[0]);
      NextMarked(t, ms[0], i, c, v, l);
      RunMarked(Next(t, ms[0]), ms[1..], i, c, v, l);
    }
  }

  /** The commits that were published, or never will be, by the time of `s`. */
  function Past(s: System): set<nat> {
    set j: nat | j < |s.commits| && j !in s.pending
  }

  /** `s` with the view counted as read under `l`, and everything published so far as lost. */
  function Mark(s: System, i: int, c: Conn, v: View, l: nat): System
    requires (i, c) in s.clients
  {
    var client := s.clients[(i, c)];
    PutClient(s, i, c, Convergence.Set(client, v, Get(client, v).(primed := Some(l)))).(lost := s.lost + Past(s))
  }

  lemma MarkedIsGood(s: System, i: int, c: Conn, v: View, l: nat)
    requires Good(s) && (i, c) in s.clients && ServedBy(HubAt(s, i), c, l)
    ensures var t := Mark(s, i, c, v, l);
            Good(t) && NothingForgotten(t) && Marked(t, i, c, v, l) && Alike(s, t, Past(s))
  {
    var t := Mark(s, i, c, v, l);
    assert ClientSound(s, i, c);
    forall k, d | (k, d) in t.clients
      ensures ClientSound(t, k, d)
    {
      assert ClientSound(s, k, d);
    }
    forall k, d, w: View, j: nat | Tracked(t, k, d, w) && j < |t.commits| && Affects(t.commits[j], w)
      ensures Covered(t, k, d, w, j)
    {
      assert j in t.pending || j in t.lost;
    }
    assert forall q :: q in t.clients <==> q in s.clients;
  }

  // ---- What is on its way, and what is shown at rest ----

  /** The page is served by listener `l`, no send to it has failed, and neither has the view's newest
      request. */
  predicate Attended(s: System, i: int, c: Conn, v: View, l: nat) {
    (i, c) in s.clients && ServedBy(HubAt(s, i), c, l) && Healthy(HubAt(s, i), c) && !Get(s.clients[(i, c)], v).failed
  }

  /** A page that a listener covers in some reachable state, whatever its views were read under, and
      still covers later. A commit its view will not show is still to be published, was never
      published, is on its way, or was published before the listener covered the page. */
  lemma UnseenIsOnItsWayOrPast(before: seq<Move>, after: seq<Move>, i: int, c: Conn, v: View, l: nat, j: nat)
    requires var s0 := RunAll(START, before); (i, c) in s0.clients && ServedBy(HubAt(s0, i), c, l)
    requires var s := RunAll(RunAll(START, before), after);
             && Attended(s, i, c, v, l)
             && j < |s.commits| && Affects(s.commits[j], v) && !Settled(Get(s.clients[(i, c)], v), j)
    ensures var s := RunAll(RunAll(START, before), after);
            var b := HubAt(s, i);
            || j in s.pending
            || j in s.lost
            || j in Past(RunAll(START, before))
            || (c in b.received && InSocket(b.received[c], s.clients[(i, c)].handled, v, j))
            || OnInstance(b.listeners[l], c, v, j)
  {
    RunForgetsNothing(START, before);
    var s0 := RunAll(START, before);
    var t0 := Mark(s0, i, c, v, l);
    MarkedRun(s0, after, i, c, v, l);
    MarkedCovers(RunAll(s0, after), RunAll(t0, after), Past(s0), i, c, v, l, j);
  }

  lemma MarkedRun(s0: System, after: seq<Move>, i: int, c: Conn, v: View, l: nat)
    requires Good(s0) && (i, c) in s0.clients && ServedBy(HubAt(s0, i), c, l)
    ensures var s, t := RunAll(s0, after), RunAll(Mark(s0, i, c, v, l), after);
            NothingForgotten(t) && Marked(t, i, c, v, l) && Alike(s, t, Past(s0))
  {
    var t0 := Mark(s0, i, c, v, l);
    MarkedIsGood(s0, i, c, v, l);
    RunForgetsNothing(t0, after);
    RunMarked(t0, after, i, c, v, l);
    RunAlike(s0, t0, after, Past(s0));
  }

  lemma MarkedCovers(s: System, t: System, past: set<nat>, i: int, c: Conn, v: View, l: nat, j: nat)
    requires Alike(s, t, past) && NothingForgotten(t) && Marked(t, i, c, v, l) && Attended(s, i, c, v, l)
    requires j < |s.commits| && Affects(s.commits[j], v) && !Settled(Get(s.clients[(i, c)], v), j)
    ensures var b := HubAt(s, i);
            || j in s.pending
            || j in s.lost
            || j in past
            || (c in b.received && InSocket(b.received[c], s.clients[(i, c)].handled, v, j))
            || OnInstance(b.listeners[l], c, v, j)
  {
    assert SamePage(s.clients[(i, c)], t.clients[(i, c)]);
    assert Tracked(t, i, c, v);
    assert Covered(t, i, c, v, j);
  }

  /** Nothing is under way for the page: no publish, no buffered message, no send, no gap, no
      unhandled message and no request. */
  predicate AtRest(s: System, i: int, c: Conn, v: View, l: nat) {
    && s.pending == {} && Attended(s, i, c, v, l)
    && Get(s.clients[(i, c)], v).queue == []
    && var b := HubAt(s, i);
       && b.listeners[l].phase.Listening? && b.listeners[l].online && b.listeners[l].buffer == []
       && c in b.received && s.clients[(i, c)].handled == |b.received[c]|
  }

  lemma {:induction false} ChangesGrow(commits: seq<Kind>, v: View, low: nat, high: nat)
    requires low <= high <= |commits|
    ensures |Changes(commits, v, low)| <= |Changes(commits, v, high)|
    ensures (exists j :: low <= j < high && Affects(commits[j], v)) ==> |Changes(commits, v, low)| < |Changes(commits, v, high)|
  {
    if low < high {
      ChangesGrow(commits, v, low, high - 1);
    }
  }

  /** An affecting commit that the page does not show, and that nothing carried to it: it was lost at
      publishing, or published before the page's listener covered it. */
  predicate Missed(s0: System, s: System, v: View, shown: nat, j: nat) {
    shown <= j < |s.commits| && Affects(s.commits[j], v) && (j in s.lost || j in Past(s0))
  }

  /** At rest a page shows exactly what the database holds, if and only if it missed nothing: no
      affecting commit that it does not show was lost at publishing, or was published before the
      listener covered the page. This holds from whatever state on, and for views read before
      the page's socket was registered as well. */
  lemma AtRestExactly(before: seq<Move>, after: seq<Move>, i: int, c: Conn, v: View, l: nat)
    requires var s0 := RunAll(START, before); (i, c) in s0.clients && ServedBy(HubAt(s0, i), c, l)
    requires AtRest(RunAll(RunAll(START, before), after), i, c, v, l)
    ensures var s0 := RunAll(START, before);
            var s := RunAll(s0, after);
            var shown := Get(s.clients[(i, c)], v).shown;
            && shown <= |s.commits|
            && (Changes(s.commits, v, shown) == Changes(s.commits, v, |s.commits|) <==>
                  forall j: nat :: !Missed(s0, s, v, shown, j))
  {
    RunStaysInTime(START, before);
    RunStaysInTime(RunAll(START, before), after);
    var s0 := RunAll(START, before);
    var s := RunAll(s0, after);
    var shown := Get(s.clients[(i, c)], v).shown;
    assert (i, c) in s.clients;
    ChangesGrow(s.commits, v, shown, |s.commits|);
    if forall j: nat :: !Missed(s0, s, v, shown, j) {
      forall j: nat | shown <= j < |s.commits|
        ensures !Affects(s.commits[j], v)
      {
        if Affects(s.commits[j], v) {
          UnseenIsOnItsWayOrPast(before, after, i, c, v, l, j);
          assert Missed(s0, s, v, shown, j);
        }
      }
      SameChanges(s.commits, v, shown, |s.commits|);
    } else {
      var j: nat :| Missed(s0, s, v, shown, j);
      assert Affects(s.commits[j], v);
    }
  }

  /** With no publish lost since, only what was published before the listener covered the page can be
      missing. */
  lemma OnlyThePastCanBeMissing(before: seq<Move>, after: seq<Move>, i: int, c: Conn, v: View, l: nat)
    requires var s0 := RunAll(START, before); (i, c) in s0.clients && ServedBy(HubAt(s0, i), c, l)
    requires var s := RunAll(RunAll(START, before), after); AtRest(s, i, c, v, l) && LostNothing(s, v)
    ensures var s0 := RunAll(START, before);
            var s := RunAll(s0, after);
            var shown := Get(s.clients[(i, c)], v).shown;
            && shown <= |s.commits|
            && (Changes(s.commits, v, shown) == Changes(s.commits, v, |s.commits|) <==>
                  forall j: nat :: shown <= j < |s.commits| && j in Past(s0) ==> !Affects(s.commits[j], v))
  {
    AtRestExactly(before, after, i, c, v, l);
    var s0 := RunAll(START, before);
    var s := RunAll(s0, after);
    var shown := Get(s.clients[(i, c)], v).shown;
    forall j: nat
      ensures Missed(s0, s, v, shown, j) <==> shown <= j < |s.commits| && j in Past(s0) && Affects(s.commits[j], v)
    {
    }
  }
}
