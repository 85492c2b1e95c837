/** Interleaved requests of others on other boards do not change what a request of `u` is answered:
    it gets the status it would get alone. */
module Isolation {
  import opened Models
  import opened Boards
  import opened Unwinding
  import RoleChecks

  // ---- What others may do elsewhere ----

  /** The request's committing statement is about no board of `u`, and makes `u` no member. */
  ghost predicate Elsewhere(db: Db, f: Flight, u: int)
    requires f.Running?
  {
    match f.request
    case CreateBoard => f.caller != u
    case AddMember(board, _, _) => !Mine(db, u, board) && f.facts.user != u
    case ChangeRole(board, _, _) => !Mine(db, u, board)
    case RemoveMember(board, _) => !Mine(db, u, board)
    case CreateList(board) => !Mine(db, u, board)
    case DeleteList(list) => !SeesList(db, u, list)
    case CreateTask(content) => !SeesList(db, u, content.list)
    case UpdateTask(task, _, _) => !SeesTask(db, u, task)
    case DeleteTask(task) => !SeesTask(db, u, task)
  }

  /** Member rows that differ are on no board of `u`, and those of `u` do not differ. */
  ghost predicate MembersElsewhere(db: Db, d: Db, u: int) {
    forall m :: Touches(db, d, m) ==>
      && (m in db.members ==> !Mine(db, u, db.members[m].board) && db.members[m].user != u)
      && (m in d.members ==> !Mine(db, u, d.members[m].board) && d.members[m].user != u)
  }

  ghost predicate ListsElsewhere(db: Db, d: Db, u: int) {
    forall l :: (l in db.lists && l in d.lists && d.lists[l] == db.lists[l]) || (!SeesList(db, u, l) && !SeesList(d, u, l))
  }

  ghost predicate TasksElsewhere(db: Db, d: Db, u: int) {
    forall t :: (t in db.tasks && t in d.tasks && d.tasks[t] == db.tasks[t]) || (!SeesTask(db, u, t) && !SeesTask(d, u, t))
  }

  lemma BoardsStayMine(db: Db, d: Db, u: int, b: int)
    requires MembersElsewhere(db, d, u)
    ensures Mine(d, u, b) <==> Mine(db, u, b)
  {
    forall id
      ensures IsMembership(d, id, b, u) <==> IsMembership(db, id, b, u)
    {
      assert Touches(db, d, id) || !Touches(db, d, id);
    }
  }

  lemma ElsewhereKeepsSight(db: Db, d: Db, u: int)
    requires d.users == db.users && MembersElsewhere(db, d, u) && ListsElsewhere(db, d, u) && TasksElsewhere(db, d, u)
    ensures SameSight(db, d, u)
  {
    forall b
      ensures Mine(d, u, b) <==> Mine(db, u, b)
    {
      BoardsStayMine(db, d, u, b);
    }
    forall m
      ensures SeesMember(db, u, m) || SeesMember(d, u, m) ==>
                SeesMember(db, u, m) && SeesMember(d, u, m) && db.members[m] == d.members[m]
    {
      assert Touches(db, d, m) || !Touches(db, d, m);
    }
    forall l
      ensures SeesList(db, u, l) <==> SeesList(d, u, l)
    {
    }
    TasksStayMine(db, d, u);
  }

  lemma TasksStayMine(db: Db, d: Db, u: int)
    requires TasksElsewhere(db, d, u)
    requires forall l :: SeesList(db, u, l) <==> SeesList(d, u, l)
    ensures SameTasks(db, d, u)
  {
    forall t
      ensures SeesTask(db, u, t) || SeesTask(d, u, t) ==>
                SeesTask(db, u, t) && SeesTask(d, u, t) && db.tasks[t] == d.tasks[t]
    {
    }
  }

  /** Unchanged tables are as good as tables changed elsewhere. */
  lemma NoMembersTouched(db: Db, d: Db, u: int)
    requires d.members == db.members
    ensures MembersElsewhere(db, d, u)
    ensures forall b :: Mine(d, u, b) <==> Mine(db, u, b)
  {
    forall b
      ensures Mine(d, u, b) <==> Mine(db, u, b)
    {
      BoardsStayMine(db, d, u, b);
    }
  }

  lemma NoListsTouched(db: Db, d: Db, u: int)
    requires d.lists == db.lists && MembersElsewhere(db, d, u)
    ensures ListsElsewhere(db, d, u)
  {
    forall l
      ensures SeesList(d, u, l) <==> SeesList(db, u, l)
    {
      if l in db.lists { BoardsStayMine(db, d, u, db.lists[l]); }
    }
  }

  lemma NoTasksTouched(db: Db, d: Db, u: int)
    requires d.tasks == db.tasks && forall t :: t in db.tasks ==> db.tasks[t].content.list in db.lists
    requires ListsElsewhere(db, d, u)
    ensures TasksElsewhere(db, d, u)
  {
    forall t
      ensures (t in db.tasks && t in d.tasks && d.tasks[t] == db.tasks[t]) || (!SeesTask(db, u, t) && !SeesTask(d, u, t))
    {
    }
  }

  lemma MemberCommitElsewhere(db: Db, f: Flight, u: int)
    requires Sound(db) && f.Running? && Relied(db, f) && f.stage >= Checks(f.request) && Elsewhere(db, f, u)
    requires f.request.AddMember? || f.request.ChangeRole? || f.request.RemoveMember?
    ensures SameSight(db, Commit(db, f).0, u)
  {
    var d := Commit(db, f).0;
    forall m | Touches(db, d, m)
      ensures m in db.members ==> !Mine(db, u, db.members[m].board) && db.members[m].user != u
      ensures m in d.members ==> !Mine(db, u, d.members[m].board) && d.members[m].user != u
    {
      TouchedRowIsOfBoard(db, f, m);
      assert forall b :: IsMembership(db, m, b, u) ==> Mine(db, u, b);
    }
    NoListsTouched(db, d, u);
    NoTasksTouched(db, d, u);
    ElsewhereKeepsSight(db, d, u);
  }

  lemma TouchedRowIsOfBoard(db: Db, f: Flight, m: int)
    requires Sound(db) && f.Running? && Relied(db, f) && f.stage >= Checks(f.request)
    requires f.request.AddMember? || f.request.ChangeRole? || f.request.RemoveMember?
    requires Touches(db, Commit(db, f).0, m)
    ensures var d := Commit(db, f).0;
            && (m in db.members ==> db.members[m].board == f.request.board)
            && (m in d.members ==> d.members[m].board == f.request.board)
            && (m in db.members && m in d.members ==> d.members[m].user == db.members[m].user)
            && (m !in db.members && m in d.members ==> f.request.AddMember? && d.members[m].user == f.facts.user)
  {
  }

  lemma CreateBoardElsewhere(db: Db, f: Flight, u: int)
    requires Sound(db) && f.Running? && f.caller in db.users && f.request.CreateBoard? && Elsewhere(db, f, u)
    ensures SameSight(db, Commit(db, f).0, u)
  {
    var d1 := InsertOwnedBoard(db, f.caller);
    assert !Mine(db, u, db.nextBoard);
    assert forall m :: Touches(db, d1, m) ==> m == db.nextMember;
    NoListsTouched(db, d1, u);
    NoTasksTouched(db, d1, u);
    ElsewhereKeepsSight(db, d1, u);
    InsertOwnedBoardKeeps(db, f.caller);
    assert !Mine(d1, u, db.nextBoard) by { BoardsStayMine(db, d1, u, db.nextBoard); }
    InsertListsElsewhere(d1, u, db.nextBoard, |DEFAULT_LISTS|);
    SightTransitive(db, d1, InsertBoard(db, f.caller), u);
  }

  lemma InsertListElsewhere(db: Db, u: int, board: int)
    requires Integrity(db) && !Mine(db, u, board)
    ensures SameSight(db, InsertList(db, board), u)
  {
    var d := InsertList(db, board);
    NoMembersTouched(db, d, u);
    NoTasksTouched(db, d, u);
    ElsewhereKeepsSight(db, d, u);
  }

  lemma {:induction false} InsertListsElsewhere(db: Db, u: int, board: int, count: nat)
    requires Integrity(db) && board in db.boards && !Mine(db, u, board)
    ensures SameSight(db, InsertLists(db, board, count), u)
  {
    if count > 0 {
      var d := InsertLists(db, board, count - 1);
      InsertListsElsewhere(db, u, board, count - 1);
      InsertListsIntegrity(db, board, count - 1);
      assert !Mine(d, u, board);
      InsertListElsewhere(d, u, board);
      SightTransitive(db, d, InsertList(d, board), u);
    }
  }

  lemma SightTransitive(a: Db, b: Db, c: Db, u: int)
    requires SameSight(a, b, u) && SameSight(b, c, u)
    ensures SameSight(a, c, u)
  {
  }

  lemma SightReflexive(db: Db, u: int)
    ensures SameSight(db, db, u)
  {
  }

  lemma DeleteListElsewhere(db: Db, u: int, list: int)
    requires Integrity(db) && !SeesList(db, u, list)
    ensures SameSight(db, DropList(db, list), u)
  {
    var d := DropList(db, list);
    NoMembersTouched(db, d, u);
    forall t
      ensures (t in db.tasks && t in d.tasks && d.tasks[t] == db.tasks[t]) || (!SeesTask(db, u, t) && !SeesTask(d, u, t))
    {
    }
    ElsewhereKeepsSight(db, d, u);
  }

  lemma TaskCommitElsewhere(db: Db, f: Flight, u: int)
    requires Sound(db) && f.Running? && Relied(db, f) && f.stage >= Checks(f.request) && Elsewhere(db, f, u)
    requires f.request.CreateTask? || f.request.UpdateTask? || f.request.DeleteTask?
    ensures SameSight(db, Commit(db, f).0, u)
  {
    var d := Commit(db, f).0;
    NoMembersTouched(db, d, u);
    NoListsTouched(db, d, u);
    if f.request.UpdateTask? && f.request.task in db.tasks && Accepts(f.request.patch, db.tasks[f.request.task], db.lists.Keys) {
      MovedTaskStays(db, f);
      assert db.tasks[f.request.task].content.list in db.lists;
    }
    ElsewhereKeepsSight(db, d, u);
  }

  lemma CommitElsewhere(db: Db, f: Flight, u: int)
    requires Sound(db) && f.Running? && Relied(db, f) && f.stage >= Checks(f.request) && Elsewhere(db, f, u)
    ensures SameSight(db, Commit(db, f).0, u)
  {
    SightReflexive(db, u);
    match f.request {
      case CreateBoard => CreateBoardElsewhere(db, f, u);
      case CreateList(board) => if board in db.boards { InsertListElsewhere(db, u, board); }
      case DeleteList(list) => DeleteListElsewhere(db, u, list);
      case CreateTask(_) => TaskCommitElsewhere(db, f, u);
      case UpdateTask(_, _, _) => TaskCommitElsewhere(db, f, u);
      case DeleteTask(_) => TaskCommitElsewhere(db, f, u);
      case _ => MemberCommitElsewhere(db, f, u);
    }
  }

  // ---- A request among others ----

  /** A step of another request that commits nothing, or commits elsewhere. */
  ghost predicate Foreign(s: System, l: Label, r: int, u: int) {
    match l
    case SignUp(_, _) => false
    case Begin(_, _, _) => true
    case Resume(q) =>
      && q != r
      && (q in s.flights && s.flights[q].Running? && s.flights[q].stage >= Checks(s.flights[q].request) ==>
            Elsewhere(s.db, s.flights[q], u))
  }

  /** Each step of the schedule is one of request `r`, or foreign to it when it is taken. */
  ghost predicate Foreigners(s: System, ls: seq<Label>, r: int, u: int)
    decreases |ls|
  {
    ls == [] || ((ls[0] == Resume(r) || Foreign(s, ls[0], r, u)) && Foreigners(Step(s, ls[0]), ls[1..], r, u))
  }

  lemma ForeignStep(s: System, l: Label, r: int, u: int)
    requires Good(s) && r in s.flights && Foreign(s, l, r, u)
    ensures SameSight(s.db, Step(s, l).db, u)
    ensures r in Step(s, l).flights && Step(s, l).flights[r] == s.flights[r]
  {
    SightReflexive(s.db, u);
    if l.Resume? && l.r in s.flights && s.flights[l.r].Running? && s.flights[l.r].stage >= Checks(s.flights[l.r].request) {
      assert Relied(s.db, s.flights[l.r]);
      CommitElsewhere(s.db, s.flights[l.r], u);
    }
  }

  /** The status of a commit depends on what the caller sees only. */
  lemma CommitStatusSame(d: Db, e: Db, f: Flight)
    requires f.Running? && Comparable(d, e, f.caller) && Inside(d, f) && f.stage == Checks(f.request)
    ensures Commit(d, f).1 == Commit(e, f).1
  {
    var u := f.caller;
    match f.request {
      case AddMember(board, _, _) =>
        MembershipSame(d, e, u, board, f.facts.user);
        MembershipSame(d, e, u, board, u);
      case ChangeRole(_, _, _) => assert SeesMember(d, u, f.facts.row) && SeesMember(e, u, f.facts.row);
      case CreateList(board) => MembershipSame(d, e, u, board, u);
      case CreateTask(content) => ListSame(d, e, u, content.list);
      case UpdateTask(task, _, patch) =>
        TaskSame(d, e, u, task);
        if TargetList(patch).Some? { ListSame(d, e, u, TargetList(patch).value); }
      case _ =>
    }
  }

  /** The request is about to check its caller's role on a board that is not the caller's. */
  ghost predicate Stranded(db: Db, f: Flight)
    requires f.Running?
  {
    match f.request
    case DeleteList(_) => f.stage == 1 && !Mine(db, f.caller, f.facts.board)
    case CreateTask(_) => f.stage == 1 && !Mine(db, f.caller, f.facts.board)
    case UpdateTask(_, _, patch) =>
      || (f.stage == 1 && !Mine(db, f.caller, f.facts.board))
      || (f.stage == 3 && TargetList(patch).Some? && !Mine(db, f.caller, f.facts.target))
    case DeleteTask(_) => f.stage == 1 && !Mine(db, f.caller, f.facts.board)
    case _ => false
  }

  lemma StrandedStops(db: Db, f: Flight)
    requires f.Running? && Stranded(db, f)
    ensures f.stage < Checks(f.request) && Check(db, f) == Stop(404)
  {
    var board := if f.request.UpdateTask? && f.stage == 3 then f.facts.target else f.facts.board;
    assert GetMembership(db, board, f.caller).None?;
  }

  lemma OutsideStrands(db: Db, f: Flight)
    requires Sound(db) && f.Running? && LooksOutside(db, f)
    ensures f.stage < Checks(f.request)
    ensures Check(db, f) == Stop(404) || (Check(db, f).Go? && Check(db, f).flight.Running?
              && Check(db, f).flight.caller == f.caller && Stranded(db, Check(db, f).flight))
  {
  }

  ghost predicate EndsWith(s: System, ls: seq<Label>, r: int, status: int) {
    r in Run(s, ls).flights && (Run(s, ls).flights[r].Finished? ==> Run(s, ls).flights[r].status == status)
  }

  lemma {:induction false} StrandedGets404(s: System, ls: seq<Label>, r: int)
    requires Good(s) && r in s.flights && s.flights[r].Running? && Stranded(s.db, s.flights[r])
    requires Foreigners(s, ls, r, s.flights[r].caller)
    ensures EndsWith(s, ls, r, 404)
    decreases |ls|
  {
    if ls != [] {
      var s1 := Step(s, ls[0]);
      StepKeepsGood(s, ls[0]);
      if ls[0] == Resume(r) {
        StrandedStops(s.db, s.flights[r]);
        RoleChecks.StaysFinished(s1, ls[1..], r);
      } else {
        ForeignStep(s, ls[0], r, s.flights[r].caller);
        StrandedGets404(s1, ls[1..], r);
      }
    }
  }

  lemma OutsideGets404(s: System, ls: seq<Label>, r: int)
    requires Good(s) && r in s.flights && s.flights[r].Running? && ls != [] && ls[0] == Resume(r)
    requires LooksOutside(s.db, s.flights[r]) && Foreigners(s, ls, r, s.flights[r].caller)
    ensures EndsWith(s, ls, r, 404)
  {
    var f, s1 := s.flights[r], Step(s, ls[0]);
    OutsideStrands(s.db, f);
    StepKeepsGood(s, ls[0]);
    if Check(s.db, f).Go? {
      StrandedGets404(s1, ls[1..], r);
    } else {
      RoleChecks.StaysFinished(s1, ls[1..], r);
    }
  }

  lemma OwnStep(d: Db, s: System, ls: seq<Label>, r: int)
    requires Good(s) && r in s.flights && s.flights[r].Running? && ls != [] && ls[0] == Resume(r)
    requires Comparable(d, s.db, s.flights[r].caller) && Inside(d, s.flights[r])
    requires Foreigners(s, ls, r, s.flights[r].caller)
    requires s.flights[r].stage == Checks(s.flights[r].request) || LooksOutside(d, s.flights[r]) || Check(d, s.flights[r]).Stop?
    ensures EndsWith(s, ls, r, Serve(d, s.flights[r]).1)
  {
    var f, s1 := s.flights[r], Step(s, ls[0]);
    if f.stage == Checks(f.request) {
      CommitStatusSame(d, s.db, f);
      RoleChecks.StaysFinished(s1, ls[1..], r);
    } else if LooksOutside(d, f) {
      OutsideIs404(d, f);
      assert LooksOutside(s.db, f);
      OutsideGets404(s, ls, r);
    } else {
      CheckSame(d, s.db, f);
      RoleChecks.StaysFinished(s1, ls[1..], r);
    }
  }

  lemma StaysComparable(d: Db, s: System, l: Label, r: int)
    requires Good(s) && r in s.flights && s.flights[r].Running? && Comparable(d, s.db, s.flights[r].caller)
    requires Foreign(s, l, r, s.flights[r].caller)
    ensures Comparable(d, Step(s, l).db, s.flights[r].caller)
    ensures r in Step(s, l).flights && Step(s, l).flights[r] == s.flights[r]
  {
    ForeignStep(s, l, r, s.flights[r].caller);
    StepKeepsGood(s, l);
    SightTransitive(d, s.db, Step(s, l).db, s.flights[r].caller);
  }

  /** A check that passes does so as it would alone. */
  lemma OwnCheck(d: Db, s: System, r: int)
    requires r in s.flights && s.flights[r].Running? && Comparable(d, s.db, s.flights[r].caller) && Inside(d, s.flights[r])
    requires s.flights[r].stage < Checks(s.flights[r].request) && !LooksOutside(d, s.flights[r]) && Check(d, s.flights[r]).Go?
    ensures var f, s1 := s.flights[r], Step(s, Resume(r));
            && s1.db == s.db && r in s1.flights && s1.flights[r].Running? && s1.flights[r].caller == f.caller
            && Inside(d, s1.flights[r]) && Serve(d, f) == Serve(d, s1.flights[r])
  {
    CheckSame(d, s.db, s.flights[r]);
  }

  /** `d` is what the request would find alone. */
  lemma {:induction false} AnswersAsAlone(d: Db, s: System, ls: seq<Label>, r: int)
    requires Good(s) && r in s.flights && s.flights[r].Running?
    requires Comparable(d, s.db, s.flights[r].caller) && Inside(d, s.flights[r])
    requires Foreigners(s, ls, r, s.flights[r].caller)
    ensures EndsWith(s, ls, r, Serve(d, s.flights[r]).1)
    decreases |ls|
  {
    if ls != [] {
      var f, s1 := s.flights[r], Step(s, ls[0]);
      StepKeepsGood(s, ls[0]);
      if ls[0] != Resume(r) {
        StaysComparable(d, s, ls[0], r);
        AnswersAsAlone(d, s1, ls[1..], r);
      } else if f.stage == Checks(f.request) || LooksOutside(d, f) || Check(d, f).Stop? {
        OwnStep(d, s, ls, r);
      } else {
        OwnCheck(d, s, r);
        AnswersAsAlone(d, s1, ls[1..], r);
      }
    }
  }

  lemma StepKeepsNames(s: System, l: Label)
    requires UniqueNames(s.db)
    ensures UniqueNames(Step(s, l).db)
  {
    if l.Resume? && l.r in s.flights && s.flights[l.r].Running? && s.flights[l.r].stage >= Checks(s.flights[l.r].request) {
      CommitKeepsUsers(s.db, s.flights[l.r]);
    }
  }

  lemma CommitKeepsUsers(db: Db, f: Flight)
    requires f.Running?
    ensures Commit(db, f).0.users == db.users
  {
    if f.request.CreateBoard? {
      InsertListsKeepUsers(InsertOwnedBoard(db, f.caller), db.nextBoard, |DEFAULT_LISTS|);
    }
  }

  lemma {:induction false} InsertListsKeepUsers(db: Db, board: int, count: nat)
    ensures InsertLists(db, board, count).users == db.users
  {
    if count > 0 { InsertListsKeepUsers(db, board, count - 1); }
  }

  lemma {:induction false} RunKeepsNames(s: System, ls: seq<Label>)
    requires UniqueNames(s.db)
    ensures UniqueNames(Run(s, ls).db)
    decreases |ls|
  {
    if ls != [] {
      StepKeepsNames(s, ls[0]);
      RunKeepsNames(Step(s, ls[0]), ls[1..]);
    }
  }

  /** In any reachable state a request of `u` begins. However other requests are interleaved with its
      checks and its commit, if what they commit concerns none of the boards `u` is on, the status
      it ends with is the one it would have got alone at its beginning. */
  lemma OthersElsewhereDoNotShow(before: seq<Label>, r: int, u: int, request: Request, during: seq<Label>)
    requires var s := Run(START, before); r !in s.flights && u in s.db.users && WellFormed(request)
    requires Foreigners(Step(Run(START, before), Begin(r, u, request)), during, r, u)
    ensures var s := Run(START, before);
            EndsWith(Step(s, Begin(r, u, request)), during, r, Serve(s.db, Running(u, request, 0, UNKNOWN)).1)
  {
    RunKeepsGood(START, before);
    RunKeepsNames(START, before);
    var s := Run(START, before);
    StepKeepsGood(s, Begin(r, u, request));
    SightReflexive(s.db, u);
    AnswersAsAlone(s.db, Step(s, Begin(r, u, request)), during, r);
  }
}
