/** What a user can find out from status codes: nothing about boards they are not on. Requests
    run alone here, each from its first check to its commit. */
module Unwinding {
  import opened Models
  import opened Boards

  ghost function Serve(db: Db, f: Flight): (Db, int)
    requires f.Running?
    decreases Checks(f.request) - f.stage
  {
    if f.stage >= Checks(f.request) then Commit(db, f)
    else match Check(db, f)
      case Stop(status) => (db, status)
      case Go(next) => if next.Running? && next.request == f.request && next.stage > f.stage then Serve(db, next) else (db, 500)
  }

  /** Where a request stands after `stage` of its SELECTs passed. */
  function At(caller: int, request: Request, stage: nat, facts: Facts): Flight {
    Running(caller, request, stage, facts)
  }

  lemma Refused(db: Db, f: Flight, status: int)
    requires f.Running? && f.stage < Checks(f.request) && Check(db, f) == Stop(status)
    ensures Serve(db, f) == (db, status)
  {
  }

  lemma Passed(db: Db, f: Flight, facts: Facts)
    requires f.Running? && f.stage < Checks(f.request) && Check(db, f) == Pass(f, facts)
    ensures Serve(db, f) == Serve(db, At(f.caller, f.request, f.stage + 1, facts))
  {
  }

  lemma NobodyFound(db: Db, f: Flight, username: string)
    requires f.Running? && forall user :: !Named(db, user, username)
    ensures FindUser(db, f, username) == Stop(404)
  {
  }

  ghost predicate Mine(db: Db, u: int, b: int) {
    exists id :: IsMembership(db, id, b, u)
  }

  ghost predicate SeesMember(db: Db, u: int, m: int) {
    m in db.members && Mine(db, u, db.members[m].board)
  }

  ghost predicate SeesList(db: Db, u: int, l: int) {
    l in db.lists && Mine(db, u, db.lists[l])
  }

  ghost predicate SeesTask(db: Db, u: int, t: int) {
    t in db.tasks && SeesList(db, u, db.tasks[t].content.list)
  }

  ghost predicate SameBoards(d: Db, e: Db, u: int) {
    forall b :: Mine(d, u, b) <==> Mine(e, u, b)
  }

  ghost predicate SameMembers(d: Db, e: Db, u: int) {
    forall m :: SeesMember(d, u, m) || SeesMember(e, u, m) ==>
      SeesMember(d, u, m) && SeesMember(e, u, m) && d.members[m] == e.members[m]
  }

  ghost predicate SameLists(d: Db, e: Db, u: int) {
    forall l :: SeesList(d, u, l) || SeesList(e, u, l) ==>
      SeesList(d, u, l) && SeesList(e, u, l) && d.lists[l] == e.lists[l]
  }

  ghost predicate SameTasks(d: Db, e: Db, u: int) {
    forall t :: SeesTask(d, u, t) || SeesTask(e, u, t) ==>
      SeesTask(d, u, t) && SeesTask(e, u, t) && d.tasks[t] == e.tasks[t]
  }

  predicate SameCounters(d: Db, e: Db) {
    && d.users == e.users && d.nextBoard == e.nextBoard && d.nextMember == e.nextMember
    && d.nextList == e.nextList && d.nextTask == e.nextTask
  }

  /** All that is on boards of `u` is the same. */
  ghost predicate SameSight(d: Db, e: Db, u: int) {
    d.users == e.users && SameBoards(d, e, u) && SameMembers(d, e, u) && SameLists(d, e, u) && SameTasks(d, e, u)
  }

  /** The databases differ at most in what is on boards that `u` is not a member of. */
  ghost predicate Agree(d: Db, e: Db, u: int) {
    SameCounters(d, e) && SameSight(d, e, u)
  }

  ghost predicate UniqueNames(db: Db) {
    forall a, b :: a in db.users && b in db.users && db.users[a] == db.users[b] ==> a == b
  }

  lemma MembershipSame(d: Db, e: Db, u: int, b: int, v: int)
    requires Sound(d) && Sound(e) && SameSight(d, e, u) && Mine(d, u, b)
    ensures GetMembership(d, b, v) == GetMembership(e, b, v)
    ensures GetMembership(d, b, v).Some? ==> SeesMember(d, u, GetMembership(d, b, v).value)
  {
    var x, y := GetMembership(d, b, v), GetMembership(e, b, v);
    if x.Some? {
      assert SeesMember(d, u, x.value);
      TheMembership(e, x.value, b, v);
    } else if y.Some? {
      assert SeesMember(e, u, y.value);
      TheMembership(d, y.value, b, v);
    }
  }

  lemma AuthorizeSame(d: Db, e: Db, u: int, b: int, least: Role)
    requires Sound(d) && Sound(e) && SameSight(d, e, u)
    ensures AuthorizeBoard(d, b, u, least) == AuthorizeBoard(e, b, u, least)
    ensures !Mine(d, u, b) ==> AuthorizeBoard(d, b, u, least) == 404
  {
    if Mine(d, u, b) {
      MembershipSame(d, e, u, b, u);
    }
  }

  lemma UserSame(d: Db, e: Db, f: Flight, username: string)
    requires f.Running? && d.users == e.users && UniqueNames(d)
    ensures FindUser(d, f, username) == FindUser(e, f, username)
  {
    forall a, b | Named(d, a, username) && Named(e, b, username)
      ensures a == b
    {
    }
    assert forall a :: Named(d, a, username) <==> Named(e, a, username);
  }

  /** What the request has found so far lies on boards of the caller. */
  ghost predicate Inside(db: Db, f: Flight)
    requires f.Running?
  {
    f.stage <= Checks(f.request) && f.caller in db.users && WellFormed(f.request) &&
    match f.request
    case CreateBoard => true
    case AddMember(board, _, _) => f.stage >= 1 ==> Mine(db, f.caller, board)
    case ChangeRole(board, _, _) =>
      && (f.stage >= 1 ==> Mine(db, f.caller, board))
      && (f.stage >= 2 ==> SeesMember(db, f.caller, f.facts.row))
    case RemoveMember(board, _) =>
      && (f.stage >= 1 ==> Mine(db, f.caller, board))
      && (f.stage >= 2 ==> SeesMember(db, f.caller, f.facts.row))
    case CreateList(board) => f.stage >= 1 ==> Mine(db, f.caller, board)
    case DeleteList(list) => f.stage >= 1 ==> SeesList(db, f.caller, list) && Mine(db, f.caller, f.facts.board)
    case CreateTask(content) => f.stage >= 1 ==> SeesList(db, f.caller, content.list) && Mine(db, f.caller, f.facts.board)
    case UpdateTask(task, _, patch) =>
      && (f.stage >= 1 ==> SeesTask(db, f.caller, task) && Mine(db, f.caller, f.facts.board))
      && (f.stage >= 3 && TargetList(patch).Some? ==>
            SeesList(db, f.caller, TargetList(patch).value) && db.lists[TargetList(patch).value] == f.facts.target)
    case DeleteTask(task) => f.stage >= 1 ==> SeesTask(db, f.caller, task) && Mine(db, f.caller, f.facts.board)
  }

  /** The next check looks up a list or task that is not on any board of the caller. */
  ghost predicate LooksOutside(db: Db, f: Flight)
    requires f.Running?
  {
    match f.request
    case DeleteList(list) => f.stage == 0 && !SeesList(db, f.caller, list)
    case CreateTask(content) => f.stage == 0 && !SeesList(db, f.caller, content.list)
    case UpdateTask(task, _, patch) =>
      || (f.stage == 0 && !SeesTask(db, f.caller, task))
      || (f.stage == 2 && TargetList(patch).Some? && !SeesList(db, f.caller, TargetList(patch).value))
    case DeleteTask(task) => f.stage == 0 && !SeesTask(db, f.caller, task)
    case _ => false
  }

  /** Whether the list or task exists or not: 404, and nothing changes. */
  lemma OutsideIs404(db: Db, f: Flight)
    requires Sound(db) && f.Running? && LooksOutside(db, f)
    ensures Serve(db, f) == (db, 404)
  {
    match Check(db, f) {
      case Stop(_) =>
      case Go(next) =>
        var board := if f.request.UpdateTask? && f.stage == 2 then next.facts.target else next.facts.board;
        assert !Mine(db, f.caller, board);
        assert GetMembership(db, board, f.caller).None?;
        assert Check(db, next) == Stop(404);
    }
  }

  /** The check comes out the same in both databases, and what it finds is the caller's. */
  ghost predicate SameCheck(d: Db, e: Db, f: Flight)
    requires f.Running? && f.stage < Checks(f.request)
  {
    Check(d, f) == Check(e, f) && (Check(d, f).Go? ==> NextStage(d, f, Check(d, f).flight))
  }

  ghost predicate NextStage(db: Db, f: Flight, next: Flight)
    requires f.Running?
  {
    next.Running? && next == f.(stage := f.stage + 1, facts := next.facts) && Inside(db, next)
  }

  ghost predicate Comparable(d: Db, e: Db, u: int) {
    Sound(d) && Sound(e) && SameSight(d, e, u) && UniqueNames(d)
  }

  lemma AddMemberChecksSame(d: Db, e: Db, f: Flight)
    requires f.Running? && Comparable(d, e, f.caller) && Inside(d, f) && f.stage < Checks(f.request) && f.request.AddMember?
    ensures SameCheck(d, e, f)
  {
    AuthorizeSame(d, e, f.caller, f.request.board, Owner);
    UserSame(d, e, f, f.request.username);
    if f.stage == 2 { MembershipSame(d, e, f.caller, f.request.board, f.facts.user); }
  }

  lemma MemberChecksSame(d: Db, e: Db, f: Flight)
    requires f.Running? && Comparable(d, e, f.caller) && Inside(d, f) && f.stage < Checks(f.request)
    requires f.request.ChangeRole? || f.request.RemoveMember?
    ensures SameCheck(d, e, f)
  {
    AuthorizeSame(d, e, f.caller, f.request.board, Viewer);
    AuthorizeSame(d, e, f.caller, f.request.board, Owner);
    if f.stage == 1 { MembershipSame(d, e, f.caller, f.request.board, f.request.user); }
  }

  lemma ListChecksSame(d: Db, e: Db, f: Flight)
    requires f.Running? && Comparable(d, e, f.caller) && Inside(d, f) && !LooksOutside(d, f) && f.stage < Checks(f.request)
    requires f.request.CreateList? || f.request.DeleteList? || f.request.CreateTask? || f.request.DeleteTask?
    ensures SameCheck(d, e, f)
  {
    var board := if f.request.CreateList? then f.request.board else f.facts.board;
    AuthorizeSame(d, e, f.caller, board, Editor);
    match f.request {
      case DeleteList(list) => if f.stage == 0 { ListSame(d, e, f.caller, list); }
      case CreateTask(content) => if f.stage == 0 { ListSame(d, e, f.caller, content.list); }
      case DeleteTask(task) => if f.stage == 0 { TaskSame(d, e, f.caller, task); }
      case _ =>
    }
  }

  lemma ListSame(d: Db, e: Db, u: int, list: int)
    requires SameSight(d, e, u) && SeesList(d, u, list)
    ensures list in e.lists && e.lists[list] == d.lists[list] && Mine(d, u, d.lists[list])
  {
    assert SeesList(e, u, list);
  }

  lemma TaskSame(d: Db, e: Db, u: int, task: int)
    requires SameSight(d, e, u) && SeesTask(d, u, task)
    ensures task in e.tasks && e.tasks[task] == d.tasks[task]
    ensures var list := d.tasks[task].content.list; list in d.lists && list in e.lists && e.lists[list] == d.lists[list]
  {
    assert SeesTask(e, u, task) && SeesList(d, u, d.tasks[task].content.list);
  }

  lemma UpdateChecksSame(d: Db, e: Db, f: Flight)
    requires f.Running? && Comparable(d, e, f.caller) && Inside(d, f) && !LooksOutside(d, f) && f.stage < Checks(f.request)
    requires f.request.UpdateTask?
    ensures SameCheck(d, e, f)
  {
    if f.stage == 0 {
      TaskSame(d, e, f.caller, f.request.task);
    } else if f.stage == 1 {
      AuthorizeSame(d, e, f.caller, f.facts.board, Editor);
    } else if f.stage == 3 {
      AuthorizeSame(d, e, f.caller, f.facts.target, Editor);
    } else {
      ListSame(d, e, f.caller, TargetList(f.request.patch).value);
    }
  }

  lemma CheckSame(d: Db, e: Db, f: Flight)
    requires f.Running? && Comparable(d, e, f.caller) && Inside(d, f) && !LooksOutside(d, f) && f.stage < Checks(f.request)
    ensures SameCheck(d, e, f)
  {
    match f.request {
      case AddMember(_, _, _) => AddMemberChecksSame(d, e, f);
      case ChangeRole(_, _, _) => MemberChecksSame(d, e, f);
      case RemoveMember(_, _) => MemberChecksSame(d, e, f);
      case UpdateTask(_, _, _) => UpdateChecksSame(d, e, f);
      case _ => ListChecksSame(d, e, f);
    }
  }

  // ---- Commits ----

  /** The user's membership rows on the board are the same. */
  lemma SameRowsOf(d: Db, d': Db, u: int, b: int)
    requires forall id :: IsMembership(d', id, b, u) == IsMembership(d, id, b, u)
    ensures Mine(d', u, b) <==> Mine(d, u, b)
  {
  }

  /** Memberships unchanged, the caller's boards and members stay the same. */
  lemma MembersKept(d: Db, e: Db, d': Db, e': Db, u: int)
    requires SameBoards(d, e, u) && SameMembers(d, e, u) && d'.members == d.members && e'.members == e.members
    ensures SameBoards(d', e', u) && SameMembers(d', e', u)
    ensures forall b :: Mine(d', u, b) <==> Mine(d, u, b)
    ensures forall b :: Mine(e', u, b) <==> Mine(e, u, b)
  {
    forall b
      ensures Mine(d', u, b) <==> Mine(d, u, b)
      ensures Mine(e', u, b) <==> Mine(e, u, b)
    {
      SameRowsOf(d, d', u, b);
      SameRowsOf(e, e', u, b);
    }
    forall m
      ensures SeesMember(d', u, m) <==> SeesMember(d, u, m)
      ensures SeesMember(e', u, m) <==> SeesMember(e, u, m)
    {
    }
  }

  lemma InsertListAgrees(d: Db, e: Db, u: int, board: int)
    requires Agree(d, e, u) && Integrity(d) && Integrity(e)
    ensures Agree(InsertList(d, board), InsertList(e, board), u)
  {
    var d', e' := InsertList(d, board), InsertList(e, board);
    MembersKept(d, e, d', e', u);
    forall l
      ensures SeesList(d', u, l) <==> (if l == d.nextList then Mine(d, u, board) else SeesList(d, u, l))
      ensures SeesList(e', u, l) <==> (if l == e.nextList then Mine(e, u, board) else SeesList(e, u, l))
    {
    }
    forall t
      ensures SeesTask(d', u, t) <==> SeesTask(d, u, t)
      ensures SeesTask(e', u, t) <==> SeesTask(e, u, t)
    {
    }
  }

  lemma {:induction false} InsertListsAgrees(d: Db, e: Db, u: int, board: int, count: nat)
    requires Agree(d, e, u) && Integrity(d) && Integrity(e) && board in d.boards && board in e.boards
    ensures Agree(InsertLists(d, board, count), InsertLists(e, board, count), u)
  {
    if count > 0 {
      InsertListsAgrees(d, e, u, board, count - 1);
      InsertListsIntegrity(d, board, count - 1);
      InsertListsIntegrity(e, board, count - 1);
      InsertListAgrees(InsertLists(d, board, count - 1), InsertLists(e, board, count - 1), u, board);
    }
  }

  lemma {:induction false} InsertListsIntegrity(db: Db, board: int, count: nat)
    requires Integrity(db) && board in db.boards
    ensures Integrity(InsertLists(db, board, count)) && InsertLists(db, board, count).boards == db.boards
  {
    if count > 0 { InsertListsIntegrity(db, board, count - 1); }
  }

  /** Only task rows change. */
  lemma TasksAgree(d: Db, e: Db, d': Db, e': Db, u: int)
    requires Agree(d, e, u) && SameTasks(d', e', u) && d'.nextTask == e'.nextTask
    requires d' == d.(tasks := d'.tasks, nextTask := d'.nextTask) && e' == e.(tasks := e'.tasks, nextTask := e'.nextTask)
    ensures Agree(d', e', u)
  {
    MembersKept(d, e, d', e', u);
    forall l
      ensures SeesList(d', u, l) <==> SeesList(d, u, l)
      ensures SeesList(e', u, l) <==> SeesList(e, u, l)
    {
    }
  }

  lemma DropListAgrees(d: Db, e: Db, u: int, list: int)
    requires Agree(d, e, u) && Integrity(d) && Integrity(e)
    ensures Agree(DropList(d, list), DropList(e, list), u)
  {
    var d', e' := DropList(d, list), DropList(e, list);
    MembersKept(d, e, d', e', u);
    forall l
      ensures SeesList(d', u, l) <==> l != list && SeesList(d, u, l)
      ensures SeesList(e', u, l) <==> l != list && SeesList(e, u, l)
    {
    }
    forall t
      ensures SeesTask(d', u, t) <==> SeesTask(d, u, t) && d.tasks[t].content.list != list
      ensures SeesTask(e', u, t) <==> SeesTask(e, u, t) && e.tasks[t].content.list != list
    {
    }
  }

  /** Only membership rows change, and the caller's boards at most shrink. */
  lemma MembersAgree(d: Db, e: Db, d': Db, e': Db, u: int)
    requires Agree(d, e, u) && SameBoards(d', e', u) && SameMembers(d', e', u) && d'.nextMember == e'.nextMember
    requires d' == d.(members := d'.members, nextMember := d'.nextMember) && e' == e.(members := e'.members, nextMember := e'.nextMember)
    requires forall b :: Mine(d', u, b) ==> Mine(d, u, b)
    ensures Agree(d', e', u)
  {
    forall l
      ensures SeesList(d', u, l) || SeesList(e', u, l) ==> SeesList(d', u, l) && SeesList(e', u, l) && d'.lists[l] == e'.lists[l]
    {
      if SeesList(d', u, l) {
        assert SeesList(d, u, l);
      } else if SeesList(e', u, l) {
        assert Mine(d', u, e'.lists[l]);
        assert SeesList(e, u, l);
      }
    }
    forall t
      ensures SeesTask(d', u, t) || SeesTask(e', u, t) ==> SeesTask(d', u, t) && SeesTask(e', u, t) && d'.tasks[t] == e'.tasks[t]
    {
      if SeesTask(d', u, t) {
        assert SeesList(d, u, d.tasks[t].content.list);
        assert SeesTask(d, u, t);
      } else if SeesTask(e', u, t) {
        assert SeesList(e', u, e.tasks[t].content.list);
        assert SeesList(e, u, e.tasks[t].content.list);
        assert SeesTask(e, u, t);
      }
    }
  }

  lemma AddMemberAgrees(d: Db, e: Db, u: int, m: Member)
    requires Agree(d, e, u) && Integrity(d) && Integrity(e) && m.user != u
    ensures Agree(InsertMember(d, m), InsertMember(e, m), u)
  {
    var d', e' := InsertMember(d, m), InsertMember(e, m);
    forall b
      ensures Mine(d', u, b) <==> Mine(d, u, b)
      ensures Mine(e', u, b) <==> Mine(e, u, b)
    {
      SameRowsOf(d, d', u, b);
      SameRowsOf(e, e', u, b);
    }
    forall r
      ensures SeesMember(d', u, r) <==> (if r == d.nextMember then Mine(d, u, m.board) else SeesMember(d, u, r))
      ensures SeesMember(e', u, r) <==> (if r == e.nextMember then Mine(e, u, m.board) else SeesMember(e, u, r))
    {
    }
    MembersAgree(d, e, d', e', u);
  }

  lemma ChangeRoleAgrees(d: Db, e: Db, u: int, row: int, role: Role)
    requires Agree(d, e, u) && SeesMember(d, u, row) && row in e.members
    ensures Agree(WithRole(d, row, role), WithRole(e, row, role), u)
  {
    var d', e' := WithRole(d, row, role), WithRole(e, row, role);
    forall b
      ensures Mine(d', u, b) <==> Mine(d, u, b)
      ensures Mine(e', u, b) <==> Mine(e, u, b)
    {
      SameRowsOf(d, d', u, b);
      SameRowsOf(e, e', u, b);
    }
    forall r
      ensures SeesMember(d', u, r) <==> SeesMember(d, u, r)
      ensures SeesMember(e', u, r) <==> SeesMember(e, u, r)
    {
    }
    MembersAgree(d, e, d', e', u);
  }

  lemma WithoutRowMine(db: Db, u: int, row: int, b: int)
    requires Unique(db) && row in db.members
    ensures Mine(WithoutRow(db, row), u, b) <==> Mine(db, u, b) && !IsMembership(db, row, b, u)
  {
    var db' := WithoutRow(db, row);
    if Mine(db, u, b) && !IsMembership(db, row, b, u) {
      var id :| IsMembership(db, id, b, u);
      assert IsMembership(db', id, b, u);
    }
    if Mine(db', u, b) {
      var id :| IsMembership(db', id, b, u);
      assert IsMembership(db, id, b, u);
      assert IsMembership(db, row, b, u) ==> SamePair(db.members[row], db.members[id]);
    }
  }

  lemma RemoveMemberAgrees(d: Db, e: Db, u: int, row: int)
    requires Agree(d, e, u) && Unique(d) && Unique(e) && SeesMember(d, u, row)
    ensures Agree(WithoutRow(d, row), WithoutRow(e, row), u)
  {
    var d', e' := WithoutRow(d, row), WithoutRow(e, row);
    assert SeesMember(e, u, row);
    forall b
      ensures Mine(d', u, b) <==> Mine(d, u, b) && !IsMembership(d, row, b, u)
      ensures Mine(e', u, b) <==> Mine(e, u, b) && !IsMembership(e, row, b, u)
    {
      WithoutRowMine(d, u, row, b);
      WithoutRowMine(e, u, row, b);
    }
    forall m
      ensures SeesMember(d', u, m) || SeesMember(e', u, m) ==>
                SeesMember(d', u, m) && SeesMember(e', u, m) && d'.members[m] == e'.members[m]
    {
      if SeesMember(d', u, m) {
        assert SeesMember(d, u, m);
      } else if SeesMember(e', u, m) {
        assert SeesMember(e, u, m);
      }
    }
    MembersAgree(d, e, d', e', u);
  }

  lemma InsertOwnedBoardMine(db: Db, u: int, b: int)
    requires Integrity(db)
    ensures Mine(InsertOwnedBoard(db, u), u, b) <==> Mine(db, u, b) || b == db.nextBoard
  {
    var db' := InsertOwnedBoard(db, u);
    if Mine(db, u, b) {
      var id :| IsMembership(db, id, b, u);
      assert IsMembership(db', id, b, u);
    }
    assert IsMembership(db', db.nextMember, db.nextBoard, u);
    if Mine(db', u, b) && b != db.nextBoard {
      var id :| IsMembership(db', id, b, u);
      assert IsMembership(db, id, b, u);
    }
  }

  lemma CreateBoardAgrees(d: Db, e: Db, u: int)
    requires Agree(d, e, u) && Sound(d) && Sound(e) && u in d.users
    ensures Agree(InsertBoard(d, u), InsertBoard(e, u), u)
  {
    InsertOwnedBoardAgrees(d, e, u);
    InsertOwnedBoardKeeps(d, u);
    InsertOwnedBoardKeeps(e, u);
    InsertListsAgrees(InsertOwnedBoard(d, u), InsertOwnedBoard(e, u), u, d.nextBoard, |DEFAULT_LISTS|);
  }

  lemma InsertOwnedBoardAgrees(d: Db, e: Db, u: int)
    requires Agree(d, e, u) && Integrity(d) && Integrity(e)
    ensures Agree(InsertOwnedBoard(d, u), InsertOwnedBoard(e, u), u)
  {
    var d', e' := InsertOwnedBoard(d, u), InsertOwnedBoard(e, u);
    forall b
      ensures Mine(d', u, b) <==> Mine(d, u, b) || b == d.nextBoard
      ensures Mine(e', u, b) <==> Mine(e, u, b) || b == e.nextBoard
    {
      InsertOwnedBoardMine(d, u, b);
      InsertOwnedBoardMine(e, u, b);
    }
    forall m
      ensures SeesMember(d', u, m) <==> m == d.nextMember || SeesMember(d, u, m)
      ensures SeesMember(e', u, m) <==> m == e.nextMember || SeesMember(e, u, m)
    {
    }
    forall l
      ensures SeesList(d', u, l) <==> SeesList(d, u, l)
      ensures SeesList(e', u, l) <==> SeesList(e, u, l)
    {
    }
    assert SameTasks(d', e', u) by {
      forall t
        ensures SeesTask(d', u, t) <==> SeesTask(d, u, t)
        ensures SeesTask(e', u, t) <==> SeesTask(e, u, t)
      {
      }
    }
  }

  /** New task rows: the same visible tasks, with one row added, replaced or dropped in both. */
  lemma RowsAgree(d: Db, e: Db, d': Db, e': Db, u: int, touched: int)
    requires Agree(d, e, u) && d'.nextTask == e'.nextTask
    requires d' == d.(tasks := d'.tasks, nextTask := d'.nextTask) && e' == e.(tasks := e'.tasks, nextTask := e'.nextTask)
    requires forall t :: t != touched ==> (t in d'.tasks <==> t in d.tasks) && (t in d.tasks ==> d'.tasks[t] == d.tasks[t])
    requires forall t :: t != touched ==> (t in e'.tasks <==> t in e.tasks) && (t in e.tasks ==> e'.tasks[t] == e.tasks[t])
    requires SeesTask(d', u, touched) || SeesTask(e', u, touched) ==>
               SeesTask(d', u, touched) && SeesTask(e', u, touched) && d'.tasks[touched] == e'.tasks[touched]
    ensures Agree(d', e', u)
  {
    MembersKept(d, e, d', e', u);
    forall t | t != touched
      ensures SeesTask(d', u, t) <==> SeesTask(d, u, t)
      ensures SeesTask(e', u, t) <==> SeesTask(e, u, t)
    {
      SeesTaskKept(d, d', u, t);
      SeesTaskKept(e, e', u, t);
    }
    assert SameTasks(d', e', u);
    TasksAgree(d, e, d', e', u);
  }

  lemma MineKept(db: Db, db': Db, u: int, b: int)
    requires db'.members == db.members
    ensures Mine(db', u, b) <==> Mine(db, u, b)
  {
    assert forall id :: IsMembership(db', id, b, u) == IsMembership(db, id, b, u);
  }

  lemma SeesListKept(db: Db, db': Db, u: int, l: int)
    requires db'.members == db.members && db'.lists == db.lists
    ensures SeesList(db', u, l) <==> SeesList(db, u, l)
  {
    if l in db.lists { MineKept(db, db', u, db.lists[l]); }
  }

  lemma SeesTaskKept(db: Db, db': Db, u: int, t: int)
    requires db'.members == db.members && db'.lists == db.lists
    requires (t in db'.tasks <==> t in db.tasks) && (t in db.tasks ==> db'.tasks[t] == db.tasks[t])
    ensures SeesTask(db', u, t) <==> SeesTask(db, u, t)
  {
    if t in db.tasks { SeesListKept(db, db', u, db.tasks[t].content.list); }
  }

  lemma CreateTaskAgrees(d: Db, e: Db, f: Flight)
    requires f.Running? && Comparable(d, e, f.caller) && Agree(d, e, f.caller)
    requires Inside(d, f) && f.stage == Checks(f.request) && f.request.CreateTask?
    ensures Commit(d, f).1 == Commit(e, f).1 && Agree(Commit(d, f).0, Commit(e, f).0, f.caller)
  {
    var u, d', e' := f.caller, Commit(d, f).0, Commit(e, f).0;
    assert SeesList(d, u, f.request.content.list) && SeesList(e, u, f.request.content.list);
    SeesListKept(d, d', u, f.request.content.list);
    SeesListKept(e, e', u, f.request.content.list);
    RowsAgree(d, e, d', e', u, d.nextTask);
  }

  lemma UpdateTaskAgrees(d: Db, e: Db, f: Flight)
    requires f.Running? && Comparable(d, e, f.caller) && Agree(d, e, f.caller)
    requires Inside(d, f) && f.stage == Checks(f.request) && f.request.UpdateTask?
    ensures Commit(d, f).1 == Commit(e, f).1 && Agree(Commit(d, f).0, Commit(e, f).0, f.caller)
  {
    var u, d', e', task, patch := f.caller, Commit(d, f).0, Commit(e, f).0, f.request.task, f.request.patch;
    assert SeesTask(d, u, task) && SeesTask(e, u, task) && d.tasks[task] == e.tasks[task];
    var list := TargetList(patch);
    assert list.Some? ==> SeesList(d, u, list.value) && SeesList(e, u, list.value);
    assert Accepts(patch, d.tasks[task], d.lists.Keys) == Accepts(patch, e.tasks[task], e.lists.Keys);
    if d.tasks[task].version == f.request.expected && Accepts(patch, d.tasks[task], d.lists.Keys) {
      var to := Updated(patch, d.tasks[task]).content.list;
      assert SeesList(d, u, to) && SeesList(e, u, to);
      SeesListKept(d, d', u, to);
      SeesListKept(e, e', u, to);
      RowsAgree(d, e, d', e', u, task);
    }
  }

  lemma DeleteTaskAgrees(d: Db, e: Db, f: Flight)
    requires f.Running? && Comparable(d, e, f.caller) && Agree(d, e, f.caller)
    requires Inside(d, f) && f.stage == Checks(f.request) && f.request.DeleteTask?
    ensures Commit(d, f).1 == Commit(e, f).1 && Agree(Commit(d, f).0, Commit(e, f).0, f.caller)
  {
    RowsAgree(d, e, Commit(d, f).0, Commit(e, f).0, f.caller, f.request.task);
  }

  lemma CommitAgrees(d: Db, e: Db, f: Flight)
    requires f.Running? && Comparable(d, e, f.caller) && Agree(d, e, f.caller) && Inside(d, f) && f.stage == Checks(f.request)
    requires f.request.RemoveMember? || f.request.ChangeRole? ==> f.facts.row in e.members
    ensures Commit(d, f).1 == Commit(e, f).1 && Agree(Commit(d, f).0, Commit(e, f).0, f.caller)
  {
    var u := f.caller;
    match f.request {
      case CreateBoard => CreateBoardAgrees(d, e, u);
      case AddMember(board, _, role) =>
        MembershipSame(d, e, u, board, f.facts.user);
        MembershipSame(d, e, u, board, u);
        if f.facts.user in d.users && GetMembership(d, board, f.facts.user).None? {
          AddMemberAgrees(d, e, u, Member(f.facts.user, board, role));
        }
      case ChangeRole(_, _, role) => ChangeRoleAgrees(d, e, u, f.facts.row, role);
      case RemoveMember(_, _) => RemoveMemberAgrees(d, e, u, f.facts.row);
      case CreateList(board) => InsertListAgrees(d, e, u, board);
      case DeleteList(list) => DropListAgrees(d, e, u, list);
      case CreateTask(_) => CreateTaskAgrees(d, e, f);
      case UpdateTask(_, _, _) => UpdateTaskAgrees(d, e, f);
      case DeleteTask(_) => DeleteTaskAgrees(d, e, f);
    }
  }

  lemma {:induction false} ServeAgrees(d: Db, e: Db, f: Flight)
    requires f.Running? && Comparable(d, e, f.caller) && Agree(d, e, f.caller) && Inside(d, f)
    ensures Serve(d, f).1 == Serve(e, f).1 && Agree(Serve(d, f).0, Serve(e, f).0, f.caller)
    decreases Checks(f.request) - f.stage
  {
    if f.stage == Checks(f.request) {
      if f.request.RemoveMember? || f.request.ChangeRole? {
        assert SeesMember(d, f.caller, f.facts.row) && SeesMember(e, f.caller, f.facts.row);
      }
      CommitAgrees(d, e, f);
    } else if LooksOutside(d, f) {
      assert LooksOutside(e, f);
      OutsideIs404(d, f);
      OutsideIs404(e, f);
    } else {
      CheckSame(d, e, f);
      if Check(d, f).Go? {
        ServeAgrees(d, e, Check(d, f).flight);
      }
    }
  }

  /** Two databases that differ only in boards `u` is not on: any request of `u` gets the same
      status from both and leaves them differing only in such boards. */
  lemma StatusRevealsOnlyOwnBoards(d: Db, e: Db, u: int, request: Request)
    requires Sound(d) && Sound(e) && UniqueNames(d) && Agree(d, e, u) && u in d.users && WellFormed(request)
    ensures var f := Running(u, request, 0, UNKNOWN);
            Serve(d, f).1 == Serve(e, f).1 && Agree(Serve(d, f).0, Serve(e, f).0, u)
  {
    ServeAgrees(d, e, Running(u, request, 0, UNKNOWN));
  }

  /** The board, list or task the request is about, if it names one, is on no board of `u`'s. */
  ghost predicate AboutOthers(db: Db, u: int, request: Request) {
    match request
    case CreateBoard => false
    case AddMember(board, _, _) => !Mine(db, u, board)
    case ChangeRole(board, _, _) => !Mine(db, u, board)
    case RemoveMember(board, _) => !Mine(db, u, board)
    case CreateList(board) => !Mine(db, u, board)
    case DeleteList(list) => !SeesList(db, u, list)
    case CreateTask(content) => !SeesList(db, u, content.list)
    case UpdateTask(task, _, _) => !SeesTask(db, u, task)
    case DeleteTask(task) => !SeesTask(db, u, task)
  }

  /** A non-member gets 404, and changes nothing, whether or not the board, list or task exists. */
  lemma NonMembersGet404(db: Db, u: int, request: Request)
    requires Sound(db) && AboutOthers(db, u, request)
    ensures Serve(db, Running(u, request, 0, UNKNOWN)) == (db, 404)
  {
    var f := Running(u, request, 0, UNKNOWN);
    if LooksOutside(db, f) {
      OutsideIs404(db, f);
    } else {
      assert GetMembership(db, request.board, u).None?;
    }
  }
}
