/** The routes of boards.py, lists.py and tasks.py as the imperative code they are: each one
    checks, writes, commits and queues the event to publish. Every route is proved to do what
    Unwinding.Serve says, with exactly one event, on the right board, if it succeeded. */
module Routes {
  import opened Models
  import opened Boards
  import opened Unwinding
  import opened Announcements
  import RoleChecks
  import Answers
  import Hub

  lemma CreatedBoard(db: Db, caller: int)
    requires Sound(db) && caller in db.users
    ensures Serve(db, At(caller, Request.CreateBoard, 0, UNKNOWN)) == (InsertBoard(db, caller), 200)
    ensures Sound(InsertBoard(db, caller)) && IsOwner(InsertBoard(db, caller), db.nextBoard, caller)
  {
    InsertBoardKeeps(db, caller);
  }

  /** The two checks of a request about a task. */
  lemma TaskChecks(db: Db, caller: int, request: Request, task: int, status: int)
    requires request == DeleteTask(task) || (request.UpdateTask? && request.task == task)
    requires status == if BoardOf(db, task).None? then 404 else AuthorizeBoard(db, BoardOf(db, task).value, caller, Editor)
    ensures Serve(db, At(caller, request, 0, UNKNOWN)) ==
              if status != 0 then (db, status) else Serve(db, At(caller, request, 2, UNKNOWN.(board := BoardOf(db, task).value)))
  {
    if BoardOf(db, task).None? {
      Refused(db, At(caller, request, 0, UNKNOWN), 404);
    } else {
      var facts := UNKNOWN.(board := BoardOf(db, task).value);
      Passed(db, At(caller, request, 0, UNKNOWN), facts);
      if status != 0 {
        Refused(db, At(caller, request, 1, facts), status);
      } else {
        Passed(db, At(caller, request, 1, facts), facts);
      }
    }
  }

  /** The two checks of a move's target list. */
  lemma MoveChecks(db: Db, caller: int, request: Request, board: int, status: int)
    requires request.UpdateTask? && TargetList(request.patch).Some?
    requires var list := TargetList(request.patch).value;
             status == if list !in db.lists then 404
                       else if AuthorizeBoard(db, db.lists[list], caller, Editor) != 0 then
                         AuthorizeBoard(db, db.lists[list], caller, Editor)
                       else if db.lists[list] != board then 400 else 0
    ensures var facts, list := UNKNOWN.(board := board), TargetList(request.patch).value;
            && (status != 0 ==> Serve(db, At(caller, request, 2, facts)) == (db, status))
            && (status == 0 ==> Serve(db, At(caller, request, 2, facts)) == Commit(db, At(caller, request, 4, facts.(target := board))))
  {
    var facts, list := UNKNOWN.(board := board), TargetList(request.patch).value;
    if list !in db.lists {
      Refused(db, At(caller, request, 2, facts), 404);
    } else {
      var more := facts.(target := db.lists[list]);
      Passed(db, At(caller, request, 2, facts), more);
      if status != 0 {
        Refused(db, At(caller, request, 3, more), status);
      } else {
        Passed(db, At(caller, request, 3, more), more);
      }
    }
  }

  class Session {
    var users: map<int, string>
    var boards: set<int>
    var members: map<int, Member>
    var lists: map<int, int>
    var tasks: map<int, Task>
    var nextBoard: int
    var nextMember: int
    var nextList: int
    var nextTask: int
    ghost var founder: map<int, int>
    var queue: seq<Queued>

    ghost function View(): Db
      reads this
    {
      Db(users, boards, members, lists, tasks, nextBoard, nextMember, nextList, nextTask, founder)
    }

    // ---- deps.py ----

    method GetMembership(board: int, user: int) returns (found: Option<int>)
      requires Unique(View())
      ensures found == Boards.GetMembership(View(), board, user)
    {
      found := None;
      var rest := members.Keys;
      while rest != {} && found.None?
        invariant rest <= members.Keys
        invariant found.None? ==> forall id :: id in members.Keys - rest ==> !IsMembership(View(), id, board, user)
        invariant found.Some? ==> IsMembership(View(), found.value, board, user)
        decreases rest
      {
        ghost var some := AnyOf(rest);
        assert some in rest;
        var id :| id in rest;
        if members[id].board == board && members[id].user == user {
          found := Some(id);
        }
        rest := rest - {id};
      }
      if found.Some? { TheMembership(View(), found.value, board, user); }
    }

    /** 0, or the status of the exception. */
    method AuthorizeBoard(board: int, user: int, least: Role) returns (status: int)
      requires Unique(View())
      ensures status == Boards.AuthorizeBoard(View(), board, user, least)
      ensures status == 404 <==> forall id :: !IsMembership(View(), id, board, user)
      ensures forall id :: IsMembership(View(), id, board, user) ==>
                (status == 403 <==>
                   (least == Editor && members[id].role == Viewer) || (least == Owner && members[id].role != Owner))
      ensures status == 0 || status == 403 || status == 404
    {
      RoleChecks.CheckedByRole(View(), board, user, least);
      var id := GetMembership(board, user);
      status := if id.None? then 404 else if Rank(members[id.value].role) < Rank(least) then 403 else 0;
    }

    method FindUser(username: string) returns (found: Option<int>)
      ensures found.Some? ==> Named(View(), found.value, username)
      ensures found.None? ==> forall user :: !Named(View(), user, username)
    {
      found := None;
      var rest := users.Keys;
      while rest != {} && found.None?
        invariant rest <= users.Keys
        invariant found.None? ==> forall user :: user in users.Keys - rest ==> !Named(View(), user, username)
        invariant found.Some? ==> Named(View(), found.value, username)
        decreases rest
      {
        ghost var some := AnyOf(rest);
        assert some in rest;
        var user :| user in rest;
        if users[user] == username {
          found := Some(user);
        }
        rest := rest - {user};
      }
    }

    method GetAuthorizedList(list: int, user: int, least: Role) returns (status: int)
      requires Unique(View())
      ensures status == (if list !in lists then 404 else Boards.AuthorizeBoard(View(), lists[list], user, least))
    {
      if list !in lists { return 404; }
      status := AuthorizeBoard(lists[list], user, least);
    }

    /** The board comes with the task. */
    method GetAuthorizedTask(task: int, user: int, least: Role) returns (status: int, board: int)
      requires Unique(View())
      ensures BoardOf(View(), task).None? ==> status == 404
      ensures BoardOf(View(), task).Some? ==>
                board == BoardOf(View(), task).value && status == Boards.AuthorizeBoard(View(), board, user, least)
    {
      if task !in tasks || tasks[task].content.list !in lists { return 404, 0; }
      board := lists[tasks[task].content.list];
      status := AuthorizeBoard(board, user, least);
    }

    method AddBackgroundTask(board: int, event: Hub.Kind)
      modifies this`queue
      ensures queue == old(queue) + [Queued(board, event)]
    {
      queue := queue + [Queued(board, event)];
    }

    // ---- boards.py ----

    method CreateBoard(caller: int) returns (board: int)
      requires Sound(View()) && caller in users
      modifies this
      ensures (View(), 200) == Serve(old(View()), At(caller, Request.CreateBoard, 0, UNKNOWN))
      ensures Sound(View()) && queue == old(queue)
      ensures board == old(nextBoard) && IsOwner(View(), board, caller)
    {
      ghost var db := View();
      CreatedBoard(db, caller);
      board := nextBoard;
      boards, nextBoard := boards + {board}, nextBoard + 1;
      members, founder, nextMember :=
        members[nextMember := Member(caller, board, Owner)], founder[board := nextMember], nextMember + 1;
      assert View() == InsertOwnedBoard(db, caller);
      AddDefaultLists(board);
      assert View() == InsertBoard(db, caller);
    }

    method AddDefaultLists(board: int)
      modifies this`lists, this`nextList
      ensures View() == InsertLists(old(View()), board, |DEFAULT_LISTS|)
    {
      for i := 0 to |DEFAULT_LISTS|
        invariant View() == InsertLists(old(View()), board, i)
      {
        lists, nextList := lists[nextList := board], nextList + 1;
      }
    }

    method AddBoardMember(caller: int, board: int, username: string, role: Role) returns (status: int)
      requires Sound(View()) && UniqueNames(View()) && caller in users && role != Owner
      modifies this
      ensures (View(), status) == Serve(old(View()), At(caller, AddMember(board, username, role), 0, UNKNOWN))
      ensures status == 201 ==> exists user ::
                Named(View(), user, username) && queue == old(queue) + [Queued(board, Hub.MemberAdded(user))]
      ensures status != 201 ==> queue == old(queue)
    {
      ghost var db, request := View(), AddMember(board, username, role);
      status := AuthorizeBoard(board, caller, Owner);
      if status != 0 {
        Refused(db, At(caller, request, 0, UNKNOWN), status);
        return;
      }
      ghost var facts := UNKNOWN.(board := board);
      Passed(db, At(caller, request, 0, UNKNOWN), facts);
      var user := FindUser(username);
      if user.None? {
        assert View() == db;
        NobodyFound(db, At(caller, request, 1, facts), username);
        Refused(db, At(caller, request, 1, facts), 404);
        return 404;
      }
      ghost var known := facts.(user := user.value);
      Passed(db, At(caller, request, 1, facts), known);
      var member := GetMembership(board, user.value);
      if member.Some? {
        Refused(db, At(caller, request, 2, known), 409);
        return 409;
      }
      Passed(db, At(caller, request, 2, known), known);
      assert board in boards;
      members, nextMember := members[nextMember := Member(user.value, board, role)], nextMember + 1;
      AddBackgroundTask(board, Hub.MemberAdded(user.value));
      status := 201;
      assert Named(View(), user.value, username);
    }

    method GetTargetMembership(board: int, user: int) returns (status: int, row: int)
      requires Unique(View())
      ensures var id := Boards.GetMembership(View(), board, user);
              if id.None? then status == 404
              else if members[id.value].role == Owner then status == 400
              else status == 0 && id == Some(row)
    {
      row := 0;
      var id := GetMembership(board, user);
      if id.None? { return 404, row; }
      if members[id.value].role == Owner { return 400, row; }
      return 0, id.value;
    }

    method ChangeMemberRole(caller: int, board: int, user: int, role: Role) returns (status: int)
      requires Sound(View()) && caller in users && role != Owner
      modifies this
      ensures (View(), status) == Serve(old(View()), At(caller, ChangeRole(board, user, role), 0, UNKNOWN))
      ensures queue == old(queue) + if status == 200 then [Queued(board, Hub.MemberRoleChanged(user))] else []
    {
      ghost var db, request := View(), ChangeRole(board, user, role);
      status := AuthorizeBoard(board, caller, Owner);
      if status != 0 {
        Refused(db, At(caller, request, 0, UNKNOWN), status);
        return;
      }
      ghost var facts := UNKNOWN.(board := board);
      Passed(db, At(caller, request, 0, UNKNOWN), facts);
      var row;
      status, row := GetTargetMembership(board, user);
      if status != 0 {
        Refused(db, At(caller, request, 1, facts), status);
        return;
      }
      Passed(db, At(caller, request, 1, facts), facts.(row := row));
      members := members[row := members[row].(role := role)];
      AddBackgroundTask(board, Hub.MemberRoleChanged(user));
      status := 200;
    }

    method RemoveMember(caller: int, board: int, user: int) returns (status: int)
      requires Sound(View()) && caller in users
      modifies this
      ensures (View(), status) == Serve(old(View()), At(caller, Request.RemoveMember(board, user), 0, UNKNOWN))
      ensures queue == old(queue) + if status == 200 then [Queued(board, Hub.MemberRemoved(user))] else []
    {
      ghost var db, request := View(), Request.RemoveMember(board, user);
      var membership := GetMembership(board, caller);
      if membership.None? {
        Refused(db, At(caller, request, 0, UNKNOWN), 404);
        return 404;
      }
      if user != caller && members[membership.value].role != Owner {
        Refused(db, At(caller, request, 0, UNKNOWN), 403);
        return 403;
      }
      ghost var facts := UNKNOWN.(board := board);
      Passed(db, At(caller, request, 0, UNKNOWN), facts);
      var row;
      status, row := GetTargetMembership(board, user);
      if status != 0 {
        Refused(db, At(caller, request, 1, facts), status);
        return;
      }
      Passed(db, At(caller, request, 1, facts), facts.(row := row));
      members := members - {row};
      AddBackgroundTask(board, Hub.MemberRemoved(user));
      status := 200;
    }

    // ---- lists.py ----

    method CreateList(caller: int, board: int) returns (status: int)
      requires Sound(View()) && caller in users
      modifies this
      ensures (View(), status) == Serve(old(View()), At(caller, Request.CreateList(board), 0, UNKNOWN))
      ensures queue == old(queue) + if status == 200 then [Queued(board, Hub.ListCreated)] else []
    {
      ghost var db, request := View(), Request.CreateList(board);
      status := AuthorizeBoard(board, caller, Editor);
      if status != 0 {
        Refused(db, At(caller, request, 0, UNKNOWN), status);
        return;
      }
      Passed(db, At(caller, request, 0, UNKNOWN), UNKNOWN.(board := board));
      assert board in boards;
      lists, nextList := lists[nextList := board], nextList + 1;
      AddBackgroundTask(board, Hub.ListCreated);
      status := 200;
    }

    /** The database removes the list's tasks. */
    method DeleteList(caller: int, list: int) returns (status: int)
      requires Sound(View()) && caller in users
      modifies this
      ensures (View(), status) == Serve(old(View()), At(caller, Request.DeleteList(list), 0, UNKNOWN))
      ensures status == 200 ==> list in old(lists) && queue == old(queue) + [Queued(old(lists)[list], Hub.ListDeleted)]
      ensures status != 200 ==> queue == old(queue)
    {
      ghost var db, request := View(), Request.DeleteList(list);
      status := GetAuthorizedList(list, caller, Editor);
      if list !in lists {
        Refused(db, At(caller, request, 0, UNKNOWN), 404);
        return;
      }
      var board := lists[list];
      ghost var facts := UNKNOWN.(board := board);
      Passed(db, At(caller, request, 0, UNKNOWN), facts);
      if status != 0 {
        Refused(db, At(caller, request, 1, facts), status);
        return;
      }
      Passed(db, At(caller, request, 1, facts), facts);
      lists := lists - {list};
      tasks := map t | t in tasks && tasks[t].content.list != list :: tasks[t];
      AddBackgroundTask(board, Hub.ListDeleted);
      status := 200;
    }

    // ---- tasks.py ----

    method CreateTask(caller: int, content: Content) returns (status: int)
      requires Sound(View()) && caller in users
      modifies this
      ensures (View(), status) == Serve(old(View()), At(caller, Request.CreateTask(content), 0, UNKNOWN))
      ensures status == 200 ==> content.list in old(lists) && queue == old(queue) + [Queued(old(lists)[content.list], Hub.TaskCreated)]
      ensures status != 200 ==> queue == old(queue)
    {
      ghost var db, request := View(), Request.CreateTask(content);
      status := GetAuthorizedList(content.list, caller, Editor);
      if content.list !in lists {
        Refused(db, At(caller, request, 0, UNKNOWN), 404);
        return;
      }
      var board := lists[content.list];
      ghost var facts := UNKNOWN.(board := board);
      Passed(db, At(caller, request, 0, UNKNOWN), facts);
      if status != 0 {
        Refused(db, At(caller, request, 1, facts), status);
        return;
      }
      Passed(db, At(caller, request, 1, facts), facts);
      tasks, nextTask := tasks[nextTask := Task(content, 1, Some(caller))], nextTask + 1;
      AddBackgroundTask(board, Hub.TaskCreated);
      status := 200;
    }

    /** update_task_with_conflict_check with nobody else around: the UPDATE, and on zero rows
        the second look at the version. */
    method CompareAndSwap(task: int, expected: int, patch: Patch) returns (status: int)
      modifies this`tasks
      ensures (View(), status) == Commit(old(View()), At(0, Request.UpdateTask(task, expected, patch), 4, UNKNOWN))
    {
      if task in tasks && tasks[task].version == expected {
        if !Accepts(patch, tasks[task], lists.Keys) { return 500; }
        tasks := tasks[task := Updated(patch, tasks[task])];
        return 200;
      }
      status := if task in tasks then 409 else 404;
    }

    method UpdateTask(caller: int, task: int, expected: int, patch: Patch) returns (status: int)
      requires Sound(View()) && caller in users
      modifies this
      ensures (View(), status) == Serve(old(View()), At(caller, Request.UpdateTask(task, expected, patch), 0, UNKNOWN))
      ensures status == 200 ==> BoardOf(old(View()), task).Some?
                                && BoardOf(View(), task) == BoardOf(old(View()), task)
                                && queue == old(queue) + [Queued(BoardOf(View(), task).value, Hub.TaskUpdated)]
      ensures status != 200 ==> queue == old(queue)
      ensures Answers.SwapsOrLeaves(old(View()), View(), status, task, expected, patch)
    {
      Answers.UpdateSwapsOrLeaves(View(), caller, task, expected, patch);
      ghost var db, request := View(), Request.UpdateTask(task, expected, patch);
      var board;
      status, board := GetAuthorizedTask(task, caller, Editor);
      TaskChecks(db, caller, request, task, status);
      if status != 0 {
        return;
      }
      if TargetList(patch).Some? {
        var list := TargetList(patch).value;
        status := GetAuthorizedList(list, caller, Editor);
        if status == 0 && lists[list] != board {
          status := 400;
        }
        MoveChecks(db, caller, request, board, status);
        if status != 0 {
          return;
        }
      }
      status := CompareAndSwap(task, expected, patch);
      if status == 200 {
        AddBackgroundTask(board, Hub.TaskUpdated);
      }
    }

    method DeleteTask(caller: int, task: int) returns (status: int)
      requires Sound(View()) && caller in users
      modifies this
      ensures (View(), status) == Serve(old(View()), At(caller, Request.DeleteTask(task), 0, UNKNOWN))
      ensures status == 200 ==> BoardOf(old(View()), task).Some?
                                && queue == old(queue) + [Queued(BoardOf(old(View()), task).value, Hub.TaskDeleted)]
      ensures status != 200 ==> queue == old(queue)
    {
      ghost var db, request := View(), Request.DeleteTask(task);
      var board;
      status, board := GetAuthorizedTask(task, caller, Editor);
      TaskChecks(db, caller, request, task, status);
      if status != 0 {
        return;
      }
      tasks := tasks - {task};
      AddBackgroundTask(board, Hub.TaskDeleted);
      status := 200;
    }
  }
}
