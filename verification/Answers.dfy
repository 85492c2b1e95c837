/** What each request answers and does when it runs alone, in terms of the caller's role and of rows
    only: the meaning of the checks and statements that module Boards puts together. */
module Answers {
  import opened Models
  import opened Boards
  import opened Unwinding
  import opened RoleChecks

  ghost function Answer(db: Db, caller: int, request: Request): (Db, int) {
    Serve(db, At(caller, request, 0, UNKNOWN))
  }

  ghost function RoleAtList(db: Db, list: int, user: int): Option<Role> {
    if list in db.lists then RoleOf(db, db.lists[list], user) else None
  }

  ghost function RoleAtTask(db: Db, task: int, user: int): Option<Role> {
    if task in db.tasks then RoleAtList(db, db.tasks[task].content.list, user) else None
  }

  /** 404 for outsiders, 403 for viewers, 200 for editors and the owner; a refusal changes nothing. */
  ghost predicate EditorsOnly(db: Db, d: Db, status: int, role: Option<Role>) {
    && (status == 404 <==> role == None) && (status == 403 <==> role == Some(Viewer)) && (status == 200 <==> CanEdit(role))
    && (status != 200 ==> d == db)
  }

  lemma CreateListAnswer(db: Db, caller: int, board: int)
    requires Sound(db)
    ensures var (d, status) := Answer(db, caller, CreateList(board));
            && EditorsOnly(db, d, status, RoleOf(db, board, caller))
            && (status == 200 ==> d == db.(lists := db.lists[db.nextList := board], nextList := db.nextList + 1))
  {
    var request := CreateList(board);
    CheckedByRole(db, board, caller, Editor);
    var status := AuthorizeBoard(db, board, caller, Editor);
    if status != 0 {
      Refused(db, At(caller, request, 0, UNKNOWN), status);
    } else {
      Passed(db, At(caller, request, 0, UNKNOWN), UNKNOWN.(board := board));
    }
  }

  /** The list goes with exactly its tasks. */
  lemma DeleteListAnswer(db: Db, caller: int, list: int)
    requires Sound(db)
    ensures var (d, status) := Answer(db, caller, DeleteList(list));
            && EditorsOnly(db, d, status, RoleAtList(db, list, caller))
            && (status == 200 ==>
                  && d == db.(lists := d.lists, tasks := d.tasks) && d.lists == db.lists - {list}
                  && (forall t :: t in d.tasks <==> t in db.tasks && db.tasks[t].content.list != list)
                  && (forall t :: t in d.tasks ==> d.tasks[t] == db.tasks[t]))
  {
    var request := DeleteList(list);
    ListAnswer(db, caller, request, list);
  }

  lemma CreateTaskAnswer(db: Db, caller: int, content: Content)
    requires Sound(db)
    ensures var (d, status) := Answer(db, caller, CreateTask(content));
            && EditorsOnly(db, d, status, RoleAtList(db, content.list, caller))
            && (status == 200 ==>
                  d == db.(tasks := db.tasks[db.nextTask := Task(content, 1, Some(caller))], nextTask := db.nextTask + 1))
  {
    ListAnswer(db, caller, CreateTask(content), content.list);
  }

  /** The two checks of a request about a list. */
  lemma ListAnswer(db: Db, caller: int, request: Request, list: int)
    requires Sound(db) && (request == DeleteList(list) || (request.CreateTask? && request.content.list == list))
    ensures var role, facts := RoleAtList(db, list, caller), UNKNOWN.(board := if list in db.lists then db.lists[list] else 0);
            Answer(db, caller, request) ==
              if role == None then (db, 404) else if role == Some(Viewer) then (db, 403)
              else Commit(db, At(caller, request, 2, facts))
  {
    if list !in db.lists {
      Refused(db, At(caller, request, 0, UNKNOWN), 404);
    } else {
      var facts := UNKNOWN.(board := db.lists[list]);
      Passed(db, At(caller, request, 0, UNKNOWN), facts);
      CheckedByRole(db, facts.board, caller, Editor);
      var status := AuthorizeBoard(db, facts.board, caller, Editor);
      if status != 0 {
        Refused(db, At(caller, request, 1, facts), status);
      } else {
        Passed(db, At(caller, request, 1, facts), facts);
      }
    }
  }

  /** The two checks of a request about a task, up to what follows them. */
  lemma TaskAnswer(db: Db, caller: int, request: Request, task: int)
    requires Sound(db) && (request == DeleteTask(task) || (request.UpdateTask? && request.task == task))
    ensures var role := RoleAtTask(db, task, caller);
            Answer(db, caller, request) ==
              if role == None then (db, 404) else if role == Some(Viewer) then (db, 403)
              else Serve(db, At(caller, request, 2, UNKNOWN.(board := if BoardOf(db, task).Some? then BoardOf(db, task).value else 0)))
  {
    if BoardOf(db, task).None? {
      Refused(db, At(caller, request, 0, UNKNOWN), 404);
    } else {
      var facts := UNKNOWN.(board := BoardOf(db, task).value);
      Passed(db, At(caller, request, 0, UNKNOWN), facts);
      CheckedByRole(db, facts.board, caller, Editor);
      var status := AuthorizeBoard(db, facts.board, caller, Editor);
      if status != 0 {
        Refused(db, At(caller, request, 1, facts), status);
      } else {
        Passed(db, At(caller, request, 1, facts), facts);
      }
    }
  }

  lemma DeleteTaskAnswer(db: Db, caller: int, task: int)
    requires Sound(db)
    ensures var (d, status) := Answer(db, caller, DeleteTask(task));
            && EditorsOnly(db, d, status, RoleAtTask(db, task, caller))
            && (status == 200 ==> task in db.tasks && d == db.(tasks := db.tasks - {task}))
  {
    TaskAnswer(db, caller, DeleteTask(task), task);
  }

  // ---- Updating a task ----

  /** What the target of a move adds to the refusals: 404, 403 or 400, or 0. */
  ghost function MoveRefusal(db: Db, caller: int, task: int, patch: Patch): int {
    if TargetList(patch).None? then 0
    else
      var list := TargetList(patch).value;
      if RoleAtList(db, list, caller) == None then 404
      else if RoleAtList(db, list, caller) == Some(Viewer) then 403
      else if BoardOf(db, task) != Some(db.lists[list]) then 400
      else 0
  }

  /** The row after an update: the fields that the patch sets, and the next version. */
  predicate RowUpdated(row: Task, p: Patch, now: Task) {
    && now.version == row.version + 1 && now.creator == row.creator
    && (if p.title.Set? then Some(now.content.title) == p.title.value else now.content.title == row.content.title)
    && (if p.description.Set? then now.content.description == p.description.value
        else now.content.description == row.content.description)
    && (if p.list.Set? then Some(now.content.list) == p.list.value else now.content.list == row.content.list)
  }

  lemma MoveAnswer(db: Db, caller: int, task: int, expected: int, patch: Patch)
    requires Sound(db) && BoardOf(db, task).Some? && CanEdit(RoleAtTask(db, task, caller))
    ensures var request, refusal := UpdateTask(task, expected, patch), MoveRefusal(db, caller, task, patch);
            var facts := UNKNOWN.(board := BoardOf(db, task).value);
            Serve(db, At(caller, request, 2, facts)) ==
              if refusal != 0 then (db, refusal) else Commit(db, At(caller, request, Checks(request), facts))
  {
    var request := UpdateTask(task, expected, patch);
    var facts := UNKNOWN.(board := BoardOf(db, task).value);
    if TargetList(patch).Some? {
      var list := TargetList(patch).value;
      if list !in db.lists {
        Refused(db, At(caller, request, 2, facts), 404);
      } else {
        var more := facts.(target := db.lists[list]);
        Passed(db, At(caller, request, 2, facts), more);
        CheckedByRole(db, more.target, caller, Editor);
        var status := AuthorizeBoard(db, more.target, caller, Editor);
        if status != 0 {
          Refused(db, At(caller, request, 3, more), status);
        } else if more.target != facts.board {
          Refused(db, At(caller, request, 3, more), 400);
        } else {
          Passed(db, At(caller, request, 3, more), more);
        }
      }
    }
  }

  /** Outsiders of the task's board get 404 and viewers 403; then a move is refused by its target;
      then 409 if the version has moved on, 500 if a constraint is broken, and otherwise 200 with
      exactly the fields set that the request names. Any other status changes nothing. */
  lemma UpdateTaskAnswer(db: Db, caller: int, task: int, expected: int, patch: Patch)
    requires Sound(db)
    ensures var (d, status) := Answer(db, caller, UpdateTask(task, expected, patch));
            var role, move := RoleAtTask(db, task, caller), MoveRefusal(db, caller, task, patch);
            && (role == None ==> status == 404) && (role == Some(Viewer) ==> status == 403)
            && (CanEdit(role) ==>
                  && task in db.tasks
                  && (move != 0 ==> status == move)
                  && (move == 404 || move == 403 || move == 400 || move == 0)
                  && (status == 409 <==> move == 0 && db.tasks[task].version != expected)
                  && (status == 200 <==>
                        && move == 0 && db.tasks[task].version == expected < 2147483647
                        && patch.title != Set(None) && patch.list != Set(None)))
            && (status != 200 ==> d == db)
            && (status == 200 ==>
                  && CanEdit(role) && task in d.tasks && d == db.(tasks := db.tasks[task := d.tasks[task]])
                  && RowUpdated(db.tasks[task], patch, d.tasks[task]))
  {
    TaskAnswer(db, caller, UpdateTask(task, expected, patch), task);
    if CanEdit(RoleAtTask(db, task, caller)) { MoveAnswer(db, caller, task, expected, patch); }
  }

  /** With 200 the task had the version the request names, and that row alone changes; a 409 says
      that it has another; and any other status than 200 leaves the database as it was. */
  predicate SwapsOrLeaves(db: Db, d: Db, status: int, task: int, expected: int, patch: Patch) {
    if status == 200 then
      && task in db.tasks && db.tasks[task].version == expected && task in d.tasks
      && d == db.(tasks := db.tasks[task := d.tasks[task]]) && RowUpdated(db.tasks[task], patch, d.tasks[task])
    else
      d == db && (status == 409 ==> task in db.tasks && db.tasks[task].version != expected)
  }

  lemma UpdateSwapsOrLeaves(db: Db, caller: int, task: int, expected: int, patch: Patch)
    requires Sound(db)
    ensures var (d, status) := Serve(db, At(caller, UpdateTask(task, expected, patch), 0, UNKNOWN));
            SwapsOrLeaves(db, d, status, task, expected, patch)
  {
    UpdateTaskAnswer(db, caller, task, expected, patch);
  }

  // ---- Members ----

  /** 404 for outsiders and 403 for all other members but the owner. */
  ghost predicate OwnersOnly(db: Db, d: Db, status: int, role: Option<Role>) {
    && (role == None ==> status == 404) && (role == Some(Viewer) || role == Some(Editor) ==> status == 403)
    && (role != Some(Owner) ==> d == db)
  }

  lemma OwnerCheck(db: Db, caller: int, request: Request, board: int)
    requires Sound(db) && ((request.AddMember? && request.board == board) || (request.ChangeRole? && request.board == board))
    ensures var role := RoleOf(db, board, caller);
            Answer(db, caller, request) ==
              if role == None then (db, 404) else if role != Some(Owner) then (db, 403)
              else Serve(db, At(caller, request, 1, UNKNOWN.(board := board)))
  {
    CheckedByRole(db, board, caller, Owner);
    var status := AuthorizeBoard(db, board, caller, Owner);
    if status != 0 {
      Refused(db, At(caller, request, 0, UNKNOWN), status);
    } else {
      Passed(db, At(caller, request, 0, UNKNOWN), UNKNOWN.(board := board));
    }
  }

  /** `user` is the one of that name. */
  lemma AddMemberAnswer(db: Db, caller: int, board: int, username: string, role: Role, user: int)
    requires Sound(db) && UniqueNames(db) && Named(db, user, username)
    ensures var (d, status) := Answer(db, caller, AddMember(board, username, role));
            && OwnersOnly(db, d, status, RoleOf(db, board, caller))
            && (RoleOf(db, board, caller) == Some(Owner) ==>
                  && status == (if RoleOf(db, board, user) == None then 201 else 409)
                  && d == if status == 201
                          then db.(members := db.members[db.nextMember := Member(user, board, role)], nextMember := db.nextMember + 1)
                          else db)
  {
    var request, facts := AddMember(board, username, role), UNKNOWN.(board := board);
    OwnerCheck(db, caller, request, board);
    if RoleOf(db, board, caller) == Some(Owner) {
      var known := facts.(user := user);
      assert forall other :: Named(db, other, username) ==> other == user;
      Passed(db, At(caller, request, 1, facts), known);
      if RoleOf(db, board, user) == None {
        Passed(db, At(caller, request, 2, known), known);
      } else {
        Refused(db, At(caller, request, 2, known), 409);
      }
    }
  }

  lemma AddNobodyAnswer(db: Db, caller: int, board: int, username: string, role: Role)
    requires Sound(db) && forall user :: !Named(db, user, username)
    ensures var (d, status) := Answer(db, caller, AddMember(board, username, role));
            OwnersOnly(db, d, status, RoleOf(db, board, caller)) && d == db
            && (RoleOf(db, board, caller) == Some(Owner) ==> status == 404)
  {
    var request, facts := AddMember(board, username, role), UNKNOWN.(board := board);
    OwnerCheck(db, caller, request, board);
    if RoleOf(db, board, caller) == Some(Owner) {
      NobodyFound(db, At(caller, request, 1, facts), username);
      Refused(db, At(caller, request, 1, facts), 404);
    }
  }

  /** The pair's only row, with that role. */
  ghost predicate RowBecomes(db: Db, d: Db, board: int, user: int, role: Role) {
    exists id :: IsMembership(db, id, board, user) && d == db.(members := db.members[id := Member(user, board, role)])
  }

  ghost predicate RowGoes(db: Db, d: Db, board: int, user: int) {
    exists id :: IsMembership(db, id, board, user) && d == db.(members := db.members - {id})
  }

  lemma TargetCheck(db: Db, caller: int, request: Request, board: int, user: int, facts: Facts)
    requires Sound(db) && ((request.ChangeRole? && request.board == board && request.user == user) || request == RemoveMember(board, user))
    ensures var target := RoleOf(db, board, user);
            Serve(db, At(caller, request, 1, facts)) ==
              if target == None then (db, 404) else if target == Some(Owner) then (db, 400)
              else Commit(db, At(caller, request, 2, facts.(row := GetMembership(db, board, user).value)))
  {
    var id := GetMembership(db, board, user);
    if id.None? {
      Refused(db, At(caller, request, 1, facts), 404);
    } else if db.members[id.value].role == Owner {
      Refused(db, At(caller, request, 1, facts), 400);
    } else {
      Passed(db, At(caller, request, 1, facts), facts.(row := id.value));
    }
  }

  lemma ChangeRoleAnswer(db: Db, caller: int, board: int, user: int, role: Role)
    requires Sound(db)
    ensures var (d, status) := Answer(db, caller, ChangeRole(board, user, role));
            && OwnersOnly(db, d, status, RoleOf(db, board, caller))
            && (RoleOf(db, board, caller) == Some(Owner) ==>
                  && (status == 404 <==> RoleOf(db, board, user) == None) && (status == 400 <==> RoleOf(db, board, user) == Some(Owner))
                  && (status != 404 && status != 400 ==> status == 200 && RowBecomes(db, d, board, user, role)))
            && (status != 200 ==> d == db)
  {
    var request, facts := ChangeRole(board, user, role), UNKNOWN.(board := board);
    OwnerCheck(db, caller, request, board);
    TargetCheck(db, caller, request, board, user, facts);
    var id := GetMembership(db, board, user);
    if id.Some? {
      assert IsMembership(db, id.value, board, user);
      assert db.members[id.value].(role := role) == Member(user, board, role);
    }
  }

  /** The owner may remove anybody else, any other member only themselves; nobody the owner. */
  lemma RemoveMemberAnswer(db: Db, caller: int, board: int, user: int)
    requires Sound(db)
    ensures var (d, status) := Answer(db, caller, RemoveMember(board, user));
            var role := RoleOf(db, board, caller);
            var allowed := role == Some(Owner) || (role.Some? && user == caller);
            && (role == None ==> status == 404) && (role.Some? && !allowed <==> status == 403)
            && (allowed ==>
                  && (status == 404 <==> RoleOf(db, board, user) == None) && (status == 400 <==> RoleOf(db, board, user) == Some(Owner))
                  && (status != 404 && status != 400 ==> status == 200 && RowGoes(db, d, board, user)))
            && (status != 200 ==> d == db)
  {
    var request, facts := RemoveMember(board, user), UNKNOWN.(board := board);
    CheckedByRole(db, board, caller, Viewer);
    CheckedByRole(db, board, caller, Owner);
    var role := RoleOf(db, board, caller);
    if role == None {
      Refused(db, At(caller, request, 0, UNKNOWN), 404);
    } else if role != Some(Owner) && user != caller {
      Refused(db, At(caller, request, 0, UNKNOWN), 403);
    } else {
      Passed(db, At(caller, request, 0, UNKNOWN), facts);
      TargetCheck(db, caller, request, board, user, facts);
      var id := GetMembership(db, board, user);
      if id.Some? { assert IsMembership(db, id.value, board, user); }
    }
  }

  // ---- Boards ----

  /** A board with its owner and three lists, and nothing else. */
  lemma CreateBoardAnswer(db: Db, caller: int)
    requires Sound(db) && caller in db.users
    ensures var (d, status) := Answer(db, caller, CreateBoard);
            && status == 200 && d.boards == db.boards + {db.nextBoard} && d.nextBoard == db.nextBoard + 1
            && d.members == db.members[db.nextMember := Member(caller, db.nextBoard, Owner)] && d.nextMember == db.nextMember + 1
            && d.lists == db.lists[db.nextList := db.nextBoard][db.nextList + 1 := db.nextBoard][db.nextList + 2 := db.nextBoard]
            && d.nextList == db.nextList + 3 && d.users == db.users && d.tasks == db.tasks && d.nextTask == db.nextTask
            && RoleOf(d, db.nextBoard, caller) == Some(Owner)
  {
    var b, d0 := db.nextBoard, InsertOwnedBoard(db, caller);
    var d := InsertBoard(db, caller);
    assert InsertLists(d0, b, 1) == InsertList(InsertLists(d0, b, 0), b) && InsertLists(d0, b, 0) == d0;
    assert InsertLists(d0, b, 2) == InsertList(InsertLists(d0, b, 1), b);
    assert InsertLists(d0, b, 3) == InsertList(InsertLists(d0, b, 2), b);
    InsertBoardKeeps(db, caller);
    RoleOfRow(d, db.nextMember, b, caller);
  }
}
