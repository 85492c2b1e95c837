/** Every request that changes what GET /boards/{id}/tasks or /lists returns for some board publishes
    an event on that board that makes open pages refetch that view. */
module Announcements {
  import opened Models
  import opened Boards
  import opened Unwinding
  import opened RoleChecks
  import opened Answers
  import Hub
  import Convergence

  /** A background task: publish_event(board, event). */
  datatype Queued = Queued(board: int, event: Hub.Kind)

  predicate ListShown(db: Db, board: int, list: int) {
    list in db.lists && db.lists[list] == board
  }

  predicate TaskShown(db: Db, board: int, task: int) {
    task in db.tasks && ListShown(db, board, db.tasks[task].content.list)
  }

  /** The view of the board returns other rows. */
  ghost predicate Changes(db: Db, d: Db, board: int, v: Convergence.View) {
    match v
    case Tasks =>
      exists t :: TaskShown(db, board, t) != TaskShown(d, board, t) || (TaskShown(db, board, t) && db.tasks[t] != d.tasks[t])
    case Lists => exists l :: ListShown(db, board, l) != ListShown(d, board, l)
  }

  predicate Announced(events: seq<Queued>, board: int, v: Convergence.View) {
    exists i :: 0 <= i < |events| && events[i].board == board && Convergence.Affects(events[i].event, v)
  }

  ghost predicate AllAnnounced(db: Db, d: Db, events: seq<Queued>) {
    forall board, v :: Changes(db, d, board, v) ==> Announced(events, board, v)
  }

  lemma NoChange(db: Db, events: seq<Queued>)
    ensures AllAnnounced(db, db, events)
  {
  }

  lemma CreateTaskAnnounced(db: Db, caller: int, content: Content, events: seq<Queued>)
    requires Sound(db)
    requires Answer(db, caller, CreateTask(content)).1 == 200 ==>
               content.list in db.lists && events == [Queued(db.lists[content.list], Hub.TaskCreated)]
    ensures AllAnnounced(db, Answer(db, caller, CreateTask(content)).0, events)
  {
    CreateTaskAnswer(db, caller, content);
    if Answer(db, caller, CreateTask(content)).1 == 200 { assert events[0].event == Hub.TaskCreated; }
  }

  lemma UpdateTaskAnnounced(db: Db, caller: int, task: int, expected: int, patch: Patch, events: seq<Queued>)
    requires Sound(db)
    requires Answer(db, caller, UpdateTask(task, expected, patch)).1 == 200 ==>
               BoardOf(db, task).Some? && events == [Queued(BoardOf(db, task).value, Hub.TaskUpdated)]
               && BoardOf(Answer(db, caller, UpdateTask(task, expected, patch)).0, task) == BoardOf(db, task)
    ensures AllAnnounced(db, Answer(db, caller, UpdateTask(task, expected, patch)).0, events)
  {
    UpdateTaskAnswer(db, caller, task, expected, patch);
    if Answer(db, caller, UpdateTask(task, expected, patch)).1 == 200 { assert events[0].event == Hub.TaskUpdated; }
  }

  lemma DeleteTaskAnnounced(db: Db, caller: int, task: int, events: seq<Queued>)
    requires Sound(db)
    requires Answer(db, caller, DeleteTask(task)).1 == 200 ==>
               BoardOf(db, task).Some? && events == [Queued(BoardOf(db, task).value, Hub.TaskDeleted)]
    ensures AllAnnounced(db, Answer(db, caller, DeleteTask(task)).0, events)
  {
    DeleteTaskAnswer(db, caller, task);
    if Answer(db, caller, DeleteTask(task)).1 == 200 { assert events[0].event == Hub.TaskDeleted; }
  }

  lemma CreateListAnnounced(db: Db, caller: int, board: int, events: seq<Queued>)
    requires Sound(db)
    requires Answer(db, caller, CreateList(board)).1 == 200 ==> events == [Queued(board, Hub.ListCreated)]
    ensures AllAnnounced(db, Answer(db, caller, CreateList(board)).0, events)
  {
    CreateListAnswer(db, caller, board);
    if Answer(db, caller, CreateList(board)).1 == 200 { assert events[0].event == Hub.ListCreated; }
  }

  lemma DeleteListAnnounced(db: Db, caller: int, list: int, events: seq<Queued>)
    requires Sound(db)
    requires Answer(db, caller, DeleteList(list)).1 == 200 ==>
               list in db.lists && events == [Queued(db.lists[list], Hub.ListDeleted)]
    ensures AllAnnounced(db, Answer(db, caller, DeleteList(list)).0, events)
  {
    DeleteListAnswer(db, caller, list);
    if Answer(db, caller, DeleteList(list)).1 == 200 { assert events[0].event == Hub.ListDeleted; }
  }

  /** Requests on members leave both views of every board as they are, and a new board changes none
      of an existing board. */
  lemma OthersChangeNoView(db: Db, caller: int, request: Request, board: int, v: Convergence.View)
    requires Sound(db) && caller in db.users && UniqueNames(db)
    requires request.AddMember? || request.ChangeRole? || request.RemoveMember? || (request.CreateBoard? && board in db.boards)
    ensures !Changes(db, Answer(db, caller, request).0, board, v)
  {
    match request {
      case AddMember(b, name, role) =>
        if user :| Named(db, user, name) {
          AddMemberAnswer(db, caller, b, name, role, user);
        } else {
          AddNobodyAnswer(db, caller, b, name, role);
        }
      case ChangeRole(b, user, role) => ChangeRoleAnswer(db, caller, b, user, role);
      case RemoveMember(b, user) => RemoveMemberAnswer(db, caller, b, user);
      case CreateBoard => CreateBoardAnswer(db, caller);
      case _ => assert false;
    }
  }
}
