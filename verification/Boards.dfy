/** Boards, memberships, lists and tasks under interleaved requests. A request is a row of
    SELECTs, each of which may refuse it, and one final statement that commits; other requests
    run between any two of them. */
module Boards {
  import opened Models

  /** `founder` is history: the membership row that was inserted together with each board. */
  datatype Db = Db(
    users: map<int, string>, boards: set<int>, members: map<int, Member>, lists: map<int, int>, tasks: map<int, Task>,
    nextBoard: int, nextMember: int, nextList: int, nextTask: int, founder: map<int, int>)

  datatype Request =
    | CreateBoard
    | AddMember(board: int, username: string, role: Role)
    | ChangeRole(board: int, user: int, role: Role)
    | RemoveMember(board: int, user: int)
    | CreateList(board: int)
    | DeleteList(list: int)
    | CreateTask(content: Content)
    | UpdateTask(task: int, expected: int, patch: Patch)
    | DeleteTask(task: int)

  /** What a request has read so far: the board it is about, a membership row, a user, the board
      of the list a task is to move to. */
  datatype Facts = Facts(board: int, row: int, user: int, target: int)

  datatype Flight =
    | Running(caller: int, request: Request, stage: nat, facts: Facts)
    | Finished(status: int)

  datatype Outcome = Go(flight: Flight) | Stop(status: int)

  const UNKNOWN := Facts(0, 0, 0, 0)
  const DEFAULT_LISTS := ["To Do", "In Progress", "Done"]

  // ---- deps.py ----

  function Rank(role: Role): int {
    match role case Viewer => 0 case Editor => 1 case Owner => 2
  }

  predicate IsMembership(db: Db, id: int, board: int, user: int) {
    id in db.members && db.members[id].board == board && db.members[id].user == user
  }

  ghost function GetMembership(db: Db, board: int, user: int): (r: Option<int>)
    ensures r.Some? ==> IsMembership(db, r.value, board, user)
    ensures r.None? ==> forall id :: !IsMembership(db, id, board, user)
  {
    if exists id :: IsMembership(db, id, board, user) then
      var id :| IsMembership(db, id, board, user);
      Some(id)
    else None
  }

  /** 0 when the user may go on, otherwise the status of the refusal. */
  ghost function AuthorizeBoard(db: Db, board: int, user: int, least: Role): int {
    var id := GetMembership(db, board, user);
    if id.None? then 404
    else if Rank(db.members[id.value].role) < Rank(least) then 403
    else 0
  }

  // ---- The stages of each request ----

  function Pass(f: Flight, facts: Facts): Outcome
    requires f.Running?
  {
    Go(f.(stage := f.stage + 1, facts := facts))
  }

  ghost function Authorize(db: Db, f: Flight, board: int, least: Role): Outcome
    requires f.Running?
  {
    var status := AuthorizeBoard(db, board, f.caller, least);
    if status != 0 then Stop(status) else Pass(f, f.facts.(board := board))
  }

  function FindList(db: Db, f: Flight, list: int): Outcome
    requires f.Running?
  {
    if list !in db.lists then Stop(404) else Pass(f, f.facts.(board := db.lists[list]))
  }

  /** The join of tasks and lists on list_id. */
  function FindTask(db: Db, f: Flight, task: int): Outcome
    requires f.Running?
  {
    if task !in db.tasks || db.tasks[task].content.list !in db.lists then Stop(404)
    else Pass(f, f.facts.(board := db.lists[db.tasks[task].content.list]))
  }

  /** _get_target_membership */
  ghost function FindTarget(db: Db, f: Flight, board: int, user: int): Outcome
    requires f.Running?
  {
    var id := GetMembership(db, board, user);
    if id.None? then Stop(404)
    else if db.members[id.value].role == Owner then Stop(400)
    else Pass(f, f.facts.(row := id.value))
  }

  predicate Named(db: Db, user: int, username: string) {
    user in db.users && db.users[user] == username
  }

  ghost function FindUser(db: Db, f: Flight, username: string): Outcome
    requires f.Running?
  {
    if exists user :: Named(db, user, username) then
      var user :| Named(db, user, username);
      Pass(f, f.facts.(user := user))
    else Stop(404)
  }

  function TargetList(patch: Patch): Option<int> {
    if patch.list.Set? then patch.list.value else None
  }

  /** The number of SELECTs before the committing statement. */
  function Checks(request: Request): nat {
    match request
    case CreateBoard => 0
    case AddMember(_, _, _) => 3
    case ChangeRole(_, _, _) => 2
    case RemoveMember(_, _) => 2
    case CreateList(_) => 1
    case DeleteList(_) => 2
    case CreateTask(_) => 2
    case UpdateTask(_, _, patch) => if TargetList(patch).Some? then 4 else 2
    case DeleteTask(_) => 2
  }

  ghost function Check(db: Db, f: Flight): Outcome
    requires f.Running? && f.stage < Checks(f.request)
  {
    match f.request
    case CreateBoard => Stop(500)
    case AddMember(board, username, _) =>
      if f.stage == 0 then Authorize(db, f, board, Owner)
      else if f.stage == 1 then FindUser(db, f, username)
      else if GetMembership(db, board, f.facts.user).Some? then Stop(409)
      else Pass(f, f.facts)
    case ChangeRole(board, user, _) =>
      if f.stage == 0 then Authorize(db, f, board, Owner) else FindTarget(db, f, board, user)
    case RemoveMember(board, user) =>
      if f.stage == 1 then FindTarget(db, f, board, user)
      else
        var status := AuthorizeBoard(db, board, f.caller, Viewer);
        if status != 0 then Stop(status)
        else if user != f.caller && AuthorizeBoard(db, board, f.caller, Owner) != 0 then Stop(403)
        else Pass(f, f.facts.(board := board))
    case CreateList(board) => Authorize(db, f, board, Editor)
    case DeleteList(list) =>
      if f.stage == 0 then FindList(db, f, list) else Authorize(db, f, f.facts.board, Editor)
    case CreateTask(content) =>
      if f.stage == 0 then FindList(db, f, content.list) else Authorize(db, f, f.facts.board, Editor)
    case UpdateTask(task, _, patch) =>
      if f.stage == 0 then FindTask(db, f, task)
      else if f.stage == 1 then Authorize(db, f, f.facts.board, Editor)
      else if f.stage == 2 then
        var list := TargetList(patch).value;
        if list !in db.lists then Stop(404) else Pass(f, f.facts.(target := db.lists[list]))
      else
        var status := AuthorizeBoard(db, f.facts.target, f.caller, Editor);
        if status != 0 then Stop(status)
        else if f.facts.target != f.facts.board then Stop(400)
        else Pass(f, f.facts)
    case DeleteTask(task) =>
      if f.stage == 0 then FindTask(db, f, task) else Authorize(db, f, f.facts.board, Editor)
  }

  // ---- The committing statements ----

  function InsertMember(db: Db, m: Member): Db {
    db.(members := db.members[db.nextMember := m], nextMember := db.nextMember + 1)
  }

  function WithRole(db: Db, row: int, role: Role): Db
    requires row in db.members
  {
    db.(members := db.members[row := db.members[row].(role := role)])
  }

  function WithoutRow(db: Db, row: int): Db {
    db.(members := db.members - {row})
  }

  function InsertList(db: Db, board: int): Db {
    db.(lists := db.lists[db.nextList := board], nextList := db.nextList + 1)
  }

  function InsertLists(db: Db, board: int, count: nat): Db {
    if count == 0 then db else InsertList(InsertLists(db, board, count - 1), board)
  }

  /** A board and its owner's membership. */
  function InsertOwnedBoard(db: Db, user: int): Db {
    InsertMember(db, Member(user, db.nextBoard, Owner)).(
      boards := db.boards + {db.nextBoard}, nextBoard := db.nextBoard + 1, founder := db.founder[db.nextBoard := db.nextMember])
  }

  function InsertBoard(db: Db, user: int): Db {
    InsertLists(InsertOwnedBoard(db, user), db.nextBoard, |DEFAULT_LISTS|)
  }

  /** ON DELETE CASCADE on tasks.list_id. */
  function DropList(db: Db, list: int): Db {
    db.(lists := db.lists - {list},
        tasks := map t | t in db.tasks && db.tasks[t].content.list != list :: db.tasks[t])
  }

  /** The statement's effect and the request's status. Foreign keys, NOT NULL and the unique
      constraint are checked by the database; a violation rolls the statement back. */
  ghost function Commit(db: Db, f: Flight): (Db, int)
    requires f.Running?
  {
    match f.request
    case CreateBoard => if f.caller in db.users then (InsertBoard(db, f.caller), 200) else (db, 500)
    case AddMember(board, _, role) =>
      var user := f.facts.user;
      if board in db.boards && user in db.users && GetMembership(db, board, user).None? then
        (InsertMember(db, Member(user, board, role)), 201)
      else (db, 500)
    case ChangeRole(_, _, role) =>
      if f.facts.row in db.members then (WithRole(db, f.facts.row, role), 200) else (db, 500)
    case RemoveMember(_, _) => (WithoutRow(db, f.facts.row), 200)
    case CreateList(board) => if board in db.boards then (InsertList(db, board), 200) else (db, 500)
    case DeleteList(list) => (DropList(db, list), 200)
    case CreateTask(content) =>
      if content.list in db.lists then
        (db.(tasks := db.tasks[db.nextTask := Task(content, 1, Some(f.caller))], nextTask := db.nextTask + 1), 200)
      else (db, 500)
    case UpdateTask(task, expected, patch) =>
      if task !in db.tasks then (db, 404)
      else if db.tasks[task].version != expected then (db, 409)
      else if !Accepts(patch, db.tasks[task], db.lists.Keys) then (db, 500)
      else (db.(tasks := db.tasks[task := Updated(patch, db.tasks[task])]), 200)
    case DeleteTask(task) => (db.(tasks := db.tasks - {task}), 200)
  }

  // ---- Interleaving ----

  datatype System = System(db: Db, flights: map<int, Flight>)

  datatype Label =
    | SignUp(user: int, username: string)
    | Begin(r: int, caller: int, request: Request)
    | Resume(r: int)

  const EMPTY := Db(map[], {}, map[], map[], map[], 1, 1, 1, 1, map[])
  const START := System(EMPTY, map[])

  /** The schemas allow only these roles in a request body. */
  predicate WellFormed(request: Request) {
    match request
    case AddMember(_, _, role) => role != Owner
    case ChangeRole(_, _, role) => role != Owner
    case _ => true
  }

  ghost function Step(s: System, l: Label): System {
    match l
    case SignUp(user, username) =>
      if user in s.db.users || username in s.db.users.Values then s
      else s.(db := s.db.(users := s.db.users[user := username]))
    case Begin(r, caller, request) =>
      if r in s.flights || !WellFormed(request) || caller !in s.db.users then s
      else s.(flights := s.flights[r := Running(caller, request, 0, UNKNOWN)])
    case Resume(r) =>
      if r !in s.flights || s.flights[r].Finished? then s
      else
        var f := s.flights[r];
        if f.stage < Checks(f.request) then
          match Check(s.db, f)
          case Go(flight) => s.(flights := s.flights[r := flight])
          case Stop(status) => s.(flights := s.flights[r := Finished(status)])
        else
          var (db, status) := Commit(s.db, f);
          System(db, s.flights[r := Finished(status)])
  }

  ghost function Run(s: System, ls: seq<Label>): System
    decreases |ls|
  {
    if ls == [] then s else Run(Step(s, ls[0]), ls[1..])
  }

  // ---- What every statement keeps ----

  ghost predicate Integrity(db: Db) {
    && (forall m :: m in db.members ==> m < db.nextMember && db.members[m].board in db.boards && db.members[m].user in db.users)
    && (forall b :: b in db.boards ==> b < db.nextBoard)
    && (forall l :: l in db.lists ==> l < db.nextList && db.lists[l] in db.boards)
    && (forall t :: t in db.tasks ==> t < db.nextTask && db.tasks[t].content.list in db.lists)
  }

  predicate SamePair(a: Member, b: Member) {
    a.board == b.board && a.user == b.user
  }

  /** One membership per user and board. */
  ghost predicate Unique(db: Db) {
    forall m, n :: m in db.members && n in db.members && SamePair(db.members[m], db.members[n]) ==> m == n
  }

  /** Each board's founding membership is there and is the only owner of that board. */
  ghost predicate Owned(db: Db) {
    && db.founder.Keys == db.boards
    && (forall b :: b in db.boards ==>
          db.founder[b] in db.members && db.members[db.founder[b]].board == b && db.members[db.founder[b]].role == Owner)
    && (forall m :: m in db.members && db.members[m].role == Owner && db.members[m].board in db.boards ==>
          db.founder[db.members[m].board] == m)
  }

  ghost predicate Sound(db: Db) {
    Integrity(db) && Unique(db) && Owned(db)
  }

  predicate IsOwner(db: Db, board: int, user: int) {
    board in db.founder && db.founder[board] in db.members && db.members[db.founder[board]].user == user
  }

  function BoardOf(db: Db, task: int): Option<int> {
    if task in db.tasks && db.tasks[task].content.list in db.lists then Some(db.lists[db.tasks[task].content.list]) else None
  }

  /** `list` was on `board` when it was read: it still is if it still exists, and its id will
      not come back. */
  predicate ListFact(db: Db, list: int, board: int) {
    list < db.nextList && (list in db.lists ==> db.lists[list] == board)
  }

  predicate TaskFact(db: Db, task: int, board: int) {
    task < db.nextTask && (task in db.tasks ==> BoardOf(db, task) == Some(board))
  }

  predicate RowFact(db: Db, row: int, board: int, user: int) {
    row < db.nextMember && (row in db.members ==>
      db.members[row].board == board && db.members[row].user == user && db.members[row].role != Owner)
  }

  /** What a request learned at an earlier time and still relies on. */
  predicate Relied(db: Db, f: Flight)
    requires f.Running?
  {
    f.caller in db.users && WellFormed(f.request) &&
    match f.request
    case CreateBoard => true
    case AddMember(board, _, _) => f.stage >= 1 ==> IsOwner(db, board, f.caller)
    case ChangeRole(board, user, _) =>
      && (f.stage >= 1 ==> IsOwner(db, board, f.caller))
      && (f.stage >= 2 ==> RowFact(db, f.facts.row, board, user))
    case RemoveMember(board, user) =>
      && (f.stage >= 1 ==> f.caller == user || IsOwner(db, board, f.caller))
      && (f.stage >= 2 ==> RowFact(db, f.facts.row, board, user))
    case CreateList(_) => true
    case DeleteList(list) => f.stage >= 1 ==> ListFact(db, list, f.facts.board)
    case CreateTask(content) => f.stage >= 1 ==> ListFact(db, content.list, f.facts.board)
    case UpdateTask(task, _, patch) =>
      && (f.stage >= 1 ==> TaskFact(db, task, f.facts.board))
      && (f.stage >= 3 && TargetList(patch).Some? ==> ListFact(db, TargetList(patch).value, f.facts.target))
      && (f.stage >= 4 ==> f.facts.target == f.facts.board)
    case DeleteTask(task) => f.stage >= 1 ==> TaskFact(db, task, f.facts.board)
  }

  ghost predicate Good(s: System) {
    Sound(s.db) && forall r :: r in s.flights && s.flights[r].Running? ==> Relied(s.db, s.flights[r])
  }

  // ---- Rely and guarantee ----

  predicate OwnerKept(db: Db, db': Db, b: int)
    requires b in db.founder
  {
    && b in db'.founder && db'.founder[b] == db.founder[b]
    && (db.founder[b] in db.members ==>
          db.founder[b] in db'.members && SamePair(db'.members[db.founder[b]], db.members[db.founder[b]]))
  }

  /** What every committing statement guarantees to the requests still under way. */
  ghost predicate Rely(db: Db, db': Db) {
    && db.nextMember <= db'.nextMember && db.nextList <= db'.nextList && db.nextTask <= db'.nextTask
    && db.users.Keys <= db'.users.Keys && db.boards <= db'.boards
    && (forall b :: b in db.founder ==> OwnerKept(db, db', b))
    && (forall l :: l < db.nextList && l in db'.lists ==> l in db.lists && db'.lists[l] == db.lists[l])
    && (forall t :: t < db.nextTask && t in db'.tasks ==> t in db.tasks && BoardOf(db', t) == BoardOf(db, t))
    && (forall m :: m < db.nextMember && m in db'.members ==>
          m in db.members && SamePair(db'.members[m], db.members[m])
          && (db'.members[m].role == Owner <==> db.members[m].role == Owner))
  }

  lemma RelianceIsStable(db: Db, db': Db, f: Flight)
    requires f.Running? && Relied(db, f) && Rely(db, db')
    ensures Relied(db', f)
  {
  }

  lemma InsertListKeeps(db: Db, board: int)
    requires Sound(db) && board in db.boards
    ensures Sound(InsertList(db, board)) && Rely(db, InsertList(db, board))
  {
    var d := InsertList(db, board);
    assert forall t :: t in db.tasks ==> BoardOf(d, t) == BoardOf(db, t);
  }

  lemma {:induction false} InsertListsKeeps(db: Db, board: int, count: nat)
    requires Sound(db) && board in db.boards
    ensures var d := InsertLists(db, board, count);
            && Sound(d) && Rely(db, d) && d.boards == db.boards && d.members == db.members && d.founder == db.founder
  {
    if count == 0 {
      RelyReflexive(db);
    } else {
      var d := InsertLists(db, board, count - 1);
      InsertListsKeeps(db, board, count - 1);
      InsertListKeeps(d, board);
      RelyTransitive(db, d, InsertList(d, board));
    }
  }

  lemma InsertMemberKeeps(db: Db, m: Member)
    requires Sound(db) && m.board in db.boards && m.user in db.users && m.role != Owner
    requires forall id :: !IsMembership(db, id, m.board, m.user)
    ensures Sound(InsertMember(db, m)) && Rely(db, InsertMember(db, m))
  {
    var d := InsertMember(db, m);
    forall id | id in db.members
      ensures !SamePair(db.members[id], m)
    {
      assert !IsMembership(db, id, m.board, m.user);
    }
    assert forall t :: BoardOf(d, t) == BoardOf(db, t);
  }

  lemma InsertBoardKeeps(db: Db, user: int)
    requires Sound(db) && user in db.users
    ensures Sound(InsertBoard(db, user)) && Rely(db, InsertBoard(db, user))
    ensures IsOwner(InsertBoard(db, user), db.nextBoard, user)
  {
    var d := InsertOwnedBoard(db, user);
    InsertOwnedBoardKeeps(db, user);
    InsertListsKeeps(d, db.nextBoard, |DEFAULT_LISTS|);
    RelyTransitive(db, d, InsertBoard(db, user));
  }

  lemma InsertOwnedBoardKeeps(db: Db, user: int)
    requires Sound(db) && user in db.users
    ensures Sound(InsertOwnedBoard(db, user)) && Rely(db, InsertOwnedBoard(db, user))
    ensures IsOwner(InsertOwnedBoard(db, user), db.nextBoard, user)
  {
    NewBoardIsOwned(db, user);
    NewRowIsUnique(db, user);
    NewBoardIsNoOtherBoard(db, user);
  }

  lemma NewBoardIsNoOtherBoard(db: Db, user: int)
    requires Integrity(db)
    requires forall b :: b in db.founder ==> OwnerKept(db, InsertOwnedBoard(db, user), b)
    ensures Rely(db, InsertOwnedBoard(db, user))
  {
    var d := InsertOwnedBoard(db, user);
    assert d.lists == db.lists && d.tasks == db.tasks;
    forall t
      ensures BoardOf(d, t) == BoardOf(db, t)
    {
    }
  }

  lemma NewRowIsUnique(db: Db, user: int)
    requires Integrity(db) && Unique(db) && user in db.users
    ensures Integrity(InsertOwnedBoard(db, user)) && Unique(InsertOwnedBoard(db, user))
  {
  }

  lemma NewBoardIsOwned(db: Db, user: int)
    requires Integrity(db) && Owned(db)
    ensures Owned(InsertOwnedBoard(db, user)) && IsOwner(InsertOwnedBoard(db, user), db.nextBoard, user)
    ensures forall b :: b in db.founder ==> OwnerKept(db, InsertOwnedBoard(db, user), b)
  {
  }

  lemma RelyTransitive(a: Db, b: Db, c: Db)
    requires Rely(a, b) && Rely(b, c)
    ensures Rely(a, c)
  {
    forall t | t < a.nextTask && t in c.tasks
      ensures t in a.tasks && BoardOf(c, t) == BoardOf(a, t)
    {
      assert BoardOf(c, t) == BoardOf(b, t);
    }
  }

  lemma DropListKeeps(db: Db, list: int)
    requires Sound(db)
    ensures Sound(DropList(db, list)) && Rely(db, DropList(db, list))
  {
  }

  lemma WithRoleKeeps(db: Db, row: int, role: Role)
    requires Sound(db) && row in db.members && db.members[row].role != Owner && role != Owner
    ensures Sound(WithRole(db, row, role)) && Rely(db, WithRole(db, row, role))
  {
    var d := WithRole(db, row, role);
    assert forall m :: m in d.members <==> m in db.members;
    assert forall m :: m in db.members ==> SamePair(d.members[m], db.members[m]);
    assert Integrity(d) && Unique(d);
    forall b | b in db.boards
      ensures d.members[db.founder[b]] == db.members[db.founder[b]]
    {
      assert db.founder[b] != row;
    }
    assert Owned(d);
    assert forall t :: BoardOf(d, t) == BoardOf(db, t);
  }

  lemma WithoutRowKeeps(db: Db, row: int)
    requires Sound(db) && (row in db.members ==> db.members[row].role != Owner)
    ensures Sound(WithoutRow(db, row)) && Rely(db, WithoutRow(db, row))
  {
    var d := WithoutRow(db, row);
    assert forall m :: m in d.members <==> m in db.members && m != row;
    assert Integrity(d) && Unique(d);
    OthersKeepTheOwners(db, row);
    assert forall t :: BoardOf(d, t) == BoardOf(db, t);
  }

  lemma OthersKeepTheOwners(db: Db, row: int)
    requires Sound(db) && (row in db.members ==> db.members[row].role != Owner)
    ensures Owned(WithoutRow(db, row))
    ensures forall b :: b in db.founder ==> OwnerKept(db, WithoutRow(db, row), b)
  {
    var d := WithoutRow(db, row);
    forall b | b in db.boards
      ensures db.founder[b] in d.members && d.members[db.founder[b]] == db.members[db.founder[b]]
    {
      assert db.founder[b] != row;
    }
  }

  lemma MemberCommitKeeps(db: Db, f: Flight)
    requires Sound(db) && f.Running? && Relied(db, f) && f.stage >= Checks(f.request)
    requires f.request.AddMember? || f.request.ChangeRole? || f.request.RemoveMember?
    ensures Sound(Commit(db, f).0) && Rely(db, Commit(db, f).0)
  {
    RelyReflexive(db);
    match f.request {
      case AddMember(board, _, role) =>
        var user := f.facts.user;
        if board in db.boards && user in db.users && GetMembership(db, board, user).None? {
          InsertMemberKeeps(db, Member(user, board, role));
        }
      case ChangeRole(_, _, role) => if f.facts.row in db.members { WithRoleKeeps(db, f.facts.row, role); }
      case RemoveMember(_, _) => WithoutRowKeeps(db, f.facts.row);
      case _ => assert false;
    }
  }

  /** Replacing task rows by rows on the same boards. */
  lemma TasksFrame(db: Db, tasks: map<int, Task>, nextTask: int)
    requires Sound(db) && db.nextTask <= nextTask
    requires forall t :: t in tasks ==> t < nextTask && tasks[t].content.list in db.lists
    requires forall t :: t in tasks && t < db.nextTask ==> t in db.tasks
    requires forall t :: t in tasks && t in db.tasks ==> db.lists[tasks[t].content.list] == db.lists[db.tasks[t].content.list]
    ensures var d := db.(tasks := tasks, nextTask := nextTask); Sound(d) && Rely(db, d)
  {
    var d := db.(tasks := tasks, nextTask := nextTask);
    forall t | t < db.nextTask && t in d.tasks
      ensures t in db.tasks && BoardOf(d, t) == BoardOf(db, t)
    {
      TaskFrame(db, d, t);
    }
    SameOwners(db, d);
  }

  lemma TaskFrame(db: Db, d: Db, t: int)
    requires Integrity(db) && d.lists == db.lists && t in d.tasks && t in db.tasks && d.tasks[t].content.list in db.lists
    requires db.lists[d.tasks[t].content.list] == db.lists[db.tasks[t].content.list]
    ensures BoardOf(d, t) == BoardOf(db, t)
  {
  }

  lemma SameOwners(db: Db, d: Db)
    requires Owned(db) && d.members == db.members && d.founder == db.founder && d.boards == db.boards
    ensures Owned(d) && forall b :: b in db.founder ==> OwnerKept(db, d, b)
  {
  }

  /** The moved task stays on its board: the list was read to be there, and still is. */
  lemma MovedTaskStays(db: Db, f: Flight)
    requires Sound(db) && f.Running? && Relied(db, f) && f.stage >= Checks(f.request) && f.request.UpdateTask?
    requires f.request.task in db.tasks && Accepts(f.request.patch, db.tasks[f.request.task], db.lists.Keys)
    ensures var row := Updated(f.request.patch, db.tasks[f.request.task]);
            row.content.list in db.lists && BoardOf(db, f.request.task) == Some(db.lists[row.content.list])
  {
  }

  lemma TaskCommitKeeps(db: Db, f: Flight)
    requires Sound(db) && f.Running? && Relied(db, f) && f.stage >= Checks(f.request)
    requires f.request.CreateTask? || f.request.UpdateTask? || f.request.DeleteTask?
    ensures Sound(Commit(db, f).0) && Rely(db, Commit(db, f).0)
  {
    var d := Commit(db, f).0;
    if f.request.UpdateTask? {
      var task, patch := f.request.task, f.request.patch;
      if task in db.tasks && Accepts(patch, db.tasks[task], db.lists.Keys) {
        MovedTaskStays(db, f);
      }
    }
    TasksFrame(db, d.tasks, d.nextTask);
    assert d == db.(tasks := d.tasks, nextTask := d.nextTask);
  }

  /** Every commit keeps the database sound and what all other requests rely on. */
  lemma CommitGuarantees(db: Db, f: Flight)
    requires Sound(db) && f.Running? && Relied(db, f) && f.stage >= Checks(f.request)
    ensures Sound(Commit(db, f).0) && Rely(db, Commit(db, f).0)
  {
    match f.request {
      case CreateBoard => InsertBoardKeeps(db, f.caller);
      case CreateList(board) => if board in db.boards { InsertListKeeps(db, board); } else { RelyReflexive(db); }
      case DeleteList(list) => DropListKeeps(db, list);
      case CreateTask(_) => TaskCommitKeeps(db, f);
      case UpdateTask(_, _, _) => TaskCommitKeeps(db, f);
      case DeleteTask(_) => TaskCommitKeeps(db, f);
      case _ => MemberCommitKeeps(db, f);
    }
  }

  /** A check that passes establishes what the request goes on to rely on. */
  lemma CheckEstablishes(db: Db, f: Flight)
    requires Sound(db) && f.Running? && Relied(db, f) && f.stage < Checks(f.request) && Check(db, f).Go?
    ensures Check(db, f).flight.Running? && Relied(db, Check(db, f).flight)
  {
  }

  /** Requests that did not move keep what they rely on. */
  lemma OthersStayGood(s: System, s': System, r: int)
    requires Good(s) && Sound(s'.db) && Rely(s.db, s'.db)
    requires forall q :: q in s'.flights && q != r ==> q in s.flights && s'.flights[q] == s.flights[q]
    requires r in s'.flights && s'.flights[r].Running? ==> Relied(s'.db, s'.flights[r])
    ensures Good(s')
  {
    forall q | q in s'.flights && s'.flights[q].Running?
      ensures Relied(s'.db, s'.flights[q])
    {
      if q != r { RelianceIsStable(s.db, s'.db, s.flights[q]); }
    }
  }

  lemma ResumeKeepsGood(s: System, r: int)
    requires Good(s)
    ensures Good(Step(s, Resume(r))) && Rely(s.db, Step(s, Resume(r)).db)
  {
    RelyReflexive(s.db);
    if r in s.flights && s.flights[r].Running? {
      var f := s.flights[r];
      assert Relied(s.db, f);
      if f.stage < Checks(f.request) {
        if Check(s.db, f).Go? { CheckEstablishes(s.db, f); }
      } else {
        CommitGuarantees(s.db, f);
      }
      OthersStayGood(s, Step(s, Resume(r)), r);
    }
  }

  lemma SignUpKeeps(db: Db, users: map<int, string>)
    requires Sound(db) && db.users.Keys <= users.Keys
    ensures Sound(db.(users := users)) && Rely(db, db.(users := users))
  {
    assert forall t :: BoardOf(db.(users := users), t) == BoardOf(db, t);
  }

  lemma StepKeepsGood(s: System, l: Label)
    requires Good(s)
    ensures Good(Step(s, l)) && Rely(s.db, Step(s, l).db)
  {
    match l {
      case SignUp(user, username) =>
        RelyReflexive(s.db);
        SignUpKeeps(s.db, s.db.users[user := username]);
        var s' := Step(s, l);
        forall q | q in s'.flights && s'.flights[q].Running?
          ensures Relied(s'.db, s'.flights[q])
        {
          RelianceIsStable(s.db, s'.db, s.flights[q]);
        }
      case Begin(r, _, _) =>
        RelyReflexive(s.db);
        OthersStayGood(s, Step(s, l), r);
      case Resume(r) => ResumeKeepsGood(s, r);
    }
  }

  lemma RelyReflexive(db: Db)
    requires Sound(db)
    ensures Rely(db, db)
  {
  }

  lemma {:induction false} RunKeepsGood(s: System, ls: seq<Label>)
    requires Good(s)
    ensures Good(Run(s, ls)) && Rely(s.db, Run(s, ls).db)
    decreases |ls|
  {
    if ls == [] {
      RelyReflexive(s.db);
    } else {
      StepKeepsGood(s, ls[0]);
      RunKeepsGood(Step(s, ls[0]), ls[1..]);
      RelyTransitive(s.db, Step(s, ls[0]).db, Run(s, ls).db);
    }
  }

  // ---- What follows for every run ----

  /** In every reachable state a board has exactly one owner and nobody is on a board twice;
      from any such state on, whatever requests interleave, the owner is never replaced. */
  lemma OneOwnerForever(before: seq<Label>, after: seq<Label>, board: int) returns (owner: int)
    requires board in Run(START, before).db.boards
    ensures var db, later := Run(START, before).db, Run(Run(START, before), after).db;
            && Unique(db) && Unique(later)
            && owner in db.members && owner in later.members && later.members[owner] == db.members[owner]
            && (forall m :: m in db.members ==>
                  (db.members[m].board == board && db.members[m].role == Owner <==> m == owner))
            && (forall m :: m in later.members ==>
                  (later.members[m].board == board && later.members[m].role == Owner <==> m == owner))
  {
    RunKeepsGood(START, before);
    RunKeepsGood(Run(START, before), after);
    var db := Run(START, before).db;
    owner := db.founder[board];
    assert IsOwner(db, board, db.members[owner].user);
  }

  /** However moves, list deletions and creations interleave, a task that lives on is on the
      board it always was on. */
  lemma TasksNeverChangeBoard(before: seq<Label>, after: seq<Label>, task: int)
    requires task in Run(START, before).db.tasks
    requires task in Run(Run(START, before), after).db.tasks
    ensures BoardOf(Run(START, before).db, task).Some?
    ensures BoardOf(Run(Run(START, before), after).db, task) == BoardOf(Run(START, before).db, task)
    ensures var db := Run(START, before).db;
            && BoardOf(db, task).value in db.boards
            && (forall t :: t in db.tasks ==> db.tasks[t].content.list in db.lists)
            && (forall l :: l in db.lists ==> db.lists[l] in db.boards)
  {
    RunKeepsGood(START, before);
    RunKeepsGood(Run(START, before), after);
  }

  /** A membership row that a commit adds, changes or removes. */
  predicate Touches(db: Db, db': Db, m: int) {
    (m in db.members) != (m in db'.members) || (m in db.members && m in db'.members && db.members[m] != db'.members[m])
  }

  function RowOf(db: Db, db': Db, m: int): Member
    requires m in db.members || m in db'.members
  {
    if m in db.members then db.members[m] else db'.members[m]
  }

  /** At the moment a membership is added, changed or removed by a request of `caller` on an
      existing board, `caller` is that board's owner, or is leaving it and is not its owner;
      the row is not the owner's. The check was made earlier, but is as good as one made now. */
  lemma MemberWritesAreAuthorizedAtCommit(before: seq<Label>, r: int, m: int)
    requires var s := Run(START, before);
             && r in s.flights && s.flights[r].Running? && !s.flights[r].request.CreateBoard?
             && Touches(s.db, Step(s, Resume(r)).db, m)
    ensures var s := Run(START, before);
            WrittenByRight(s.db, Step(s, Resume(r)).db, s.flights[r].caller, m)
  {
    RunKeepsGood(START, before);
    var s := Run(START, before);
    var f := s.flights[r];
    assert Relied(s.db, f);
    assert f.stage >= Checks(f.request);
    CommitWritesByRight(s.db, f, m);
  }

  /** A row that is no owner's, written by the owner of its board or removed by its own user. */
  predicate WrittenByRight(db: Db, db': Db, caller: int, m: int)
    requires m in db.members || m in db'.members
  {
    var row := RowOf(db, db', m);
    && row.role != Owner
    && (IsOwner(db, row.board, caller) || (m in db.members && m !in db'.members && row.user == caller))
  }

  lemma AddMemberWrites(db: Db, f: Flight, m: int)
    requires Sound(db) && f.Running? && Relied(db, f) && f.stage >= Checks(f.request) && f.request.AddMember?
    requires Touches(db, Commit(db, f).0, m)
    ensures WrittenByRight(db, Commit(db, f).0, f.caller, m)
  {
  }

  lemma ChangeRoleWrites(db: Db, f: Flight, m: int)
    requires Sound(db) && f.Running? && Relied(db, f) && f.stage >= Checks(f.request) && f.request.ChangeRole?
    requires Touches(db, Commit(db, f).0, m)
    ensures WrittenByRight(db, Commit(db, f).0, f.caller, m)
  {
  }

  lemma RemoveMemberWrites(db: Db, f: Flight, m: int)
    requires Sound(db) && f.Running? && Relied(db, f) && f.stage >= Checks(f.request) && f.request.RemoveMember?
    requires Touches(db, Commit(db, f).0, m)
    ensures WrittenByRight(db, Commit(db, f).0, f.caller, m)
  {
  }

  lemma CommitWritesByRight(db: Db, f: Flight, m: int)
    requires Sound(db) && f.Running? && Relied(db, f) && f.stage >= Checks(f.request) && !f.request.CreateBoard?
    requires Touches(db, Commit(db, f).0, m)
    ensures WrittenByRight(db, Commit(db, f).0, f.caller, m)
  {
    match f.request {
      case AddMember(_, _, _) => AddMemberWrites(db, f, m);
      case ChangeRole(_, _, _) => ChangeRoleWrites(db, f, m);
      case RemoveMember(_, _) => RemoveMemberWrites(db, f, m);
      case _ => assert false;
    }
  }

  /** The board a request on a list or task learned before its commit. */
  predicate OnBoard(request: Request, db: Db, board: int) {
    match request
    case DeleteList(list) => list in db.lists ==> db.lists[list] == board
    case CreateTask(content) => content.list in db.lists ==> db.lists[content.list] == board
    case UpdateTask(task, _, _) => task in db.tasks ==> BoardOf(db, task) == Some(board)
    case DeleteTask(task) => task in db.tasks ==> BoardOf(db, task) == Some(board)
    case _ => true
  }

  /** The board that was authorized, and on whose channel the event is published, is the board
      the list or task is on just before and just after the commit. */
  lemma BoardReadBeforeIsBoardAtCommit(before: seq<Label>, r: int)
    requires var s := Run(START, before); r in s.flights && s.flights[r].Running? && s.flights[r].stage >= Checks(s.flights[r].request)
    ensures var s := Run(START, before);
            var f := s.flights[r];
            && OnBoard(f.request, s.db, f.facts.board)
            && (!f.request.CreateTask? ==> OnBoard(f.request, Step(s, Resume(r)).db, f.facts.board))
  {
    RunKeepsGood(START, before);
    var s := Run(START, before);
    StepKeepsGood(s, Resume(r));
    assert Relied(s.db, s.flights[r]);
    RelianceIsStable(s.db, Step(s, Resume(r)).db, s.flights[r]);
  }

  lemma TheMembership(db: Db, id: int, board: int, user: int)
    requires Unique(db) && IsMembership(db, id, board, user)
    ensures GetMembership(db, board, user) == Some(id)
  {
    var found := GetMembership(db, board, user);
    assert found.Some?;
    assert SamePair(db.members[found.value], db.members[id]);
  }

  lemma OwnersRowStays(db: Db, later: Db, row: int)
    requires Sound(db) && Rely(db, later) && row in db.members && db.members[row].role == Owner
    ensures row in later.members && later.members[row].role == Owner
  {
    assert db.founder[db.members[row].board] == row;
    assert OwnerKept(db, later, db.members[row].board);
  }

  /** Task writes rely on a role check that may lapse: an editor demoted between the check and the
      commit still lands the write that was under way. */
  lemma DemotedEditorStillLandsOneWrite(s: System, owner: int, editor: int, row: int, board: int, task: int)
    requires Good(s) && 1 !in s.flights && 2 !in s.flights
    requires IsOwner(s.db, board, owner) && BoardOf(s.db, task) == Some(board)
    requires IsMembership(s.db, row, board, editor) && s.db.members[row].role == Editor
    ensures var checked := Run(s, [Begin(1, editor, DeleteTask(task)), Resume(1), Resume(1)]);
            var demoted := Run(checked, [Begin(2, owner, ChangeRole(board, editor, Viewer)), Resume(2), Resume(2), Resume(2)]);
            var done := Step(demoted, Resume(1));
            && row in demoted.db.members && demoted.db.members[row].role == Viewer && task in demoted.db.tasks
            && 1 in done.flights && done.flights[1] == Finished(200) && task !in done.db.tasks
  {
    DeleteIsChecked(s, editor, row, board, task);
    var checked := Run(s, [Begin(1, editor, DeleteTask(task)), Resume(1), Resume(1)]);
    RoleIsChanged(checked, owner, editor, row, board);
  }

  lemma DeleteIsChecked(s: System, editor: int, row: int, board: int, task: int)
    requires Good(s) && 1 !in s.flights && BoardOf(s.db, task) == Some(board)
    requires IsMembership(s.db, row, board, editor) && s.db.members[row].role == Editor
    ensures Run(s, [Begin(1, editor, DeleteTask(task)), Resume(1), Resume(1)])
         == s.(flights := s.flights[1 := Running(editor, DeleteTask(task), 2, UNKNOWN.(board := board))])
  {
    TheMembership(s.db, row, board, editor);
    var ls := [Begin(1, editor, DeleteTask(task)), Resume(1), Resume(1)];
    var s1 := Step(s, ls[0]);
    var s2 := Step(s1, ls[1]);
    var s3 := Step(s2, ls[2]);
    assert s2.flights[1] == Running(editor, DeleteTask(task), 1, UNKNOWN.(board := board));
    assert s3.flights[1] == Running(editor, DeleteTask(task), 2, UNKNOWN.(board := board));
    assert Run(s, ls) == Run(s1, ls[1..]) == Run(s2, ls[1..][1..]) == Run(s3, ls[1..][1..][1..]) == s3;
  }

  lemma RoleIsChanged(s: System, owner: int, editor: int, row: int, board: int)
    requires Sound(s.db) && 2 !in s.flights && IsOwner(s.db, board, owner)
    requires IsMembership(s.db, row, board, editor) && s.db.members[row].role == Editor
    ensures Run(s, [Begin(2, owner, ChangeRole(board, editor, Viewer)), Resume(2), Resume(2), Resume(2)])
         == System(WithRole(s.db, row, Viewer), s.flights[2 := Finished(200)])
  {
    TheMembership(s.db, row, board, editor);
    TheMembership(s.db, s.db.founder[board], board, owner);
    var ms := [Begin(2, owner, ChangeRole(board, editor, Viewer)), Resume(2), Resume(2), Resume(2)];
    var t1 := Step(s, ms[0]);
    var t2 := Step(t1, ms[1]);
    var t3 := Step(t2, ms[2]);
    var t4 := Step(t3, ms[3]);
    assert t2.flights[2] == Running(owner, ChangeRole(board, editor, Viewer), 1, UNKNOWN.(board := board));
    assert t3.flights[2] == Running(owner, ChangeRole(board, editor, Viewer), 2, UNKNOWN.(board := board, row := row));
    var rest := ms[1..][1..];
    assert Run(s, ms) == Run(t1, ms[1..]) == Run(t2, rest) == Run(t3, rest[1..]) == Run(t4, rest[1..][1..]) == t4;
  }
}
