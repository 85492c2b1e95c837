/** What a delete does under the foreign keys that the database declares: the rows that go are the
    least set closed under the cascading keys, a key that sets null clears its column, and any
    other key stops the delete. The keys that the migration creates give exactly the deletions the
    requests and the cleanup rely on; those it replaces stop them. */
module Cascades {
  import opened Models
  import opened Boards
  import Cleanup
  import Migration

  datatype Row = Row(table: string, id: int)

  predicate Present(db: Db, r: Row) {
    match r.table
    case "users" => r.id in db.users
    case "boards" => r.id in db.boards
    case "lists" => r.id in db.lists
    case "tasks" => r.id in db.tasks
    case "board_members" => r.id in db.members
    case _ => false
  }

  /** What the row's column refers to; None for null. */
  function Reference(db: Db, r: Row, column: string): Option<int> {
    if !Present(db, r) then None
    else if r.table == "lists" then (if column == "board_id" then Some(db.lists[r.id]) else None)
    else if r.table == "tasks" then
      if column == "list_id" then Some(db.tasks[r.id].content.list)
      else if column == "creator_id" then db.tasks[r.id].creator
      else None
    else if r.table == "board_members" then
      if column == "board_id" then Some(db.members[r.id].board)
      else if column == "user_id" then Some(db.members[r.id].user)
      else None
    else None
  }

  /** The row refers, by the key, to a row of the set. */
  predicate RefersInto(db: Db, key: Migration.ForeignKey, r: Row, gone: set<Row>) {
    && r.table == key.table && |key.columns| == 1
    && Reference(db, r, key.columns[0]).Some? && Row(key.referent, Reference(db, r, key.columns[0]).value) in gone
  }

  ghost predicate Closed(db: Db, keys: set<Migration.ForeignKey>, gone: set<Row>) {
    forall key, r :: key in keys && key.onDelete == Some("CASCADE") && RefersInto(db, key, r, gone) ==> r in gone
  }

  /** `gone` is what deleting the rows `start` takes along. */
  ghost predicate Deletes(db: Db, keys: set<Migration.ForeignKey>, start: set<Row>, gone: set<Row>) {
    && start <= gone && Closed(db, keys, gone)
    && forall other :: start <= other && Closed(db, keys, other) ==> gone <= other
  }

  /** Some row that stays refers to one that goes, by a key that neither cascades nor sets null. */
  ghost predicate Stopped(db: Db, keys: set<Migration.ForeignKey>, gone: set<Row>) {
    exists key, r :: key in keys && key.onDelete == None && r !in gone && RefersInto(db, key, r, gone)
  }

  predicate Nulls(db: Db, key: Migration.ForeignKey, r: Row, gone: set<Row>) {
    key.onDelete == Some("SET NULL") && RefersInto(db, key, r, gone)
  }

  /** `d` is `db` after deleting `start`: it has the rows that do not go, as they were but for the
      references set to null. */
  ghost predicate Deleted(db: Db, keys: set<Migration.ForeignKey>, start: set<Row>, d: Db) {
    exists gone :: Deletes(db, keys, start, gone) && !Stopped(db, keys, gone) && IsWithout(db, keys, gone, d)
  }

  ghost predicate IsWithout(db: Db, keys: set<Migration.ForeignKey>, gone: set<Row>, d: Db) {
    && (forall r :: Present(d, r) <==> Present(db, r) && r !in gone)
    && (forall r, column :: Present(d, r) ==>
          Reference(d, r, column) == if NulledBy(db, keys, r, column, gone) then None else Reference(db, r, column))
    && (forall t :: t in d.tasks && t in db.tasks ==>
          d.tasks[t].content == db.tasks[t].content && d.tasks[t].version == db.tasks[t].version)
    && (forall m :: m in d.members && m in db.members ==> d.members[m] == db.members[m])
    && (forall u :: u in d.users && u in db.users ==> d.users[u] == db.users[u])
  }

  ghost predicate NulledBy(db: Db, keys: set<Migration.ForeignKey>, r: Row, column: string, gone: set<Row>) {
    exists key :: key in keys && key.columns == [column] && Nulls(db, key, r, gone)
  }

  // ---- The declared keys, one by one ----

  function Declared(): set<Migration.ForeignKey> {
    Migration.AllKeys(Migration.FOREIGN_KEYS)
  }

  predicate Is(key: Migration.ForeignKey, table: string, column: string, referent: string, onDelete: Option<string>) {
    key.table == table && key.columns == [column] && key.referent == referent && key.onDelete == onDelete
  }

  lemma DeclaredKeys(key: Migration.ForeignKey)
    requires key in Declared()
    ensures || Is(key, "tasks", "list_id", "lists", Some("CASCADE")) || Is(key, "tasks", "creator_id", "users", Some("SET NULL"))
            || Is(key, "lists", "board_id", "boards", Some("CASCADE")) || Is(key, "board_members", "board_id", "boards", Some("CASCADE"))
            || Is(key, "board_members", "user_id", "users", Some("CASCADE"))
  {
    var i :| 0 <= i < |Migration.FOREIGN_KEYS|
             && key == Migration.KeyFor(Migration.FOREIGN_KEYS[i], Some(Migration.FOREIGN_KEYS[i].onDelete));
  }

  lemma DeclaredKey(i: nat) returns (key: Migration.ForeignKey)
    requires i < 5
    ensures key in Declared()
    ensures i == 0 ==> Is(key, "tasks", "list_id", "lists", Some("CASCADE"))
    ensures i == 1 ==> Is(key, "tasks", "creator_id", "users", Some("SET NULL"))
    ensures i == 2 ==> Is(key, "lists", "board_id", "boards", Some("CASCADE"))
    ensures i == 3 ==> Is(key, "board_members", "board_id", "boards", Some("CASCADE"))
    ensures i == 4 ==> Is(key, "board_members", "user_id", "users", Some("CASCADE"))
  {
    key := Migration.KeyFor(Migration.FOREIGN_KEYS[i], Some(Migration.FOREIGN_KEYS[i].onDelete));
  }

  lemma Names()
    ensures "tasks" != "lists" && "tasks" != "users" && "lists" != "users"
    ensures |"boards"| == 6 && |"board_members"| == 13 && |"tasks"| == 5 && |"lists"| == 5 && |"users"| == 5
    ensures |"list_id"| == 7 && |"user_id"| == 7 && |"board_id"| == 8 && |"creator_id"| == 10 && "list_id" != "user_id"
    ensures "CASCADE" != "SET NULL"
  {
    assert "tasks"[0] == 't' && "lists"[0] == 'l' && "users"[0] == 'u' && "list_id"[0] == 'l' && "user_id"[0] == 'u';
    assert |"CASCADE"| == 7 && |"SET NULL"| == 8;
  }

  /** Closed under the four cascading keys. */
  predicate ClosedUnder(db: Db, gone: set<Row>) {
    && (forall t :: t in db.tasks && Row("lists", db.tasks[t].content.list) in gone ==> Row("tasks", t) in gone)
    && (forall l :: l in db.lists && Row("boards", db.lists[l]) in gone ==> Row("lists", l) in gone)
    && (forall m :: m in db.members && (Row("boards", db.members[m].board) in gone || Row("users", db.members[m].user) in gone) ==>
          Row("board_members", m) in gone)
  }

  lemma ClosedIsClosedUnder(db: Db, gone: set<Row>)
    ensures Closed(db, Declared(), gone) <==> ClosedUnder(db, gone)
  {
    Names();
    if ClosedUnder(db, gone) {
      forall key, r | key in Declared() && key.onDelete == Some("CASCADE") && RefersInto(db, key, r, gone)
        ensures r in gone
      {
        DeclaredKeys(key);
      }
    }
    if Closed(db, Declared(), gone) {
      ClosedTasks(db, gone);
      ClosedLists(db, gone);
      ClosedMembers(db, gone);
    }
  }

  lemma ClosedTasks(db: Db, gone: set<Row>)
    requires Closed(db, Declared(), gone)
    ensures forall t :: t in db.tasks && Row("lists", db.tasks[t].content.list) in gone ==> Row("tasks", t) in gone
  {
    Names();
    var key := DeclaredKey(0);
    forall t | t in db.tasks && Row("lists", db.tasks[t].content.list) in gone
      ensures Row("tasks", t) in gone
    {
      assert RefersInto(db, key, Row("tasks", t), gone);
    }
  }

  lemma ClosedLists(db: Db, gone: set<Row>)
    requires Closed(db, Declared(), gone)
    ensures forall l :: l in db.lists && Row("boards", db.lists[l]) in gone ==> Row("lists", l) in gone
  {
    Names();
    var key := DeclaredKey(2);
    forall l | l in db.lists && Row("boards", db.lists[l]) in gone
      ensures Row("lists", l) in gone
    {
      assert RefersInto(db, key, Row("lists", l), gone);
    }
  }

  lemma ClosedMembers(db: Db, gone: set<Row>)
    requires Closed(db, Declared(), gone)
    ensures forall m :: m in db.members && (Row("boards", db.members[m].board) in gone || Row("users", db.members[m].user) in gone) ==>
              Row("board_members", m) in gone
  {
    Names();
    var board := DeclaredKey(3);
    var user := DeclaredKey(4);
    forall m | m in db.members && (Row("boards", db.members[m].board) in gone || Row("users", db.members[m].user) in gone)
      ensures Row("board_members", m) in gone
    {
      if Row("boards", db.members[m].board) in gone {
        assert RefersInto(db, board, Row("board_members", m), gone);
      } else {
        assert RefersInto(db, user, Row("board_members", m), gone);
      }
    }
  }

  lemma NothingStops(db: Db, gone: set<Row>)
    ensures !Stopped(db, Declared(), gone)
  {
    forall key | key in Declared()
      ensures key.onDelete != None
    {
      DeclaredKeys(key);
    }
  }

  /** Only a task's creator is ever set to null. */
  lemma OnlyCreatorsAreNulled(db: Db, r: Row, column: string, gone: set<Row>)
    ensures NulledBy(db, Declared(), r, column, gone) <==>
              && column == "creator_id" && r.table == "tasks" && r.id in db.tasks && db.tasks[r.id].creator.Some?
              && Row("users", db.tasks[r.id].creator.value) in gone
  {
    Names();
    if NulledBy(db, Declared(), r, column, gone) {
      var key :| key in Declared() && key.columns == [column] && Nulls(db, key, r, gone);
      DeclaredKeys(key);
      assert key.columns[0] == column;
    }
    var key := DeclaredKey(1);
    if column == "creator_id" && r.table == "tasks" && r.id in db.tasks && db.tasks[r.id].creator.Some?
       && Row("users", db.tasks[r.id].creator.value) in gone {
      assert Nulls(db, key, r, gone);
    }
  }

  /** The rows of `db` that `d` does not have. */
  function Missing(db: Db, d: Db): set<Row> {
    (set u | u in db.users && u !in d.users :: Row("users", u)) + (set b | b in db.boards && b !in d.boards :: Row("boards", b))
    + (set l | l in db.lists && l !in d.lists :: Row("lists", l)) + (set t | t in db.tasks && t !in d.tasks :: Row("tasks", t))
    + (set m | m in db.members && m !in d.members :: Row("board_members", m))
  }

  lemma MissingRows(db: Db, d: Db, r: Row)
    ensures r in Missing(db, d) <==> Present(db, r) && !Present(d, r)
  {
    Names();
  }

  /** `d` keeps rows of `db`, with the user of a deleted creator forgotten. */
  predicate Kept(db: Db, d: Db) {
    && d.users.Keys <= db.users.Keys && d.boards <= db.boards && d.lists.Keys <= db.lists.Keys
    && d.tasks.Keys <= db.tasks.Keys && d.members.Keys <= db.members.Keys
    && (forall u :: u in d.users ==> d.users[u] == db.users[u])
    && (forall l :: l in d.lists ==> d.lists[l] == db.lists[l])
    && (forall m :: m in d.members ==> d.members[m] == db.members[m])
    && (forall t :: t in d.tasks ==>
          && d.tasks[t].content == db.tasks[t].content && d.tasks[t].version == db.tasks[t].version
          && d.tasks[t].creator == if db.tasks[t].creator.Some? && db.tasks[t].creator.value in db.users
                                      && db.tasks[t].creator.value !in d.users then None else db.tasks[t].creator)
  }

  lemma KeptIsWithout(db: Db, d: Db)
    requires Kept(db, d)
    ensures IsWithout(db, Declared(), Missing(db, d), d)
  {
    var gone := Missing(db, d);
    Names();
    forall r
      ensures Present(d, r) <==> Present(db, r) && r !in gone
    {
      MissingRows(db, d, r);
    }
    forall r, column | Present(d, r)
      ensures Reference(d, r, column) == if NulledBy(db, Declared(), r, column, gone) then None else Reference(db, r, column)
    {
      KeptReference(db, d, r, column);
    }
  }

  lemma KeptReference(db: Db, d: Db, r: Row, column: string)
    requires Kept(db, d) && Present(d, r)
    ensures Reference(d, r, column) == if NulledBy(db, Declared(), r, column, Missing(db, d)) then None else Reference(db, r, column)
  {
    Names();
    OnlyCreatorsAreNulled(db, r, column, Missing(db, d));
    if r.table == "tasks" && db.tasks[r.id].creator.Some? {
      MissingRows(db, d, Row("users", db.tasks[r.id].creator.value));
    }
  }

  /** Nobody is missing from `d` but by the keys. */
  lemma IsDeleted(db: Db, start: set<Row>, d: Db)
    requires Kept(db, d) && start <= Missing(db, d) && ClosedUnder(db, Missing(db, d))
    requires forall other :: start <= other && ClosedUnder(db, other) ==> Missing(db, d) <= other
    ensures Deleted(db, Declared(), start, d)
  {
    var gone := Missing(db, d);
    ClosedIsClosedUnder(db, gone);
    forall other | start <= other && Closed(db, Declared(), other)
      ensures gone <= other
    {
      ClosedIsClosedUnder(db, other);
    }
    NothingStops(db, gone);
    KeptIsWithout(db, d);
    assert Deletes(db, Declared(), start, gone);
  }

  // ---- The deletions that requests and the script rely on ----

  /** What DELETE of a list takes along under the declared keys is what a delete-list request does. */
  lemma DropListIsDeclared(db: Db, list: int)
    requires list in db.lists
    ensures Deleted(db, Declared(), {Row("lists", list)}, DropList(db, list))
  {
    var d := DropList(db, list);
    Names();
    forall r
      ensures r in Missing(db, d) <==>
                r == Row("lists", list) || (r.table == "tasks" && r.id in db.tasks && db.tasks[r.id].content.list == list)
    {
      MissingRows(db, d, r);
    }
    IsDeleted(db, {Row("lists", list)}, d);
  }

  function BoardRows(boards: set<int>): set<Row> {
    set b | b in boards :: Row("boards", b)
  }

  lemma MissingBoardRows(db: Db, boards: set<int>, r: Row)
    requires Integrity(db) && boards <= db.boards
    ensures r in Missing(db, Cleanup.CascadeBoards(db, boards)) <==> GoesWithBoards(db, boards, r)
  {
    Names();
    MissingRows(db, Cleanup.CascadeBoards(db, boards), r);
  }

  lemma BoardRowsAreClosed(db: Db, boards: set<int>)
    requires Integrity(db) && boards <= db.boards
    ensures BoardRows(boards) <= Missing(db, Cleanup.CascadeBoards(db, boards))
    ensures ClosedUnder(db, Missing(db, Cleanup.CascadeBoards(db, boards)))
  {
    Names();
    forall r
      ensures r in Missing(db, Cleanup.CascadeBoards(db, boards)) <==> GoesWithBoards(db, boards, r)
    {
      MissingBoardRows(db, boards, r);
    }
    forall r | r in BoardRows(boards)
      ensures r in Missing(db, Cleanup.CascadeBoards(db, boards))
    {
      assert GoesWithBoards(db, boards, r);
    }
  }

  /** Deleting boards takes their lists, tasks and memberships. */
  lemma CascadeBoardsIsDeclared(db: Db, boards: set<int>)
    requires Integrity(db) && boards <= db.boards
    ensures Deleted(db, Declared(), BoardRows(boards), Cleanup.CascadeBoards(db, boards))
  {
    var d := Cleanup.CascadeBoards(db, boards);
    BoardRowsAreClosed(db, boards);
    forall other, r | BoardRows(boards) <= other && ClosedUnder(db, other) && r in Missing(db, d)
      ensures r in other
    {
      MissingBoardRows(db, boards, r);
      BoardsReach(db, boards, other, r);
    }
    assert Kept(db, d);
    IsDeleted(db, BoardRows(boards), d);
  }

  predicate GoesWithBoards(db: Db, boards: set<int>, r: Row) {
    match r.table
    case "boards" => r.id in boards
    case "lists" => r.id in db.lists && db.lists[r.id] in boards
    case "tasks" => r.id in db.tasks && db.tasks[r.id].content.list in db.lists && db.lists[db.tasks[r.id].content.list] in boards
    case "board_members" => r.id in db.members && db.members[r.id].board in boards
    case _ => false
  }

  lemma BoardsReach(db: Db, boards: set<int>, other: set<Row>, r: Row)
    requires BoardRows(boards) <= other && ClosedUnder(db, other) && GoesWithBoards(db, boards, r)
    ensures r in other
  {
    Names();
    forall b | b in boards
      ensures Row("boards", b) in other
    {
      assert Row("boards", b) in BoardRows(boards);
    }
    if r.table == "tasks" {
      assert Row("lists", db.tasks[r.id].content.list) in other;
    }
  }

  /** Deleting a user takes their memberships and leaves their tasks without a creator. */
  lemma CascadeUserIsDeclared(db: Db, user: int)
    requires Integrity(db) && user in db.users
    ensures Deleted(db, Declared(), {Row("users", user)}, Cleanup.CascadeUser(db, user))
  {
    var d := Cleanup.CascadeUser(db, user);
    Names();
    forall r
      ensures r in Missing(db, d) <==>
                r == Row("users", user) || (r.table == "board_members" && r.id in db.members && db.members[r.id].user == user)
    {
      MissingRows(db, d, r);
    }
    IsDeleted(db, {Row("users", user)}, d);
  }

  /** The cleanup script's deletions, from the bottom up, reach what deleting the owned boards and
      then the user reaches under the keys of every upgraded database. */
  lemma CleanupIsDeclared(s: Migration.Schema, db: Db, user: int)
    requires Migration.Drifted(s) && !Migration.BlockedFrom(s, 0) && Sound(db) && user in db.users
    ensures Migration.Upgraded(s).Some?
    ensures var keys := Migration.Upgraded(s).value.foreignKeys;
            var boards := set b | b in db.boards && IsOwner(db, b, user);
            exists between :: Deleted(db, keys, BoardRows(boards), between)
                              && Deleted(between, keys, {Row("users", user)}, Cleanup.BottomUp(db, user))
  {
    Migration.UpgradeReachesOneSchema(s);
    var boards := set b | b in db.boards && IsOwner(db, b, user);
    var owned := Cleanup.OwnedBoards(db, user);
    forall b
      ensures b in owned <==> b in boards
    {
      if b in db.boards { Cleanup.OwnedIsFounded(db, user, b); }
    }
    assert owned == boards;
    var between := Cleanup.CascadeBoards(db, boards);
    CascadeBoardsIsDeclared(db, boards);
    Cleanup.CascadeBoardsKeepsIntegrity(db, boards);
    CascadeUserIsDeclared(between, user);
    Cleanup.BottomUpIsCascade(db, user);
  }

  /** Some index of the table, a constraint's or its own, starts with the column. */
  ghost predicate Indexed(s: Migration.Schema, table: string, column: string) {
    || (exists ix :: ix in s.indexes && ix.table == table && ix.columns != [] && ix.columns[0] == column)
    || (exists c :: c in s.constraints && c.indexed && c.table == table && c.columns != [] && c.columns[0] == column)
  }

  /** After an upgrade every cascade finds the rows that refer to a deleted one by an index. */
  lemma CascadesAreIndexed(s: Migration.Schema, key: Migration.ForeignKey)
    requires Migration.Drifted(s) && !Migration.BlockedFrom(s, 0)
    ensures Migration.Upgraded(s).Some?
    ensures var up := Migration.Upgraded(s).value;
            key in up.foreignKeys && key.onDelete == Some("CASCADE") ==> |key.columns| == 1 && Indexed(up, key.table, key.columns[0])
  {
    Migration.UpgradeReachesOneSchema(s);
    var up := Migration.Upgraded(s).value;
    Names();
    if key in up.foreignKeys && key.onDelete == Some("CASCADE") {
      DeclaredKeys(key);
      assert Migration.LOOKUPS[0] in up.indexes && Migration.LOOKUPS[1] in up.indexes && Migration.LOOKUPS[2] in up.indexes;
      assert Migration.UNIQUE in up.constraints;
    }
  }

  /** The memberships that an upgrade leaves are unique per board and user, as requests rely on. */
  lemma UpgradeMakesMembershipsUnique(s: Migration.Schema, db: Db)
    requires Migration.Upgraded(s).Some? && db.members == Migration.Upgraded(s).value.members
    ensures Unique(db)
  {
    Migration.UpgradeSucceedsIff(s);
    Migration.DeduplicateIsUnique(s.members);
    forall m, n | m in db.members && n in db.members && SamePair(db.members[m], db.members[n])
      ensures m == n
    {
      assert Migration.SamePair(db.members[m], db.members[n]);
    }
  }

  // ---- Before the revision ----

  /** Under the initial keys a list with a task in it could not be deleted. */
  lemma PlainKeysStopDeletes(db: Db, list: int, task: int, d: Db)
    requires list in db.lists && task in db.tasks && db.tasks[task].content.list == list
    ensures !Deleted(db, Migration.InitialKeys(), {Row("lists", list)}, d)
  {
    Names();
    var keys, start := Migration.InitialKeys(), {Row("lists", list)};
    forall key | key in keys
      ensures key.onDelete == None
    {
    }
    assert Migration.HasPlainKey(0);
    var key := Migration.KeyFor(Migration.FOREIGN_KEYS[0], None);
    assert key in keys && key.columns == ["list_id"];
    forall gone | Deletes(db, keys, start, gone)
      ensures Stopped(db, keys, gone)
    {
      assert Closed(db, keys, start);
      assert gone == start;
      assert RefersInto(db, key, Row("tasks", task), gone);
    }
  }
}
