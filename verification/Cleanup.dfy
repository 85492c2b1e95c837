/** cleanup.py deletes a user's boards bottom-up; the schema declares what deleting them top-down
    would cascade to. Both end in the same database. */
module Cleanup {
  import opened Models
  import opened Boards

  function OwnedBoards(db: Db, user: int): set<int> {
    set m | m in db.members && db.members[m].user == user && db.members[m].role == Owner :: db.members[m].board
  }

  // ---- The script's statements ----

  function DeleteTasksIn(db: Db, lists: set<int>): Db {
    db.(tasks := map t | t in db.tasks && db.tasks[t].content.list !in lists :: db.tasks[t])
  }

  function DeleteListsOf(db: Db, boards: set<int>): Db {
    db.(lists := map l | l in db.lists && db.lists[l] !in boards :: db.lists[l])
  }

  function DeleteMembersOf(db: Db, boards: set<int>): Db {
    db.(members := map m | m in db.members && db.members[m].board !in boards :: db.members[m])
  }

  function DeleteBoards(db: Db, boards: set<int>): Db {
    db.(boards := db.boards - boards, founder := db.founder - boards)
  }

  function DeleteMembershipsOf(db: Db, user: int): Db {
    db.(members := map m | m in db.members && db.members[m].user != user :: db.members[m])
  }

  /** ON DELETE SET NULL on tasks.creator_id */
  function Disown(task: Task, user: int): Task {
    if task.creator == Some(user) then task.(creator := None) else task
  }

  function DeleteUser(db: Db, user: int): Db {
    db.(users := db.users - {user}, tasks := map t | t in db.tasks :: Disown(db.tasks[t], user))
  }

  function ListsOf(db: Db, boards: set<int>): set<int> {
    set l | l in db.lists && db.lists[l] in boards
  }

  /** Tasks, lists, memberships and boards, in that order. */
  function DeleteBoardsBottomUp(db: Db, boards: set<int>): Db {
    DeleteBoards(DeleteMembersOf(DeleteListsOf(DeleteTasksIn(db, ListsOf(db, boards)), boards), boards), boards)
  }

  function BottomUp(db: Db, user: int): Db {
    DeleteUser(DeleteMembershipsOf(DeleteBoardsBottomUp(db, OwnedBoards(db, user)), user), user)
  }

  // ---- The declared rules ----

  /** Deleting boards: whatever refers to a deleted row goes too. */
  function CascadeBoards(db: Db, boards: set<int>): Db {
    var lists := map l | l in db.lists && db.lists[l] in db.boards - boards :: db.lists[l];
    db.(
      boards := db.boards - boards, founder := db.founder - boards, lists := lists,
      members := map m | m in db.members && db.members[m].board in db.boards - boards :: db.members[m],
      tasks := map t | t in db.tasks && db.tasks[t].content.list in lists :: db.tasks[t])
  }

  /** Deleting a user: memberships go, tasks stay without a creator. */
  function CascadeUser(db: Db, user: int): Db {
    db.(
      users := db.users - {user},
      members := map m | m in db.members && db.members[m].user in db.users.Keys - {user} :: db.members[m],
      tasks := map t | t in db.tasks :: Disown(db.tasks[t], user))
  }

  lemma BoardsBottomUpIsCascade(db: Db, boards: set<int>)
    requires Integrity(db)
    ensures DeleteBoardsBottomUp(db, boards) == CascadeBoards(db, boards)
  {
    var a, b := DeleteBoardsBottomUp(db, boards), CascadeBoards(db, boards);
    forall l
      ensures l in a.lists <==> l in b.lists
    {
    }
    forall t
      ensures t in a.tasks <==> t in b.tasks
    {
    }
    forall m
      ensures m in a.members <==> m in b.members
    {
    }
    assert a.lists == b.lists && a.tasks == b.tasks && a.members == b.members;
  }

  lemma CascadeBoardsKeepsIntegrity(db: Db, boards: set<int>)
    requires Integrity(db)
    ensures Integrity(CascadeBoards(db, boards))
  {
  }

  /** The bottom-up deletion is the cascading one. */
  lemma BottomUpIsCascade(db: Db, user: int)
    requires Sound(db)
    ensures BottomUp(db, user) == CascadeUser(CascadeBoards(db, OwnedBoards(db, user)), user)
  {
    var owned := OwnedBoards(db, user);
    BoardsBottomUpIsCascade(db, owned);
    CascadeBoardsKeepsIntegrity(db, owned);
    var d := CascadeBoards(db, owned);
    forall m
      ensures m in DeleteMembershipsOf(d, user).members <==> m in CascadeUser(d, user).members
    {
    }
    assert DeleteMembershipsOf(d, user).members == CascadeUser(d, user).members;
  }

  /** No row refers to a board, list or user that is about to be deleted. */
  predicate Unreferenced(db: Db, boards: set<int>, lists: set<int>, users: set<int>) {
    && (forall m :: m in db.members ==> db.members[m].board !in boards && db.members[m].user !in users)
    && (forall l :: l in db.lists ==> db.lists[l] !in boards)
    && (forall t :: t in db.tasks ==> db.tasks[t].content.list !in lists)
  }

  /** When the script deletes lists no task is in them, when it deletes boards no list and no
      membership is on them, and when it deletes the user no membership is theirs: no cascade
      ever has anything to do. */
  lemma CascadesAreNeverNeeded(db: Db, boards: set<int>, user: int)
    ensures var lists := ListsOf(db, boards);
            var d1 := DeleteTasksIn(db, lists);
            var d3 := DeleteMembersOf(DeleteListsOf(d1, boards), boards);
            var d5 := DeleteMembershipsOf(DeleteBoards(d3, boards), user);
            && Unreferenced(d1, {}, lists, {}) && Unreferenced(d3, boards, {}, {}) && Unreferenced(d5, {}, {}, {user})
            && ListsOf(d1, boards) == lists
  {
  }

  lemma OwnedIsFounded(db: Db, user: int, b: int)
    requires Sound(db) && b in db.boards
    ensures b in OwnedBoards(db, user) <==> IsOwner(db, b, user)
  {
    var m := db.founder[b];
    if db.members[m].user == user {
      assert m in db.members && db.members[m].role == Owner && db.members[m].board == b;
    }
  }

  lemma CascadeUserKeepsIntegrity(db: Db, user: int)
    requires Integrity(db)
    ensures Integrity(CascadeUser(db, user))
  {
  }

  lemma SurvivorsKeepTheirOwner(db: Db, user: int, b: int)
    requires Sound(db) && b in db.boards - OwnedBoards(db, user)
    ensures var d := BottomUp(db, user);
            && b in d.founder && d.founder[b] == db.founder[b] && d.founder[b] in d.members
            && d.members[d.founder[b]] == db.members[db.founder[b]]
  {
    OwnedIsFounded(db, user, b);
  }

  lemma CleanupKeepsSound(db: Db, user: int)
    requires Sound(db)
    ensures Sound(BottomUp(db, user))
  {
    var owned := OwnedBoards(db, user);
    BottomUpIsCascade(db, user);
    CascadeBoardsKeepsIntegrity(db, owned);
    CascadeUserKeepsIntegrity(CascadeBoards(db, owned), user);
    var d := BottomUp(db, user);
    forall m | m in d.members
      ensures m in db.members && d.members[m] == db.members[m]
    {
    }
    forall b | b in d.boards
      ensures b in d.founder && d.founder[b] == db.founder[b] && d.founder[b] in d.members
           && d.members[d.founder[b]] == db.members[db.founder[b]]
    {
      SurvivorsKeepTheirOwner(db, user, b);
    }
    assert d.founder.Keys == d.boards;
  }

  /** The row stays on a board that the user does not own. */
  predicate ElsewhereList(db: Db, user: int, list: int) {
    list in db.lists && !IsOwner(db, db.lists[list], user)
  }

  /** As before, but that the user is no longer its creator. */
  predicate Disowned(before: Task, after: Task, user: int) {
    && after.content == before.content && after.version == before.version
    && (if before.creator == Some(user) then after.creator == None else after.creator == before.creator)
  }

  /** Afterwards the database is sound, the user and the boards they owned are gone with all their
      lists, tasks and memberships, and every other row is as it was but for its creator. */
  lemma CleanupIsClean(db: Db, user: int)
    requires Sound(db)
    ensures var d := BottomUp(db, user);
            && Sound(d) && d.users == db.users - {user}
            && (forall b :: b in d.boards <==> b in db.boards && !IsOwner(db, b, user))
            && (forall m :: m in d.members <==>
                  m in db.members && db.members[m].user != user && !IsOwner(db, db.members[m].board, user))
            && (forall m :: m in d.members ==> d.members[m] == db.members[m])
            && (forall l :: l in d.lists <==> ElsewhereList(db, user, l))
            && (forall l :: l in d.lists ==> d.lists[l] == db.lists[l])
            && (forall t :: t in d.tasks <==> t in db.tasks && ElsewhereList(db, user, db.tasks[t].content.list))
            && (forall t :: t in d.tasks ==> Disowned(db.tasks[t], d.tasks[t], user))
            && (forall b, u :: b in d.boards && IsOwner(db, b, u) ==> IsOwner(d, b, u))
  {
    CleanupKeepsSound(db, user);
    var d := BottomUp(db, user);
    forall b | b in db.boards
      ensures b in OwnedBoards(db, user) <==> IsOwner(db, b, user)
    {
      OwnedIsFounded(db, user, b);
    }
    forall b, u | b in d.boards && IsOwner(db, b, u)
      ensures IsOwner(d, b, u)
    {
      SurvivorsKeepTheirOwner(db, user, b);
    }
  }

  // ---- clean_user_data ----

  class Store {
    var db: Db

    constructor (db: Db)
      ensures this.db == db
    {
      this.db := db;
    }

    /** The script's deletes and its commit, up to the first that raises: `raises` numbers them
        from 1 to 7. Nothing is undone here. */
    method WipeUser(user: int, raises: Option<nat>) returns (ok: bool)
      modifies this
      ensures ok ==> db == BottomUp(old(db), user)
      ensures ok <== raises.None?
    {
      NothingOwnedNothingDeleted(db, user);
      var boardIds := OwnedBoards(db, user);
      if boardIds != {} {
        var listIds := ListsOf(db, boardIds);
        if listIds != {} {
          if raises == Some(1) { return false; }
          db := DeleteTasksIn(db, listIds);
        }
        if raises == Some(2) { return false; }
        db := DeleteListsOf(db, boardIds);
        if raises == Some(3) { return false; }
        db := DeleteMembersOf(db, boardIds);
        if raises == Some(4) { return false; }
        db := DeleteBoards(db, boardIds);
      }
      if raises == Some(5) { return false; }
      db := DeleteMembershipsOf(db, user);
      if raises == Some(6) { return false; }
      db := DeleteUser(db, user);
      ok := raises != Some(7);
    }

    /** All of it, or nothing: when a statement raises, the script rolls back what came before it.
        An unknown user changes nothing. */
    method CleanUserData(username: string, ids: seq<int>, raises: Option<nat>) returns (done: bool)
      requires forall i :: 0 <= i < |ids| ==> ids[i] in db.users
      requires forall u :: u in db.users ==> u in ids
      modifies this
      ensures done ==> exists user :: Named(old(db), user, username) && db == BottomUp(old(db), user)
      ensures !done ==> db == old(db)
      ensures raises.None? ==> (done <==> exists user :: Named(old(db), user, username))
    {
      var transactionStart := db;
      var k := 0;
      while k < |ids| && db.users[ids[k]] != username
        invariant k <= |ids|
        invariant forall i :: 0 <= i < k ==> db.users[ids[i]] != username
      {
        k := k + 1;
      }
      if k == |ids| {
        return false;
      }
      assert Named(db, ids[k], username);
      done := WipeUser(ids[k], raises);
      if !done {
        db := transactionStart;
      }
    }
  }

  /** The script's two guards only skip statements that would delete nothing. */
  lemma NothingOwnedNothingDeleted(db: Db, user: int)
    ensures ListsOf(db, OwnedBoards(db, user)) == {} ==> DeleteTasksIn(db, ListsOf(db, OwnedBoards(db, user))) == db
    ensures OwnedBoards(db, user) == {} ==>
              && DeleteListsOf(db, {}) == db && DeleteMembersOf(db, {}) == db && DeleteBoards(db, {}) == db
              && ListsOf(db, {}) == {}
  {
    assert DeleteTasksIn(db, {}).tasks == db.tasks;
    assert DeleteListsOf(db, {}).lists == db.lists;
    assert DeleteMembersOf(db, {}).members == db.members;
    assert db.boards - {} == db.boards && db.founder - {} == db.founder;
  }
}
