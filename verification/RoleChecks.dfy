/** Writes to lists and tasks are authorized by an earlier check. Which requests, committed between
    the check and the write, make the difference. */
module RoleChecks {
  import opened Models
  import opened Boards

  ghost function RoleOf(db: Db, board: int, user: int): Option<Role> {
    var id := GetMembership(db, board, user);
    if id.None? then None else Some(db.members[id.value].role)
  }

  predicate CanEdit(role: Option<Role>) {
    role == Some(Editor) || role == Some(Owner)
  }

  /** What the check of a role says, in terms of roles. */
  lemma CheckedByRole(db: Db, board: int, user: int, least: Role)
    requires Unique(db)
    ensures var status, role := AuthorizeBoard(db, board, user, least), RoleOf(db, board, user);
            && (status == 404 <==> role == None)
            && (status == 0 || status == 403 || status == 404)
            && (status == 0 <==> match least
                                 case Viewer => role.Some?
                                 case Editor => CanEdit(role)
                                 case Owner => role == Some(Owner))
    ensures RoleOf(db, board, user) == None <==> forall id :: !IsMembership(db, id, board, user)
    ensures forall id :: IsMembership(db, id, board, user) ==> RoleOf(db, board, user) == Some(db.members[id].role)
  {
    forall id | IsMembership(db, id, board, user)
      ensures RoleOf(db, board, user) == Some(db.members[id].role)
    {
      RoleOfRow(db, id, board, user);
    }
  }

  /** What a step makes of a user's role on a board. */
  datatype Change = Untouched | Became(role: Role) | Left

  function After(change: Change, role: Option<Role>): Option<Role> {
    match change
    case Untouched => role
    case Became(r) => Some(r)
    case Left => None
  }

  /** The step commits an invitation, a role change or a removal of that user on that board. A
      removal counts if its DELETE still finds the row it is to delete. */
  ghost function ChangeBy(s: System, l: Label, board: int, user: int): Change {
    if !l.Resume? || l.r !in s.flights || s.flights[l.r].Finished? then Untouched
    else
      var f := s.flights[l.r];
      if f.stage < Checks(f.request) then Untouched
      else match f.request
        case AddMember(b, _, role) =>
          if b == board && f.facts.user == user && Commit(s.db, f).1 == 201 then Became(role) else Untouched
        case ChangeRole(b, u, role) =>
          if b == board && u == user && Commit(s.db, f).1 == 200 then Became(role) else Untouched
        case RemoveMember(b, u) =>
          if b == board && u == user && f.facts.row in s.db.members then Left else Untouched
        case _ => Untouched
  }

  /** The last such commit in a schedule. */
  ghost function LastChange(s: System, ls: seq<Label>, board: int, user: int): Change
    decreases |ls|
  {
    if ls == [] then Untouched
    else
      var later := LastChange(Step(s, ls[0]), ls[1..], board, user);
      if later.Untouched? then ChangeBy(s, ls[0], board, user) else later
  }

  // ---- One step ----

  lemma RoleOfRow(db: Db, id: int, board: int, user: int)
    requires Unique(db) && IsMembership(db, id, board, user)
    ensures RoleOf(db, board, user) == Some(db.members[id].role)
  {
    TheMembership(db, id, board, user);
  }

  /** The pair's row, if any, is as it was. */
  lemma SameRole(db: Db, db': Db, board: int, user: int)
    requires Unique(db) && Unique(db')
    requires forall id :: IsMembership(db, id, board, user) <==> IsMembership(db', id, board, user)
    requires forall id :: IsMembership(db, id, board, user) ==> id in db'.members && db'.members[id].role == db.members[id].role
    ensures RoleOf(db', board, user) == RoleOf(db, board, user)
  {
    var id := GetMembership(db, board, user);
    if id.Some? { RoleOfRow(db', id.value, board, user); }
  }

  lemma AddMemberChanges(db: Db, f: Flight, board: int, user: int)
    requires Sound(db) && f.Running? && f.request.AddMember? && Relied(db, f) && f.stage >= Checks(f.request)
    ensures RoleOf(Commit(db, f).0, board, user)
         == if f.request.board == board && f.facts.user == user && Commit(db, f).1 == 201 then Some(f.request.role)
            else RoleOf(db, board, user)
  {
    CommitGuarantees(db, f);
    var d := Commit(db, f).0;
    if Commit(db, f).1 == 201 && f.request.board == board && f.facts.user == user {
      RoleOfRow(d, db.nextMember, board, user);
    } else {
      SameRole(db, d, board, user);
    }
  }

  lemma ChangeRoleChanges(db: Db, f: Flight, board: int, user: int)
    requires Sound(db) && f.Running? && f.request.ChangeRole? && Relied(db, f) && f.stage >= Checks(f.request)
    ensures RoleOf(Commit(db, f).0, board, user)
         == if f.request.board == board && f.request.user == user && Commit(db, f).1 == 200 then Some(f.request.role)
            else RoleOf(db, board, user)
  {
    CommitGuarantees(db, f);
    var d, row := Commit(db, f).0, f.facts.row;
    if row in db.members && f.request.board == board && f.request.user == user {
      RoleOfRow(d, row, board, user);
    } else {
      SameRole(db, d, board, user);
    }
  }

  lemma RemoveMemberChanges(db: Db, f: Flight, board: int, user: int)
    requires Sound(db) && f.Running? && f.request.RemoveMember? && Relied(db, f) && f.stage >= Checks(f.request)
    ensures RoleOf(Commit(db, f).0, board, user)
         == if f.request.board == board && f.request.user == user && f.facts.row in db.members then None
            else RoleOf(db, board, user)
  {
    CommitGuarantees(db, f);
    var d, row := Commit(db, f).0, f.facts.row;
    if row in db.members && f.request.board == board && f.request.user == user {
      forall id
        ensures !IsMembership(d, id, board, user)
      {
        assert IsMembership(d, id, board, user) ==> SamePair(db.members[id], db.members[row]);
      }
    } else {
      SameRole(db, d, board, user);
    }
  }

  lemma OtherCommitsChangeNothing(db: Db, f: Flight, board: int, user: int)
    requires Sound(db) && f.Running? && Relied(db, f) && f.stage >= Checks(f.request) && board in db.boards
    requires !f.request.AddMember? && !f.request.ChangeRole? && !f.request.RemoveMember?
    ensures RoleOf(Commit(db, f).0, board, user) == RoleOf(db, board, user)
  {
    if f.request.CreateBoard? {
      if f.caller in db.users { NewBoardChangesNothing(db, f.caller, board, user); }
    } else {
      OtherCommitsKeepMembers(db, f);
      MembersDecideRole(db, Commit(db, f).0, board, user);
    }
  }

  lemma OtherCommitsKeepMembers(db: Db, f: Flight)
    requires f.Running? && !f.request.AddMember? && !f.request.ChangeRole? && !f.request.RemoveMember? && !f.request.CreateBoard?
    ensures Commit(db, f).0.members == db.members
  {
  }

  lemma MembersDecideRole(db: Db, d: Db, board: int, user: int)
    requires Unique(db) && d.members == db.members
    ensures RoleOf(d, board, user) == RoleOf(db, board, user)
  {
    SameRole(db, d, board, user);
  }

  lemma NewBoardChangesNothing(db: Db, caller: int, board: int, user: int)
    requires Sound(db) && caller in db.users && board in db.boards
    ensures RoleOf(InsertBoard(db, caller), board, user) == RoleOf(db, board, user)
  {
    var d1, d := InsertOwnedBoard(db, caller), InsertBoard(db, caller);
    InsertOwnedBoardKeeps(db, caller);
    InsertListsKeeps(d1, db.nextBoard, |DEFAULT_LISTS|);
    assert d.members == db.members[db.nextMember := Member(caller, db.nextBoard, Owner)];
    SameRole(db, d, board, user);
  }

  lemma StepChangesRole(s: System, l: Label, board: int, user: int)
    requires Good(s) && board in s.db.boards
    ensures RoleOf(Step(s, l).db, board, user) == After(ChangeBy(s, l, board, user), RoleOf(s.db, board, user))
  {
    if l.SignUp? {
      StepKeepsGood(s, l);
      SameRole(s.db, Step(s, l).db, board, user);
    } else if l.Resume? && l.r in s.flights && s.flights[l.r].Running? {
      var f := s.flights[l.r];
      assert Relied(s.db, f);
      if f.stage >= Checks(f.request) {
        match f.request {
          case AddMember(_, _, _) => AddMemberChanges(s.db, f, board, user);
          case ChangeRole(_, _, _) => ChangeRoleChanges(s.db, f, board, user);
          case RemoveMember(_, _) => RemoveMemberChanges(s.db, f, board, user);
          case _ => OtherCommitsChangeNothing(s.db, f, board, user);
        }
      }
    }
  }

  // ---- A schedule ----

  /** A user's role on a board is what the last commit about it made it. */
  lemma {:induction false} RoleIsLastChange(s: System, ls: seq<Label>, board: int, user: int)
    requires Good(s) && board in s.db.boards
    ensures RoleOf(Run(s, ls).db, board, user) == After(LastChange(s, ls, board, user), RoleOf(s.db, board, user))
    decreases |ls|
  {
    if ls != [] {
      StepKeepsGood(s, ls[0]);
      StepChangesRole(s, ls[0], board, user);
      RoleIsLastChange(Step(s, ls[0]), ls[1..], board, user);
    }
  }

  /** The check of the caller's role in a request that writes lists or tasks; its stage. */
  function RoleStage(request: Request): Option<nat> {
    match request
    case CreateList(_) => Some(0)
    case DeleteList(_) => Some(1)
    case CreateTask(_) => Some(1)
    case UpdateTask(_, _, _) => Some(1)
    case DeleteTask(_) => Some(1)
    case _ => None
  }

  /** Request `r` stands before its role check, which will pass. */
  ghost predicate AboutToPass(s: System, r: int) {
    && r in s.flights && s.flights[r].Running?
    && RoleStage(s.flights[r].request) == Some(s.flights[r].stage)
    && Check(s.db, s.flights[r]).Go?
  }

  predicate AboutToCommit(s: System, r: int) {
    r in s.flights && s.flights[r].Running? && s.flights[r].stage >= Checks(s.flights[r].request)
  }

  /** The same request later, past its role check. */
  predicate Continues(f: Flight, g: Flight)
    requires f.Running?
  {
    g.Running? ==> g.caller == f.caller && g.request == f.request && g.stage >= f.stage && g.facts.board == f.facts.board
  }

  lemma {:induction false} FlightContinues(s: System, ls: seq<Label>, r: int)
    requires r in s.flights && s.flights[r].Running?
    requires RoleStage(s.flights[r].request).Some? && s.flights[r].stage > RoleStage(s.flights[r].request).value
    ensures r in Run(s, ls).flights && Continues(s.flights[r], Run(s, ls).flights[r])
    decreases |ls|
  {
    if ls != [] {
      var s1 := Step(s, ls[0]);
      assert r in s1.flights && Continues(s.flights[r], s1.flights[r]);
      if s1.flights[r].Running? {
        FlightContinues(s1, ls[1..], r);
      } else {
        StaysFinished(s1, ls[1..], r);
      }
    }
  }

  lemma {:induction false} StaysFinished(s: System, ls: seq<Label>, r: int)
    requires r in s.flights && s.flights[r].Finished?
    ensures r in Run(s, ls).flights && Run(s, ls).flights[r] == s.flights[r]
    decreases |ls|
  {
    if ls != [] {
      StaysFinished(Step(s, ls[0]), ls[1..], r);
    }
  }

  lemma PassedBoard(s: System, r: int)
    requires Good(s) && AboutToPass(s, r)
    ensures var s1 := Step(s, Resume(r));
            && r in s1.flights && s1.flights[r].Running? && s1.flights[r].stage == s.flights[r].stage + 1 && s1.db == s.db
            && s1.flights[r].caller == s.flights[r].caller && s1.flights[r].request == s.flights[r].request
            && s1.flights[r].facts.board in s.db.boards
            && CanEdit(RoleOf(s.db, s1.flights[r].facts.board, s.flights[r].caller))
  {
    assert Relied(s.db, s.flights[r]);
  }

  /** A write to lists or tasks whose role check passed in one state, and that is about to commit in
      a later one, is authorized then exactly if the last invitation, role change or removal of
      its caller on that board committed in between, if there was one, left the caller an editor
      or the owner. So it is authorized if there was none; and always if the caller owned the
      board. */
  lemma CommitIsAuthorizedIff(before: seq<Label>, r: int, after: seq<Label>)
    requires AboutToPass(Run(START, before), r)
    requires AboutToCommit(Run(Step(Run(START, before), Resume(r)), after), r)
    ensures var s := Run(START, before);
            var passed := Step(s, Resume(r));
            var t := Run(passed, after);
            var caller, board := t.flights[r].caller, t.flights[r].facts.board;
            && r in passed.flights && passed.flights[r].Running? && Continues(passed.flights[r], t.flights[r])
            && (CanEdit(RoleOf(t.db, board, caller)) <==>
                  match LastChange(passed, after, board, caller)
                  case Untouched => true
                  case Became(role) => role != Viewer
                  case Left => false)
            && (AuthorizeBoard(t.db, board, caller, Editor) == 0 <==> CanEdit(RoleOf(t.db, board, caller)))
            && (RoleOf(s.db, board, caller) == Some(Owner) ==> AuthorizeBoard(t.db, board, caller, Editor) == 0)
  {
    RunKeepsGood(START, before);
    var s := Run(START, before);
    PassedBoard(s, r);
    StepKeepsGood(s, Resume(r));
    var passed := Step(s, Resume(r));
    FlightContinues(passed, after, r);
    var f := passed.flights[r];
    RoleIsLastChange(passed, after, f.facts.board, f.caller);
    if RoleOf(s.db, f.facts.board, f.caller) == Some(Owner) { OwnersStay(passed, after, f.facts.board, f.caller); }
  }

  lemma OwnersStay(s: System, ls: seq<Label>, board: int, user: int)
    requires Good(s) && RoleOf(s.db, board, user) == Some(Owner)
    ensures RoleOf(Run(s, ls).db, board, user) == Some(Owner)
  {
    RunKeepsGood(s, ls);
    var row := GetMembership(s.db, board, user).value;
    OwnersRowStays(s.db, Run(s, ls).db, row);
    RoleOfRow(Run(s, ls).db, row, board, user);
  }
}
