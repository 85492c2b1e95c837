/** The requests on lists and tasks of module Boards are atomic operations of module TaskStore, the
    machine that the row-locking database refines; so what is proved of tasks there holds of the
    whole service. */
module TaskRequests {
  import opened Models
  import T = TaskStore
  import opened Boards
  import TaskHistory

  /** The store holds the same tasks and lists, with a history of its own. */
  ghost predicate Shows(t: T.Store, db: Db) {
    T.Valid(t) && t.tasks == db.tasks && t.lists == db.lists.Keys && t.nextTask == db.nextTask
  }

  function StatusOf(answer: T.Answer): int {
    match answer
    case Won => 200
    case Stale(current) => if current.Some? then 409 else 404
    case Rejected => 500
    case Done => 200
  }

  /** The request stands before its committing statement. */
  predicate Commits(s: System, l: Label) {
    l.Resume? && l.r in s.flights && s.flights[l.r].Running? && s.flights[l.r].stage >= Checks(s.flights[l.r].request)
  }

  /** What the committing statement of request `r` does to tasks and lists. */
  function Ops(db: Db, r: int, f: Flight): seq<T.Op>
    requires f.Running?
  {
    match f.request
    case CreateBoard =>
      if f.caller in db.users then [T.AddList(db.nextList), T.AddList(db.nextList + 1), T.AddList(db.nextList + 2)] else []
    case CreateList(board) => if board in db.boards then [T.AddList(db.nextList)] else []
    case DeleteList(list) => [T.DropList(list)]
    case CreateTask(content) => [T.Insert(content, Some(f.caller))]
    case UpdateTask(task, expected, patch) => [T.Cas(r, task, expected, patch)]
    case DeleteTask(task) => [T.Remove(task)]
    case _ => []
  }

  function StepOps(s: System, l: Label): seq<T.Op> {
    if Commits(s, l) then Ops(s.db, l.r, s.flights[l.r]) else []
  }

  ghost function RunOps(s: System, ls: seq<Label>): seq<T.Op>
    decreases |ls|
  {
    if ls == [] then [] else StepOps(s, ls[0]) + RunOps(Step(s, ls[0]), ls[1..])
  }

  // ---- One statement ----

  lemma {:induction false} ExecAllAppend(t: T.Store, a: seq<T.Op>, b: seq<T.Op>)
    ensures T.ExecAll(t, a + b) == T.ExecAll(T.ExecAll(t, a), b)
    decreases |a|
  {
    if a == [] {
      assert a + b == b;
    } else {
      assert (a + b)[1..] == a[1..] + b;
      ExecAllAppend(T.Exec(t, a[0]), a[1..], b);
    }
  }

  lemma ExecOne(t: T.Store, op: T.Op)
    ensures T.ExecAll(t, [op]) == T.Exec(t, op)
  {
    assert [op][1..] == [];
  }

  /** The UPDATE of a request is the compare-and-swap, and its status is what that answered. */
  lemma UpdateIsCompareAndSwap(t: T.Store, db: Db, f: Flight, r: int)
    requires Shows(t, db) && f.Running? && f.request.UpdateTask?
    ensures var op := T.Cas(r, f.request.task, f.request.expected, f.request.patch);
            && Shows(T.Exec(t, op), Commit(db, f).0)
            && Commit(db, f).1 == StatusOf(T.AnswerOf(t, op))
  {
    T.ExecValid(t, T.Cas(r, f.request.task, f.request.expected, f.request.patch));
  }

  lemma NewLists(t: T.Store, db: Db, user: int)
    requires Shows(t, db)
    ensures Shows(T.ExecAll(t, [T.AddList(db.nextList), T.AddList(db.nextList + 1), T.AddList(db.nextList + 2)]), InsertBoard(db, user))
  {
    var a, b, c := T.AddList(db.nextList), T.AddList(db.nextList + 1), T.AddList(db.nextList + 2);
    var t1 := T.Exec(t, a);
    var t2 := T.Exec(t1, b);
    T.ExecValid(t, a);
    T.ExecValid(t1, b);
    T.ExecValid(t2, c);
    assert T.ExecAll(t, [a, b, c]) == T.Exec(t2, c) by {
      assert [a, b, c] == [a] + ([b] + [c]);
      ExecAllAppend(t, [a], [b] + [c]);
      ExecAllAppend(t1, [b], [c]);
      ExecOne(t, a);
      ExecOne(t1, b);
      ExecOne(t2, c);
    }
    var d0 := InsertOwnedBoard(db, user);
    var d2 := InsertLists(d0, db.nextBoard, 2);
    assert d2 == InsertList(InsertList(d0, db.nextBoard), db.nextBoard) by {
      assert InsertLists(d0, db.nextBoard, 0) == d0;
      assert InsertLists(d0, db.nextBoard, 1) == InsertList(d0, db.nextBoard);
    }
    assert InsertLists(d0, db.nextBoard, 3) == InsertList(d2, db.nextBoard);
  }

  lemma ListCommitRefines(t: T.Store, db: Db, f: Flight, r: int)
    requires Shows(t, db) && f.Running? && (f.request.CreateList? || f.request.DeleteList?) && Ops(db, r, f) != []
    ensures Shows(T.Exec(t, Ops(db, r, f)[0]), Commit(db, f).0)
  {
    T.ExecValid(t, Ops(db, r, f)[0]);
  }

  lemma TaskCommitRefines(t: T.Store, db: Db, f: Flight, r: int)
    requires Shows(t, db) && f.Running? && (f.request.CreateTask? || f.request.DeleteTask?)
    ensures Shows(T.Exec(t, Ops(db, r, f)[0]), Commit(db, f).0)
  {
    T.ExecValid(t, Ops(db, r, f)[0]);
  }

  lemma MemberCommitRefines(t: T.Store, db: Db, f: Flight)
    requires Shows(t, db) && f.Running? && (f.request.AddMember? || f.request.ChangeRole? || f.request.RemoveMember?)
    ensures Shows(t, Commit(db, f).0)
  {
  }

  /** The committing statement of every request is its operations, one after the other. */
  lemma CommitRefines(t: T.Store, db: Db, f: Flight, r: int)
    requires Shows(t, db) && f.Running?
    ensures Shows(T.ExecAll(t, Ops(db, r, f)), Commit(db, f).0)
  {
    if |Ops(db, r, f)| == 1 {
      assert Ops(db, r, f) == [Ops(db, r, f)[0]];
      ExecOne(t, Ops(db, r, f)[0]);
    }
    match f.request {
      case CreateBoard => NewLists(t, db, f.caller);
      case CreateList(_) => if Ops(db, r, f) != [] { ListCommitRefines(t, db, f, r); }
      case DeleteList(_) => ListCommitRefines(t, db, f, r);
      case CreateTask(_) => TaskCommitRefines(t, db, f, r);
      case DeleteTask(_) => TaskCommitRefines(t, db, f, r);
      case UpdateTask(_, _, _) => UpdateIsCompareAndSwap(t, db, f, r);
      case _ => MemberCommitRefines(t, db, f);
    }
  }

  lemma StepRefines(t: T.Store, s: System, l: Label)
    requires Shows(t, s.db)
    ensures Shows(T.ExecAll(t, StepOps(s, l)), Step(s, l).db)
  {
    if Commits(s, l) { CommitRefines(t, s.db, s.flights[l.r], l.r); }
  }

  /** However requests interleave, the tasks and lists are those that the atomic operations of the
      committed requests, one after the other, make. */
  lemma {:induction false} RunRefines(t: T.Store, s: System, ls: seq<Label>)
    requires Shows(t, s.db)
    ensures Shows(T.ExecAll(t, RunOps(s, ls)), Run(s, ls).db)
    decreases |ls|
  {
    if ls != [] {
      StepRefines(t, s, ls[0]);
      RunRefines(T.ExecAll(t, StepOps(s, ls[0])), Step(s, ls[0]), ls[1..]);
      ExecAllAppend(t, StepOps(s, ls[0]), RunOps(Step(s, ls[0]), ls[1..]));
    }
  }

  // ---- What follows for every run of requests ----

  /** The step ends an update of the task with 200. */
  ghost predicate Lands(s: System, l: Label, task: int) {
    && Commits(s, l) && s.flights[l.r].request.UpdateTask? && s.flights[l.r].request.task == task
    && Commit(s.db, s.flights[l.r]).1 == 200
  }

  ghost function Landed(s: System, ls: seq<Label>, task: int): nat
    decreases |ls|
  {
    if ls == [] then 0 else (if Lands(s, ls[0], task) then 1 else 0) + Landed(Step(s, ls[0]), ls[1..], task)
  }

  /** An update ends with 200 exactly if the task is there with the version the request names and no
      constraint is broken; with 409 exactly if it is there with another version, with 404 exactly
      if it is gone. Only with 200 does it change anything, and then only this task, whose version
      becomes the next one. */
  lemma UpdateLandsIff(db: Db, f: Flight)
    requires Sound(db) && f.Running? && Relied(db, f) && f.stage >= Checks(f.request) && f.request.UpdateTask?
    ensures var task, expected, p := f.request.task, f.request.expected, f.request.patch;
            var (d, status) := Commit(db, f);
            && (status == 404 <==> task !in db.tasks)
            && (status == 409 <==> task in db.tasks && db.tasks[task].version != expected)
            && (status == 200 <==>
                  && task in db.tasks && db.tasks[task].version == expected < 2147483647
                  && p.title != Set(None) && p.list != Set(None) && (TargetList(p).Some? ==> TargetList(p).value in db.lists))
            && (status != 200 ==> d == db)
            && (status == 200 ==>
                  && task in d.tasks && d == db.(tasks := db.tasks[task := d.tasks[task]])
                  && d.tasks[task].version == expected + 1 && d.tasks[task].creator == db.tasks[task].creator)
  {
  }

  lemma OthersKeepTheRow(db: Db, f: Flight, task: int)
    requires Sound(db) && f.Running? && !f.request.UpdateTask? && task in db.tasks && task in Commit(db, f).0.tasks
    ensures Commit(db, f).0.tasks[task] == db.tasks[task]
  {
    if f.request.CreateBoard? { ListsOnly(InsertOwnedBoard(db, f.caller), db.nextBoard, |DEFAULT_LISTS|); }
  }

  lemma {:induction false} ListsOnly(db: Db, board: int, count: nat)
    ensures InsertLists(db, board, count).tasks == db.tasks
  {
    if count > 0 { ListsOnly(db, board, count - 1); }
  }

  lemma StepCountsUpdates(s: System, l: Label, task: int)
    requires Good(s) && task in s.db.tasks && task in Step(s, l).db.tasks
    ensures Step(s, l).db.tasks[task].version == s.db.tasks[task].version + if Lands(s, l, task) then 1 else 0
    ensures Step(s, l).db.tasks[task].creator == s.db.tasks[task].creator
    ensures !Lands(s, l, task) ==> Step(s, l).db.tasks[task] == s.db.tasks[task]
  {
    if Commits(s, l) {
      var f := s.flights[l.r];
      assert Relied(s.db, f);
      if f.request.UpdateTask? { UpdateLandsIff(s.db, f); } else { OthersKeepTheRow(s.db, f, task); }
    }
  }

  lemma StillThere(s: System, ls: seq<Label>, task: int)
    requires Good(s) && ls != [] && task in s.db.tasks && task in Run(s, ls).db.tasks
    ensures task in Step(s, ls[0]).db.tasks && Good(Step(s, ls[0]))
  {
    StepKeepsGood(s, ls[0]);
    RunKeepsGood(Step(s, ls[0]), ls[1..]);
  }

  /** No update is lost: over any schedule of requests the version of a task grows by exactly the
      number of updates answered with 200, and without one the whole row stays as it is. */
  lemma {:induction false} EveryUpdateCounts(s: System, ls: seq<Label>, task: int)
    requires Good(s) && task in s.db.tasks && task in Run(s, ls).db.tasks
    ensures Run(s, ls).db.tasks[task].version == s.db.tasks[task].version + Landed(s, ls, task)
    ensures Run(s, ls).db.tasks[task].creator == s.db.tasks[task].creator
    ensures Landed(s, ls, task) == 0 ==> Run(s, ls).db.tasks[task] == s.db.tasks[task]
    decreases |ls|
  {
    if ls != [] {
      StillThere(s, ls, task);
      StepCountsUpdates(s, ls[0], task);
      EveryUpdateCounts(Step(s, ls[0]), ls[1..], task);
    }
  }

  /** The entry was there before, or is that of a compare-and-swap among the operations. */
  predicate EntryFrom(t: T.Store, ops: seq<T.Op>, task: int, e: T.Entry) {
    (task in t.log && e in t.log[task]) || T.Cas(e.writer, task, e.expected, e.patch) in ops
  }

  ghost predicate BirthFrom(t: T.Store, ops: seq<T.Op>, task: int, birth: Content) {
    (task in t.births && t.births[task] == birth) || exists creator :: T.Insert(birth, creator) in ops
  }

  lemma {:induction false} HistoryComesFromOps(t: T.Store, ops: seq<T.Op>, task: int)
    requires T.Valid(t) && task in T.ExecAll(t, ops).log
    ensures var later := T.ExecAll(t, ops);
            && T.Valid(later) && task in later.births && BirthFrom(t, ops, task, later.births[task])
            && forall e :: e in later.log[task] ==> EntryFrom(t, ops, task, e)
    decreases |ops|
  {
    if ops != [] {
      var next, rest := T.Exec(t, ops[0]), ops[1..];
      T.ExecValid(t, ops[0]);
      HistoryComesFromOps(next, rest, task);
      var later := T.ExecAll(t, ops);
      forall e | e in later.log[task]
        ensures EntryFrom(t, ops, task, e)
      {
        assert EntryFrom(next, rest, task, e);
      }
      assert BirthFrom(next, rest, task, later.births[task]);
      if creator :| T.Insert(later.births[task], creator) in rest {
        assert T.Insert(later.births[task], creator) in ops;
      } else if ops[0].Insert? {
        assert ops[0] == T.Insert(ops[0].content, ops[0].creator) && ops[0] in ops;
      }
    }
  }

  /** However requests interleave, every field of a live task is what the last update that set it
      said, or what the task was created with; its version is one more than the number of those
      updates. The updates and the creation are committed requests of the schedule. */
  lemma FieldsAreLastRequested(ls: seq<Label>, task: int)
    requires task in Run(START, ls).db.tasks
    ensures var row, t, ops := Run(START, ls).db.tasks[task], T.ExecAll(T.EMPTY, RunOps(START, ls)), RunOps(START, ls);
            && task in t.log && task in t.births
            && TaskHistory.FieldsFrom(t.births[task], t.log[task], row.content) && row.version == 1 + |t.log[task]|
            && (exists creator :: T.Insert(t.births[task], creator) in ops)
            && (forall e :: e in t.log[task] ==> T.Cas(e.writer, task, e.expected, e.patch) in ops)
  {
    RunRefines(T.EMPTY, START, ls);
    var t := T.ExecAll(T.EMPTY, RunOps(START, ls));
    HistoryComesFromOps(T.EMPTY, RunOps(START, ls), task);
    TaskHistory.FoldWritesFields(t.births[task], t.log[task]);
    assert BirthFrom(T.EMPTY, RunOps(START, ls), task, t.births[task]);
    forall e | e in t.log[task]
      ensures T.Cas(e.writer, task, e.expected, e.patch) in RunOps(START, ls)
    {
      assert EntryFrom(T.EMPTY, RunOps(START, ls), task, e);
    }
  }
}
