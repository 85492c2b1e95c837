/** The database as Postgres runs it under READ COMMITTED: updates and deletes scan a snapshot,
    wait for the row lock, re-check their WHERE clause on the committed row, write, and commit
    or roll back, and update_task_with_conflict_check then reads once more. Steps of any number
    of transactions interleave; a step that is not enabled changes nothing, so every sequence
    of labels is an interleaving. */
module RowLocks {
  import opened Models
  import opened TaskStore

  datatype Command = Update(expected: int, patch: Patch) | Delete

  datatype Outcome =
    | Ok(row: Task)           // 200 with the row as re-read after the commit
    | Conflict(current: int)  // 409
    | NotFound                // 404
    | Deleted                 // 200 of a delete
    | Error                   // the statement or the commit raised: rolled back
    | Vanished                // committed, but the row was gone at the re-read

  datatype Phase =
    | Ready                        // statement not sent yet
    | Waiting                      // its snapshot matched; it needs the row lock
    | Holding(next: Option<Task>)  // row locked, new row version (None: deletion) written
    | NoMatch                      // rowcount 0: rollback and read the version next
    | Committed                    // update committed: re-read next
    | Finished(outcome: Outcome)

  datatype Tx = Tx(task: int, command: Command, phase: Phase)

  datatype Db = Db(store: Store, locks: map<int, int>, txs: map<int, Tx>)

  datatype Label =
    | Open(x: int, task: int, command: Command)
    | Scan(x: int)
    | Acquire(x: int)
    | Commit(x: int)
    | Abort(x: int)
    | Reread(x: int)
    | Other(op: Op)  // another request's single-statement transaction

  const START := Db(EMPTY, map[], map[])

  function To(d: Db, x: int, phase: Phase): Db
    requires x in d.txs
  {
    d.(txs := d.txs[x := d.txs[x].(phase := phase)])
  }

  /** The statement's WHERE clause, on the committed rows. */
  predicate Where(s: Store, tx: Tx) {
    if tx.command.Update? then Matches(s, tx.task, tx.command.expected) else tx.task in s.tasks
  }

  function MissPhase(tx: Tx): Phase {
    if tx.command.Update? then NoMatch else Finished(Deleted)
  }

  /** Deleting a list also locks its tasks, and waits for transactions moving a task into it. */
  predicate Blocked(d: Db, list: int) {
    exists t :: t in d.locks && t in d.store.tasks &&
      (d.store.tasks[t].content.list == list || MovingInto(d, d.locks[t], list))
  }

  predicate MovingInto(d: Db, x: int, list: int) {
    x in d.txs && d.txs[x].phase.Holding? && d.txs[x].phase.next.Some? && d.txs[x].phase.next.value.content.list == list
  }

  predicate Enabled(d: Db, l: Label) {
    match l
    case Open(x, _, _) => x !in d.txs
    case Scan(x) => x in d.txs && d.txs[x].phase.Ready?
    case Acquire(x) => x in d.txs && d.txs[x].phase.Waiting? && d.txs[x].task !in d.locks
    case Commit(x) => x in d.txs && d.txs[x].phase.Holding?
    case Abort(x) => x in d.txs && d.txs[x].phase.Holding?
    case Reread(x) => x in d.txs && (d.txs[x].phase.NoMatch? || d.txs[x].phase.Committed?)
    case Other(op) => op.Insert? || op.AddList? || (op.DropList? && !Blocked(d, op.list))
  }

  function DoAcquire(d: Db, x: int): Db
    requires x in d.txs
  {
    var tx := d.txs[x];
    if !Where(d.store, tx) then To(d, x, MissPhase(tx))
    else if tx.command.Delete? then To(d, x, Holding(None)).(locks := d.locks[tx.task := x])
    else
      var row := d.store.tasks[tx.task];
      if Accepts(tx.command.patch, row, d.store.lists) then
        To(d, x, Holding(Some(Updated(tx.command.patch, row)))).(locks := d.locks[tx.task := x])
      else To(d, x, Finished(Error))
  }

  /** Installs the row version written under the lock, whatever the table holds by now. */
  function DoCommit(d: Db, x: int): Db
    requires x in d.txs && d.txs[x].phase.Holding?
  {
    var tx := d.txs[x];
    var s := d.store;
    match tx.command
    case Delete =>
      To(d, x, Finished(Deleted)).(store := s.(tasks := s.tasks - {tx.task}), locks := d.locks - {tx.task})
    case Update(expected, patch) =>
      if tx.phase.next.Some? && tx.task in s.log then
        To(d, x, Committed).(
          store := s.(tasks := s.tasks[tx.task := tx.phase.next.value],
                      log := s.log[tx.task := s.log[tx.task] + [Entry(x, expected, patch)]]),
          locks := d.locks - {tx.task})
      else d
  }

  function DoReread(d: Db, x: int): Db
    requires x in d.txs
  {
    var tx := d.txs[x];
    var current := CurrentVersion(d.store, tx.task);
    To(d, x, Finished(
      if tx.phase.Committed? then (if current.None? then Vanished else Ok(d.store.tasks[tx.task]))
      else if current.None? then NotFound else Conflict(current.value)))
  }

  function Step(d: Db, l: Label): Db {
    if !Enabled(d, l) then d else
    match l
    case Open(x, task, command) => d.(txs := d.txs[x := Tx(task, command, Ready)])
    case Scan(x) => To(d, x, if Where(d.store, d.txs[x]) then Waiting else MissPhase(d.txs[x]))
    case Acquire(x) => DoAcquire(d, x)
    case Commit(x) => DoCommit(d, x)
    case Abort(x) => To(d, x, Finished(Error)).(locks := d.locks - {d.txs[x].task})
    case Reread(x) => DoReread(d, x)
    case Other(op) => d.(store := Exec(d.store, op))
  }

  function Run(d: Db, ls: seq<Label>): Db
    decreases |ls|
  {
    if ls == [] then d else Run(Step(d, ls[0]), ls[1..])
  }

  // ---- What every step keeps ----

  /** A lock's holder wrote, on the row as it is committed, exactly what its command says. */
  ghost predicate LockSound(d: Db, t: int)
    requires t in d.locks
  {
    var x := d.locks[t];
    && x in d.txs && d.txs[x].task == t && d.txs[x].phase.Holding? && Where(d.store, d.txs[x])
    && match d.txs[x].command
       case Delete => d.txs[x].phase.next == None
       case Update(_, patch) =>
         && Accepts(patch, d.store.tasks[t], d.store.lists)
         && d.txs[x].phase.next == Some(Updated(patch, d.store.tasks[t]))
  }

  predicate HasCommitted(tx: Tx) {
    tx.phase.Committed? || (tx.phase.Finished? && (tx.phase.outcome.Ok? || tx.phase.outcome.Vanished?))
  }

  ghost predicate LoggedAt(d: Db, t: int, i: int) {
    t in d.store.log && 0 <= i < |d.store.log[t]|
  }

  ghost predicate EntrySound(d: Db, t: int, i: int)
    requires LoggedAt(d, t, i)
  {
    var e := d.store.log[t][i];
    && e.writer in d.txs && HasCommitted(d.txs[e.writer]) && e.expected == i + 1
    && d.txs[e.writer].task == t && d.txs[e.writer].command == Update(e.expected, e.patch)
  }

  ghost predicate WinnerSound(d: Db, x: int)
    requires x in d.txs
  {
    var tx := d.txs[x];
    && tx.command.Update? && LoggedAt(d, tx.task, tx.command.expected - 1)
    && d.store.log[tx.task][tx.command.expected - 1].writer == x
  }

  /** The log and the transactions agree on who committed which update. */
  ghost predicate LogSound(d: Db) {
    && (forall t, i :: LoggedAt(d, t, i) ==> EntrySound(d, t, i))
    && (forall x :: x in d.txs && HasCommitted(d.txs[x]) ==> WinnerSound(d, x))
  }

  ghost predicate LocksSound(d: Db) {
    && (forall t :: t in d.locks ==> LockSound(d, t))
    && (forall x :: x in d.txs && d.txs[x].phase.Holding? ==> d.txs[x].task in d.locks && d.locks[d.txs[x].task] == x)
  }

  ghost predicate Good(d: Db) {
    Valid(d.store) && LocksSound(d) && LogSound(d)
  }

  /** Under the lock the committed row has not moved, so installing the written version is the
      compare-and-swap on the state that the transaction named. */
  lemma CommitIsAtomic(d: Db, x: int)
    requires Good(d) && x in d.txs && d.txs[x].phase.Holding?
    ensures DoCommit(d, x).store == Exec(d.store, Intent(x, d.txs[x]))
    ensures AnswerOf(d.store, Intent(x, d.txs[x])) == if d.txs[x].command.Update? then Won else Done
    ensures d.txs[x].command.Update? ==> DoCommit(d, x).txs[x].phase.Committed?
    ensures d.txs[x].command.Delete? ==> DoCommit(d, x).txs[x].phase == Finished(Deleted)
  {
    assert LockSound(d, d.txs[x].task);
  }

  lemma StepKeepsValid(d: Db, l: Label)
    requires Good(d)
    ensures Valid(Step(d, l).store)
  {
    if Enabled(d, l) && l.Commit? {
      CommitIsAtomic(d, l.x);
      ExecValid(d.store, Intent(l.x, d.txs[l.x]));
    } else if Enabled(d, l) && l.Other? {
      ExecValid(d.store, l.op);
    }
  }

  lemma OtherKeepsLocks(d: Db, op: Op)
    requires Good(d) && Enabled(d, Other(op))
    ensures LocksSound(d.(store := Exec(d.store, op)))
  {
    var d' := d.(store := Exec(d.store, op));
    forall t | t in d'.locks
      ensures LockSound(d', t)
    {
      assert LockSound(d, t);
      assert op.DropList? ==> d.store.tasks[t].content.list != op.list && !MovingInto(d, d.locks[t], op.list);
      assert d'.store.tasks[t] == d.store.tasks[t];
    }
  }

  lemma CommitKeepsLocks(d: Db, x: int)
    requires Good(d) && x in d.txs && d.txs[x].phase.Holding?
    ensures LocksSound(DoCommit(d, x))
  {
    var d' := DoCommit(d, x);
    CommitIsAtomic(d, x);
    forall t | t in d'.locks
      ensures LockSound(d', t)
    {
      assert LockSound(d, t);
      assert t != d.txs[x].task;
    }
  }

  lemma AcquireKeepsLocks(d: Db, x: int)
    requires Good(d) && Enabled(d, Acquire(x))
    ensures LocksSound(DoAcquire(d, x))
  {
    var d' := DoAcquire(d, x);
    forall t | t in d'.locks
      ensures LockSound(d', t)
    {
      assert t in d.locks ==> LockSound(d, t);
    }
  }

  lemma StepKeepsLocks(d: Db, l: Label)
    requires Good(d)
    ensures LocksSound(Step(d, l))
  {
    if Enabled(d, l) {
      match l {
        case Acquire(x) => AcquireKeepsLocks(d, x);
        case Commit(x) => CommitKeepsLocks(d, x);
        case Other(op) => OtherKeepsLocks(d, op);
        case _ =>
          forall t | t in Step(d, l).locks
            ensures LockSound(Step(d, l), t)
          {
            assert LockSound(d, t);
          }
      }
    }
  }

  lemma CommitKeepsLog(d: Db, x: int)
    requires Good(d) && x in d.txs && d.txs[x].phase.Holding?
    ensures LogSound(DoCommit(d, x))
  {
    var d', tx := DoCommit(d, x), d.txs[x];
    CommitIsAtomic(d, x);
    assert LockSound(d, tx.task);
    forall t, i | LoggedAt(d', t, i)
      ensures EntrySound(d', t, i)
    {
      if LoggedAt(d, t, i) {
        assert EntrySound(d, t, i);
      } else {
        assert t == tx.task && i == |d.store.log[t]|;
      }
    }
    forall y | y in d'.txs && HasCommitted(d'.txs[y])
      ensures WinnerSound(d', y)
    {
      if y != x {
        assert WinnerSound(d, y);
      }
    }
  }

  lemma LogFrame(d: Db, d': Db)
    requires LogSound(d)
    requires forall t, i :: LoggedAt(d', t, i) ==> LoggedAt(d, t, i)
    requires forall t, i :: LoggedAt(d, t, i) ==> LoggedAt(d', t, i) && d'.store.log[t][i] == d.store.log[t][i]
    requires forall x :: x in d.txs ==> x in d'.txs && d'.txs[x].task == d.txs[x].task && d'.txs[x].command == d.txs[x].command
    requires forall x :: x in d'.txs && HasCommitted(d'.txs[x]) <==> x in d.txs && HasCommitted(d.txs[x])
    ensures LogSound(d')
  {
    forall t, i | LoggedAt(d', t, i)
      ensures EntrySound(d', t, i)
    {
      assert EntrySound(d, t, i);
    }
    forall x | x in d'.txs && HasCommitted(d'.txs[x])
      ensures WinnerSound(d', x)
    {
      assert WinnerSound(d, x);
    }
  }

  lemma StepKeepsLog(d: Db, l: Label)
    requires Good(d)
    ensures LogSound(Step(d, l))
  {
    if Enabled(d, l) {
      if l.Commit? {
        CommitKeepsLog(d, l.x);
      } else if l.Other? {
        OtherKeepsLog(d, l);
      } else {
        TxStepKeepsLog(d, l);
      }
    }
  }

  lemma OtherKeepsLog(d: Db, l: Label)
    requires Good(d) && l.Other?
    ensures LogSound(Step(d, l))
  {
    LogFrame(d, Step(d, l));
  }

  lemma TxStepKeepsLog(d: Db, l: Label)
    requires LogSound(d) && Enabled(d, l) && !l.Other? && !l.Commit?
    ensures LogSound(Step(d, l))
  {
    var d' := Step(d, l);
    OneTxMoves(d, l);
    forall t, i
      ensures LoggedAt(d', t, i) <==> LoggedAt(d, t, i)
    {
    }
    LogFrame(d, d');
  }

  lemma OneTxMoves(d: Db, l: Label)
    requires Enabled(d, l) && !l.Other? && !l.Commit?
    ensures var d' := Step(d, l);
            && d'.store == d.store && l.x in d'.txs && d'.txs == d.txs[l.x := d'.txs[l.x]]
            && (l.Open? <==> l.x !in d.txs)
            && (l.x in d.txs ==> d'.txs[l.x].task == d.txs[l.x].task && d'.txs[l.x].command == d.txs[l.x].command)
            && (HasCommitted(d'.txs[l.x]) <==> l.x in d.txs && HasCommitted(d.txs[l.x]))
  {
  }

  lemma StepKeepsGood(d: Db, l: Label)
    requires Good(d)
    ensures Good(Step(d, l))
  {
    StepKeepsValid(d, l);
    StepKeepsLocks(d, l);
    StepKeepsLog(d, l);
  }

  lemma {:induction false} RunKeepsGood(d: Db, ls: seq<Label>)
    requires Good(d)
    ensures Good(Run(d, ls))
    decreases |ls|
  {
    if ls != [] {
      StepKeepsGood(d, ls[0]);
      RunKeepsGood(Step(d, ls[0]), ls[1..]);
    }
  }

  // ---- Refinement of the atomic compare-and-swap ----

  /** The atomic operation that a step is, if it is one: an update takes effect when it commits,
      or fails when its WHERE clause or a constraint does. */
  function Linearize(d: Db, l: Label): Option<Op> {
    if !Enabled(d, l) then None else
    match l
    case Scan(x) => if Where(d.store, d.txs[x]) then None else Some(Intent(x, d.txs[x]))
    case Acquire(x) => if DoAcquire(d, x).txs[x].phase.Holding? then None else Some(Intent(x, d.txs[x]))
    case Commit(x) => Some(Intent(x, d.txs[x]))
    case Other(op) => Some(op)
    case _ => None
  }

  function Intent(x: int, tx: Tx): Op {
    match tx.command
    case Update(expected, patch) => Cas(x, tx.task, expected, patch)
    case Delete => Remove(tx.task)
  }

  function LinearizeAll(d: Db, ls: seq<Label>): seq<Op>
    decreases |ls|
  {
    if ls == [] then []
    else
      (match Linearize(d, ls[0]) case None => [] case Some(op) => [op]) + LinearizeAll(Step(d, ls[0]), ls[1..])
  }

  /** What the transaction goes on to report is what the atomic operation answered. */
  ghost predicate Reports(phase: Phase, answer: Answer) {
    match answer
    case Won => phase.Committed?
    case Stale(_) => phase.NoMatch?
    case Rejected => phase == Finished(Error)
    case Done => phase == Finished(Deleted)
  }

  /** Every step of the locking database is one atomic operation on its committed rows, answered
      as the transaction will report it, or leaves them alone. */
  lemma StepRefines(d: Db, l: Label)
    requires Good(d)
    ensures Good(Step(d, l))
    ensures match Linearize(d, l)
            case None => Step(d, l).store == d.store
            case Some(op) =>
              && Step(d, l).store == Exec(d.store, op)
              && (!l.Other? ==> Reports(Step(d, l).txs[l.x].phase, AnswerOf(d.store, op)))
  {
    StepKeepsGood(d, l);
    if Enabled(d, l) && l.Commit? {
      CommitIsAtomic(d, l.x);
    }
  }

  lemma {:induction false} RunRefines(d: Db, ls: seq<Label>)
    requires Good(d)
    ensures Run(d, ls).store == ExecAll(d.store, LinearizeAll(d, ls))
    decreases |ls|
  {
    if ls != [] {
      var d', rest := Step(d, ls[0]), LinearizeAll(Step(d, ls[0]), ls[1..]);
      StepRefines(d, ls[0]);
      RunRefines(d', ls[1..]);
      match Linearize(d, ls[0]) {
        case None => assert LinearizeAll(d, ls) == rest;
        case Some(op) =>
          assert LinearizeAll(d, ls) == [op] + rest;
          assert ([op] + rest)[1..] == rest;
      }
    }
  }

  /** The i-th logged update of the task is a committed transaction that named version i + 1. */
  predicate IsWinner(d: Db, task: int, i: nat)
    requires task in d.store.log && i < |d.store.log[task]|
  {
    var e := d.store.log[task][i];
    && e.writer in d.txs && HasCommitted(d.txs[e.writer])
    && d.txs[e.writer].task == task && d.txs[e.writer].command == Update(i + 1, e.patch)
  }

  predicate IsLogged(d: Db, x: int)
    requires x in d.txs && d.txs[x].task in d.store.log
  {
    var won := d.store.log[d.txs[x].task];
    && d.txs[x].command.Update? && 1 <= d.txs[x].command.expected <= |won|
    && won[d.txs[x].command.expected - 1].writer == x
  }

  lemma LogIsComplete(d: Db, task: int)
    requires LogSound(d) && task in d.store.log
    ensures forall i :: 0 <= i < |d.store.log[task]| ==> IsWinner(d, task, i)
    ensures forall x :: x in d.txs && HasCommitted(d.txs[x]) && d.txs[x].task == task ==> IsLogged(d, x)
  {
    forall i | 0 <= i < |d.store.log[task]|
      ensures IsWinner(d, task, i)
    {
      assert LoggedAt(d, task, i);
    }
    forall x | x in d.txs && HasCommitted(d.txs[x]) && d.txs[x].task == task
      ensures IsLogged(d, x)
    {
      assert WinnerSound(d, x);
    }
  }

  lemma StartIsGood()
    ensures Good(START)
  {
  }

  /** In every schedule: a live task's version is one more than the number of its committed
      updates, its content is their fold over what the task was created with, the k-th of them
      is the committed transaction that named version k, and there are no others. */
  lemma CommittedUpdatesFormOneChain(ls: seq<Label>, task: int)
    requires task in Run(START, ls).store.tasks
    ensures var d := Run(START, ls);
            && task in d.store.log && task in d.store.births
            && Chain(d.store.births[task], d.store.log[task], d.store.tasks[task])
            && (forall i :: 0 <= i < |d.store.log[task]| ==> IsWinner(d, task, i))
            && (forall x :: x in d.txs && HasCommitted(d.txs[x]) && d.txs[x].task == task ==> IsLogged(d, x))
  {
    StartIsGood();
    RunKeepsGood(START, ls);
    LogIsComplete(Run(START, ls), task);
  }
}
