/** update_task_with_conflict_check as the imperative code it is: statements on one shared
    database, with other transactions running between them. */
module TaskService {
  import opened Models
  import opened TaskStore
  import opened RowLocks

  lemma {:induction false} RunAppend(d: Db, a: seq<Label>, b: seq<Label>)
    ensures Run(d, a + b) == Run(Run(d, a), b)
    decreases |a|
  {
    if a == [] {
      assert a + b == b;
    } else {
      assert (a + b)[1..] == a[1..] + b;
      RunAppend(Step(d, a[0]), a[1..], b);
    }
  }

  /** The transaction's own statements, with what others do before each of the last four. */
  function Schedule(x: int, task: int, expected: int, patch: Patch,
                    beforeScan: seq<Label>, whileWaiting: seq<Label>, beforeCommit: seq<Label>, beforeReread: seq<Label>): seq<Label>
  {
    [Open(x, task, Update(expected, patch))] + beforeScan + [Scan(x)] + whileWaiting + [Acquire(x)]
    + beforeCommit + [Commit(x)] + beforeReread + [Reread(x)]
  }

  predicate NotBy(ls: seq<Label>, x: int) {
    forall i :: 0 <= i < |ls| && !ls[i].Other? ==> ls[i].x != x
  }

  lemma {:induction false} OthersLeaveAlone(d: Db, ls: seq<Label>, x: int)
    requires x in d.txs && NotBy(ls, x)
    ensures x in Run(d, ls).txs && Run(d, ls).txs[x] == d.txs[x]
    decreases |ls|
  {
    if ls != [] {
      OthersLeaveAlone(Step(d, ls[0]), ls[1..], x);
    }
  }

  /** Others run, then the transaction takes one step. */
  function Turn(d: Db, ls: seq<Label>, l: Label): Db {
    Step(Run(d, ls), l)
  }

  lemma TurnIsRun(d: Db, done: seq<Label>, ls: seq<Label>, l: Label)
    ensures Run(d, done + ls + [l]) == Turn(Run(d, done), ls, l)
  {
    RunAppend(d, done, ls);
    RunAppend(d, done + ls, [l]);
  }

  lemma ScheduleInTurns(d: Db, x: int, task: int, expected: int, patch: Patch,
                        a: seq<Label>, b: seq<Label>, c: seq<Label>, e: seq<Label>)
    ensures Run(d, Schedule(x, task, expected, patch, a, b, c, e))
         == Turn(Turn(Turn(Turn(Step(d, Open(x, task, Update(expected, patch))), a, Scan(x)), b, Acquire(x)), c, Commit(x)), e, Reread(x))
  {
    var s1 := [Open(x, task, Update(expected, patch))];
    var s2 := s1 + a + [Scan(x)];
    var s3 := s2 + b + [Acquire(x)];
    var s4 := s3 + c + [Commit(x)];
    TurnIsRun(d, s1, a, Scan(x));
    TurnIsRun(d, s2, b, Acquire(x));
    TurnIsRun(d, s3, c, Commit(x));
    TurnIsRun(d, s4, e, Reread(x));
  }

  /** The update of version `expected` of the task is this transaction's, with this patch. */
  predicate WroteIt(d: Db, x: int, task: int, expected: int, patch: Patch) {
    && task in d.store.log && 1 <= expected <= |d.store.log[task]|
    && d.store.log[task][expected - 1] == Entry(x, expected, patch)
  }

  lemma WritesAreWins(d: Db, x: int)
    requires Good(d) && x in d.txs && d.txs[x].command.Update?
    ensures WroteIt(d, x, d.txs[x].task, d.txs[x].command.expected, d.txs[x].command.patch) <==> HasCommitted(d.txs[x])
  {
    var task, expected := d.txs[x].task, d.txs[x].command.expected;
    if HasCommitted(d.txs[x]) {
      assert WinnerSound(d, x);
      assert EntrySound(d, task, expected - 1);
    }
    if WroteIt(d, x, task, expected, d.txs[x].command.patch) {
      assert LoggedAt(d, task, expected - 1);
      assert EntrySound(d, task, expected - 1);
    }
  }

  class Database {
    var store: Store
    var locks: map<int, int>
    var txs: map<int, Tx>

    constructor ()
      ensures View() == START
    {
      store, locks, txs := EMPTY, map[], map[];
    }

    ghost function View(): Db
      reads this
    {
      Db(store, locks, txs)
    }

    method Set(x: int, phase: Phase)
      requires x in txs
      modifies this`txs
      ensures View() == To(old(View()), x, phase)
    {
      txs := txs[x := txs[x].(phase := phase)];
    }

    /** Other transactions run. */
    method LetOthersRun(ls: seq<Label>, ghost x: int)
      requires Good(View()) && x in txs && NotBy(ls, x)
      modifies this
      ensures View() == Run(old(View()), ls)
      ensures Good(View()) && x in txs && txs[x] == old(txs[x])
    {
      for i := 0 to |ls|
        invariant View() == Run(old(View()), ls[..i])
      {
        assert ls[..i + 1] == ls[..i] + [ls[i]];
        RunAppend(old(View()), ls[..i], [ls[i]]);
        var d := Step(Db(store, locks, txs), ls[i]);
        store, locks, txs := d.store, d.locks, d.txs;
      }
      assert ls[..|ls|] == ls;
      RunKeepsGood(old(View()), ls);
      OthersLeaveAlone(old(View()), ls, x);
    }

    method Begin(x: int, task: int, command: Command)
      requires x !in txs
      modifies this`txs
      ensures View() == Step(old(View()), Open(x, task, command))
    {
      txs := txs[x := Tx(task, command, Ready)];
    }

    /** The UPDATE looks for its row in the statement's snapshot. */
    method ScanSnapshot(x: int)
      requires x in txs && txs[x].phase.Ready?
      modifies this`txs
      ensures View() == Step(old(View()), Scan(x))
    {
      var tx := txs[x];
      var found := if tx.command.Update? then Matches(store, tx.task, tx.command.expected) else tx.task in store.tasks;
      Set(x, if found then Waiting else MissPhase(tx));
    }

    /** With the row lock free: re-checks the WHERE clause on the committed row, then writes. */
    method LockAndWrite(x: int)
      requires x in txs && txs[x].phase.Waiting? && txs[x].task !in locks
      modifies this`txs, this`locks
      ensures View() == Step(old(View()), Acquire(x))
    {
      var tx := txs[x];
      match tx.command {
        case Update(expected, patch) =>
          if !Matches(store, tx.task, expected) {
            Set(x, NoMatch);
          } else if !Accepts(patch, store.tasks[tx.task], store.lists) {
            Set(x, Finished(Error));
          } else {
            Set(x, Holding(Some(Updated(patch, store.tasks[tx.task]))));
            locks := locks[tx.task := x];
          }
        case Delete =>
          if tx.task !in store.tasks {
            Set(x, Finished(Deleted));
          } else {
            Set(x, Holding(None));
            locks := locks[tx.task := x];
          }
      }
    }

    method CommitUpdate(x: int)
      requires Good(View()) && x in txs && txs[x].phase.Holding? && txs[x].command.Update?
      modifies this
      ensures View() == Step(old(View()), Commit(x))
    {
      assert LockSound(View(), txs[x].task);
      var tx := txs[x];
      store := store.(
        tasks := store.tasks[tx.task := tx.phase.next.value],
        log := store.log[tx.task := store.log[tx.task] + [Entry(x, tx.command.expected, tx.command.patch)]]);
      locks := locks - {tx.task};
      Set(x, Committed);
    }

    method ScanTurn(x: int, others: seq<Label>)
      requires Good(View()) && x in txs && txs[x].phase.Ready? && txs[x].command.Update? && NotBy(others, x)
      modifies this
      ensures View() == Turn(old(View()), others, Scan(x)) && Good(View())
      ensures x in txs && txs[x].task == old(txs[x].task) && txs[x].command == old(txs[x].command)
      ensures txs[x].phase.Waiting? || txs[x].phase.NoMatch?
    {
      LetOthersRun(others, x);
      StepKeepsGood(View(), Scan(x));
      ScanSnapshot(x);
    }

    method LockTurn(x: int, others: seq<Label>)
      requires Good(View()) && x in txs && txs[x].command.Update? && NotBy(others, x)
      requires txs[x].phase.Waiting? || txs[x].phase.NoMatch?
      modifies this
      ensures View() == Turn(old(View()), others, Acquire(x)) && Good(View())
      ensures x in txs && txs[x].task == old(txs[x].task) && txs[x].command == old(txs[x].command)
      ensures txs[x].phase.Waiting? || txs[x].phase.NoMatch? || txs[x].phase.Holding? || txs[x].phase == Finished(Error)
    {
      LetOthersRun(others, x);
      StepKeepsGood(View(), Acquire(x));
      if txs[x].phase.Waiting? && txs[x].task !in locks {
        LockAndWrite(x);
      }
    }

    method CommitTurn(x: int, others: seq<Label>)
      requires Good(View()) && x in txs && txs[x].command.Update? && NotBy(others, x)
      requires txs[x].phase.Waiting? || txs[x].phase.NoMatch? || txs[x].phase.Holding? || txs[x].phase == Finished(Error)
      modifies this
      ensures View() == Turn(old(View()), others, Commit(x)) && Good(View())
      ensures x in txs && txs[x].task == old(txs[x].task) && txs[x].command == old(txs[x].command)
      ensures txs[x].phase.Waiting? || txs[x].phase.NoMatch? || txs[x].phase.Committed? || txs[x].phase == Finished(Error)
    {
      LetOthersRun(others, x);
      StepKeepsGood(View(), Commit(x));
      if txs[x].phase.Holding? {
        CommitUpdate(x);
      }
    }

    method RereadTurn(x: int, others: seq<Label>)
      requires Good(View()) && x in txs && txs[x].command.Update? && NotBy(others, x)
      requires txs[x].phase.Waiting? || txs[x].phase.NoMatch? || txs[x].phase.Committed? || txs[x].phase == Finished(Error)
      modifies this
      ensures View() == Turn(old(View()), others, Reread(x)) && Good(View())
      ensures x in txs && txs[x].task == old(txs[x].task) && txs[x].command == old(txs[x].command)
      ensures txs[x].phase.Waiting? || txs[x].phase.Finished?
    {
      LetOthersRun(others, x);
      StepKeepsGood(View(), Reread(x));
      var task := txs[x].task;
      if txs[x].phase.NoMatch? {
        Set(x, Finished(if task in store.tasks then Conflict(store.tasks[task].version) else NotFound));
      } else if txs[x].phase.Committed? {
        Set(x, Finished(if task in store.tasks then Ok(store.tasks[task]) else Vanished));
      }
    }

    /** Ends with the request's outcome, or with None while the row lock is still held by
        another transaction when `whileWaiting` is over. */
    method UpdateTaskWithConflictCheck(x: int, task: int, expected: int, patch: Patch,
                                       beforeScan: seq<Label>, whileWaiting: seq<Label>,
                                       beforeCommit: seq<Label>, beforeReread: seq<Label>)
      returns (outcome: Option<Outcome>)
      requires Good(View()) && x !in txs
      requires NotBy(beforeScan, x) && NotBy(whileWaiting, x) && NotBy(beforeCommit, x) && NotBy(beforeReread, x)
      modifies this
      ensures View() == Run(old(View()), Schedule(x, task, expected, patch, beforeScan, whileWaiting, beforeCommit, beforeReread))
      ensures Good(View())
      ensures x in txs && outcome == (if txs[x].phase.Finished? then Some(txs[x].phase.outcome) else None)
      ensures outcome.None? ==> txs[x].phase.Waiting?
      ensures WroteIt(View(), x, task, expected, patch) <==> outcome.Some? && (outcome.value.Ok? || outcome.value.Vanished?)
    {
      ScheduleInTurns(View(), x, task, expected, patch, beforeScan, whileWaiting, beforeCommit, beforeReread);
      StepKeepsGood(View(), Open(x, task, Update(expected, patch)));
      Begin(x, task, Update(expected, patch));
      ScanTurn(x, beforeScan);
      LockTurn(x, whileWaiting);
      CommitTurn(x, beforeCommit);
      RereadTurn(x, beforeReread);
      outcome := if txs[x].phase.Finished? then Some(txs[x].phase.outcome) else None;
      WritesAreWins(View(), x);
    }
  }
}
