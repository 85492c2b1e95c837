/** What rows and answers say in terms of the schedule alone: where each field of a live task comes
    from, when a task is live, and what the database held when an update's outcome was decided. */
module TaskHistory {
  import opened Models
  import opened TaskStore
  import opened RowLocks

  // ---- Fields ----

  /** `value` is what the last of the updates that sets the field set it to, and `first` if none
      of them sets it. */
  ghost predicate LastWritten<T(!new)>(es: seq<Entry>, field: Patch -> Field<T>, first: T, value: T) {
    if forall i :: 0 <= i < |es| ==> field(es[i].patch).Unset? then value == first
    else exists i :: 0 <= i < |es| && field(es[i].patch) == Set(value) && forall j :: i < j < |es| ==> field(es[j].patch).Unset?
  }

  lemma LastWrittenGrows<T(!new)>(es: seq<Entry>, e: Entry, field: Patch -> Field<T>, first: T, value: T)
    requires LastWritten(es, field, first, value)
    ensures LastWritten(es + [e], field, first, if field(e.patch).Set? then field(e.patch).value else value)
  {
    var more := es + [e];
    if field(e.patch).Set? {
      assert field(more[|es|].patch) == Set(field(e.patch).value);
    } else if i :| 0 <= i < |es| && field(es[i].patch) == Set(value) && forall j :: i < j < |es| ==> field(es[j].patch).Unset? {
      assert field(more[i].patch) == Set(value);
      assert forall j :: i < j < |more| ==> field(more[j].patch).Unset?;
    } else {
      assert forall i :: 0 <= i < |more| ==> field(more[i].patch).Unset?;
    }
  }

  function TitleField(p: Patch): Field<Option<string>> { p.title }

  function DescriptionField(p: Patch): Field<Option<string>> { p.description }

  function ListField(p: Patch): Field<Option<int>> { p.list }

  /** Title, description (null included) and list, each from the last update that set it. */
  ghost predicate FieldsFrom(birth: Content, es: seq<Entry>, now: Content) {
    && LastWritten(es, TitleField, Some(birth.title), Some(now.title))
    && LastWritten(es, DescriptionField, birth.description, now.description)
    && LastWritten(es, ListField, Some(birth.list), Some(now.list))
  }

  lemma FieldsGrow(birth: Content, es: seq<Entry>, e: Entry, before: Content)
    requires FieldsFrom(birth, es, before) && NotNull(e.patch)
    ensures FieldsFrom(birth, es + [e], Apply(e.patch, before))
  {
    LastWrittenGrows(es, e, TitleField, Some(birth.title), Some(before.title));
    LastWrittenGrows(es, e, DescriptionField, birth.description, before.description);
    LastWrittenGrows(es, e, ListField, Some(birth.list), Some(before.list));
    assert e.patch.title.Set? ==> e.patch.title.value.Some?;
    assert e.patch.list.Set? ==> e.patch.list.value.Some?;
  }

  lemma {:induction false} FoldWritesFields(birth: Content, es: seq<Entry>)
    requires AllNotNull(es)
    ensures FieldsFrom(birth, es, Fold(birth, es))
    decreases |es|
  {
    if es != [] {
      var init, e := es[..|es| - 1], es[|es| - 1];
      FoldWritesFields(birth, init);
      FieldsGrow(birth, init, e, Fold(birth, init));
      assert init + [e] == es;
    }
  }

  // ---- Where the pieces of the history come from ----

  lemma {:induction false} RunSnoc(d: Db, ls: seq<Label>)
    requires ls != []
    ensures Run(d, ls) == Step(Run(d, ls[..|ls| - 1]), ls[|ls| - 1])
    decreases |ls|
  {
    if |ls| > 1 {
      assert ls[1..][..|ls| - 2] == ls[..|ls| - 1][1..];
      RunSnoc(Step(d, ls[0]), ls[1..]);
    }
  }

  /** The state before the k-th step. */
  function At(ls: seq<Label>, k: nat): Db
    requires k <= |ls|
  {
    Run(START, ls[..k])
  }

  /** Everything but the last step, and the state before it. */
  lemma Last(ls: seq<Label>) returns (init: seq<Label>)
    requires ls != []
    ensures init == ls[..|ls| - 1] && Good(Run(START, init))
    ensures Run(START, ls) == Step(Run(START, init), ls[|ls| - 1]) && At(ls, |init|) == Run(START, init)
    ensures forall k :: 0 <= k <= |init| ==> At(ls, k) == At(init, k)
  {
    init := ls[..|ls| - 1];
    RunSnoc(START, ls);
    StartIsGood();
    RunKeepsGood(START, init);
    forall k | 0 <= k <= |init|
      ensures At(ls, k) == At(init, k)
    {
      assert ls[..k] == init[..k];
    }
  }

  /** A transaction's task and command are those it was opened with. */
  lemma {:induction false} TxWasOpened(ls: seq<Label>, x: int) returns (k: nat)
    requires x in Run(START, ls).txs
    ensures k < |ls| && ls[k] == Open(x, Run(START, ls).txs[x].task, Run(START, ls).txs[x].command) && x !in At(ls, k).txs
    decreases |ls|
  {
    var init := Last(ls);
    if x in Run(START, init).txs {
      k := TxWasOpened(init, x);
    } else {
      k := |init|;
    }
  }

  lemma CreatorStays(s: Store, op: Op, task: int)
    requires Valid(s) && task in s.log
    ensures task in Exec(s, op).log && Exec(s, op).births[task] == s.births[task]
    ensures task in Exec(s, op).tasks ==> task in s.tasks && Exec(s, op).tasks[task].creator == s.tasks[task].creator
  {
  }

  /** What was recorded as a task's first content, and its creator, are those of the one step that
      inserted it, into a list that existed then. */
  lemma {:induction false} TaskWasInserted(ls: seq<Label>, task: int) returns (k: nat, creator: Option<int>)
    requires task in Run(START, ls).store.log
    ensures var s := Run(START, ls).store;
            && task in s.births && k < |ls| && ls[k] == Other(Insert(s.births[task], creator))
            && task !in At(ls, k).store.log && s.births[task].list in At(ls, k).store.lists
            && (task in s.tasks ==> s.tasks[task].creator == creator)
    decreases |ls|
  {
    var init := Last(ls);
    var d, l := Run(START, init), ls[|ls| - 1];
    StepRefines(d, l);
    if task in d.store.log {
      k, creator := TaskWasInserted(init, task);
      if Linearize(d, l).Some? { CreatorStays(d.store, Linearize(d, l).value, task); }
    } else {
      k, creator := |init|, l.op.creator;
    }
  }

  /** In every schedule, each field of a live task holds what the last committed update that sets
      the field says, and what the task was inserted with if none sets it. The updates are the
      logged ones: the i-th was made by a transaction opened to update this task from version
      i + 1 by that patch. */
  lemma FieldsAreLastWritten(ls: seq<Label>, task: int)
    requires task in Run(START, ls).store.tasks
    ensures var s := Run(START, ls).store;
            && task in s.log && task in s.births
            && FieldsFrom(s.births[task], s.log[task], s.tasks[task].content)
            && s.tasks[task].version == 1 + |s.log[task]|
            && (forall i :: 0 <= i < |s.log[task]| ==> WasOpened(ls, task, s.log[task][i], i + 1))
  {
    CommittedUpdatesFormOneChain(ls, task);
    var d := Run(START, ls);
    FoldWritesFields(d.store.births[task], d.store.log[task]);
    forall i | 0 <= i < |d.store.log[task]|
      ensures WasOpened(ls, task, d.store.log[task][i], i + 1)
    {
      assert IsWinner(d, task, i);
      var k := TxWasOpened(ls, d.store.log[task][i].writer);
    }
  }

  predicate WasOpened(ls: seq<Label>, task: int, e: Entry, version: int) {
    Open(e.writer, task, Update(version, e.patch)) in ls
  }

  // ---- Life and death of a task ----

  /** The k-th step removes the task: a delete of it commits, or its list is dropped. */
  predicate RemovedAt(ls: seq<Label>, k: nat, task: int)
    requires k < |ls|
  {
    Removes(At(ls, k), ls[k], task)
  }

  predicate Removes(d: Db, l: Label, task: int) {
    && task in d.store.tasks && Enabled(d, l)
    && match l
       case Commit(x) => d.txs[x].task == task && d.txs[x].command.Delete?
       case Other(op) => op.DropList? && op.list == d.store.tasks[task].content.list
       case _ => false
  }

  lemma StepRemoves(d: Db, l: Label, task: int)
    requires Good(d) && task in d.store.log
    ensures task in Step(d, l).store.tasks <==> task in d.store.tasks && !Removes(d, l, task)
  {
    if l.Commit? && Enabled(d, l) {
      assert LockSound(d, d.txs[l.x].task);
    }
  }

  /** A task that was ever inserted is there exactly if since then no delete of it has committed
      and no list was dropped while the task was in it. It never comes back. */
  lemma {:induction false} LiveUntilRemoved(ls: seq<Label>, task: int)
    requires task in Run(START, ls).store.log
    ensures task in Run(START, ls).store.tasks <==> forall k :: 0 <= k < |ls| ==> !RemovedAt(ls, k, task)
    decreases |ls|
  {
    var init := Last(ls);
    var d, l := Run(START, init), ls[|ls| - 1];
    assert forall k :: 0 <= k < |init| ==> (RemovedAt(ls, k, task) <==> RemovedAt(init, k, task));
    assert RemovedAt(ls, |init|, task) <==> Removes(d, l, task);
    if task in d.store.log {
      LiveUntilRemoved(init, task);
      StepRemoves(d, l, task);
    } else {
      NotThereYet(init, task);
    }
  }

  lemma {:induction false} NotThereYet(ls: seq<Label>, task: int)
    requires task !in Run(START, ls).store.log
    ensures forall k :: 0 <= k < |ls| ==> !RemovedAt(ls, k, task)
    decreases |ls|
  {
    if ls != [] {
      var init := Last(ls);
      var d, l := Run(START, init), ls[|ls| - 1];
      StepRefines(d, l);
      if task in d.store.log && Linearize(d, l).Some? { CreatorStays(d.store, Linearize(d, l).value, task); }
      NotThereYet(init, task);
      assert forall k :: 0 <= k < |init| ==> (RemovedAt(ls, k, task) <==> RemovedAt(init, k, task));
    }
  }

  lemma VersionFits(s: Store, op: Op, task: int)
    requires Valid(s) && (task in s.tasks ==> 1 <= s.tasks[task].version <= 2147483647) && task in Exec(s, op).tasks
    ensures 1 <= Exec(s, op).tasks[task].version <= 2147483647
  {
  }

  /** A version always fits its 4-byte column. */
  lemma {:induction false} VersionsFit(ls: seq<Label>, task: int)
    requires task in Run(START, ls).store.tasks
    ensures 1 <= Run(START, ls).store.tasks[task].version <= 2147483647
    decreases |ls|
  {
    var init := Last(ls);
    var d, l := Run(START, init), ls[|ls| - 1];
    StepRefines(d, l);
    if task in d.store.tasks { VersionsFit(init, task); }
    if Linearize(d, l).Some? { VersionFits(d.store, Linearize(d, l).value, task); }
  }

  // ---- What an update's outcome says ----

  /** The m-th step committed the update while the row had the version it named. */
  predicate WonAt(ls: seq<Label>, tx: Tx, x: int, m: nat) {
    && m < |ls| && ls[m] == Commit(x) && tx.command.Update? && tx.task in At(ls, m).store.tasks
    && At(ls, m).store.tasks[tx.task].version == tx.command.expected
  }

  /** At the m-th step the statement looked for the row, and it was gone or had another version. */
  predicate MissedAt(ls: seq<Label>, tx: Tx, x: int, m: nat) {
    && m < |ls| && (ls[m] == Scan(x) || ls[m] == Acquire(x)) && tx.command.Update?
    && (tx.task in At(ls, m).store.tasks ==> At(ls, m).store.tasks[tx.task].version != tx.command.expected)
  }

  /** At the m-th step the statement found its row and broke a constraint, or the commit raised. */
  predicate FailedAt(ls: seq<Label>, tx: Tx, x: int, m: nat) {
    && m < |ls| && tx.command.Update? && tx.task in At(ls, m).store.tasks
    && At(ls, m).store.tasks[tx.task].version == tx.command.expected
    && (ls[m] == Abort(x) || (ls[m] == Acquire(x) && BreaksConstraint(At(ls, m).store, tx)))
  }

  /** NOT NULL, the foreign key to lists, or the range of a 4-byte version. */
  predicate BreaksConstraint(s: Store, tx: Tx)
    requires tx.command.Update? && tx.task in s.tasks
  {
    var p := tx.command.patch;
    || p.title == Set(None) || p.list == Set(None) || (p.list.Set? && p.list.value.Some? && p.list.value.value !in s.lists)
    || s.tasks[tx.task].version >= 2147483647
  }

  /** The re-read at step k, after the decision at step m, found the row or not. */
  predicate ReadAt(ls: seq<Label>, tx: Tx, x: int, m: nat, k: nat, found: Option<Task>) {
    && m < k < |ls| && ls[k] == Reread(x)
    && (if found.Some? then tx.task in At(ls, k).store.tasks && At(ls, k).store.tasks[tx.task] == found.value
        else tx.task !in At(ls, k).store.tasks)
  }

  predicate Told(ls: seq<Label>, tx: Tx, x: int, m: nat, k: nat) {
    match tx.phase
    case NoMatch => MissedAt(ls, tx, x, m)
    case Committed => WonAt(ls, tx, x, m)
    case Finished(outcome) =>
      (match outcome
       case Ok(row) => WonAt(ls, tx, x, m) && ReadAt(ls, tx, x, m, k, Some(row))
       case Vanished => WonAt(ls, tx, x, m) && ReadAt(ls, tx, x, m, k, None)
       case Conflict(current) =>
         MissedAt(ls, tx, x, m) && m < k < |ls| && tx.task in At(ls, k).store.tasks
         && At(ls, k).store.tasks[tx.task].version == current && ls[k] == Reread(x)
       case NotFound => MissedAt(ls, tx, x, m) && ReadAt(ls, tx, x, m, k, None)
       case Error => FailedAt(ls, tx, x, m)
       case Deleted => false)
    case _ => true
  }

  lemma ToldStays(init: seq<Label>, ls: seq<Label>, tx: Tx, x: int, m: nat, k: nat)
    requires ls != [] && init == ls[..|ls| - 1] && Told(init, tx, x, m, k)
    requires forall k :: 0 <= k <= |init| ==> At(ls, k) == At(init, k)
    ensures Told(ls, tx, x, m, k)
  {
  }

  lemma HolderMatches(d: Db, x: int)
    requires Good(d) && x in d.txs && d.txs[x].phase.Holding?
    ensures Where(d.store, d.txs[x])
  {
    assert LockSound(d, d.txs[x].task);
  }

  lemma DecisionIsTold(init: seq<Label>, ls: seq<Label>, x: int)
    requires ls != [] && init == ls[..|ls| - 1] && At(ls, |init|) == Run(START, init) && Good(Run(START, init))
    requires x in Run(START, init).txs && Run(START, init).txs[x].command.Update?
    requires var l := ls[|init|]; !l.Other? && l.x == x && !l.Reread? && !l.Open?
    requires Enabled(Run(START, init), ls[|init|])
    ensures var d' := Step(Run(START, init), ls[|init|]);
            x in d'.txs && Told(ls, d'.txs[x], x, |init|, 0)
  {
    var d := Run(START, init);
    if d.txs[x].phase.Holding? { HolderMatches(d, x); }
  }

  lemma RereadIsTold(init: seq<Label>, ls: seq<Label>, x: int, m: nat, k: nat)
    requires ls != [] && init == ls[..|ls| - 1] && At(ls, |init|) == Run(START, init)
    requires forall k :: 0 <= k <= |init| ==> At(ls, k) == At(init, k)
    requires x in Run(START, init).txs && Told(init, Run(START, init).txs[x], x, m, k)
    requires Run(START, init).txs[x].command.Update?
    requires ls[|init|] == Reread(x) && Enabled(Run(START, init), Reread(x))
    ensures var d' := Step(Run(START, init), Reread(x));
            x in d'.txs && Told(ls, d'.txs[x], x, m, |init|)
  {
  }

  /** Every answer is true. A 200 says that the row had the named version when the update committed,
      and carries the row as it was at the re-read; a 409 or 404 says that when the statement
      looked, the row was gone or had another version, and tells what the second read found; an
      error says that the row did match and a constraint was broken, or that the commit raised. */
  lemma {:induction false} OutcomesAreTrue(ls: seq<Label>, x: int) returns (m: nat, k: nat)
    requires x in Run(START, ls).txs && Run(START, ls).txs[x].command.Update?
    ensures Told(ls, Run(START, ls).txs[x], x, m, k)
    decreases |ls|
  {
    var init := Last(ls);
    var d, l := Run(START, init), ls[|ls| - 1];
    var d' := Step(d, l);
    m, k := 0, 0;
    if x in d.txs {
      m, k := OutcomesAreTrue(init, x);
      if d'.txs[x] == d.txs[x] {
        ToldStays(init, ls, d.txs[x], x, m, k);
      } else {
        assert Enabled(d, l) && !l.Other? && l.x == x;
        if l.Reread? {
          RereadIsTold(init, ls, x, m, k);
          k := |init|;
        } else {
          DecisionIsTold(init, ls, x);
          m, k := |init|, 0;
        }
      }
    }
  }
}
