/** What one race for a version looks like from outside: N writers that all name the version a
    task has, and the read-check-write variant that the compare-and-swap replaced. */
module Races {
  import opened Models
  import opened TaskStore
  import opened RowLocks

  /** Everyone who ever tried to update `task` from version `v`. */
  function Writers(d: Db, task: int, v: int): set<int> {
    set x | x in d.txs && d.txs[x].task == task && d.txs[x].command.Update? && d.txs[x].command.expected == v
  }

  predicate Won(d: Db, x: int) {
    x in d.txs && d.txs[x].phase.Finished? && d.txs[x].phase.outcome.Ok?
  }

  predicate ToldNewer(d: Db, x: int, v: int) {
    x in d.txs && d.txs[x].phase.Finished? && d.txs[x].phase.outcome.Conflict? && d.txs[x].phase.outcome.current > v
  }

  /** The transaction's fate does not depend on the database any more. */
  predicate Decided(d: Db, x: int) {
    x in d.txs && (d.txs[x].phase.NoMatch? || d.txs[x].phase.Finished?)
  }

  /** How a writer of version `v` that was undecided when the task had that version can stand. */
  predicate InRace(d: Db, x: int, v: int, now: int)
    requires x in d.txs
  {
    match d.txs[x].phase
    case NoMatch => now > v
    case Finished(outcome) =>
      (match outcome
       case Conflict(current) => current > v && now > v
       case Ok(_) => true
       case Error => true
       case _ => false)
    case _ => true
  }

  predicate RaceOn(d: Db, task: int, v: int) {
    && task < d.store.nextTask
    && (task in d.store.tasks ==>
          && d.store.tasks[task].version >= v
          && forall x :: x in Writers(d, task, v) ==> InRace(d, x, v, d.store.tasks[task].version))
  }

  lemma VersionsGrow(s: Store, op: Op, task: int)
    requires Valid(s) && task < s.nextTask && task in Exec(s, op).tasks
    ensures task in s.tasks && Exec(s, op).tasks[task].version >= s.tasks[task].version
    ensures Exec(s, op).nextTask >= s.nextTask
  {
  }

  /** A transaction's own phase moves only by its own steps. */
  lemma PhaseFrame(d: Db, l: Label, x: int)
    requires x in d.txs
    ensures x in Step(d, l).txs && Step(d, l).txs[x].task == d.txs[x].task && Step(d, l).txs[x].command == d.txs[x].command
    ensures l.Other? || l.x != x ==> Step(d, l).txs[x] == d.txs[x]
  {
  }

  lemma StepStaysInRace(d: Db, l: Label, task: int, v: int, x: int)
    requires Good(d) && RaceOn(d, task, v) && task in d.store.tasks && task in Step(d, l).store.tasks
    requires Step(d, l).store.tasks[task].version >= d.store.tasks[task].version
    requires x in Writers(Step(d, l), task, v)
    ensures InRace(Step(d, l), x, v, Step(d, l).store.tasks[task].version)
  {
    if x in d.txs {
      PhaseFrame(d, l, x);
      assert x in Writers(d, task, v);
      assert InRace(d, x, v, d.store.tasks[task].version);
    }
  }

  lemma StepKeepsRace(d: Db, l: Label, task: int, v: int)
    requires Good(d) && RaceOn(d, task, v)
    ensures RaceOn(Step(d, l), task, v)
  {
    var d' := Step(d, l);
    StepRefines(d, l);
    if task in d'.store.tasks {
      match Linearize(d, l) {
        case None =>
        case Some(op) => VersionsGrow(d.store, op, task);
      }
      forall x | x in Writers(d', task, v)
        ensures InRace(d', x, v, d'.store.tasks[task].version)
      {
        StepStaysInRace(d, l, task, v, x);
      }
    }
  }

  lemma {:induction false} RunKeepsRace(d: Db, ls: seq<Label>, task: int, v: int)
    requires Good(d) && RaceOn(d, task, v)
    ensures Good(Run(d, ls)) && RaceOn(Run(d, ls), task, v)
    decreases |ls|
  {
    if ls != [] {
      StepKeepsGood(d, ls[0]);
      StepKeepsRace(d, ls[0], task, v);
      RunKeepsRace(Step(d, ls[0]), ls[1..], task, v);
    }
  }

  /** No two transactions ever commit an update from the same version of the same task. */
  lemma OneWinnerPerVersion(d: Db, x: int, y: int)
    requires Good(d)
    requires x in d.txs && y in d.txs && HasCommitted(d.txs[x]) && HasCommitted(d.txs[y])
    requires d.txs[x].task == d.txs[y].task && d.txs[x].command.Update? && d.txs[y].command.Update?
    requires d.txs[x].command.expected == d.txs[y].command.expected
    ensures x == y
  {
    assert WinnerSound(d, x) && WinnerSound(d, y);
  }

  /** A task had version `v` after the run `before`. However the run `after` interleaved, once
      every writer of version `v` that was still undecided has finished without an error and
      the task is still there, exactly one of them won and every other one was told a version
      greater than `v`. */
  lemma ExactlyOneWins(before: seq<Label>, after: seq<Label>, task: int, v: int) returns (winner: int)
    requires var d := Run(START, before); task in d.store.tasks && d.store.tasks[task].version == v
    requires var d := Run(START, before); forall x :: x in Writers(d, task, v) ==> !Decided(d, x)
    requires var d := Run(Run(START, before), after);
             && task in d.store.tasks && Writers(d, task, v) != {}
             && forall x :: x in Writers(d, task, v) ==> d.txs[x].phase.Finished? && d.txs[x].phase.outcome != Error
    ensures var d := Run(Run(START, before), after);
            && (set x | x in Writers(d, task, v) && Won(d, x)) == {winner}
            && (set x | x in Writers(d, task, v) && ToldNewer(d, x, v)) == Writers(d, task, v) - {winner}
  {
    var d1 := Run(START, before);
    var d2 := Run(d1, after);
    RunKeepsGood(START, before);
    RunKeepsRace(d1, after, task, v);
    var now := d2.store.tasks[task].version;
    assert Chain(d1.store.births[task], d1.store.log[task], d1.store.tasks[task]);
    assert Chain(d2.store.births[task], d2.store.log[task], d2.store.tasks[task]);
    var x := AnyOf(Writers(d2, task, v));
    assert InRace(d2, x, v, now);
    if Won(d2, x) {
      winner := x;
    } else {
      assert LoggedAt(d2, task, v - 1);
      assert EntrySound(d2, task, v - 1);
      winner := d2.store.log[task][v - 1].writer;
      assert winner in Writers(d2, task, v);
      assert InRace(d2, winner, v, now);
    }
    forall y | y in Writers(d2, task, v) && y != winner
      ensures !Won(d2, y) && ToldNewer(d2, y, v)
    {
      assert InRace(d2, y, v, now);
      if Won(d2, y) {
        OneWinnerPerVersion(d2, y, winner);
      }
    }
  }

  // ---- The event of a successful update ----

  /** task_updated announces the version of the re-read row, not `expected + 1`. */
  function Announced(tx: Tx): Option<int> {
    if tx.phase.Finished? && tx.phase.outcome.Ok? then Some(tx.phase.outcome.row.version) else None
  }

  predicate AnnouncesAtLeast(tx: Tx) {
    Announced(tx).Some? ==> tx.command.Update? && Announced(tx).value >= tx.command.expected + 1
  }

  ghost predicate AllAnnounceAtLeast(d: Db) {
    forall x :: x in d.txs ==> AnnouncesAtLeast(d.txs[x])
  }

  lemma StepAnnounces(d: Db, l: Label)
    requires Good(d) && AllAnnounceAtLeast(d)
    ensures AllAnnounceAtLeast(Step(d, l))
  {
    if Enabled(d, l) && l.Reread? && d.txs[l.x].phase.Committed? {
      assert WinnerSound(d, l.x);
      var t := d.txs[l.x].task;
      assert t in d.store.tasks ==> Chain(d.store.births[t], d.store.log[t], d.store.tasks[t]);
    }
  }

  /** In every reachable state each winner's event announces at least the version its own
      update made; a later winner may have moved the row on before the re-read. */
  lemma {:induction false} WinnersAnnounceAtLeastTheirOwn(d: Db, ls: seq<Label>)
    requires Good(d) && AllAnnounceAtLeast(d)
    ensures AllAnnounceAtLeast(Run(d, ls))
    decreases |ls|
  {
    if ls != [] {
      StepAnnounces(d, ls[0]);
      StepKeepsGood(d, ls[0]);
      WinnersAnnounceAtLeastTheirOwn(Step(d, ls[0]), ls[1..]);
    }
  }

  // ---- How far the announced version can be ahead ----

  /** The step commits an update of the task. */
  predicate CommitsUpdate(d: Db, l: Label, task: int) {
    l.Commit? && Enabled(d, l) && d.txs[l.x].task == task && d.txs[l.x].command.Update?
  }

  function UpdatesCommitted(d: Db, ls: seq<Label>, task: int): nat
    decreases |ls|
  {
    if ls == [] then 0
    else (if CommitsUpdate(d, ls[0], task) then 1 else 0) + UpdatesCommitted(Step(d, ls[0]), ls[1..], task)
  }

  lemma StepGrowsLog(d: Db, l: Label, task: int)
    requires Good(d) && task in d.store.log
    ensures task in Step(d, l).store.log
    ensures |Step(d, l).store.log[task]| == |d.store.log[task]| + if CommitsUpdate(d, l, task) then 1 else 0
  {
    if Enabled(d, l) && l.Commit? {
      assert LockSound(d, d.txs[l.x].task);
    }
  }

  /** The log of a task counts the updates committed on it, whatever else runs. */
  lemma {:induction false} LogCountsCommits(d: Db, ls: seq<Label>, task: int)
    requires Good(d) && task in d.store.log
    ensures task in Run(d, ls).store.log
    ensures |Run(d, ls).store.log[task]| == |d.store.log[task]| + UpdatesCommitted(d, ls, task)
    decreases |ls|
  {
    if ls != [] {
      StepKeepsGood(d, ls[0]);
      StepGrowsLog(d, ls[0], task);
      LogCountsCommits(Step(d, ls[0]), ls[1..], task);
    }
  }

  /** Right after its commit a winner is the last of as many updates as the version it named. */
  lemma WinnerIsLast(d: Db, x: int)
    requires Good(d) && Enabled(d, Commit(x)) && d.txs[x].command.Update?
    ensures var d1 := Step(d, Commit(x));
            && d.txs[x].task in d1.store.log && |d1.store.log[d.txs[x].task]| == d.txs[x].command.expected
  {
    var task := d.txs[x].task;
    assert LockSound(d, task);
    assert Chain(d.store.births[task], d.store.log[task], d.store.tasks[task]);
  }

  /** A winner commits after `before`, then others run, then it re-reads a task that is still there:
      the version it announces is one more than the one it named, plus the number of other updates
      of the task committed in between. */
  lemma AnnouncedExactly(before: seq<Label>, x: int, between: seq<Label>)
    requires var d := Run(START, before); Enabled(d, Commit(x)) && d.txs[x].command.Update?
    requires var d2 := Run(Step(Run(START, before), Commit(x)), between);
             x in d2.txs && d2.txs[x].phase.Committed? && d2.txs[x].task in d2.store.tasks
    ensures var d1 := Step(Run(START, before), Commit(x));
            var d2 := Run(d1, between);
            var task, expected := d1.txs[x].task, d1.txs[x].command.expected;
            && x in d1.txs && d1.txs[x].command.Update?
            && Announced(Step(d2, Reread(x)).txs[x]) == Some(expected + 1 + UpdatesCommitted(d1, between, task))
  {
    StartIsGood();
    RunKeepsGood(START, before);
    var d := Run(START, before);
    var d1 := Step(d, Commit(x));
    var task := d.txs[x].task;
    WinnerIsLast(d, x);
    StepKeepsGood(d, Commit(x));
    LogCountsCommits(d1, between, task);
    RunKeepsGood(d1, between);
    SameRequest(d1, between, x);
    PhaseFrame(d, Commit(x), x);
    var d2 := Run(d1, between);
    assert Chain(d2.store.births[task], d2.store.log[task], d2.store.tasks[task]);
  }

  lemma {:induction false} SameRequest(d: Db, ls: seq<Label>, x: int)
    requires x in d.txs
    ensures x in Run(d, ls).txs && Run(d, ls).txs[x].task == d.txs[x].task && Run(d, ls).txs[x].command == d.txs[x].command
    decreases |ls|
  {
    if ls != [] {
      PhaseFrame(d, ls[0], x);
      SameRequest(Step(d, ls[0]), ls[1..], x);
    }
  }

  /** So it announces exactly its own version if and only if no other update of the task committed
      between its commit and its re-read. */
  lemma AnnouncesItsOwnIff(before: seq<Label>, x: int, between: seq<Label>)
    requires var d := Run(START, before); Enabled(d, Commit(x)) && d.txs[x].command.Update?
    requires var d2 := Run(Step(Run(START, before), Commit(x)), between);
             x in d2.txs && d2.txs[x].phase.Committed? && d2.txs[x].task in d2.store.tasks
    ensures var d1 := Step(Run(START, before), Commit(x));
            var d2 := Run(d1, between);
            var task, expected := d1.txs[x].task, d1.txs[x].command.expected;
            && x in d1.txs && d1.txs[x].command.Update?
            && (Announced(Step(d2, Reread(x)).txs[x]) == Some(expected + 1) <==> NoneCommits(d1, between, task))
  {
    AnnouncedExactly(before, x, between);
    var d1 := Step(Run(START, before), Commit(x));
    NoneIsZero(d1, between, d1.txs[x].task);
  }

  /** No step of the schedule commits an update of the task. */
  ghost predicate NoneCommits(d: Db, ls: seq<Label>, task: int) {
    forall k :: 0 <= k < |ls| ==> !CommitsUpdate(Run(d, ls[..k]), ls[k], task)
  }

  lemma {:induction false} NoneIsZero(d: Db, ls: seq<Label>, task: int)
    ensures UpdatesCommitted(d, ls, task) == 0 <==> NoneCommits(d, ls, task)
    decreases |ls|
  {
    if ls != [] {
      var d', rest := Step(d, ls[0]), ls[1..];
      NoneIsZero(d', rest, task);
      assert Run(d, ls[..0]) == d;
      forall k | 0 <= k < |rest|
        ensures Run(d, ls[..k + 1]) == Run(d', rest[..k]) && ls[k + 1] == rest[k]
      {
        assert ls[..k + 1][1..] == rest[..k] && ls[..k + 1][0] == ls[0];
      }
      if NoneCommits(d, ls, task) {
        assert !CommitsUpdate(d, ls[0], task);
        forall k | 0 <= k < |rest|
          ensures !CommitsUpdate(Run(d', rest[..k]), rest[k], task)
        {
          assert !CommitsUpdate(Run(d, ls[..k + 1]), ls[k + 1], task);
        }
      } else {
        var k :| 0 <= k < |ls| && CommitsUpdate(Run(d, ls[..k]), ls[k], task);
        if k > 0 { assert CommitsUpdate(Run(d', rest[..k - 1]), rest[k - 1], task); }
      }
    }
  }

  const BEFORE := Content("task", None, 1)
  const AFTER := Content("renamed", None, 1)
  const RENAME := Patch(Set(Some("renamed")), Unset, Unset)

  /** Up to the first writer's commit: a list, a task in it, and two writers that name versions 1
      and 2. */
  const FIRST_COMMITS := [
    Other(AddList(1)), Other(Insert(BEFORE, None)), Open(1, 1, Update(1, RENAME)), Open(2, 1, Update(2, RENAME)),
    Scan(1), Acquire(1)]
  const SECOND_COMMITS := [Scan(2), Acquire(2), Commit(2)]

  lemma FirstIsAboutToCommit()
    ensures var d := Run(START, FIRST_COMMITS);
            && Enabled(d, Commit(1)) && d.txs[1] == Tx(1, Update(1, RENAME), Holding(Some(Task(AFTER, 2, None))))
            && 2 in d.txs && d.txs[2] == Tx(1, Update(2, RENAME), Ready) && d.locks == map[1 := 1] && 1 in d.store.log
            && 1 in d.store.tasks && d.store.tasks[1] == Task(BEFORE, 1, None) && 1 in d.store.lists
  {
    var ls := FIRST_COMMITS;
    var d3 := Step(Step(Step(START, ls[0]), ls[1]), ls[2]);
    assert 1 in d3.store.lists && d3.store.tasks == map[1 := Task(BEFORE, 1, None)];
    var d6 := Step(Step(Step(d3, ls[3]), ls[4]), ls[5]);
    var rest := ls[1..][1..][1..];
    var d1 := Step(START, ls[0]);
    assert Run(START, ls) == Run(d1, ls[1..]) == Run(Step(d1, ls[1]), ls[1..][1..]) == Run(d3, rest);
    assert Run(d3, rest) == Run(Step(d3, ls[3]), rest[1..]) == Run(Step(Step(d3, ls[3]), ls[4]), rest[1..][1..]) == d6;
  }

  /** It can be ahead: a second writer commits between the first one's commit and its re-read, and
      the first one, who named version 1, announces version 3. */
  lemma AWinnerCanAnnounceMore()
    ensures var d1 := Step(Run(START, FIRST_COMMITS), Commit(1));
            var d2 := Run(d1, SECOND_COMMITS);
            && 1 in d2.txs && d2.txs[1].command == Update(1, RENAME)
            && Announced(Step(d2, Reread(1)).txs[1]) == Some(3)
  {
    FirstIsAboutToCommit();
    var d1 := Step(Run(START, FIRST_COMMITS), Commit(1));
    assert d1.store.tasks[1] == Task(AFTER, 2, None) && 1 !in d1.locks;
    SecondFollows(d1);
  }

  lemma SecondFollows(d: Db)
    requires 1 in d.txs && d.txs[1].task == 1 && d.txs[1].phase.Committed?
    requires 2 in d.txs && d.txs[2] == Tx(1, Update(2, RENAME), Ready) && 1 !in d.locks && 1 in d.store.log
    requires 1 in d.store.tasks && d.store.tasks[1] == Task(AFTER, 2, None) && 1 in d.store.lists
    ensures var e := Run(d, SECOND_COMMITS);
            && 1 in e.txs && e.txs[1] == d.txs[1] && 1 in e.store.tasks && e.store.tasks[1].version == 3
  {
    var ls := SECOND_COMMITS;
    var e1 := Step(d, ls[0]);
    assert e1.txs[2].phase == Waiting;
    var e2 := Step(e1, ls[1]);
    assert e2.txs[2].phase == Holding(Some(Updated(RENAME, Task(AFTER, 2, None))));
    var e3 := Step(e2, ls[2]);
    assert Run(d, ls) == Run(e1, ls[1..]) == Run(e2, ls[1..][1..]) == e3;
  }

  // ---- The variant that reads, checks in Python and then writes ----

  datatype Naive = Naive(version: int, seen: map<int, int>, won: seq<int>)

  datatype NaiveStep = Read(x: int) | CheckAndWrite(x: int, expected: int)

  function NaiveRun(n: Naive, steps: seq<NaiveStep>): Naive {
    if steps == [] then n
    else
      var rest := steps[..|steps| - 1];
      var m := NaiveRun(n, rest);
      match steps[|steps| - 1]
      case Read(x) => m.(seen := m.seen[x := m.version])
      case CheckAndWrite(x, expected) =>
        if x in m.seen && m.seen[x] == expected then m.(version := m.version + 1, won := m.won + [x]) else m
  }

  function Reads(n: nat): seq<NaiveStep> {
    if n == 0 then [] else Reads(n - 1) + [Read(n - 1)]
  }

  function Writes(n: nat, v: int): seq<NaiveStep> {
    if n == 0 then [] else Writes(n - 1, v) + [CheckAndWrite(n - 1, v)]
  }

  lemma {:induction false} AllRead(n: nat, v: int)
    ensures var m := NaiveRun(Naive(v, map[], []), Reads(n));
            m.version == v && m.won == [] && forall x :: 0 <= x < n ==> x in m.seen && m.seen[x] == v
  {
    if n > 0 {
      AllRead(n - 1, v);
      assert Reads(n)[..|Reads(n)| - 1] == Reads(n - 1);
    }
  }

  lemma {:induction false} AllWrite(v: int, n: nat, k: nat)
    requires k <= n
    ensures var m := NaiveRun(Naive(v, map[], []), Reads(n) + Writes(k, v));
            && m.version == v + k && |m.won| == k
            && (forall x :: 0 <= x < k ==> m.won[x] == x)
            && forall x :: 0 <= x < n ==> x in m.seen && m.seen[x] == v
  {
    if k == 0 {
      AllRead(n, v);
      assert Reads(n) + Writes(0, v) == Reads(n);
    } else {
      AllWrite(v, n, k - 1);
      var steps := Reads(n) + Writes(k, v);
      assert steps[..|steps| - 1] == Reads(n) + Writes(k - 1, v);
    }
  }

  /** Read-check-write has, for every n, a run in which n writers naming one version all win. */
  lemma ReadCheckWriteLetsEveryoneThrough(v: int, n: nat)
    ensures NaiveRun(Naive(v, map[], []), Reads(n) + Writes(n, v)).won == seq(n, i => i)
  {
    AllWrite(v, n, n);
  }
}
