/** Tasks and lists written by single atomic operations: the machine that the row-locking
    database of module RowLocks is proved to refine. `births` and `log` record history only. */
module TaskStore {
  import opened Models

  /** One committed update: who made it, the version it named, what it changed. */
  datatype Entry = Entry(writer: int, expected: int, patch: Patch)

  datatype Store = Store(
    tasks: map<int, Task>, lists: set<int>, nextTask: int,
    births: map<int, Content>, log: map<int, seq<Entry>>)

  datatype Op =
    | Cas(writer: int, task: int, expected: int, patch: Patch)
    | Remove(task: int)
    | Insert(content: Content, creator: Option<int>)
    | AddList(list: int)
    | DropList(list: int)

  datatype Answer = Won | Stale(current: Option<int>) | Rejected | Done

  const EMPTY := Store(map[], {}, 1, map[], map[])

  predicate Matches(s: Store, task: int, expected: int) {
    task in s.tasks && s.tasks[task].version == expected
  }

  function CurrentVersion(s: Store, task: int): Option<int> {
    if task in s.tasks then Some(s.tasks[task].version) else None
  }

  function AnswerOf(s: Store, op: Op): Answer {
    match op
    case Cas(_, task, expected, patch) =>
      if !Matches(s, task, expected) then Stale(CurrentVersion(s, task))
      else if Accepts(patch, s.tasks[task], s.lists) then Won
      else Rejected
    case _ => Done
  }

  function Exec(s: Store, op: Op): Store {
    match op
    case Cas(writer, task, expected, patch) =>
      if AnswerOf(s, op) == Won && task in s.log then
        s.(tasks := s.tasks[task := Updated(patch, s.tasks[task])],
           log := s.log[task := s.log[task] + [Entry(writer, expected, patch)]])
      else s
    case Remove(task) => s.(tasks := s.tasks - {task})
    case Insert(content, creator) =>
      if content.list in s.lists then
        s.(tasks := s.tasks[s.nextTask := Task(content, 1, creator)],
           births := s.births[s.nextTask := content],
           log := s.log[s.nextTask := []],
           nextTask := s.nextTask + 1)
      else s
    case AddList(list) => s.(lists := s.lists + {list})
    case DropList(list) =>
      s.(lists := s.lists - {list},
         tasks := map t | t in s.tasks && s.tasks[t].content.list != list :: s.tasks[t])
  }

  function ExecAll(s: Store, ops: seq<Op>): Store
    decreases |ops|
  {
    if ops == [] then s else ExecAll(Exec(s, ops[0]), ops[1..])
  }

  predicate AllNotNull(es: seq<Entry>) {
    forall i :: 0 <= i < |es| ==> NotNull(es[i].patch)
  }

  /** A task's content after the patches `es` were applied, oldest first. */
  function Fold(birth: Content, es: seq<Entry>): Content
    requires AllNotNull(es)
  {
    if es == [] then birth
    else Apply(es[|es| - 1].patch, Fold(birth, es[..|es| - 1]))
  }

  /** The k-th committed update named version k, and folding all of them gives the row. */
  predicate Chain(birth: Content, es: seq<Entry>, row: Task) {
    && AllNotNull(es)
    && row.version == 1 + |es|
    && row.content == Fold(birth, es)
    && forall i :: 0 <= i < |es| ==> es[i].expected == i + 1
  }

  /** Every live row continues the history of its own id, which is never given out again. */
  predicate Valid(s: Store) {
    && s.log.Keys == s.births.Keys
    && (forall t :: t in s.log ==> t < s.nextTask)
    && (forall t :: t in s.tasks ==> t in s.log && s.tasks[t].content.list in s.lists
                                     && Chain(s.births[t], s.log[t], s.tasks[t]))
  }

  lemma ChainGrows(birth: Content, es: seq<Entry>, row: Task, e: Entry)
    requires Chain(birth, es, row) && NotNull(e.patch) && e.expected == row.version
    ensures Chain(birth, es + [e], Updated(e.patch, row))
  {
    assert (es + [e])[..|es|] == es;
  }

  lemma ExecValid(s: Store, op: Op)
    requires Valid(s)
    ensures Valid(Exec(s, op))
  {
    if op.Cas? && AnswerOf(s, op) == Won {
      ChainGrows(s.births[op.task], s.log[op.task], s.tasks[op.task], Entry(op.writer, op.expected, op.patch));
    }
  }

  /** Whatever sequence of atomic operations ran, a live task's version is one more than the
      number of its committed updates, its content is their fold over what it was created
      with, and the k-th of them named version k. */
  lemma {:induction false} UpdatesFormOneChain(s: Store, ops: seq<Op>)
    requires Valid(s)
    ensures Valid(ExecAll(s, ops))
    decreases |ops|
  {
    if ops != [] {
      ExecValid(s, ops[0]);
      UpdatesFormOneChain(Exec(s, ops[0]), ops[1..]);
    }
  }
}
