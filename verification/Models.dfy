/** The rows of app/models and the request bodies of app/schemas that the other modules share. */
module Models {
  datatype Option<+T> = None | Some(value: T)

  /** A request field: left out of the body, or set (possibly to null). */
  datatype Field<+T> = Unset | Set(value: T)

  datatype Role = Viewer | Editor | Owner

  datatype Content = Content(title: string, description: Option<string>, list: int)

  datatype Task = Task(content: Content, version: int, creator: Option<int>)

  datatype Member = Member(user: int, board: int, role: Role)

  /** TaskUpdate without expected_version: what `exclude_unset` leaves of the body. */
  datatype Patch = Patch(title: Field<Option<string>>, description: Field<Option<string>>, list: Field<Option<int>>)

  /** Task.version is a 4-byte INTEGER column. */
  const MAX_INTEGER := 0x7fff_ffff

  /** No NOT NULL column is set to null. */
  predicate NotNull(p: Patch) {
    p.title != Set(None) && p.list != Set(None)
  }

  predicate ForeignKeyHolds(p: Patch, lists: set<int>) {
    p.list.Set? && p.list.value.Some? ==> p.list.value.value in lists
  }

  /** The UPDATE's SET clause: only the fields that are present change. */
  function Apply(p: Patch, c: Content): Content
    requires NotNull(p)
  {
    Content(
      if p.title.Set? then p.title.value.value else c.title,
      if p.description.Set? then p.description.value else c.description,
      if p.list.Set? then p.list.value.value else c.list)
  }

  /** The whole row the UPDATE writes. */
  function Updated(p: Patch, row: Task): Task
    requires NotNull(p)
  {
    row.(content := Apply(p, row.content), version := row.version + 1)
  }

  /** The UPDATE breaks no column constraint when it writes to `row`. */
  predicate Accepts(p: Patch, row: Task, lists: set<int>) {
    NotNull(p) && ForeignKeyHolds(p, lists) && row.version < MAX_INTEGER
  }

  /** An element of a non-empty set: the witness that `:|` needs. */
  lemma AnyOf<T>(s: set<T>) returns (x: T)
    requires s != {}
    ensures x in s
  {
    x :| x in s;
  }
}
