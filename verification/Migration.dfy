/** Revision 7c2b1e4a9f10: whatever a database drifted to, upgrade brings it to one schema,
    keeping the oldest of duplicate memberships; downgrade brings back the initial one. */
module Migration {
  import opened Models

  datatype ForeignKey = ForeignKey(name: string, table: string, columns: seq<string>, referent: string, onDelete: Option<string>)

  datatype Index = Index(name: string, table: string, columns: seq<string>, unique: bool)

  /** One entry of FOREIGN_KEYS. */
  datatype Wanted = Wanted(table: string, column: string, referent: string, onDelete: string)

  /** A constraint that is no foreign key. Primary keys and unique constraints own an index of the
      constraint's name; check constraints do not. */
  datatype Constraint = Constraint(table: string, name: string, columns: seq<string>, indexed: bool)

  /** The part of the database the revision reads or changes. `indexes` are those that belong to no
      constraint, `relations` the names of tables, sequences and views, which share one namespace
      with indexes. `dangling` are the (table, column) pairs some row of which refers to nothing,
      on which a foreign key cannot be created. */
  datatype Schema = Schema(
    taskColumns: set<string>, foreignKeys: set<ForeignKey>, constraints: set<Constraint>,
    indexes: set<Index>, relations: set<string>,
    members: map<int, Member>, dangling: set<(string, string)>)

  const FOREIGN_KEYS := [
    Wanted("tasks", "list_id", "lists", "CASCADE"),
    Wanted("tasks", "creator_id", "users", "SET NULL"),
    Wanted("lists", "board_id", "boards", "CASCADE"),
    Wanted("board_members", "board_id", "boards", "CASCADE"),
    Wanted("board_members", "user_id", "users", "CASCADE")]

  const UNIQUE := Constraint("board_members", "uq_board_members_board_user", ["board_id", "user_id"], true)
  const LOOKUPS := [
    Index("ix_tasks_list_id", "tasks", ["list_id"], false),
    Index("ix_lists_board_id", "lists", ["board_id"], false),
    Index("ix_board_members_user_id", "board_members", ["user_id"], false)]
  const TITLE_INDEX := Index("ix_tasks_title", "tasks", ["title"], false)

  const INITIAL_COLUMNS := {"id", "title", "description", "list_id", "version"}
  const INITIAL_INDEXES := {
    Index("ix_boards_id", "boards", ["id"], false), Index("ix_users_email", "users", ["email"], true),
    Index("ix_users_id", "users", ["id"], false), Index("ix_users_username", "users", ["username"], true),
    Index("ix_board_members_id", "board_members", ["id"], false), Index("ix_lists_id", "lists", ["id"], false),
    Index("ix_tasks_id", "tasks", ["id"], false)}
  const INITIAL_CONSTRAINTS := {
    Constraint("boards", "boards_pkey", ["id"], true), Constraint("users", "users_pkey", ["id"], true),
    Constraint("lists", "lists_pkey", ["id"], true), Constraint("tasks", "tasks_pkey", ["id"], true),
    Constraint("board_members", "board_members_pkey", ["id"], true)}
  const INITIAL_RELATIONS := {
    "boards", "users", "lists", "tasks", "board_members", "boards_id_seq", "users_id_seq", "lists_id_seq",
    "tasks_id_seq", "board_members_id_seq", "alembic_version", "alembic_version_pkc"}

  // ---- Statements ----

  function KeyName(table: string, column: string): string {
    table + "_" + column + "_fkey"
  }

  function KeyFor(w: Wanted, onDelete: Option<string>): ForeignKey {
    ForeignKey(KeyName(w.table, w.column), w.table, [w.column], w.referent, onDelete)
  }

  predicate IsOn(f: ForeignKey, table: string, column: string) {
    f.table == table && f.columns == [column]
  }

  function DropKeysOn(keys: set<ForeignKey>, table: string, column: string): set<ForeignKey> {
    set f | f in keys && !IsOn(f, table, column)
  }

  predicate KeyNamed(keys: set<ForeignKey>, table: string, name: string) {
    exists f :: f in keys && f.table == table && f.name == name
  }

  predicate ConstraintNamed(constraints: set<Constraint>, table: string, name: string) {
    exists c :: c in constraints && c.table == table && c.name == name
  }

  /** A constraint name can be used once per table. */
  predicate NameTaken(keys: set<ForeignKey>, constraints: set<Constraint>, table: string, name: string) {
    KeyNamed(keys, table, name) || ConstraintNamed(constraints, table, name)
  }

  /** The table's `id` is declared unique, so that a foreign key can refer to it. */
  predicate HasKey(s: Schema, table: string) {
    || (exists c :: c in s.constraints && c.table == table && c.columns == ["id"] && c.indexed)
    || (exists ix :: ix in s.indexes && ix.table == table && ix.columns == ["id"] && ix.unique)
  }

  /** None: creating the constraint raises. */
  function RecreateKey(s: Schema, w: Wanted, onDelete: Option<string>): Option<Schema> {
    var rest := DropKeysOn(s.foreignKeys, w.table, w.column);
    if NameTaken(rest, s.constraints, w.table, KeyName(w.table, w.column)) then None
    else if (w.table, w.column) in s.dangling || !HasKey(s, w.referent) then None
    else Some(s.(foreignKeys := rest + {KeyFor(w, onDelete)}))
  }

  function RecreateAll(s: Schema, ws: seq<Wanted>): Option<Schema>
    decreases |ws|
  {
    if ws == [] then Some(s)
    else
      var first := RecreateKey(s, ws[0], Some(ws[0].onDelete));
      if first.None? then None else RecreateAll(first.value, ws[1..])
  }

  predicate SamePair(a: Member, b: Member) {
    a.board == b.board && a.user == b.user
  }

  predicate HasOlder(members: map<int, Member>, a: int)
    requires a in members
  {
    exists b :: b in members && SamePair(members[a], members[b]) && a > b
  }

  /** DELETE FROM board_members a USING board_members b WHERE same pair AND a.id > b.id */
  function Deduplicate(members: map<int, Member>): map<int, Member> {
    map a | a in members && !HasOlder(members, a) :: members[a]
  }

  predicate Unique(members: map<int, Member>) {
    forall a, b :: a in members && b in members && SamePair(members[a], members[b]) ==> a == b
  }

  predicate HasIndex(indexes: set<Index>, name: string) {
    exists j :: j in indexes && j.name == name
  }

  predicate OwnsIndex(constraints: set<Constraint>, name: string) {
    exists c :: c in constraints && c.indexed && c.name == name
  }

  /** Relation names are unique: tables, sequences and indexes of either kind. */
  predicate RelationNamed(s: Schema, name: string) {
    HasIndex(s.indexes, name) || name in s.relations || OwnsIndex(s.constraints, name)
  }

  /** ADD CONSTRAINT ... UNIQUE takes a constraint name and builds an index of that name. */
  function AddUnique(s: Schema): Option<Schema> {
    if NameTaken(s.foreignKeys, s.constraints, UNIQUE.table, UNIQUE.name) || RelationNamed(s, UNIQUE.name) then None
    else if !Unique(s.members) then None
    else Some(s.(constraints := s.constraints + {UNIQUE}))
  }

  /** CREATE INDEX IF NOT EXISTS goes by the name alone. */
  function CreateIndex(s: Schema, ix: Index): Schema {
    if RelationNamed(s, ix.name) then s else s.(indexes := s.indexes + {ix})
  }

  function DropIndex(indexes: set<Index>, name: string): set<Index> {
    set j | j in indexes && j.name != name
  }

  function CreateLookups(s: Schema): Schema {
    CreateIndex(CreateIndex(CreateIndex(s, LOOKUPS[0]), LOOKUPS[1]), LOOKUPS[2])
  }

  /** DROP INDEX, even IF EXISTS, raises on another kind of relation and on a constraint's index. */
  predicate TitleBlocked(s: Schema) {
    TITLE_INDEX.name in s.relations || OwnsIndex(s.constraints, TITLE_INDEX.name)
  }

  function DropTitle(s: Schema): Option<Schema> {
    if TitleBlocked(s) then None else Some(s.(indexes := DropIndex(s.indexes, TITLE_INDEX.name)))
  }

  function DropLookups(indexes: set<Index>): set<Index> {
    DropIndex(DropIndex(DropIndex(indexes, LOOKUPS[2].name), LOOKUPS[1].name), LOOKUPS[0].name)
  }

  /** None: some statement raised and the transaction was rolled back. */
  function Upgraded(s: Schema): Option<Schema> {
    var keyed := RecreateAll(s.(taskColumns := s.taskColumns + {"creator_id"}), FOREIGN_KEYS);
    if keyed.None? then None
    else
      var unique := AddUnique(keyed.value.(members := Deduplicate(s.members)));
      if unique.None? then None else DropTitle(CreateLookups(unique.value))
  }

  /** Plain foreign keys again on all but creator_id, which goes. */
  function PlainKeys(s: Schema, ws: seq<Wanted>): Option<Schema>
    decreases |ws|
  {
    if ws == [] then Some(s)
    else if ws[0].column == "creator_id" then PlainKeys(s, ws[1..])
    else
      var first := RecreateKey(s, ws[0], None);
      if first.None? then None else PlainKeys(first.value, ws[1..])
  }

  /** The downgrade drops its indexes without IF EXISTS. */
  predicate HasLookups(indexes: set<Index>) {
    HasIndex(indexes, LOOKUPS[0].name) && HasIndex(indexes, LOOKUPS[1].name) && HasIndex(indexes, LOOKUPS[2].name)
  }

  function Downgraded(s: Schema): Option<Schema> {
    var bare := s.(indexes := DropLookups(s.indexes), constraints := s.constraints - {UNIQUE});
    var plain := PlainKeys(bare, FOREIGN_KEYS);
    if !HasLookups(s.indexes) || UNIQUE !in s.constraints || "creator_id" !in s.taskColumns || plain.None? then None
    else Some(plain.value.(
      foreignKeys := DropKeysOn(plain.value.foreignKeys, "tasks", "creator_id"),
      taskColumns := plain.value.taskColumns - {"creator_id"}))
  }

  // ---- De-duplication ----

  predicate Oldest(members: map<int, Member>, a: int) {
    a in members && forall b :: b in members && SamePair(members[a], members[b]) ==> a <= b
  }

  lemma OldestHasNoOlder(members: map<int, Member>, a: int)
    requires a in members
    ensures Oldest(members, a) <==> !HasOlder(members, a)
  {
  }

  lemma {:induction false} FindOldest(members: map<int, Member>, rows: set<int>, a: int) returns (oldest: int)
    requires rows <= members.Keys && a in rows
    requires forall b :: b in members && SamePair(members[a], members[b]) && b < a ==> b in rows
    ensures Oldest(members, oldest) && SamePair(members[a], members[oldest])
    decreases |rows|
  {
    if !HasOlder(members, a) {
      oldest := a;
    } else {
      var b :| b in members && SamePair(members[a], members[b]) && a > b;
      oldest := FindOldest(members, rows - {a}, b);
    }
  }

  lemma DeduplicateIsUnique(members: map<int, Member>)
    ensures Unique(Deduplicate(members))
  {
    var kept := Deduplicate(members);
    forall a, b | a in kept && b in kept && SamePair(kept[a], kept[b])
      ensures a == b
    {
      OldestHasNoOlder(members, a);
      OldestHasNoOlder(members, b);
    }
  }

  /** For every (board, user) pair exactly its lowest-id row survives, unchanged. */
  lemma DeduplicationKeepsTheOldest(members: map<int, Member>, a: int) returns (oldest: int)
    requires a in members
    ensures var kept := Deduplicate(members);
            && oldest in kept && kept[oldest] == members[oldest] && SamePair(members[a], members[oldest])
            && forall b :: b in members && SamePair(members[a], members[b]) ==> oldest <= b && (b in kept ==> b == oldest)
  {
    oldest := FindOldest(members, members.Keys, a);
    OldestHasNoOlder(members, oldest);
    forall b | b in members && SamePair(members[a], members[b])
      ensures oldest <= b && (b in Deduplicate(members) ==> b == oldest)
    {
      assert SamePair(members[oldest], members[b]) && SamePair(members[b], members[oldest]);
      OldestHasNoOlder(members, b);
    }
  }

  // ---- One schema from all ----

  /** What is left of the old foreign keys once those on the columns of `ws` are dropped. */
  function DropAll(keys: set<ForeignKey>, ws: seq<Wanted>): set<ForeignKey> {
    if ws == [] then keys else DropKeysOn(DropAll(keys, ws[..|ws| - 1]), ws[|ws| - 1].table, ws[|ws| - 1].column)
  }

  function AllKeys(ws: seq<Wanted>): set<ForeignKey> {
    set i | 0 <= i < |ws| :: KeyFor(ws[i], Some(ws[i].onDelete))
  }

  /** A constraint of the table that is still there when the i-th key is created, and bears the
      name that key gets: a foreign key on another column, or one that is no foreign key. */
  predicate Clash(s: Schema, i: nat)
    requires i < |FOREIGN_KEYS|
  {
    NameTaken(DropAll(s.foreignKeys, FOREIGN_KEYS[..i + 1]), s.constraints,
              FOREIGN_KEYS[i].table, KeyName(FOREIGN_KEYS[i].table, FOREIGN_KEYS[i].column))
  }

  predicate BlockedAt(s: Schema, i: nat)
    requires i < |FOREIGN_KEYS|
  {
    Clash(s, i) || (FOREIGN_KEYS[i].table, FOREIGN_KEYS[i].column) in s.dangling || !HasKey(s, FOREIGN_KEYS[i].referent)
  }

  predicate BlockedFrom(s: Schema, i: nat) {
    exists j :: i <= j < |FOREIGN_KEYS| && BlockedAt(s, j)
  }

  /** The unique constraint's name is used on its table, by a foreign key that the revision does not
      replace or by another constraint, or is the name of some relation. */
  predicate UniqueBlocked(s: Schema) {
    || NameTaken(DropAll(s.foreignKeys, FOREIGN_KEYS), s.constraints, UNIQUE.table, UNIQUE.name)
    || RelationNamed(s, UNIQUE.name)
  }

  lemma NamesDiffer(i: nat, j: nat)
    requires i < |FOREIGN_KEYS| && j < |FOREIGN_KEYS| && i != j
    ensures KeyName(FOREIGN_KEYS[i].table, FOREIGN_KEYS[i].column) != KeyName(FOREIGN_KEYS[j].table, FOREIGN_KEYS[j].column)
    ensures FOREIGN_KEYS[i].table != FOREIGN_KEYS[j].table || FOREIGN_KEYS[i].column != FOREIGN_KEYS[j].column
  {
    assert |KeyName("tasks", "list_id")| == 18 && |KeyName("tasks", "creator_id")| == 21 && |KeyName("lists", "board_id")| == 19;
    assert |KeyName("board_members", "board_id")| == 27 && |KeyName("board_members", "user_id")| == 26;
    assert |"board_id"| == 8 && |"user_id"| == 7 && |"list_id"| == 7 && |"creator_id"| == 10;
  }

  /** The schema after the first `i` keys were dropped and created. */
  function Keyed(s: Schema, i: nat): Schema
    requires i <= |FOREIGN_KEYS|
  {
    s.(foreignKeys := DropAll(s.foreignKeys, FOREIGN_KEYS[..i]) + AllKeys(FOREIGN_KEYS[..i]))
  }

  lemma MadeKeysStay(i: nat, f: ForeignKey)
    requires i < |FOREIGN_KEYS| && f in AllKeys(FOREIGN_KEYS[..i])
    ensures var w := FOREIGN_KEYS[i]; !IsOn(f, w.table, w.column) && !(f.table == w.table && f.name == KeyName(w.table, w.column))
  {
    var made := FOREIGN_KEYS[..i];
    var j :| 0 <= j < |made| && f == KeyFor(made[j], Some(made[j].onDelete));
    assert made[j] == FOREIGN_KEYS[j];
    NamesDiffer(j, i);
    assert f.columns[0] == FOREIGN_KEYS[j].column;
  }

  lemma KeyNamedIn(rest: set<ForeignKey>, made: set<ForeignKey>, table: string, name: string)
    requires forall f :: f in made ==> !(f.table == table && f.name == name)
    ensures KeyNamed(rest + made, table, name) <==> KeyNamed(rest, table, name)
  {
    if KeyNamed(rest, table, name) {
      var f :| f in rest && f.table == table && f.name == name;
      assert f in rest + made;
    }
  }

  lemma RecreateOne(s: Schema, i: nat)
    requires i < |FOREIGN_KEYS|
    ensures var w := FOREIGN_KEYS[i];
            RecreateKey(Keyed(s, i), w, Some(w.onDelete)) == if BlockedAt(s, i) then None else Some(Keyed(s, i + 1))
  {
    var w := FOREIGN_KEYS[i];
    var before, made := DropAll(s.foreignKeys, FOREIGN_KEYS[..i]), AllKeys(FOREIGN_KEYS[..i]);
    assert FOREIGN_KEYS[..i + 1][..i] == FOREIGN_KEYS[..i];
    assert DropAll(s.foreignKeys, FOREIGN_KEYS[..i + 1]) == DropKeysOn(before, w.table, w.column);
    forall f | f in made
      ensures !IsOn(f, w.table, w.column) && !(f.table == w.table && f.name == KeyName(w.table, w.column))
    {
      MadeKeysStay(i, f);
    }
    var rest, name := DropKeysOn(before, w.table, w.column), KeyName(w.table, w.column);
    assert DropKeysOn(before + made, w.table, w.column) == rest + made;
    KeyNamedIn(rest, made, w.table, name);
    assert BlockedAt(s, i) <==>
             NameTaken(rest, s.constraints, w.table, name) || (w.table, w.column) in s.dangling || !HasKey(s, w.referent);
    assert HasKey(Keyed(s, i), w.referent) == HasKey(s, w.referent);
    AllKeysGrow(i);
    assert rest + made + {KeyFor(w, Some(w.onDelete))} == Keyed(s, i + 1).foreignKeys;
  }

  lemma {:induction false} RecreateFrom(s: Schema, i: nat)
    requires i <= |FOREIGN_KEYS|
    ensures RecreateAll(Keyed(s, i), FOREIGN_KEYS[i..]) == if BlockedFrom(s, i) then None else Some(Keyed(s, |FOREIGN_KEYS|))
    decreases |FOREIGN_KEYS| - i
  {
    if i < |FOREIGN_KEYS| {
      var ws := FOREIGN_KEYS[i..];
      assert ws[1..] == FOREIGN_KEYS[i + 1..] && ws[0] == FOREIGN_KEYS[i];
      RecreateOne(s, i);
      RecreateFrom(s, i + 1);
      BlockedHereOrLater(s, i);
    }
  }

  lemma BlockedHereOrLater(s: Schema, i: nat)
    requires i < |FOREIGN_KEYS|
    ensures BlockedFrom(s, i) <==> BlockedAt(s, i) || BlockedFrom(s, i + 1)
  {
  }

  lemma AllKeysGrow(i: nat)
    requires i < |FOREIGN_KEYS|
    ensures AllKeys(FOREIGN_KEYS[..i + 1]) == AllKeys(FOREIGN_KEYS[..i]) + {KeyFor(FOREIGN_KEYS[i], Some(FOREIGN_KEYS[i].onDelete))}
  {
    var more, fewer := FOREIGN_KEYS[..i + 1], FOREIGN_KEYS[..i];
    forall f | f in AllKeys(fewer)
      ensures f in AllKeys(more)
    {
      var j :| 0 <= j < |fewer| && f == KeyFor(fewer[j], Some(fewer[j].onDelete));
      assert more[j] == fewer[j];
    }
    assert more[i] == FOREIGN_KEYS[i];
    forall f | f in AllKeys(more)
      ensures f in AllKeys(fewer) || f == KeyFor(FOREIGN_KEYS[i], Some(FOREIGN_KEYS[i].onDelete))
    {
      var j :| 0 <= j < |more| && f == KeyFor(more[j], Some(more[j].onDelete));
      if j < i { assert fewer[j] == more[j]; }
    }
  }

  /** The schema when the unique constraint is to be added. */
  function Ready(s: Schema): Schema {
    s.(taskColumns := s.taskColumns + {"creator_id"},
       foreignKeys := DropAll(s.foreignKeys, FOREIGN_KEYS) + AllKeys(FOREIGN_KEYS),
       members := Deduplicate(s.members))
  }

  lemma KeysAreMade(s: Schema)
    ensures RecreateAll(s.(taskColumns := s.taskColumns + {"creator_id"}), FOREIGN_KEYS)
         == if BlockedFrom(s, 0) then None else Some(Ready(s).(members := s.members))
  {
    var widened := s.(taskColumns := s.taskColumns + {"creator_id"});
    assert FOREIGN_KEYS[0..] == FOREIGN_KEYS && FOREIGN_KEYS[..0] == [];
    assert Keyed(widened, 0).foreignKeys == s.foreignKeys;
    assert Keyed(widened, 0) == widened;
    RecreateFrom(widened, 0);
    assert forall j :: 0 <= j < |FOREIGN_KEYS| ==> (BlockedAt(widened, j) <==> BlockedAt(s, j));
    assert FOREIGN_KEYS[..|FOREIGN_KEYS|] == FOREIGN_KEYS;
  }

  lemma UniqueNameIsNoKeyName(f: ForeignKey)
    requires f in AllKeys(FOREIGN_KEYS)
    ensures f.name != UNIQUE.name
  {
    var j :| 0 <= j < |FOREIGN_KEYS| && f == KeyFor(FOREIGN_KEYS[j], Some(FOREIGN_KEYS[j].onDelete));
    assert f.name[0] == FOREIGN_KEYS[j].table[0];
    assert UNIQUE.name[0] == 'u';
  }

  lemma UniqueIsAdded(s: Schema)
    ensures AddUnique(Ready(s)) == if UniqueBlocked(s) then None else Some(Ready(s).(constraints := s.constraints + {UNIQUE}))
  {
    DeduplicateIsUnique(s.members);
    forall f | f in AllKeys(FOREIGN_KEYS)
      ensures f.name != UNIQUE.name
    {
      UniqueNameIsNoKeyName(f);
    }
    KeyNamedIn(DropAll(s.foreignKeys, FOREIGN_KEYS), AllKeys(FOREIGN_KEYS), UNIQUE.table, UNIQUE.name);
  }

  /** upgrade succeeds exactly when no constraint's name, no dangling row and no missing key of the
      table referred to stands in the way of a foreign key, no constraint of the table and no
      relation bears the unique constraint's name,
      and the title index to drop is no other kind of relation. Duplicates never stop it. */
  lemma UpgradeSucceedsIff(s: Schema)
    ensures Upgraded(s).Some? <==> !BlockedFrom(s, 0) && !UniqueBlocked(s) && !TitleBlocked(s)
    ensures Upgraded(s).Some? ==>
              Upgraded(s) == DropTitle(CreateLookups(Ready(s).(constraints := s.constraints + {UNIQUE})))
  {
    KeysAreMade(s);
    UniqueIsAdded(s);
    var unique := Ready(s).(constraints := s.constraints + {UNIQUE});
    assert UNIQUE.name != TITLE_INDEX.name by { assert |UNIQUE.name| == 27 && |TITLE_INDEX.name| == 14; }
    assert TitleBlocked(CreateLookups(unique)) <==> TitleBlocked(s) by {
      assert OwnsIndex(s.constraints, TITLE_INDEX.name) ==> OwnsIndex(unique.constraints, TITLE_INDEX.name) by {
        if OwnsIndex(s.constraints, TITLE_INDEX.name) {
          var c :| c in s.constraints && c.indexed && c.name == TITLE_INDEX.name;
          assert c in unique.constraints;
        }
      }
    }
  }

  function LookupSet(): set<Index> {
    {LOOKUPS[0], LOOKUPS[1], LOOKUPS[2]}
  }

  /** What a database at the initial revision may have become: creator_id added or not, any
      foreign keys on the five columns, some of the lookup indexes or the old title index. */
  predicate Drifted(s: Schema) {
    && INITIAL_COLUMNS <= s.taskColumns <= INITIAL_COLUMNS + {"creator_id"}
    && (forall f :: f in s.foreignKeys ==>
          exists i :: 0 <= i < |FOREIGN_KEYS| && IsOn(f, FOREIGN_KEYS[i].table, FOREIGN_KEYS[i].column))
    && s.constraints == INITIAL_CONSTRAINTS && s.relations == INITIAL_RELATIONS
    && INITIAL_INDEXES <= s.indexes <= INITIAL_INDEXES + LookupSet() + {TITLE_INDEX}
  }

  function Target(s: Schema): Schema {
    Schema(INITIAL_COLUMNS + {"creator_id"}, AllKeys(FOREIGN_KEYS), INITIAL_CONSTRAINTS + {UNIQUE},
           INITIAL_INDEXES + LookupSet(), INITIAL_RELATIONS, Deduplicate(s.members), s.dangling)
  }

  predicate HasPlainKey(i: nat)
    requires i < |FOREIGN_KEYS|
  {
    FOREIGN_KEYS[i].column != "creator_id"
  }

  function InitialKeys(): set<ForeignKey> {
    set i | 0 <= i < |FOREIGN_KEYS| && HasPlainKey(i) :: KeyFor(FOREIGN_KEYS[i], None)
  }

  lemma {:induction false} DropAllDrops(keys: set<ForeignKey>, ws: seq<Wanted>, f: ForeignKey)
    requires f in DropAll(keys, ws)
    ensures f in keys && forall i :: 0 <= i < |ws| ==> !IsOn(f, ws[i].table, ws[i].column)
  {
    if ws != [] {
      DropAllDrops(keys, ws[..|ws| - 1], f);
    }
  }

  lemma IndexNames(ix: Index, k: nat)
    requires ix in INITIAL_INDEXES + LookupSet() + {TITLE_INDEX} && k < 3
    ensures ix.name == LOOKUPS[k].name ==> ix == LOOKUPS[k]
    ensures ix.name == TITLE_INDEX.name ==> ix == TITLE_INDEX
    ensures ix in INITIAL_INDEXES ==> ix.name != LOOKUPS[k].name
    ensures LOOKUPS[k].name != TITLE_INDEX.name && TITLE_INDEX !in INITIAL_INDEXES
  {
    assert |"ix_boards_id"| == 12 && |"ix_users_email"| == 14 && |"ix_users_id"| == 11 && |"ix_users_username"| == 17;
    assert |"ix_board_members_id"| == 19 && |"ix_lists_id"| == 11 && |"ix_tasks_id"| == 11;
    assert |"ix_tasks_list_id"| == 16 && |"ix_lists_board_id"| == 17 && |"ix_board_members_user_id"| == 24 && |"ix_tasks_title"| == 14;
    assert "ix_users_email"[3] == 'u' && "ix_tasks_title"[3] == 't' && "ix_users_username"[3] == 'u' && "ix_lists_board_id"[3] == 'l';
  }

  /** The names that the revision gives to relations are not yet those of tables, sequences or
      constraints. */
  lemma InitialNames(name: string)
    requires |name| == 27 || |name| == 24 || |name| == 17 || |name| == 16 || |name| == 14
    ensures name !in INITIAL_RELATIONS && !OwnsIndex(INITIAL_CONSTRAINTS, name)
  {
    assert |"boards"| == 6 && |"users"| == 5 && |"lists"| == 5 && |"tasks"| == 5 && |"board_members"| == 13;
    assert |"boards_id_seq"| == 13 && |"users_id_seq"| == 12 && |"lists_id_seq"| == 12 && |"tasks_id_seq"| == 12;
    assert |"board_members_id_seq"| == 20 && |"alembic_version"| == 15 && |"alembic_version_pkc"| == 19;
    InitialConstraintNames();
  }

  lemma InitialConstraintNames()
    ensures forall c :: c in INITIAL_CONSTRAINTS ==> |c.name| == 10 || |c.name| == 11 || (|c.name| == 18 && c.table == "board_members")
  {
    assert |"boards_pkey"| == 11 && |"users_pkey"| == 10 && |"lists_pkey"| == 10 && |"tasks_pkey"| == 10 && |"board_members_pkey"| == 18;
  }

  lemma RevisionNames()
    ensures |LOOKUPS[0].name| == 16 && |LOOKUPS[1].name| == 17 && |LOOKUPS[2].name| == 24
    ensures |TITLE_INDEX.name| == 14 && |UNIQUE.name| == 27
  {
  }

  lemma CreatedWhere(s: Schema, k: nat, have: set<Index>)
    requires k < 3 && s.constraints == INITIAL_CONSTRAINTS + {UNIQUE} && s.relations == INITIAL_RELATIONS
    requires INITIAL_INDEXES <= have <= INITIAL_INDEXES + LookupSet() + {TITLE_INDEX} && s.indexes == have
    ensures CreateIndex(s, LOOKUPS[k]) == s.(indexes := have + {LOOKUPS[k]})
  {
    RevisionNames();
    InitialNames(LOOKUPS[k].name);
    forall ix | ix in have
      ensures ix.name == LOOKUPS[k].name ==> ix == LOOKUPS[k]
    {
      IndexNames(ix, k);
    }
    assert !OwnsIndex(s.constraints, LOOKUPS[k].name);
  }

  lemma LookupsCreated(s: Schema)
    requires s.constraints == INITIAL_CONSTRAINTS + {UNIQUE} && s.relations == INITIAL_RELATIONS
    requires INITIAL_INDEXES <= s.indexes <= INITIAL_INDEXES + LookupSet() + {TITLE_INDEX}
    ensures DropTitle(CreateLookups(s)) == Some(s.(indexes := INITIAL_INDEXES + LookupSet()))
  {
    var have := s.indexes;
    CreatedWhere(s, 0, have);
    CreatedWhere(s.(indexes := have + {LOOKUPS[0]}), 1, have + {LOOKUPS[0]});
    CreatedWhere(s.(indexes := have + {LOOKUPS[0]} + {LOOKUPS[1]}), 2, have + {LOOKUPS[0]} + {LOOKUPS[1]});
    assert have + {LOOKUPS[0]} + {LOOKUPS[1]} + {LOOKUPS[2]} == have + LookupSet();
    RevisionNames();
    InitialNames(TITLE_INDEX.name);
    TitleDropped(have);
  }

  lemma TitleDropped(have: set<Index>)
    requires INITIAL_INDEXES <= have <= INITIAL_INDEXES + LookupSet() + {TITLE_INDEX}
    ensures DropIndex(have + LookupSet(), TITLE_INDEX.name) == INITIAL_INDEXES + LookupSet()
  {
    forall ix | ix in INITIAL_INDEXES + LookupSet() + {TITLE_INDEX}
      ensures ix.name == TITLE_INDEX.name ==> ix == TITLE_INDEX
    {
      IndexNames(ix, 0);
    }
    IndexNames(TITLE_INDEX, 0);
    IndexNames(TITLE_INDEX, 1);
    IndexNames(TITLE_INDEX, 2);
  }

  lemma NothingSurvives(s: Schema)
    requires Drifted(s)
    ensures DropAll(s.foreignKeys, FOREIGN_KEYS) == {}
  {
    forall f
      ensures f !in DropAll(s.foreignKeys, FOREIGN_KEYS)
    {
      if f in DropAll(s.foreignKeys, FOREIGN_KEYS) {
        DropAllDrops(s.foreignKeys, FOREIGN_KEYS, f);
        assert false;
      }
    }
  }

  /** From every drifted schema that nothing blocks, upgrade reaches the same schema. */
  lemma UpgradeReachesOneSchema(s: Schema)
    requires Drifted(s) && !BlockedFrom(s, 0)
    ensures Upgraded(s) == Some(Target(s))
  {
    NothingSurvives(s);
    UniqueIsFree(s);
    UpgradeSucceedsIff(s);
    LookupsCreated(Ready(s).(constraints := s.constraints + {UNIQUE}));
    WithCreatorColumn(s);
    assert {} + AllKeys(FOREIGN_KEYS) == AllKeys(FOREIGN_KEYS);
  }

  lemma UniqueIsFree(s: Schema)
    requires Drifted(s)
    ensures !UniqueBlocked(s) && !TitleBlocked(s)
  {
    NothingSurvives(s);
    RevisionNames();
    InitialNames(UNIQUE.name);
    InitialNames(TITLE_INDEX.name);
    InitialConstraintNames();
    assert |"ix_boards_id"| == 12 && |"ix_users_email"| == 14 && |"ix_users_id"| == 11 && |"ix_users_username"| == 17;
    assert |"ix_board_members_id"| == 19 && |"ix_lists_id"| == 11 && |"ix_tasks_id"| == 11;
    assert forall ix :: ix in s.indexes ==> |ix.name| < 27;
  }

  lemma WithCreatorColumn(s: Schema)
    requires Drifted(s)
    ensures s.taskColumns + {"creator_id"} == INITIAL_COLUMNS + {"creator_id"}
  {
  }

  // ---- Down again ----

  /** Key `j` while the plain keys up to `i` are in place. */
  function KeyDuring(i: nat, j: nat): ForeignKey
    requires j < |FOREIGN_KEYS|
  {
    KeyFor(FOREIGN_KEYS[j], if j < i && HasPlainKey(j) then None else Some(FOREIGN_KEYS[j].onDelete))
  }

  function KeysDuring(i: nat): set<ForeignKey> {
    set j | 0 <= j < |FOREIGN_KEYS| :: KeyDuring(i, j)
  }

  lemma PlainOne(i: nat)
    requires i < |FOREIGN_KEYS|
    ensures var w := FOREIGN_KEYS[i];
            && KeysDuring(i + 1) == (if HasPlainKey(i) then DropKeysOn(KeysDuring(i), w.table, w.column) + {KeyFor(w, None)}
                                     else KeysDuring(i))
            && !KeyNamed(DropKeysOn(KeysDuring(i), w.table, w.column), w.table, KeyName(w.table, w.column))
  {
    var w := FOREIGN_KEYS[i];
    forall j: nat | j < |FOREIGN_KEYS| && j != i
      ensures KeyDuring(i, j) == KeyDuring(i + 1, j)
      ensures !IsOn(KeyDuring(i, j), w.table, w.column)
      ensures KeyDuring(i, j).name != KeyName(w.table, w.column)
    {
      NamesDiffer(i, j);
      assert KeyDuring(i, j).columns[0] == FOREIGN_KEYS[j].column;
    }
    assert KeyDuring(i + 1, i) == if HasPlainKey(i) then KeyFor(w, None) else KeyDuring(i, i);
    if HasPlainKey(i) {
      var replaced := DropKeysOn(KeysDuring(i), w.table, w.column) + {KeyFor(w, None)};
      forall f | f in KeysDuring(i + 1)
        ensures f in replaced
      {
        var j :| 0 <= j < |FOREIGN_KEYS| && f == KeyDuring(i + 1, j);
        assert j != i ==> f == KeyDuring(i, j);
      }
      forall f | f in replaced
        ensures f in KeysDuring(i + 1)
      {
        if f == KeyFor(w, None) {
          assert f == KeyDuring(i + 1, i);
        } else {
          var j :| 0 <= j < |FOREIGN_KEYS| && f == KeyDuring(i, j);
          assert j != i;
          assert f == KeyDuring(i + 1, j);
        }
      }
    } else {
      forall f | f in KeysDuring(i + 1)
        ensures f in KeysDuring(i)
      {
        var j :| 0 <= j < |FOREIGN_KEYS| && f == KeyDuring(i + 1, j);
        assert f == KeyDuring(i, j);
      }
      forall f | f in KeysDuring(i)
        ensures f in KeysDuring(i + 1)
      {
        var j :| 0 <= j < |FOREIGN_KEYS| && f == KeyDuring(i, j);
        assert f == KeyDuring(i + 1, j);
      }
    }
  }

  lemma KeyNamesAreFree(i: nat)
    requires i < |FOREIGN_KEYS|
    ensures !ConstraintNamed(INITIAL_CONSTRAINTS, FOREIGN_KEYS[i].table, KeyName(FOREIGN_KEYS[i].table, FOREIGN_KEYS[i].column))
  {
    assert |KeyName("tasks", "list_id")| == 18 && |KeyName("tasks", "creator_id")| == 21 && |KeyName("lists", "board_id")| == 19;
    assert |KeyName("board_members", "board_id")| == 27 && |KeyName("board_members", "user_id")| == 26;
    assert |"tasks"| == 5 && |"board_members"| == 13;
    InitialConstraintNames();
  }

  lemma ReferentsHaveKeys(s: Schema, i: nat)
    requires i < |FOREIGN_KEYS| && s.constraints == INITIAL_CONSTRAINTS
    ensures HasKey(s, FOREIGN_KEYS[i].referent)
  {
    assert Constraint("lists", "lists_pkey", ["id"], true) in s.constraints;
    assert Constraint("users", "users_pkey", ["id"], true) in s.constraints;
    assert Constraint("boards", "boards_pkey", ["id"], true) in s.constraints;
  }

  lemma {:induction false} PlainFrom(s: Schema, i: nat)
    requires i <= |FOREIGN_KEYS| && s.foreignKeys == KeysDuring(i) && s.constraints == INITIAL_CONSTRAINTS
    requires forall j :: 0 <= j < |FOREIGN_KEYS| ==> (FOREIGN_KEYS[j].table, FOREIGN_KEYS[j].column) !in s.dangling
    ensures PlainKeys(s, FOREIGN_KEYS[i..]) == Some(s.(foreignKeys := KeysDuring(|FOREIGN_KEYS|)))
    decreases |FOREIGN_KEYS| - i
  {
    if i < |FOREIGN_KEYS| {
      assert FOREIGN_KEYS[i..][1..] == FOREIGN_KEYS[i + 1..] && FOREIGN_KEYS[i..][0] == FOREIGN_KEYS[i];
      PlainOne(i);
      KeyNamesAreFree(i);
      ReferentsHaveKeys(s, i);
      PlainFrom(s.(foreignKeys := KeysDuring(i + 1)), i + 1);
    }
  }

  lemma CreatorKeyDropped()
    ensures DropKeysOn(KeysDuring(|FOREIGN_KEYS|), "tasks", "creator_id") == InitialKeys()
  {
    var n := |FOREIGN_KEYS|;
    forall f | f in DropKeysOn(KeysDuring(n), "tasks", "creator_id")
      ensures f in InitialKeys()
    {
      var j :| 0 <= j < n && f == KeyDuring(n, j);
      assert HasPlainKey(j) && f == KeyFor(FOREIGN_KEYS[j], None);
    }
    forall f | f in InitialKeys()
      ensures f in DropKeysOn(KeysDuring(n), "tasks", "creator_id")
    {
      var j :| 0 <= j < n && HasPlainKey(j) && f == KeyFor(FOREIGN_KEYS[j], None);
      assert f == KeyDuring(n, j) && f.columns[0] == FOREIGN_KEYS[j].column;
    }
  }

  lemma LookupsDropped()
    ensures DropLookups(INITIAL_INDEXES + LookupSet()) == INITIAL_INDEXES
  {
    forall ix | ix in INITIAL_INDEXES + LookupSet()
      ensures ix in INITIAL_INDEXES ==> ix.name != LOOKUPS[0].name && ix.name != LOOKUPS[1].name && ix.name != LOOKUPS[2].name
    {
      IndexNames(ix, 0);
      IndexNames(ix, 1);
      IndexNames(ix, 2);
    }
  }

  lemma CreatorIdIsNew()
    ensures "creator_id" !in INITIAL_COLUMNS
  {
    assert |"creator_id"| == 10 && |"id"| == 2 && |"title"| == 5 && |"description"| == 11 && |"list_id"| == 7 && |"version"| == 7;
  }

  lemma AllKeysAreKeysDuring()
    ensures AllKeys(FOREIGN_KEYS) == KeysDuring(0)
  {
    forall f | f in AllKeys(FOREIGN_KEYS)
      ensures f in KeysDuring(0)
    {
      var j :| 0 <= j < |FOREIGN_KEYS| && f == KeyFor(FOREIGN_KEYS[j], Some(FOREIGN_KEYS[j].onDelete));
      assert f == KeyDuring(0, j);
    }
    forall f | f in KeysDuring(0)
      ensures f in AllKeys(FOREIGN_KEYS)
    {
      var j :| 0 <= j < |FOREIGN_KEYS| && f == KeyDuring(0, j);
      assert f == KeyFor(FOREIGN_KEYS[j], Some(FOREIGN_KEYS[j].onDelete));
    }
  }

  /** downgrade after upgrade is the schema of the initial revision, with de-duplicated rows. */
  lemma DowngradeRestoresInitialSchema(s: Schema)
    requires Drifted(s) && !BlockedFrom(s, 0)
    ensures Downgraded(Target(s)) ==
              Some(Schema(INITIAL_COLUMNS, InitialKeys(), INITIAL_CONSTRAINTS, INITIAL_INDEXES, INITIAL_RELATIONS,
                          Deduplicate(s.members), s.dangling))
  {
    var t := Target(s);
    forall j | 0 <= j < |FOREIGN_KEYS|
      ensures (FOREIGN_KEYS[j].table, FOREIGN_KEYS[j].column) !in s.dangling
    {
      assert !BlockedAt(s, j);
    }
    AllKeysAreKeysDuring();
    CreatorKeyDropped();
    LookupsDropped();
    CreatorIdIsNew();
    assert LOOKUPS[0] in t.indexes && LOOKUPS[1] in t.indexes && LOOKUPS[2] in t.indexes;
    assert UNIQUE !in INITIAL_CONSTRAINTS by {
      InitialConstraintNames();
      RevisionNames();
    }
    assert INITIAL_CONSTRAINTS + {UNIQUE} - {UNIQUE} == INITIAL_CONSTRAINTS;
    DowngradeInSteps(t, KeysDuring(|FOREIGN_KEYS|));
    assert INITIAL_COLUMNS + {"creator_id"} - {"creator_id"} == INITIAL_COLUMNS;
  }

  lemma DowngradeInSteps(t: Schema, keys: set<ForeignKey>)
    requires t.foreignKeys == KeysDuring(0) && keys == KeysDuring(|FOREIGN_KEYS|)
    requires UNIQUE in t.constraints && t.constraints - {UNIQUE} == INITIAL_CONSTRAINTS
    requires HasLookups(t.indexes) && "creator_id" in t.taskColumns
    requires forall j :: 0 <= j < |FOREIGN_KEYS| ==> (FOREIGN_KEYS[j].table, FOREIGN_KEYS[j].column) !in t.dangling
    ensures Downgraded(t) == Some(t.(
              indexes := DropLookups(t.indexes), constraints := t.constraints - {UNIQUE},
              foreignKeys := DropKeysOn(keys, "tasks", "creator_id"), taskColumns := t.taskColumns - {"creator_id"}))
  {
    var bare := t.(indexes := DropLookups(t.indexes), constraints := t.constraints - {UNIQUE});
    assert FOREIGN_KEYS[0..] == FOREIGN_KEYS;
    PlainFrom(bare, 0);
  }

  // ---- The revision as it runs, statement by statement in one transaction ----

  class Database {
    var taskColumns: set<string>
    var foreignKeys: set<ForeignKey>
    var constraints: set<Constraint>
    var indexes: set<Index>
    var members: map<int, Member>
    const relations: set<string>
    const dangling: set<(string, string)>

    constructor (s: Schema)
      ensures View() == s
    {
      taskColumns, foreignKeys, constraints, indexes := s.taskColumns, s.foreignKeys, s.constraints, s.indexes;
      members, relations, dangling := s.members, s.relations, s.dangling;
    }

    function View(): Schema
      reads this
    {
      Schema(taskColumns, foreignKeys, constraints, indexes, relations, members, dangling)
    }

    method Rollback(s: Schema)
      requires s.dangling == dangling && s.relations == relations
      modifies this
      ensures View() == s
    {
      taskColumns, foreignKeys, constraints, indexes := s.taskColumns, s.foreignKeys, s.constraints, s.indexes;
      members := s.members;
    }

    /** Inspects the table's foreign keys and drops those on exactly this column. */
    method DropForeignKeysOn(table: string, column: string)
      modifies this`foreignKeys
      ensures foreignKeys == DropKeysOn(old(foreignKeys), table, column)
    {
      var inspected := set f | f in foreignKeys && f.table == table;
      while inspected != {}
        invariant inspected <= old(foreignKeys) && foreignKeys <= old(foreignKeys)
        invariant forall f :: f in old(foreignKeys) && f !in foreignKeys ==> IsOn(f, table, column)
        invariant forall f :: f in foreignKeys && IsOn(f, table, column) ==> f in inspected
        decreases |inspected|
      {
        var f :| f in inspected;
        if f.columns == [column] && f.table == table {
          foreignKeys := foreignKeys - {f};
        }
        inspected := inspected - {f};
      }
    }

    method RecreateForeignKey(w: Wanted, onDelete: Option<string>) returns (ok: bool)
      modifies this`foreignKeys
      ensures ok ==> RecreateKey(old(View()), w, onDelete) == Some(View())
      ensures !ok ==> RecreateKey(old(View()), w, onDelete) == None
    {
      DropForeignKeysOn(w.table, w.column);
      var name := KeyName(w.table, w.column);
      ok := !NameTaken(foreignKeys, constraints, w.table, name) && (w.table, w.column) !in dangling && HasKey(View(), w.referent);
      if ok {
        foreignKeys := foreignKeys + {ForeignKey(name, w.table, [w.column], w.referent, onDelete)};
      }
    }

    method RecreateForeignKeys() returns (ok: bool)
      modifies this`foreignKeys
      ensures ok ==> RecreateAll(old(View()), FOREIGN_KEYS) == Some(View())
      ensures !ok ==> RecreateAll(old(View()), FOREIGN_KEYS) == None
    {
      for i := 0 to |FOREIGN_KEYS|
        invariant RecreateAll(View(), FOREIGN_KEYS[i..]) == RecreateAll(old(View()), FOREIGN_KEYS)
      {
        assert FOREIGN_KEYS[i..][1..] == FOREIGN_KEYS[i + 1..] && FOREIGN_KEYS[i..][0] == FOREIGN_KEYS[i];
        var created := RecreateForeignKey(FOREIGN_KEYS[i], Some(FOREIGN_KEYS[i].onDelete));
        if !created {
          return false;
        }
      }
      ok := true;
    }

    method CreateUniqueConstraint() returns (ok: bool)
      modifies this`constraints
      ensures ok ==> AddUnique(old(View())) == Some(View())
      ensures !ok ==> AddUnique(old(View())) == None
    {
      var named := NameTaken(foreignKeys, constraints, UNIQUE.table, UNIQUE.name) || RelationNamed(View(), UNIQUE.name);
      ok := !named && Unique(members);
      if ok {
        constraints := constraints + {UNIQUE};
      }
    }

    method CreateIndexIfNotExists(ix: Index)
      modifies this`indexes
      ensures View() == CreateIndex(old(View()), ix)
    {
      if !RelationNamed(View(), ix.name) {
        indexes := indexes + {ix};
      }
    }

    method MoveIndexes() returns (ok: bool)
      modifies this`indexes
      ensures ok ==> DropTitle(CreateLookups(old(View()))) == Some(View())
      ensures !ok ==> DropTitle(CreateLookups(old(View()))) == None
    {
      CreateIndexIfNotExists(LOOKUPS[0]);
      CreateIndexIfNotExists(LOOKUPS[1]);
      CreateIndexIfNotExists(LOOKUPS[2]);
      ok := TITLE_INDEX.name !in relations && !OwnsIndex(constraints, TITLE_INDEX.name);
      if ok {
        indexes := DropIndex(indexes, TITLE_INDEX.name);
      }
    }

    method Upgrade() returns (ok: bool)
      modifies this
      ensures ok ==> Upgraded(old(View())) == Some(View())
      ensures !ok ==> Upgraded(old(View())) == None && View() == old(View())
    {
      var before := View();
      if "creator_id" !in taskColumns {
        taskColumns := taskColumns + {"creator_id"};
      }
      assert View() == before.(taskColumns := before.taskColumns + {"creator_id"});
      ok := RecreateForeignKeys();
      if ok {
        members := Deduplicate(members);
        ok := CreateUniqueConstraint();
      }
      if ok {
        ok := MoveIndexes();
      }
      if !ok {
        Rollback(before);
      }
    }

    method RecreatePlainKeys() returns (ok: bool)
      modifies this`foreignKeys
      ensures ok ==> PlainKeys(old(View()), FOREIGN_KEYS) == Some(View())
      ensures !ok ==> PlainKeys(old(View()), FOREIGN_KEYS) == None
    {
      for i := 0 to |FOREIGN_KEYS|
        invariant PlainKeys(View(), FOREIGN_KEYS[i..]) == PlainKeys(old(View()), FOREIGN_KEYS)
      {
        assert FOREIGN_KEYS[i..][1..] == FOREIGN_KEYS[i + 1..] && FOREIGN_KEYS[i..][0] == FOREIGN_KEYS[i];
        if FOREIGN_KEYS[i].column != "creator_id" {
          var created := RecreateForeignKey(FOREIGN_KEYS[i], None);
          if !created {
            return false;
          }
        }
      }
      ok := true;
    }

    method Downgrade() returns (ok: bool)
      modifies this
      ensures ok ==> Downgraded(old(View())) == Some(View())
      ensures !ok ==> Downgraded(old(View())) == None && View() == old(View())
    {
      var before := View();
      if !HasLookups(indexes) || UNIQUE !in constraints || "creator_id" !in taskColumns {
        return false;
      }
      indexes := DropIndex(indexes, LOOKUPS[2].name);
      indexes := DropIndex(indexes, LOOKUPS[1].name);
      indexes := DropIndex(indexes, LOOKUPS[0].name);
      constraints := constraints - {UNIQUE};
      ok := RecreatePlainKeys();
      if !ok {
        Rollback(before);
        return;
      }
      DropForeignKeysOn("tasks", "creator_id");
      taskColumns := taskColumns - {"creator_id"};
    }
  }
}
