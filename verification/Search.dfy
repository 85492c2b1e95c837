/** The username search: its join, grouping, order and limit, against what they are meant to say.
    Tables are sequences of rows in no particular order. Name comparison and case folding are
    the database's; they are parameters here. */
module Search {
  import opened Models
  import Like

  datatype User = User(id: int, username: string)

  datatype Query = Query(searcher: int, prefix: string, excludeMembersOf: Option<int>)

  /** One result row: `boards` are the ids behind the names that are shown. */
  datatype Hit = Hit(user: User, count: nat, boards: seq<int>)

  const SEARCH_RESULT_LIMIT := 8

  type Order = (string, string) -> bool

  ghost predicate TotalOrder(leq: Order) {
    && (forall a, b :: leq(a, b) || leq(b, a))
    && (forall a, b :: leq(a, b) && leq(b, a) ==> a == b)
    && (forall a, b, c :: leq(a, b) && leq(b, c) ==> leq(a, c))
  }

  // ---- _shared_boards_subquery ----

  /** theirs JOIN mine for one row of mine: the members of the same board other than that user. */
  function Theirs(members: seq<Member>, mine: Member, names: map<int, string>): seq<Member> {
    if members == [] then []
    else
      (if members[0].board == mine.board && members[0].user != mine.user && mine.board in names then [members[0]] else [])
      + Theirs(members[1..], mine, names)
  }

  /** mine JOIN theirs JOIN boards WHERE mine.user_id = user; `rest` is what is left of mine. */
  function Join(rest: seq<Member>, members: seq<Member>, names: map<int, string>, user: int): seq<Member> {
    if rest == [] then []
    else
      (if rest[0].user == user then Theirs(members, rest[0], names) else [])
      + Join(rest[1..], members, names, user)
  }

  /** GROUP BY theirs.user_id: the boards of one group. */
  function Group(rows: seq<Member>, other: int): seq<int> {
    if rows == [] then []
    else (if rows[0].user == other then [rows[0].board] else []) + Group(rows[1..], other)
  }

  function NameOf(names: map<int, string>, b: int): string {
    if b in names then names[b] else ""
  }

  /** array_agg(name ORDER BY name), kept as board ids. */
  function InsertByName(b: int, sorted: seq<int>, names: map<int, string>, leq: Order): seq<int> {
    if sorted == [] || leq(NameOf(names, b), NameOf(names, sorted[0])) then [b] + sorted
    else [sorted[0]] + InsertByName(b, sorted[1..], names, leq)
  }

  function SortByName(boards: seq<int>, names: map<int, string>, leq: Order): seq<int> {
    if boards == [] then [] else InsertByName(boards[0], SortByName(boards[1..], names, leq), names, leq)
  }

  function SharedBoards(members: seq<Member>, names: map<int, string>, leq: Order, user: int, other: int): seq<int> {
    SortByName(Group(Join(members, members, names, user), other), names, leq)
  }

  // ---- What it means ----

  predicate IsMember(members: seq<Member>, board: int, user: int) {
    exists i :: 0 <= i < |members| && members[i].board == board && members[i].user == user
  }

  /** uq_board_members_board_user */
  predicate UniqueRows(members: seq<Member>) {
    forall i, j :: 0 <= i < j < |members| ==> !(members[i].board == members[j].board && members[i].user == members[j].user)
  }

  predicate NoRepeats(s: seq<int>) {
    forall i, j :: 0 <= i < j < |s| ==> s[i] != s[j]
  }

  /** The boards both are members of. */
  function Common(members: seq<Member>, names: map<int, string>, user: int, other: int): set<int> {
    set b | b in names && IsMember(members, b, user) && IsMember(members, b, other)
  }

  function Elements(s: seq<int>): set<int> {
    set b | b in s
  }

  lemma MemberOfTail(members: seq<Member>, board: int, user: int)
    requires members != []
    ensures IsMember(members, board, user) <==>
              (members[0].board == board && members[0].user == user) || IsMember(members[1..], board, user)
  {
    if IsMember(members[1..], board, user) {
      var i :| 0 <= i < |members[1..]| && members[1..][i].board == board && members[1..][i].user == user;
      assert members[i + 1] == members[1..][i];
    }
  }

  lemma NotInTail(members: seq<Member>)
    requires UniqueRows(members) && members != []
    ensures !IsMember(members[1..], members[0].board, members[0].user) && UniqueRows(members[1..])
  {
    forall i | 0 <= i < |members[1..]|
      ensures members[1..][i] == members[i + 1]
    {
    }
  }

  lemma {:induction false} GroupAppend(a: seq<Member>, b: seq<Member>, other: int)
    ensures Group(a + b, other) == Group(a, other) + Group(b, other)
  {
    if a == [] {
      assert a + b == b;
    } else {
      var s := a + b;
      var first := if a[0].user == other then [a[0].board] else [];
      assert s[0] == a[0] && s[1..] == a[1..] + b;
      GroupAppend(a[1..], b, other);
      assert Group(s, other) == first + Group(s[1..], other);
      assert Group(a, other) == first + Group(a[1..], other);
    }
  }

  lemma {:induction false} TheirsGroup(members: seq<Member>, mine: Member, names: map<int, string>, other: int)
    requires UniqueRows(members) && other != mine.user
    ensures Group(Theirs(members, mine, names), other) ==
              if mine.board in names && IsMember(members, mine.board, other) then [mine.board] else []
  {
    if members != [] {
      var head, tail := members[0], members[1..];
      TheirsGroup(tail, mine, names, other);
      var first := if head.board == mine.board && head.user != mine.user && mine.board in names then [head] else [];
      GroupAppend(first, Theirs(tail, mine, names), other);
      NotInTail(members);
      MemberOfTail(members, mine.board, other);
    }
  }

  lemma {:induction false} JoinGroup(rest: seq<Member>, members: seq<Member>, names: map<int, string>, user: int, other: int)
    requires UniqueRows(members) && UniqueRows(rest) && other != user
    ensures var boards := Group(Join(rest, members, names, user), other);
            && NoRepeats(boards)
            && forall b :: b in boards <==> b in names && IsMember(rest, b, user) && IsMember(members, b, other)
  {
    if rest != [] {
      var head, tail := rest[0], rest[1..];
      JoinGroup(tail, members, names, user, other);
      var first := if head.user == user then Theirs(members, head, names) else [];
      GroupAppend(first, Join(tail, members, names, user), other);
      if head.user == user {
        TheirsGroup(members, head, names, other);
        NotInTail(rest);
      }
      forall b
        ensures IsMember(rest, b, user) <==> (head.board == b && head.user == user) || IsMember(tail, b, user)
      {
        MemberOfTail(rest, b, user);
      }
    }
  }

  predicate SortedByName(s: seq<int>, names: map<int, string>, leq: Order) {
    forall i, j :: 0 <= i < j < |s| ==> leq(NameOf(names, s[i]), NameOf(names, s[j]))
  }

  lemma {:induction false} InsertByNameSorts(b: int, sorted: seq<int>, names: map<int, string>, leq: Order)
    requires TotalOrder(leq) && SortedByName(sorted, names, leq) && NoRepeats(sorted) && b !in sorted
    ensures var s := InsertByName(b, sorted, names, leq);
            && SortedByName(s, names, leq) && NoRepeats(s) && |s| == |sorted| + 1
            && forall x :: x in s <==> x == b || x in sorted
  {
    var s := InsertByName(b, sorted, names, leq);
    if sorted == [] {
    } else if leq(NameOf(names, b), NameOf(names, sorted[0])) {
      forall j | 0 <= j < |sorted|
        ensures leq(NameOf(names, b), NameOf(names, sorted[j]))
      {
      }
    } else {
      InsertByNameSorts(b, sorted[1..], names, leq);
      var rest := InsertByName(b, sorted[1..], names, leq);
      forall j | 0 <= j < |rest|
        ensures leq(NameOf(names, sorted[0]), NameOf(names, rest[j])) && rest[j] != sorted[0]
      {
        assert rest[j] in rest;
      }
      assert s == [sorted[0]] + rest;
    }
  }

  lemma {:induction false} SortByNameSorts(boards: seq<int>, names: map<int, string>, leq: Order)
    requires TotalOrder(leq) && NoRepeats(boards)
    ensures var s := SortByName(boards, names, leq);
            && SortedByName(s, names, leq) && NoRepeats(s) && |s| == |boards|
            && forall x :: x in s <==> x in boards
  {
    if boards != [] {
      SortByNameSorts(boards[1..], names, leq);
      InsertByNameSorts(boards[0], SortByName(boards[1..], names, leq), names, leq);
    }
  }

  lemma {:induction false} NoRepeatsCounts(s: seq<int>)
    requires NoRepeats(s)
    ensures |Elements(s)| == |s|
  {
    if s != [] {
      NoRepeatsCounts(s[1..]);
      assert Elements(s) == {s[0]} + Elements(s[1..]);
    }
  }

  /** A hit's boards are exactly the boards searcher and hit have in common, each once, sorted by
      name; their number is the size of the intersection and the same from the other side. */
  lemma SharedBoardsAreTheIntersection(members: seq<Member>, names: map<int, string>, leq: Order, user: int, other: int)
    requires TotalOrder(leq) && UniqueRows(members) && user != other
    ensures var shared := SharedBoards(members, names, leq, user, other);
            && Elements(shared) == Common(members, names, user, other)
            && |shared| == |Common(members, names, user, other)|
            && SortedByName(shared, names, leq)
            && |shared| == |SharedBoards(members, names, leq, other, user)|
  {
    forall u, v | (u == user && v == other) || (u == other && v == user)
      ensures var shared := SharedBoards(members, names, leq, u, v);
              Elements(shared) == Common(members, names, u, v) && |shared| == |Common(members, names, u, v)|
              && SortedByName(shared, names, leq)
    {
      JoinGroup(members, members, names, u, v);
      SortByNameSorts(Group(Join(members, members, names, u), v), names, leq);
      NoRepeatsCounts(SharedBoards(members, names, leq, u, v));
      assert Elements(SharedBoards(members, names, leq, u, v)) == Common(members, names, u, v);
    }
    assert Common(members, names, user, other) == Common(members, names, other, user);
  }

  // ---- search_users ----

  /** The query is stripped and folded in Python (`strip`, `fold`), the column by the database
      (`lower`). */
  predicate Matching(u: User, q: Query, members: seq<Member>,
                     fold: string -> string, lower: string -> string, strip: string -> string)
  {
    var pattern := Like.EscapeLike(fold(strip(q.prefix))) + "%";
    && Like.WellFormed(pattern) && Like.Matches(pattern, lower(u.username))
    && u.id != q.searcher
    && (q.excludeMembersOf.Some? ==> !IsMember(members, q.excludeMembersOf.value, u.id))
  }

  /** What the search is for, without patterns: the folded name starts with the folded query, and
      the user is neither the searcher nor on the excluded board. */
  predicate Wanted(u: User, q: Query, members: seq<Member>,
                   fold: string -> string, lower: string -> string, strip: string -> string)
  {
    && fold(strip(q.prefix)) <= lower(u.username) && u.id != q.searcher
    && (q.excludeMembersOf.Some? ==> !IsMember(members, q.excludeMembersOf.value, u.id))
  }

  /** ORDER BY shared_count DESC, username */
  predicate Before(a: Hit, b: Hit, leq: Order) {
    a.count > b.count || (a.count == b.count && leq(a.user.username, b.user.username))
  }

  function InsertHit(h: Hit, sorted: seq<Hit>, leq: Order): seq<Hit> {
    if sorted == [] || Before(h, sorted[0], leq) then [h] + sorted
    else [sorted[0]] + InsertHit(h, sorted[1..], leq)
  }

  /** Every matching user with the outer join's row, in result order. */
  function Ranked(users: seq<User>, q: Query, members: seq<Member>, names: map<int, string>,
                  leq: Order, fold: string -> string, lower: string -> string, strip: string -> string): seq<Hit>
  {
    if users == [] then []
    else
      var rest := Ranked(users[1..], q, members, names, leq, fold, lower, strip);
      if Matching(users[0], q, members, fold, lower, strip) then
        var shared := SharedBoards(members, names, leq, q.searcher, users[0].id);
        InsertHit(Hit(users[0], |shared|, shared), rest, leq)
      else rest
  }

  function Search(users: seq<User>, q: Query, members: seq<Member>, names: map<int, string>,
                  leq: Order, fold: string -> string, lower: string -> string, strip: string -> string): seq<Hit>
  {
    var all := Ranked(users, q, members, names, leq, fold, lower, strip);
    if |all| <= SEARCH_RESULT_LIMIT then all else all[..SEARCH_RESULT_LIMIT]
  }

  /** Ids and usernames are unique. */
  predicate UniqueUsers(users: seq<User>) {
    forall i, j :: 0 <= i < j < |users| ==> users[i].id != users[j].id && users[i].username != users[j].username
  }

  ghost predicate Strictly(hits: seq<Hit>, leq: Order) {
    forall i, j :: 0 <= i < j < |hits| ==> Before(hits[i], hits[j], leq) && !Before(hits[j], hits[i], leq)
  }

  lemma {:induction false} InsertHitRanks(h: Hit, sorted: seq<Hit>, leq: Order)
    requires TotalOrder(leq) && Strictly(sorted, leq)
    requires forall i :: 0 <= i < |sorted| ==> sorted[i].user.username != h.user.username
    ensures Strictly(InsertHit(h, sorted, leq), leq)
    ensures forall x :: x in InsertHit(h, sorted, leq) <==> x == h || x in sorted
  {
    if sorted != [] && !Before(h, sorted[0], leq) {
      InsertHitRanks(h, sorted[1..], leq);
      var rest := InsertHit(h, sorted[1..], leq);
      forall j | 0 <= j < |rest|
        ensures Before(sorted[0], rest[j], leq) && !Before(rest[j], sorted[0], leq)
      {
        if rest[j] != h {
          assert rest[j] in sorted[1..];
        }
      }
    }
  }

  function HitOf(u: User, q: Query, members: seq<Member>, names: map<int, string>, leq: Order): Hit {
    var shared := SharedBoards(members, names, leq, q.searcher, u.id);
    Hit(u, |shared|, shared)
  }

  lemma {:induction false} RankedIsRanked(users: seq<User>, q: Query, members: seq<Member>, names: map<int, string>,
                                          leq: Order, fold: string -> string, lower: string -> string, strip: string -> string)
    requires TotalOrder(leq) && UniqueUsers(users)
    ensures var all := Ranked(users, q, members, names, leq, fold, lower, strip);
            && Strictly(all, leq)
            && (forall h :: h in all <==>
                  && h.user in users && Matching(h.user, q, members, fold, lower, strip)
                  && h == HitOf(h.user, q, members, names, leq))
  {
    if users != [] {
      var tail := users[1..];
      RankedIsRanked(tail, q, members, names, leq, fold, lower, strip);
      var rest := Ranked(tail, q, members, names, leq, fold, lower, strip);
      if Matching(users[0], q, members, fold, lower, strip) {
        forall i | 0 <= i < |rest|
          ensures rest[i].user.username != users[0].username
        {
          assert rest[i] in rest;
          var k :| 0 <= k < |tail| && tail[k] == rest[i].user;
          assert users[k + 1] == tail[k];
        }
        InsertHitRanks(HitOf(users[0], q, members, names, leq), rest, leq);
      }
    }
  }

  /** `a` ranks strictly before `b`: it shares more boards, or as many and its name comes first. */
  ghost predicate Outranks(a: Hit, b: Hit, leq: Order) {
    || |a.boards| > |b.boards|
    || (|a.boards| == |b.boards| && leq(a.user.username, b.user.username) && a.user.username != b.user.username)
  }

  lemma StrictlyIsOutranks(a: Hit, b: Hit, leq: Order)
    requires TotalOrder(leq) && a.count == |a.boards| && b.count == |b.boards|
    requires Before(a, b, leq) && !Before(b, a, leq)
    ensures Outranks(a, b, leq)
  {
  }

  /** The result holds only wanted users, with the boards they share; it is ordered by number of shared boards and then
      name; it is cut at 8; and every wanted user left out ranks strictly after every one
      returned. */
  lemma SearchReturnsTheBestMatches(users: seq<User>, q: Query, members: seq<Member>, names: map<int, string>,
                                    leq: Order, fold: string -> string, lower: string -> string, strip: string -> string)
    requires TotalOrder(leq) && UniqueUsers(users) && UniqueRows(members)
    ensures var hits := Search(users, q, members, names, leq, fold, lower, strip);
            && |hits| <= 8
            && (forall i, j :: 0 <= i < j < |hits| ==> Outranks(hits[i], hits[j], leq))
            && (forall h :: h in hits ==>
                  && h.user in users && Wanted(h.user, q, members, fold, lower, strip)
                  && Elements(h.boards) == Common(members, names, q.searcher, h.user.id)
                  && h.count == |h.boards| == |Common(members, names, q.searcher, h.user.id)|
                  && SortedByName(h.boards, names, leq))
            && (forall u :: u in users && Wanted(u, q, members, fold, lower, strip) ==>
                  var mine := HitOf(u, q, members, names, leq);
                  mine in hits || (|hits| == 8 && forall h :: h in hits ==> Outranks(h, mine, leq)))
  {
    RankedIsRanked(users, q, members, names, leq, fold, lower, strip);
    var all := Ranked(users, q, members, names, leq, fold, lower, strip);
    var hits := Search(users, q, members, names, leq, fold, lower, strip);
    forall u: User
      ensures Matching(u, q, members, fold, lower, strip) <==> Wanted(u, q, members, fold, lower, strip)
    {
      Like.SearchPatternMatchesPrefix(fold(strip(q.prefix)), lower(u.username));
    }
    forall h | h in hits
      ensures h in all && h.count == |h.boards| && Elements(h.boards) == Common(members, names, q.searcher, h.user.id)
           && h.count == |Common(members, names, q.searcher, h.user.id)| && SortedByName(h.boards, names, leq)
    {
      assert h in all;
      SharedBoardsAreTheIntersection(members, names, leq, q.searcher, h.user.id);
    }
    forall i, j | 0 <= i < j < |hits|
      ensures Outranks(hits[i], hits[j], leq)
    {
      assert hits[i] in hits && hits[j] in hits && hits[i] == all[i] && hits[j] == all[j];
      StrictlyIsOutranks(hits[i], hits[j], leq);
    }
    forall u | u in users && Matching(u, q, members, fold, lower, strip) && HitOf(u, q, members, names, leq) !in hits
      ensures |hits| == 8 && forall h :: h in hits ==> Outranks(h, HitOf(u, q, members, names, leq), leq)
    {
      var mine := HitOf(u, q, members, names, leq);
      assert mine in all;
      var j :| 0 <= j < |all| && all[j] == mine;
      assert j >= SEARCH_RESULT_LIMIT;
      forall h | h in hits
        ensures Outranks(h, mine, leq)
      {
        var i :| 0 <= i < |hits| && hits[i] == h;
        assert all[i] == h && i < j;
        StrictlyIsOutranks(h, mine, leq);
      }
    }
  }
}
