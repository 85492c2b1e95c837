/** Escaping a search prefix for LIKE, against what LIKE matches (PostgreSQL 15 documentation,
    section 9.7.1). */
module Like {
  const ESCAPE := '\\'

  /** str.replace with a one-character pattern. */
  function Replace(s: string, c: char, text: string): string {
    if s == [] then [] else (if s[0] == c then text else [s[0]]) + Replace(s[1..], c, text)
  }

  /** The three replacements of _escape_like, in their order. */
  function EscapeLike(value: string): string {
    Replace(Replace(Replace(value, '\\', "\\\\"), '%', "\\%"), '_', "\\_")
  }

  predicate Special(c: char) {
    c == '\\' || c == '%' || c == '_'
  }

  /** Escaping one character at a time, in a single pass. */
  function Escaped(value: string): string {
    if value == [] then []
    else (if Special(value[0]) then [ESCAPE, value[0]] else [value[0]]) + Escaped(value[1..])
  }

  function Unescaped(pattern: string): string {
    if pattern == [] then []
    else if pattern[0] == ESCAPE && |pattern| >= 2 then [pattern[1]] + Unescaped(pattern[2..])
    else [pattern[0]] + Unescaped(pattern[1..])
  }

  /** LIKE raises an error for a pattern that ends in an escape character with nothing after it. */
  predicate WellFormed(pattern: string) {
    pattern == [] ||
    if pattern[0] == ESCAPE then |pattern| >= 2 && WellFormed(pattern[2..]) else WellFormed(pattern[1..])
  }

  /** string LIKE pattern ESCAPE '\' */
  predicate Matches(pattern: string, s: string)
    requires WellFormed(pattern)
    decreases |pattern| + |s|
  {
    if pattern == [] then s == []
    else if pattern[0] == ESCAPE then s != [] && s[0] == pattern[1] && Matches(pattern[2..], s[1..])
    else if pattern[0] == '%' then Matches(pattern[1..], s) || (s != [] && Matches(pattern, s[1..]))
    else if pattern[0] == '_' then s != [] && Matches(pattern[1..], s[1..])
    else s != [] && s[0] == pattern[0] && Matches(pattern[1..], s[1..])
  }

  lemma {:induction false} ReplaceAppend(a: string, b: string, c: char, text: string)
    ensures Replace(a + b, c, text) == Replace(a, c, text) + Replace(b, c, text)
  {
    if a == [] {
      assert a + b == b;
    } else {
      assert (a + b)[1..] == a[1..] + b;
      ReplaceAppend(a[1..], b, c, text);
    }
  }

  lemma EscapeOne(c: char)
    ensures EscapeLike([c]) == if Special(c) then [ESCAPE, c] else [c]
  {
    assert Replace([c], '\\', "\\\\") == if c == '\\' then "\\\\" else [c];
    ReplaceAppend("\\", "\\", '%', "\\%");
    ReplaceAppend("\\", "\\", '_', "\\_");
    ReplaceAppend("\\", "%", '_', "\\_");
    assert "\\\\" == "\\" + "\\" && "\\%" == "\\" + "%";
  }

  /** Later replacements never touch what earlier ones put in: three passes over the whole
      string are one pass over its characters. */
  lemma {:induction false} ThreePassesAreOne(value: string)
    ensures EscapeLike(value) == Escaped(value)
  {
    if value != [] {
      var head, tail := [value[0]], value[1..];
      assert value == head + tail;
      ReplaceAppend(head, tail, '\\', "\\\\");
      var h1, t1 := Replace(head, '\\', "\\\\"), Replace(tail, '\\', "\\\\");
      ReplaceAppend(h1, t1, '%', "\\%");
      var h2, t2 := Replace(h1, '%', "\\%"), Replace(t1, '%', "\\%");
      ReplaceAppend(h2, t2, '_', "\\_");
      EscapeOne(value[0]);
      ThreePassesAreOne(tail);
    }
  }

  lemma {:induction false} UnescapeUndoesEscaped(value: string)
    ensures Unescaped(Escaped(value)) == value
  {
    if value != [] {
      var rest := Escaped(value[1..]);
      UnescapeUndoesEscaped(value[1..]);
      if Special(value[0]) {
        assert Escaped(value)[2..] == rest;
      } else {
        assert Escaped(value)[1..] == rest;
      }
    }
  }

  lemma UnescapeUndoesEscape(value: string)
    ensures Unescaped(EscapeLike(value)) == value
  {
    ThreePassesAreOne(value);
    UnescapeUndoesEscaped(value);
  }

  lemma EscapeIsInjective(a: string, b: string)
    requires EscapeLike(a) == EscapeLike(b)
    ensures a == b
  {
    UnescapeUndoesEscape(a);
    UnescapeUndoesEscape(b);
  }

  lemma {:induction false} PercentMatchesAll(s: string)
    ensures WellFormed("%") && Matches("%", s)
  {
    if s != [] {
      PercentMatchesAll(s[1..]);
    }
  }

  lemma {:induction false} EscapedMatchesPrefix(q: string, s: string)
    ensures WellFormed(Escaped(q) + "%")
    ensures Matches(Escaped(q) + "%", s) <==> q <= s
    decreases |q|
  {
    var pattern := Escaped(q) + "%";
    if q == [] {
      assert pattern == "%";
      PercentMatchesAll(s);
    } else {
      var rest := Escaped(q[1..]) + "%";
      EscapedMatchesPrefix(q[1..], if s == [] then s else s[1..]);
      assert pattern[if Special(q[0]) then 2 else 1..] == rest;
      if s != [] {
        assert q <= s <==> q[0] == s[0] && q[1..] <= s[1..];
      }
    }
  }

  /** For every query and string, with wildcards and backslashes anywhere in either: the search
      pattern is well formed and matches exactly the strings that start with the query. */
  lemma SearchPatternMatchesPrefix(q: string, s: string)
    ensures WellFormed(EscapeLike(q) + "%")
    ensures Matches(EscapeLike(q) + "%", s) <==> q <= s
  {
    ThreePassesAreOne(q);
    EscapedMatchesPrefix(q, s);
  }
}
