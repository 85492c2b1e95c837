/** The fixed-window rate limiter: its Redis counters and what it lets through over time. */
module RateLimit {
  import opened Models

  /** A counter key with its value and the moment it expires. Times are in the smallest unit
      Redis tells apart; a key lives while `now < expires`. */
  datatype Counter = Counter(count: nat, expires: int)

  datatype Key = Key(scope: string, user: int)

  datatype Call = Call(time: int, key: Key)

  datatype Limits = Limits(limit: nat, window: int)

  // ---- One key ----

  /** SET key 0 EX window NX, then INCR, in one transaction. */
  function Hit(c: Option<Counter>, now: int, window: int): Counter {
    if c.Some? && now < c.value.expires then c.value.(count := c.value.count + 1)
    else Counter(1, now + window)
  }

  /** The outcomes of a key's calls, in order: true for accepted. */
  function Outcomes(c: Option<Counter>, times: seq<int>, p: Limits): seq<bool>
    decreases |times|
  {
    if times == [] then []
    else
      var c' := Hit(c, times[0], p.window);
      [c'.count <= p.limit] + Outcomes(Some(c'), times[1..], p)
  }

  function After(c: Option<Counter>, times: seq<int>, window: int): Option<Counter>
    decreases |times|
  {
    if times == [] then c else After(Some(Hit(c, times[0], window)), times[1..], window)
  }

  /** How many of the calls in [from, to) were accepted. */
  function Accepted(c: Option<Counter>, times: seq<int>, p: Limits, from: int, to: int): nat
    decreases |times|
  {
    if times == [] then 0
    else
      var c' := Hit(c, times[0], p.window);
      (if from <= times[0] < to && c'.count <= p.limit then 1 else 0) + Accepted(Some(c'), times[1..], p, from, to)
  }

  predicate Ordered(times: seq<int>) {
    forall i, j :: 0 <= i < j < |times| ==> times[i] <= times[j]
  }

  /** Accepted counts the outcomes. */
  function CountIn(times: seq<int>, outcomes: seq<bool>, from: int, to: int): nat
    requires |times| == |outcomes|
  {
    if times == [] then 0
    else (if from <= times[0] < to && outcomes[0] then 1 else 0) + CountIn(times[1..], outcomes[1..], from, to)
  }

  lemma {:induction false} AcceptedCountsOutcomes(c: Option<Counter>, times: seq<int>, p: Limits, from: int, to: int)
    ensures |Outcomes(c, times, p)| == |times|
    ensures Accepted(c, times, p, from, to) == CountIn(times, Outcomes(c, times, p), from, to)
    decreases |times|
  {
    if times != [] {
      AcceptedCountsOutcomes(Some(Hit(c, times[0], p.window)), times[1..], p, from, to);
    }
  }

  function Left(c: Counter, limit: nat): nat {
    if c.count >= limit then 0 else limit - c.count
  }

  lemma OneLess(m: int, x: int)
    ensures (m - 1) * x == m * x - x
  {
  }

  lemma NextWindowReaches(expires: int, t: int, to: int, m: nat, window: int)
    requires window >= 1 && expires <= t < to <= expires + m * window
    ensures m >= 1 && to <= t + window + (m - 1) * window
  {
    OneLess(m, window);
  }

  /** From a window on, at most what is left in it and `limit` for each further window that can
      start before `to`. */
  lemma {:induction false} AcceptedFromWindow(c: Counter, times: seq<int>, p: Limits, from: int, to: int, m: nat)
    requires p.window >= 1 && Ordered(times)
    requires to <= c.expires + m * p.window
    ensures Accepted(Some(c), times, p, from, to) <= Left(c, p.limit) + m * p.limit
    decreases |times|
  {
    if times != [] {
      var t, rest := times[0], times[1..];
      var c' := Hit(Some(c), t, p.window);
      if t < c.expires {
        AcceptedFromWindow(c', rest, p, from, to, m);
      } else if t >= to {
        NothingAfter(Some(c'), rest, p, from, to);
      } else {
        NextWindowReaches(c.expires, t, to, m, p.window);
        AcceptedFromWindow(c', rest, p, from, to, m - 1);
        OneLess(m, p.limit);
      }
    }
  }

  lemma {:induction false} NothingAfter(c: Option<Counter>, times: seq<int>, p: Limits, from: int, to: int)
    requires forall i :: 0 <= i < |times| ==> times[i] >= to
    ensures Accepted(c, times, p, from, to) == 0
    decreases |times|
  {
    if times != [] {
      NothingAfter(Some(Hit(c, times[0], p.window)), times[1..], p, from, to);
    }
  }

  /** A counter that some call made: it has counted at least that call. */
  predicate Made(c: Option<Counter>) {
    c.Some? ==> c.value.count >= 1
  }

  /** In any half-open interval of k windows one key is accepted at most (k + 1) * limit - 1
      times (never, if the limit is 0): a window that reaches into the interval has already
      accepted the call that opened it. */
  lemma {:induction false} AcceptedPerInterval(c: Option<Counter>, times: seq<int>, p: Limits, from: int, k: nat)
    requires p.window >= 1 && k >= 1 && Ordered(times) && Made(c)
    ensures Accepted(c, times, p, from, from + k * p.window) <= if p.limit == 0 then 0 else (k + 1) * p.limit - 1
    decreases |times|
  {
    var to := from + k * p.window;
    if times != [] {
      var t, rest := times[0], times[1..];
      var c' := Hit(c, t, p.window);
      OneLess(k + 1, p.limit);
      OneLess(k, p.limit);
      OneLess(k, p.window);
      if t < from {
        AcceptedPerInterval(Some(c'), rest, p, from, k);
      } else if c.Some? && t < c.value.expires {
        AcceptedFromWindow(c.value, times, p, from, to, k);
      } else if t < to {
        AcceptedFromWindow(c', rest, p, from, to, k - 1);
      } else {
        NothingAfter(c, times, p, from, to);
      }
    }
  }

  // ---- The bound is reached ----

  function Repeat(t: int, n: nat): seq<int> {
    if n == 0 then [] else [t] + Repeat(t, n - 1)
  }

  /** A full burst of calls at each of the next k window openings from `t` on. */
  function Bursts(t: int, limit: nat, window: int, k: nat): seq<int>
    decreases k
  {
    if k == 0 then [] else Repeat(t, limit) + Bursts(t + window, limit, window, k - 1)
  }

  lemma {:induction false} BurstAccepted(c: Counter, t: int, n: nat, rest: seq<int>, p: Limits, from: int, to: int)
    requires t < c.expires && c.count + n <= p.limit && from <= t < to
    ensures Accepted(Some(c), Repeat(t, n) + rest, p, from, to) == n + Accepted(Some(c.(count := c.count + n)), rest, p, from, to)
    decreases n
  {
    var times := Repeat(t, n) + rest;
    if n == 0 {
      assert times == rest;
    } else {
      assert times[1..] == Repeat(t, n - 1) + rest;
      BurstAccepted(c.(count := c.count + 1), t, n - 1, rest, p, from, to);
    }
  }

  /** A full burst after the window ended fills the next one. */
  lemma BurstOpensWindow(c: Counter, t: int, p: Limits, later: seq<int>, from: int, to: int)
    requires p.limit >= 1 && p.window >= 1 && c.expires <= t && from <= t < to
    ensures Accepted(Some(c), Repeat(t, p.limit) + later, p, from, to)
         == p.limit + Accepted(Some(Counter(p.limit, t + p.window)), later, p, from, to)
  {
    var times := Repeat(t, p.limit) + later;
    assert times[0] == t && times[1..] == Repeat(t, p.limit - 1) + later;
    BurstAccepted(Counter(1, t + p.window), t, p.limit - 1, later, p, from, to);
  }

  lemma {:induction false} BurstsAccepted(c: Counter, t: int, p: Limits, k: nat, from: int, to: int)
    requires p.limit >= 1 && p.window >= 1 && c.expires <= t && from <= t && t + k * p.window < to + p.window
    ensures Accepted(Some(c), Bursts(t, p.limit, p.window, k), p, from, to) == k * p.limit
    decreases k
  {
    if k > 0 {
      var later := Bursts(t + p.window, p.limit, p.window, k - 1);
      assert (k - 1) * p.window == k * p.window - p.window;
      assert (k - 1) * p.window >= 0;
      BurstOpensWindow(c, t, p, later, from, to);
      BurstsAccepted(Counter(p.limit, t + p.window), t + p.window, p, k - 1, from, to);
      assert (k - 1) * p.limit == k * p.limit - p.limit;
    }
  }

  function WorstTrace(p: Limits, k: nat): seq<int>
    requires p.limit >= 1
  {
    [0] + (Repeat(p.window - 1, p.limit - 1) + Bursts(p.window, p.limit, p.window, k))
  }

  /** No smaller bound holds: for every limit, window and k this trace of calls reaches it. */
  lemma BoundIsReached(p: Limits, k: nat)
    requires p.limit >= 1 && p.window >= 2 && k >= 1
    ensures Accepted(None, WorstTrace(p, k), p, p.window - 1, p.window - 1 + k * p.window) == (k + 1) * p.limit - 1
  {
    var from, to := p.window - 1, p.window - 1 + k * p.window;
    var bursts := Bursts(p.window, p.limit, p.window, k);
    var rest := Repeat(from, p.limit - 1) + bursts;
    assert WorstTrace(p, k)[1..] == rest;
    assert k * p.window >= p.window;
    BurstAccepted(Counter(1, p.window), from, p.limit - 1, bursts, p, from, to);
    BurstsAccepted(Counter(p.limit, p.window), p.window, p, k, from, to);
    assert (k + 1) * p.limit == k * p.limit + p.limit;
  }

  // ---- Refusals ----

  /** The call at `i` opened the window that the call at `n` falls into: it found no live
      counter, and every call since came before that window closed. */
  predicate Opens(c: Option<Counter>, times: seq<int>, window: int, i: nat, n: nat)
    requires i <= n < |times|
  {
    var before := After(c, times[..i], window);
    (before.None? || times[i] >= before.value.expires) && forall j :: i <= j <= n ==> times[j] < times[i] + window
  }

  lemma {:induction false} AfterStep(c: Option<Counter>, times: seq<int>, window: int, n: nat)
    requires n < |times|
    ensures After(c, times[..n + 1], window) == Some(Hit(After(c, times[..n], window), times[n], window))
    decreases n
  {
    if n == 0 {
      assert times[..1][1..] == [];
    } else {
      var c' := Some(Hit(c, times[0], window));
      assert times[..n + 1][1..] == times[1..][..n] && times[..n][1..] == times[1..][..n - 1];
      AfterStep(c', times[1..], window, n - 1);
    }
  }

  lemma {:induction false} OutcomeAt(c: Option<Counter>, times: seq<int>, p: Limits, n: nat)
    requires n < |times|
    ensures |Outcomes(c, times, p)| == |times|
    ensures Outcomes(c, times, p)[n] == (Hit(After(c, times[..n], p.window), times[n], p.window).count <= p.limit)
    decreases n
  {
    AcceptedCountsOutcomes(c, times, p, 0, 0);
    if n > 0 {
      var c' := Some(Hit(c, times[0], p.window));
      assert times[..n][1..] == times[1..][..n - 1];
      OutcomeAt(c', times[1..], p, n - 1);
    }
  }

  /** Starting with no counter: every call falls into a window opened by some call `i`, is the
      (n - i + 1)-th call of it, and the window ends `window` after its opening whatever was
      accepted or refused in it. */
  lemma {:induction false} WindowOf(times: seq<int>, window: int, n: nat) returns (i: nat)
    requires window >= 1 && Ordered(times) && n < |times|
    ensures i <= n && Opens(None, times, window, i, n)
    ensures After(None, times[..n + 1], window) == Some(Counter(n - i + 1, times[i] + window))
    decreases n
  {
    AfterStep(None, times, window, n);
    if n == 0 {
      i := 0;
      assert times[..0] == [];
    } else {
      i := WindowOf(times, window, n - 1);
      assert times[..n - 1 + 1] == times[..n];
      if times[n] >= times[i] + window {
        i := n;
      }
    }
  }

  /** A call is refused exactly when `limit` calls of its window came before it, and those are
      exactly the accepted ones: so a refusal means `limit` were accepted in the current window,
      and refused calls neither count against the limit nor lengthen the window. */
  lemma RefusedOnlyWhenFull(times: seq<int>, p: Limits, n: nat) returns (i: nat)
    requires p.window >= 1 && Ordered(times) && n < |times|
    ensures i <= n && Opens(None, times, p.window, i, n)
    ensures |Outcomes(None, times, p)| == |times|
    ensures forall j :: i <= j <= n ==> (Outcomes(None, times, p)[j] <==> j - i < p.limit)
  {
    i := WindowOf(times, p.window, n);
    AcceptedCountsOutcomes(None, times, p, 0, 0);
    forall j | i <= j <= n
      ensures Outcomes(None, times, p)[j] <==> j - i < p.limit
    {
      CountInWindow(times, p.window, i, j, n);
      OutcomeAt(None, times, p, j);
      AfterStep(None, times, p.window, j);
    }
  }

  lemma {:induction false} CountInWindow(times: seq<int>, window: int, i: nat, j: nat, n: nat)
    requires window >= 1 && i <= j <= n < |times| && Opens(None, times, window, i, n)
    ensures After(None, times[..j + 1], window) == Some(Counter(j - i + 1, times[i] + window))
    decreases j
  {
    AfterStep(None, times, window, j);
    if j > i {
      CountInWindow(times, window, i, j - 1, n);
      assert times[..j - 1 + 1] == times[..j];
    }
  }

  // ---- All users and scopes together ----

  function Get(counters: map<Key, Counter>, key: Key): Option<Counter> {
    if key in counters then Some(counters[key]) else None
  }

  /** The outcomes of a whole trace of calls, whoever made them. */
  function Serve(counters: map<Key, Counter>, calls: seq<Call>, limits: string -> Limits): seq<bool>
    decreases |calls|
  {
    if calls == [] then []
    else
      var p := limits(calls[0].key.scope);
      var c := Hit(Get(counters, calls[0].key), calls[0].time, p.window);
      [c.count <= p.limit] + Serve(counters[calls[0].key := c], calls[1..], limits)
  }

  function TimesOf(calls: seq<Call>, key: Key): seq<int> {
    if calls == [] then []
    else (if calls[0].key == key then [calls[0].time] else []) + TimesOf(calls[1..], key)
  }

  function OutcomesOf(calls: seq<Call>, outcomes: seq<bool>, key: Key): seq<bool>
    requires |calls| == |outcomes|
  {
    if calls == [] then []
    else (if calls[0].key == key then [outcomes[0]] else []) + OutcomesOf(calls[1..], outcomes[1..], key)
  }

  /** What a user gets in a scope is what the user's own calls in that scope would get alone. */
  lemma {:induction false} UsersAreIndependent(counters: map<Key, Counter>, calls: seq<Call>, limits: string -> Limits, key: Key)
    ensures |Serve(counters, calls, limits)| == |calls|
    ensures OutcomesOf(calls, Serve(counters, calls, limits), key)
         == Outcomes(Get(counters, key), TimesOf(calls, key), limits(key.scope))
    decreases |calls|
  {
    if calls != [] {
      var call := calls[0];
      var p := limits(call.key.scope);
      var c := Hit(Get(counters, call.key), call.time, p.window);
      UsersAreIndependent(counters[call.key := c], calls[1..], limits, key);
      assert Serve(counters, calls, limits)[1..] == Serve(counters[call.key := c], calls[1..], limits);
      if call.key == key {
        assert TimesOf(calls, key)[1..] == TimesOf(calls[1..], key);
      } else {
        assert TimesOf(calls, key) == TimesOf(calls[1..], key);
        assert OutcomesOf(calls, Serve(counters, calls, limits), key)
            == OutcomesOf(calls[1..], Serve(counters, calls, limits)[1..], key);
      }
    }
  }

  predicate OrderedCalls(calls: seq<Call>) {
    forall i, j :: 0 <= i < j < |calls| ==> calls[i].time <= calls[j].time
  }

  lemma {:induction false} TimesOrdered(calls: seq<Call>, key: Key)
    requires OrderedCalls(calls)
    ensures Ordered(TimesOf(calls, key))
    ensures forall i :: 0 <= i < |TimesOf(calls, key)| ==> exists j :: 0 <= j < |calls| && calls[j].time == TimesOf(calls, key)[i]
  {
    if calls != [] {
      TimesOrdered(calls[1..], key);
      var rest := TimesOf(calls[1..], key);
      forall i | 0 <= i < |rest|
        ensures calls[0].time <= rest[i] && exists j :: 0 <= j < |calls| && calls[j].time == rest[i]
      {
        var j :| 0 <= j < |calls[1..]| && calls[1..][j].time == rest[i];
        assert calls[j + 1].time == rest[i];
      }
      assert calls[0].time == calls[0].time;
    }
  }

  /** Over any trace of everybody's calls, from an empty Redis: in any half-open interval of k
      windows a user is accepted at most (k + 1) * limit - 1 times in a scope. */
  lemma UserAcceptedPerInterval(calls: seq<Call>, limits: string -> Limits, key: Key, from: int, k: nat)
    requires limits(key.scope).window >= 1 && k >= 1 && OrderedCalls(calls)
    ensures var p := limits(key.scope);
            var outcomes := Serve(map[], calls, limits);
            && |outcomes| == |calls|
            && |OutcomesOf(calls, outcomes, key)| == |TimesOf(calls, key)|
            && CountIn(TimesOf(calls, key), OutcomesOf(calls, outcomes, key), from, from + k * p.window)
               <= if p.limit == 0 then 0 else (k + 1) * p.limit - 1
  {
    var p := limits(key.scope);
    var times := TimesOf(calls, key);
    UsersAreIndependent(map[], calls, limits, key);
    TimesOrdered(calls, key);
    AcceptedCountsOutcomes(None, times, p, from, from + k * p.window);
    AcceptedPerInterval(None, times, p, from, k);
  }

  // ---- RateLimiter.__call__ ----

  class Redis {
    var counters: map<Key, Counter>

    constructor ()
      ensures counters == map[]
    {
      counters := map[];
    }

    /** MULTI; SET key 0 EX window NX; INCR key; EXEC */
    method CountRequest(key: Key, now: int, window: int) returns (count: nat)
      modifies this
      ensures counters == old(counters)[key := Hit(Get(old(counters), key), now, window)]
      ensures count == counters[key].count
    {
      if key !in counters || now >= counters[key].expires {
        counters := counters[key := Counter(0, now + window)];
      }
      counters := counters[key := counters[key].(count := counters[key].count + 1)];
      count := counters[key].count;
    }
  }

  class RateLimiter {
    const scope: string
    const limit: nat
    const windowSeconds: int

    constructor (scope: string, limit: nat, windowSeconds: int)
      ensures this.scope == scope && this.limit == limit && this.windowSeconds == windowSeconds
    {
      this.scope, this.limit, this.windowSeconds := scope, limit, windowSeconds;
    }

    /** False stands for the 429. */
    method Check(redis: Redis, user: int, now: int) returns (accepted: bool)
      modifies redis
      ensures [accepted] == Serve(old(redis.counters), [Call(now, Key(scope, user))], s => Limits(limit, windowSeconds))
      ensures forall key :: key != Key(scope, user) ==> Get(redis.counters, key) == Get(old(redis.counters), key)
      ensures Get(redis.counters, Key(scope, user)) == Some(Hit(Get(old(redis.counters), Key(scope, user)), now, windowSeconds))
    {
      var requestCount := redis.CountRequest(Key(scope, user), now, windowSeconds);
      accepted := requestCount <= limit;
    }
  }
}
