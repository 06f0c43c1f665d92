/** What the fixed-window limiter admits over any run of hits on one key (internal/rds/rds.go). */
module RateLimit {
  import opened Basics
  import opened Redis

  /** The counter after the first n hits, at the given times. */
  function After(times: seq<int>, window: int, n: nat): Option<Counter>
    requires n <= |times|
  {
    if n == 0 then None else
      var now, before := times[n - 1], After(times, window, n - 1);
      Some(Hit(if before.Some? && now < before.value.expires then before else None, now, window))
  }

  predicate Allowed(times: seq<int>, window: int, limit: int, i: nat)
    requires i < |times|
  {
    Admits(After(times, window, i + 1).value, limit)
  }

  /** How many of the first n hits fall into [from, from + window) and are admitted. */
  function Admitted(times: seq<int>, window: int, limit: int, from: int, n: nat): nat
    requires n <= |times|
  {
    if n == 0 then 0 else
      Admitted(times, window, limit, from, n - 1)
      + if from <= times[n - 1] < from + window && Allowed(times, window, limit, n - 1) then 1 else 0
  }

  predicate InOrder(times: seq<int>) {
    forall i, j | 0 <= i < j < |times| :: times[i] <= times[j]
  }

  function PerWindow(limit: int): (l: int)
    ensures l >= 1
  {
    if limit < 1 then 1 else limit
  }

  function Min(a: int, b: int): int {
    if a < b then a else b
  }

  /** Where the current window starts decides how much of the interval can have been used up. */
  ghost predicate Used(counter: Counter, window: int, limit: int, from: int, admitted: nat, last: int) {
    var l, start := PerWindow(limit), counter.expires - window;
    && counter.hits >= 1 && start <= last < counter.expires
    && (last < from ==> admitted == 0)
    && (start < from ==> admitted <= Min(counter.hits, l) - 1)
    && (start == from ==> admitted <= Min(counter.hits, l))
    && (from < start < from + window ==> admitted <= l - 1 + Min(counter.hits, l))
    && admitted <= 2 * l - 1
  }

  lemma {:induction false} UsedUp(times: seq<int>, window: int, limit: int, from: int, n: nat)
    requires window > 0 && InOrder(times) && 0 < n <= |times|
    ensures Used(After(times, window, n).value, window, limit, from, Admitted(times, window, limit, from, n), times[n - 1])
  {
    if n == 1 {
      assert Admitted(times, window, limit, from, 0) == 0;
      assert After(times, window, 0) == None;
    } else {
      UsedUp(times, window, limit, from, n - 1);
      assert times[n - 2] <= times[n - 1];
    }
  }

  /** Any stretch of time as long as the window sees at most 2L - 1 admitted hits, L being the limit (at least 1). */
  lemma AtMostTwoWindows(times: seq<int>, window: int, limit: int, from: int)
    requires window > 0 && InOrder(times)
    ensures Admitted(times, window, limit, from, |times|) <= 2 * PerWindow(limit) - 1
  {
    if times != [] {
      UsedUp(times, window, limit, from, |times|);
    }
  }

  /** A refused hit leaves the end of the window where it was, and a hit at that moment is admitted again. */
  lemma RefusalsDoNotExtend(times: seq<int>, window: int, limit: int, n: nat, m: nat)
    requires window > 0 && n < m <= |times| && InOrder(times) && 0 < n
    requires forall i | n <= i < m :: !Allowed(times, window, limit, i)
    ensures After(times, window, m).value.expires == After(times, window, n).value.expires
    decreases m
  {
    assert !Allowed(times, window, limit, m - 1);
    if n < m - 1 {
      RefusalsDoNotExtend(times, window, limit, n, m - 1);
    }
  }

  lemma AdmittedAfterwards(times: seq<int>, window: int, limit: int, n: nat)
    requires window > 0 && 0 < n < |times| && times[n] >= After(times, window, n).value.expires
    ensures Allowed(times, window, limit, n)
  {
  }

  /******* The bound is attained *******/

  /** One hit at 0, the rest of the limit just before the window ends, and a full window right after. */
  function Worst(limit: nat, window: int): seq<int>
    requires limit > 0 && window > 1
  {
    seq(2 * limit, i requires 0 <= i < 2 * limit => if i == 0 then 0 else if i < limit then window - 1 else window)
  }

  lemma {:induction false} WorstCase(limit: nat, window: int, n: nat)
    requires limit > 0 && window > 1 && 0 < n <= 2 * limit
    ensures var times := Worst(limit, window);
            && After(times, window, n) == Some(if n <= limit then Counter(n, window) else Counter(n - limit, 2 * window))
            && Admitted(times, window, limit, window - 1, n) == n - 1
  {
    if n > 1 {
      WorstCase(limit, window, n - 1);
    } else {
      assert After(Worst(limit, window), window, 0) == None;
      assert Admitted(Worst(limit, window), window, limit, window - 1, 0) == 0;
    }
  }

  lemma BoundAttained(limit: nat, window: int)
    requires limit > 0 && window > 1
    ensures InOrder(Worst(limit, window))
    ensures Admitted(Worst(limit, window), window, limit, window - 1, 2 * limit) == 2 * PerWindow(limit) - 1
  {
    WorstCase(limit, window, 2 * limit);
  }

  /******* Refusals are earned *******/

  /** The first hit of the window that is open after n hits. */
  function WindowStart(times: seq<int>, window: int, n: nat): (i: nat)
    requires 0 < n <= |times|
    ensures i < n
  {
    if n == 1 || times[n - 1] >= After(times, window, n - 1).value.expires then n - 1 else WindowStart(times, window, n - 1)
  }

  /** That window began with that hit, and has counted every hit since. */
  lemma {:induction false} WindowCounts(times: seq<int>, window: int, n: nat)
    requires window > 0 && 0 < n <= |times|
    ensures var i := WindowStart(times, window, n);
            After(times, window, n) == Some(Counter(n - i, times[i] + window))
    ensures forall m | WindowStart(times, window, n) < m <= n ::
              WindowStart(times, window, m) == WindowStart(times, window, n)
    ensures times[n - 1] < times[WindowStart(times, window, n)] + window
  {
    if n == 1 {
      assert After(times, window, 0) == None;
    } else {
      WindowCounts(times, window, n - 1);
    }
  }

  /** A hit is refused only when the limit has been used up: the window it falls into has already admitted that many hits,
      one after the other, all less than a window ago. */
  lemma RefusedOnlyWhenFull(times: seq<int>, window: int, limit: int, n: nat) returns (i: nat)
    requires window > 0 && n < |times| && !Allowed(times, window, limit, n)
    ensures i + PerWindow(limit) <= n && times[n] < times[i] + window
    ensures forall j | i <= j < i + PerWindow(limit) :: Allowed(times, window, limit, j)
  {
    i := WindowStart(times, window, n + 1);
    WindowCounts(times, window, n + 1);
    forall j | i <= j < i + PerWindow(limit) ensures j <= n && Allowed(times, window, limit, j) {
      WindowCounts(times, window, j + 1);
    }
  }

  /******* The calls themselves *******/

  /** A run of calls of the limiter on one key, each after the other, between which nobody else touches that key: `before`
      and `after` are the counters around each call. */
  ghost predicate Calls(
    times: seq<int>, key: string, limit: int, window: int,
    before: seq<map<string, Counter>>, after: seq<map<string, Counter>>, oks: seq<bool>)
  {
    && |before| == |after| == |oks| == |times|
    && (forall i | 0 <= i < |times| :: OneHit(before[i], times[i], key, limit, window, after[i], oks[i]))
    && (times != [] ==> !(key in before[0] && times[0] < before[0][key].expires))
    && forall i | 0 <= i < |times| - 1 :: key in before[i + 1] && before[i + 1][key] == after[i][key]
  }

  lemma {:induction false} CallsAreHits(
    times: seq<int>, key: string, limit: int, window: int,
    before: seq<map<string, Counter>>, after: seq<map<string, Counter>>, oks: seq<bool>, n: nat)
    requires Calls(times, key, limit, window, before, after, oks) && n < |times|
    ensures key in after[n] && After(times, window, n + 1) == Some(after[n][key])
    ensures oks[n] <==> Allowed(times, window, limit, n)
  {
    if n > 0 {
      CallsAreHits(times, key, limit, window, before, after, oks, n - 1);
      assert before[n - 1 + 1][key] == after[n - 1][key];
    } else {
      assert After(times, window, 0) == None;
    }
    assert OneHit(before[n], times[n], key, limit, window, after[n], oks[n]);
  }

  /** How many of the first n calls, falling into [from, from + window), were told yes. */
  function Yeses(times: seq<int>, oks: seq<bool>, window: int, from: int, n: nat): nat
    requires n <= |times| == |oks|
  {
    if n == 0 then 0 else
      Yeses(times, oks, window, from, n - 1) + if from <= times[n - 1] < from + window && oks[n - 1] then 1 else 0
  }

  lemma {:induction false} YesesAreAdmitted(
    times: seq<int>, key: string, limit: int, window: int,
    before: seq<map<string, Counter>>, after: seq<map<string, Counter>>, oks: seq<bool>, from: int, n: nat)
    requires Calls(times, key, limit, window, before, after, oks) && n <= |times|
    ensures Yeses(times, oks, window, from, n) == Admitted(times, window, limit, from, n)
  {
    if n > 0 {
      YesesAreAdmitted(times, key, limit, window, before, after, oks, from, n - 1);
      CallsAreHits(times, key, limit, window, before, after, oks, n - 1);
    }
  }

  /** Of the calls on one key, any stretch of time as long as the window sees at most 2L - 1 answered yes. */
  lemma CallsAreLimited(
    times: seq<int>, key: string, limit: int, window: int,
    before: seq<map<string, Counter>>, after: seq<map<string, Counter>>, oks: seq<bool>, from: int)
    requires window > 0 && InOrder(times) && Calls(times, key, limit, window, before, after, oks)
    ensures Yeses(times, oks, window, from, |times|) <= 2 * PerWindow(limit) - 1
  {
    YesesAreAdmitted(times, key, limit, window, before, after, oks, from, |times|);
    AtMostTwoWindows(times, window, limit, from);
  }

  /** And a call is answered no only after as many as the limit were answered yes, all less than a window before. */
  lemma CallsAreNotRefusedEarly(
    times: seq<int>, key: string, limit: int, window: int,
    before: seq<map<string, Counter>>, after: seq<map<string, Counter>>, oks: seq<bool>, n: nat) returns (i: nat)
    requires window > 0 && Calls(times, key, limit, window, before, after, oks) && n < |times| && !oks[n]
    ensures i + PerWindow(limit) <= n && times[n] < times[i] + window
    ensures forall j | i <= j < i + PerWindow(limit) :: oks[j]
  {
    CallsAreHits(times, key, limit, window, before, after, oks, n);
    i := RefusedOnlyWhenFull(times, window, limit, n);
    forall j | i <= j < i + PerWindow(limit) ensures oks[j] {
      CallsAreHits(times, key, limit, window, before, after, oks, j);
    }
  }
}
