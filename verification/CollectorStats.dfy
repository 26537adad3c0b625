/**
  What the collector's statistics and summary say about the updates it has seen.
*/
module CollectorStats {
  import opened Wrappers
  import opened Collector
  import opened CollectorLog

  // --- one resource ---

  function Total(ns: seq<int>): int {
    if ns == [] then 0 else ns[0] + Total(ns[1..])
  }

  lemma {:induction false} TotalSnoc(ns: seq<int>, n: int)
    ensures Total(ns + [n]) == Total(ns) + n
  {
    if ns != [] {
      assert (ns + [n])[1..] == ns[1..] + [n];
      TotalSnoc(ns[1..], n);
    }
  }

  // A window in milliseconds adds up to the durations in nanoseconds.
  lemma {:induction false} SumIsTotal(w: seq<real>, ns: seq<int>)
    requires |w| == |ns| && forall i | 0 <= i < |w| :: w[i] * 1000000.0 == ns[i] as real
    ensures Sum(w) * 1000000.0 == Total(ns) as real
  {
    if w != [] {
      var k := |w| - 1;
      SumIsTotal(w[..k], ns[..k]);
      TotalSnoc(ns[..k], ns[k]);
      assert ns == ns[..k] + [ns[k]];
    }
  }

  lemma {:induction false} WindowBounds(w: seq<real>)
    requires w != []
    ensures MinOf(w) in w && MaxOf(w) in w
    ensures forall i | 0 <= i < |w| :: MinOf(w) <= w[i] <= MaxOf(w)
  {
    var k := |w| - 1;
    if k > 0 {
      var before := w[..k];
      WindowBounds(before);
      assert forall i | 0 <= i < k :: w[i] == before[i];
    }
  }

  lemma {:induction false} SumBounds(w: seq<real>, lo: real, hi: real)
    requires forall i | 0 <= i < |w| :: lo <= w[i] <= hi
    ensures lo * |w| as real <= Sum(w) <= hi * |w| as real
  {
    if w != [] {
      var k := |w| - 1;
      SumBounds(w[..k], lo, hi);
      assert lo * |w| as real == lo * k as real + lo && hi * |w| as real == hi * k as real + hi;
    }
  }

  // Whenever something was recorded, minimum and maximum were recorded and enclose the average.
  lemma {:induction false} WindowStatistics(v: View, r: Resource)
    requires Window(v.times, r) != []
    ensures var st, w := StatsOf(v, r), Window(v.times, r);
            && st.minRT in w && st.maxRT in w
            && (forall i | 0 <= i < |w| :: st.minRT <= w[i] <= st.maxRT)
            && st.minRT <= st.avgRT <= st.maxRT
            && Accumulated(st.avgRT, |w|) == Sum(w)
  {
    var w := Window(v.times, r);
    WindowBounds(w);
    SumBounds(w, MinOf(w), MaxOf(w));
    Between(MinOf(w), Sum(w), MaxOf(w), |w|);
  }

  lemma {:induction false} Between(lo: real, sum: real, hi: real, n: nat)
    requires n > 0 && lo * n as real <= sum <= hi * n as real
    ensures lo <= sum / n as real <= hi
  {
    var avg := sum / n as real;
    assert avg * n as real == sum;
  }

  lemma {:induction false} RateIsCount(n: int, interval: int)
    requires interval != 0
    ensures PerSecond(n, interval).Finite?
    ensures PerSecond(n, interval).value * interval as real == n as real * 1000000000.0
  {
    var d := Seconds(interval);
    assert d != 0.0 && PerSecond(n, interval) == Finite(n as real / d);
    assert interval as real == d * 1000000000.0;
    assert n as real / d * d == n as real;
  }

  lemma {:induction false} RatesAdd(p: int, b: int, interval: int)
    requires interval != 0
    ensures PerSecond(p + b, interval) == Finite(PerSecond(p, interval).value + PerSecond(b, interval).value)
  {
    var d := Seconds(interval);
    assert d != 0.0;
    assert (p + b) as real == p as real + b as real;
    assert (p as real + b as real) / d == p as real / d + b as real / d;
  }

  // While fewer than 2^63 updates were made the counters hold the counts themselves.
  lemma {:induction false} ExactCounts(interval: int, acts: seq<Action>, r: Resource)
    requires Valid(Start(interval), acts)
    requires |SinceReset(After(Start(interval), acts).log)| < TWO_63
    ensures var s := After(Start(interval), acts);
            var v, us := s.view, SinceReset(s.log);
            && Count(v.passed, r) == CountPassed(us, r)
            && Count(v.blocked, r) == CountBlocked(us, r)
            && Count(v.requests, r) == CountPassed(us, r) + CountBlocked(us, r)
            && (r in v.requests <==> CountPassed(us, r) + CountBlocked(us, r) > 0)
  {
    CollectorRefinesLog(interval, acts, r);
    CountsBounded(SinceReset(After(Start(interval), acts).log), r);
  }

  lemma {:induction false} RatesOf(v: View, r: Resource, p: nat, b: nat)
    requires Count(v.passed, r) == p && Count(v.blocked, r) == b && Count(v.requests, r) == p + b
    ensures RatesAre(StatsOf(v, r), v.interval, p, b)
  {
    if v.interval != 0 {
      RateIsCount(p, v.interval);
      RateIsCount(b, v.interval);
      RatesAdd(p, b, v.interval);
    }
  }

  // With an interval, in nanoseconds, each rate per second is the count over it and the total is the
  // sum of the other two; without one, a rate is infinite where something was counted and NaN elsewhere.
  ghost predicate RatesAre(st: ResourceStats, interval: int, p: nat, b: nat) {
    if interval != 0 then
      && st.passQPS.Finite? && st.passQPS.value * interval as real == p as real * 1000000000.0
      && st.blockQPS.Finite? && st.blockQPS.value * interval as real == b as real * 1000000000.0
      && st.totalQPS == Finite(st.passQPS.value + st.blockQPS.value)
    else
      && st.passQPS == (if p > 0 then PosInf else NaN)
      && st.blockQPS == (if b > 0 then PosInf else NaN)
      && st.totalQPS == (if p > 0 || b > 0 then PosInf else NaN)
  }

  // Each rate is that of the number of such updates since the last reset.
  lemma {:induction false} RatesCountTheLog(interval: int, acts: seq<Action>, r: Resource)
    requires Valid(Start(interval), acts)
    requires |SinceReset(After(Start(interval), acts).log)| < TWO_63
    ensures var s := After(Start(interval), acts);
            var us := SinceReset(s.log);
            var st := StatsOf(s.view, r);
            && RatesAre(st, IntervalAfter(interval, s.log), CountPassed(us, r), CountBlocked(us, r))
            && st.resource == r && st.exceptionQPS == 0.0
  {
    CollectorRefinesLog(interval, acts, r);
    hide RatesAre, CountPassed, CountBlocked, SinceReset, After, Valid;
    var s := After(Start(interval), acts);
    ExactCounts(interval, acts, r);
    RatesOf(s.view, r, CountPassed(SinceReset(s.log), r), CountBlocked(SinceReset(s.log), r));
  }

  // The durations in the window of a resource: the last hundred measured since the last reset.
  function RecentNs(us: seq<Update>, r: Resource): seq<int> {
    var all := TimesNs(us, r);
    if |all| < 100 then all else all[|all| - 100..]
  }

  // What `n` values of this average add up to.
  function Accumulated(average: real, n: nat): real {
    average * n as real
  }

  // A response time in milliseconds, and the duration it stands for.
  predicate IsMillis(t: real, ns: int) {
    t * 1000000.0 == ns as real
  }

  // Minimum, maximum and average of these durations, in milliseconds; zero when there are none.
  ghost predicate TimesAre(st: ResourceStats, ns: seq<int>) {
    if ns == [] then st.minRT == 0.0 && st.maxRT == 0.0 && st.avgRT == 0.0
    else
      && (exists lo, hi | lo in ns && hi in ns ::
            IsMillis(st.minRT, lo) && IsMillis(st.maxRT, hi) && forall n | n in ns :: lo <= n <= hi)
      && IsMillis(Accumulated(st.avgRT, |ns|), Total(ns))
  }

  // The response-time figures are those of the last hundred durations since the last reset.
  lemma {:induction false} TimesFollowTheLog(interval: int, acts: seq<Action>, r: Resource)
    requires Valid(Start(interval), acts)
    ensures var s := After(Start(interval), acts);
            TimesAre(StatsOf(s.view, r), RecentNs(SinceReset(s.log), r))
  {
    hide TimesAre, StatsOf, After, Valid, SinceReset, TimesNs;
    var s := After(Start(interval), acts);
    WindowIsRecentHistory(interval, acts, r);
    WindowInNs(s.view, RecentNs(SinceReset(s.log), r), r);
  }

  ghost predicate InNs(w: seq<real>, ns: seq<int>) {
    |w| == |ns| && forall i | 0 <= i < |w| :: IsMillis(w[i], ns[i])
  }

  lemma {:induction false} WindowInNs(v: View, ns: seq<int>, r: Resource)
    requires InNs(Window(v.times, r), ns)
    ensures TimesAre(StatsOf(v, r), ns)
  {
    hide StatsOf, Window, Sum, Total, IsMillis, Accumulated;
    if ns == [] {
      EmptyWindow(v, r);
    } else {
      WindowStatistics(v, r);
      SumInNs(Window(v.times, r), ns);
      BoundsInNs(Window(v.times, r), ns, StatsOf(v, r).minRT, StatsOf(v, r).maxRT);
    }
  }

  lemma {:induction false} EmptyWindow(v: View, r: Resource)
    requires Window(v.times, r) == []
    ensures var st := StatsOf(v, r); st.minRT == 0.0 && st.maxRT == 0.0 && st.avgRT == 0.0
  {
    hide PerSecond;
  }

  lemma {:induction false} SumInNs(w: seq<real>, ns: seq<int>)
    requires InNs(w, ns)
    ensures IsMillis(Sum(w), Total(ns))
  {
    SumIsTotal(w, ns);
  }

  lemma {:induction false} BoundsInNs(w: seq<real>, ns: seq<int>, min: real, max: real)
    requires InNs(w, ns) && min in w && max in w && forall i | 0 <= i < |w| :: min <= w[i] <= max
    ensures exists lo, hi | lo in ns && hi in ns ::
              IsMillis(min, lo) && IsMillis(max, hi) && forall n | n in ns :: lo <= n <= hi
  {
    var i :| 0 <= i < |w| && w[i] == min;
    var j :| 0 <= j < |w| && w[j] == max;
    assert IsMillis(min, ns[i]) && IsMillis(max, ns[j]);
    forall n | n in ns ensures ns[i] <= n <= ns[j] {
      var k :| 0 <= k < |ns| && ns[k] == n;
      assert min <= w[k] <= max && IsMillis(w[k], n);
    }
  }

  // --- all resources ---

  lemma {:induction false} SumsAgree(keys: set<Resource>, f: Resource -> int, g: Resource -> int)
    requires forall r | r in keys :: f(r) == g(r)
    ensures SumOver(keys, f) == SumOver(keys, g)
  {
    if keys != {} {
      var r :| r in keys;
      SumOverInsert(keys, f, r);
      SumOverInsert(keys, g, r);
      SumsAgree(keys - {r}, f, g);
    }
  }

  lemma {:induction false} SumOfSums(keys: set<Resource>, f: Resource -> int, g: Resource -> int, h: Resource -> int)
    requires forall r | r in keys :: h(r) == f(r) + g(r)
    ensures SumOver(keys, h) == SumOver(keys, f) + SumOver(keys, g)
  {
    if keys != {} {
      var r :| r in keys;
      SumOverInsert(keys, f, r);
      SumOverInsert(keys, g, r);
      SumOverInsert(keys, h, r);
      SumOfSums(keys - {r}, f, g, h);
    }
  }

  // How many of the updates let a request pass, and how many refused one, whatever the resource.
  function AllPassed(us: seq<Update>): nat {
    if us == [] then 0 else AllPassed(us[..|us| - 1]) + if us[|us| - 1].Passed? then 1 else 0
  }

  function AllBlocked(us: seq<Update>): nat {
    if us == [] then 0 else AllBlocked(us[..|us| - 1]) + if us[|us| - 1].Blocked? then 1 else 0
  }

  function PassedIn(us: seq<Update>): Resource -> int {
    (r: Resource) => CountPassed(us, r)
  }

  function BlockedIn(us: seq<Update>): Resource -> int {
    (r: Resource) => CountBlocked(us, r)
  }

  // Raising a function at one key raises its sum by as much.
  lemma {:induction false} SumRaised(keys: set<Resource>, f: Resource -> int, g: Resource -> int, k: Resource)
    requires k in keys && g(k) == f(k) + 1 && forall r | r in keys && r != k :: g(r) == f(r)
    ensures SumOver(keys, g) == SumOver(keys, f) + 1
  {
    SumOverInsert(keys, f, k);
    SumOverInsert(keys, g, k);
    SumsAgree(keys - {k}, f, g);
  }

  lemma {:induction false} SumOfZeros(keys: set<Resource>, f: Resource -> int)
    requires forall r | r in keys :: f(r) == 0
    ensures SumOver(keys, f) == 0
  {
    if keys != {} {
      var r :| r in keys;
      SumOverInsert(keys, f, r);
      SumOfZeros(keys - {r}, f);
    }
  }

  ghost predicate Covers(keys: set<Resource>, us: seq<Update>) {
    forall i | 0 <= i < |us| && (us[i].Passed? || us[i].Blocked?) :: us[i].resource in keys
  }

  // Summing the per-resource counts over all resources counts every update once.
  lemma {:induction false} PerResourceCountsSumUp(keys: set<Resource>, us: seq<Update>)
    requires Covers(keys, us)
    ensures SumOver(keys, PassedIn(us)) == AllPassed(us)
    ensures SumOver(keys, BlockedIn(us)) == AllBlocked(us)
  {
    if us == [] {
      SumOfZeros(keys, PassedIn(us));
      SumOfZeros(keys, BlockedIn(us));
    } else {
      var before, u := us[..|us| - 1], us[|us| - 1];
      assert forall i | 0 <= i < |before| :: before[i] == us[i];
      PerResourceCountsSumUp(keys, before);
      if u.Passed? {
        SumRaised(keys, PassedIn(before), PassedIn(us), u.resource);
      } else {
        SumsAgree(keys, PassedIn(before), PassedIn(us));
      }
      if u.Blocked? {
        SumRaised(keys, BlockedIn(before), BlockedIn(us), u.resource);
      } else {
        SumsAgree(keys, BlockedIn(before), BlockedIn(us));
      }
    }
  }

  lemma {:induction false} CountsSeen(us: seq<Update>, r: Resource)
    ensures CountPassed(us, r) + CountBlocked(us, r) > 0 <==>
              exists i | 0 <= i < |us| :: us[i] == Passed(r) || us[i] == Blocked(r)
  {
    if us != [] {
      var before := us[..|us| - 1];
      CountsSeen(before, r);
      assert forall i | 0 <= i < |before| :: before[i] == us[i];
    }
  }

  lemma {:induction false} AllCountsBounded(us: seq<Update>)
    ensures AllPassed(us) + AllBlocked(us) <= |us|
  {
    if us != [] { AllCountsBounded(us[..|us| - 1]); }
  }

  // The three sums behind the summary, before they are stored as int64 values.
  lemma {:induction false} SumsCountTheLog(interval: int, acts: seq<Action>)
    requires Valid(Start(interval), acts)
    requires |SinceReset(After(Start(interval), acts).log)| < TWO_63
    ensures var v, us := After(Start(interval), acts).view, SinceReset(After(Start(interval), acts).log);
            && SumOver(v.requests.Keys, Counts(v.passed)) == AllPassed(us)
            && SumOver(v.requests.Keys, Counts(v.blocked)) == AllBlocked(us)
            && SumOver(v.requests.Keys, Counts(v.requests)) == AllPassed(us) + AllBlocked(us)
  {
    var s := After(Start(interval), acts);
    var v, us := s.view, SinceReset(s.log);
    var keys := v.requests.Keys;
    forall r
      ensures Count(v.passed, r) == CountPassed(us, r) && Count(v.blocked, r) == CountBlocked(us, r)
      ensures Count(v.requests, r) == CountPassed(us, r) + CountBlocked(us, r)
      ensures r in keys <==> CountPassed(us, r) + CountBlocked(us, r) > 0
    {
      ExactCounts(interval, acts, r);
    }
    forall i | 0 <= i < |us| && (us[i].Passed? || us[i].Blocked?) ensures us[i].resource in keys {
      CountsSeen(us, us[i].resource);
    }
    PerResourceCountsSumUp(keys, us);
    SumsAgree(keys, Counts(v.passed), PassedIn(us));
    SumsAgree(keys, Counts(v.blocked), BlockedIn(us));
    SumOfSums(keys, PassedIn(us), BlockedIn(us), Counts(v.requests));
  }

  // Totals and rates of `p` admissions and `b` refusals.
  ghost predicate SummaryCounts(sum: Summary, p: nat, b: nat) {
    && sum.totalPassed == p && sum.totalBlocked == b && sum.totalRequests == p + b
    && (p + b > 0 <==> sum.passRate.Some?) && (p + b > 0 <==> sum.blockRate.Some?)
    && (p + b > 0 ==>
          && sum.passRate.value * (p + b) as real == p as real
          && sum.blockRate.value * (p + b) as real == b as real
          && sum.passRate.value + sum.blockRate.value == 1.0)
  }

  // The summary counts the updates since the last reset, for every interleaving and every order in
  // which the map's keys are visited; its two rates add up to one.
  lemma {:induction false} SummaryCountsTheLog(interval: int, acts: seq<Action>)
    requires Valid(Start(interval), acts)
    requires |SinceReset(After(Start(interval), acts).log)| < TWO_63
    ensures var s := After(Start(interval), acts);
            var sum, us := SummaryOf(s.view), SinceReset(s.log);
            && SummaryCounts(sum, AllPassed(us), AllBlocked(us))
            && sum.resourceCount == |s.view.requests.Keys|
            && sum.interval == IntervalAfter(interval, s.log) && sum.enabled == EnabledAfter(s.log)
  {
    hide SummaryOf, SummaryCounts, After, Valid, SinceReset, AllPassed, AllBlocked, Replay, EnabledAfter, IntervalAfter, Agrees;
    CollectorRefinesLog(interval, acts, "");
    SumsCountTheLog(interval, acts);
    var us := SinceReset(After(Start(interval), acts).log);
    AllCountsBounded(us);
    SummaryIs(After(Start(interval), acts).view, AllPassed(us), AllBlocked(us));
  }

  // A summary of sums that fit.
  lemma {:induction false} SummaryIs(v: View, p: nat, b: nat)
    requires p + b < TWO_63
    requires SumOver(v.requests.Keys, Counts(v.passed)) == p && SumOver(v.requests.Keys, Counts(v.blocked)) == b
    requires SumOver(v.requests.Keys, Counts(v.requests)) == p + b
    ensures var sum := SummaryOf(v);
            && SummaryCounts(sum, p, b)
            && sum.resourceCount == |v.requests.Keys|
            && sum.interval == v.interval && sum.enabled == v.enabled
  {
    hide SumOver, SummaryOf, Rate;
    SummaryTotals(v, p, b);
    RateIsShare(p, p + b);
    RateIsShare(b, p + b);
    SharesAddUp(p, b);
  }

  lemma {:induction false} SummaryTotals(v: View, p: nat, b: nat)
    requires p + b < TWO_63
    requires SumOver(v.requests.Keys, Counts(v.passed)) == p && SumOver(v.requests.Keys, Counts(v.blocked)) == b
    requires SumOver(v.requests.Keys, Counts(v.requests)) == p + b
    ensures SummaryOf(v)
         == Summary(p + b, p, b, |v.requests.Keys|, v.interval, v.enabled, Rate(p, p + b), Rate(b, p + b))
  {
    hide SumOver, Rate, Wrap, Counts;
  }

  lemma {:induction false} RateIsShare(part: Int64, total: Int64)
    ensures total > 0 <==> Rate(part, total).Some?
    ensures total > 0 ==> Rate(part, total).value * total as real == part as real
  {
  }

  lemma {:induction false} SharesAddUp(p: nat, b: nat)
    requires p + b < TWO_63
    ensures p + b > 0 ==> Rate(p, p + b).value + Rate(b, p + b).value == 1.0
  {
    FractionsAddUp(p, b);
  }

  lemma {:induction false} FractionsAddUp(p: nat, b: nat)
    ensures p + b > 0 ==> p as real / (p + b) as real + b as real / (p + b) as real == 1.0
  {
    if p + b > 0 {
      var n := (p + b) as real;
      assert p as real / n + b as real / n == (p as real + b as real) / n;
    }
  }
}
