/**
  The metrics collector: three counter maps and a sliding window of response times per resource.

  `Apply` is what one locked section does to the contents; the class carries it out in place.
*/
module Collector {
  import opened Wrappers

  type Resource = string

  const TWO_63: int := 0x8000_0000_0000_0000
  const TWO_64: int := 0x1_0000_0000_0000_0000
  const WINDOW: nat := 100

  type Int64 = x: int | -0x8000_0000_0000_0000 <= x < 0x8000_0000_0000_0000

  // int64 arithmetic wraps around.
  function Wrap(x: int): (r: Int64)
    ensures -TWO_63 <= x < TWO_63 ==> r == x
  {
    (x + TWO_63) % TWO_64 - TWO_63
  }

  // The wrapped value differs by a multiple of 2^64; being an int64, it is the only such value.
  lemma WrapIsCongruent(x: int) returns (turns: int)
    ensures Wrap(x) == x + turns * TWO_64
  {
    turns := -((x + TWO_63) / TWO_64);
  }

  datatype Update =
    | Passed(resource: Resource)
    | Blocked(resource: Resource)
    | ResponseTime(resource: Resource, ns: int)
    | Reset
    | SetEnabled(on: bool)
    | SetInterval(interval: int)
  {
    // Recorded by a caller that looked at `enabled` first.
    predicate Recorded() { Passed? || Blocked? || ResponseTime? }
  }

  // Durations are in nanoseconds, response times in milliseconds.
  datatype View = View(
    enabled: bool,
    interval: int,
    requests: map<Resource, Int64>,
    blocked: map<Resource, Int64>,
    passed: map<Resource, Int64>,
    times: map<Resource, seq<real>>)

  function Fresh(interval: int): View {
    View(true, interval, map[], map[], map[], map[])
  }

  // Reading a missing key yields the zero value.
  function Count(m: map<Resource, Int64>, r: Resource): Int64 {
    if r in m then m[r] else 0
  }

  function Window(m: map<Resource, seq<real>>, r: Resource): seq<real> {
    if r in m then m[r] else []
  }

  function Bump(m: map<Resource, Int64>, r: Resource): map<Resource, Int64> {
    m[r := Wrap(Count(m, r) + 1)]
  }

  function Millis(ns: int): real {
    ns as real / 1000000.0
  }

  function Push(w: seq<real>, t: real): seq<real> {
    if |w + [t]| > WINDOW then (w + [t])[1..] else w + [t]
  }

  function Apply(v: View, u: Update): View {
    match u
    case Passed(r) => v.(requests := Bump(v.requests, r), passed := Bump(v.passed, r))
    case Blocked(r) => v.(requests := Bump(v.requests, r), blocked := Bump(v.blocked, r))
    case ResponseTime(r, ns) => v.(times := v.times[r := Push(Window(v.times, r), Millis(ns))])
    case Reset => v.(requests := map[], blocked := map[], passed := map[], times := map[])
    case SetEnabled(on) => v.(enabled := on)
    case SetInterval(d) => v.(interval := d)
  }

  // A whole call when nothing interferes between the unlocked check and the locked update.
  function Record(v: View, u: Update): View {
    if u.Recorded() && !v.enabled then v else Apply(v, u)
  }

  // --- statistics ---

  // The result of a float64 division, rounding aside.
  datatype Quotient = Finite(value: real) | PosInf | NegInf | NaN

  function Divide(x: real, y: real): Quotient {
    if y != 0.0 then Finite(x / y)
    else if x > 0.0 then PosInf
    else if x < 0.0 then NegInf
    else NaN
  }

  datatype ResourceStats = ResourceStats(
    resource: Resource,
    passQPS: Quotient,
    blockQPS: Quotient,
    totalQPS: Quotient,
    avgRT: real,
    minRT: real,
    maxRT: real,
    exceptionQPS: real)

  function Sum(s: seq<real>): real {
    if s == [] then 0.0 else Sum(s[..|s| - 1]) + s[|s| - 1]
  }

  function MinOf(s: seq<real>): real
    requires s != []
  {
    var last := s[|s| - 1];
    if |s| == 1 then last else if last < MinOf(s[..|s| - 1]) then last else MinOf(s[..|s| - 1])
  }

  function MaxOf(s: seq<real>): real
    requires s != []
  {
    var last := s[|s| - 1];
    if |s| == 1 then last else if last > MaxOf(s[..|s| - 1]) then last else MaxOf(s[..|s| - 1])
  }

  function Seconds(interval: int): real {
    interval as real / 1000000000.0
  }

  function PerSecond(n: int, interval: int): Quotient {
    Divide(n as real, Seconds(interval))
  }

  function StatsOf(v: View, r: Resource): ResourceStats {
    var w := Window(v.times, r);
    ResourceStats(
      r,
      PerSecond(Count(v.passed, r), v.interval),
      PerSecond(Count(v.blocked, r), v.interval),
      PerSecond(Count(v.requests, r), v.interval),
      if w == [] then 0.0 else Sum(w) / |w| as real,
      if w == [] then 0.0 else MinOf(w),
      if w == [] then 0.0 else MaxOf(w),
      0.0)
  }

  datatype Summary = Summary(
    totalRequests: Int64,
    totalPassed: Int64,
    totalBlocked: Int64,
    resourceCount: nat,
    interval: int,
    enabled: bool,
    passRate: Option<real>,
    blockRate: Option<real>)

  ghost function SumOver(keys: set<Resource>, f: Resource -> int): int {
    if keys == {} then 0
    else
      var r :| r in keys;
      f(r) + SumOver(keys - {r}, f)
  }

  function Counts(m: map<Resource, Int64>): Resource -> int {
    (r: Resource) => Count(m, r)
  }

  // The order in which a sum visits the keys does not matter.
  lemma {:induction false} SumOverInsert(keys: set<Resource>, f: Resource -> int, r: Resource)
    requires r in keys
    ensures SumOver(keys, f) == f(r) + SumOver(keys - {r}, f)
  {
    var first :| first in keys && SumOver(keys, f) == f(first) + SumOver(keys - {first}, f);
    if first != r {
      SumOverInsert(keys - {first}, f, r);
      SumOverInsert(keys - {r}, f, first);
      assert keys - {first} - {r} == keys - {r} - {first};
    }
  }

  lemma WrapAdd(a: int, b: int)
    ensures Wrap(Wrap(a) + b) == Wrap(a + b)
  {
    var q := (a + TWO_63) / TWO_64;
    assert Wrap(a) == a - q * TWO_64;
    ModShift(a + b + TWO_63, q);
  }

  lemma ModShift(x: int, q: int)
    ensures (x - q * TWO_64) % TWO_64 == x % TWO_64
  {
    var d, m := x / TWO_64, x % TWO_64;
    assert x - q * TWO_64 == (d - q) * TWO_64 + m;
  }

  // Reported only when something was counted.
  function Rate(part: Int64, total: Int64): Option<real> {
    if total > 0 then Some(part as real / total as real) else None
  }

  ghost function SummaryOf(v: View): Summary {
    var keys := v.requests.Keys;
    var total, passed, blocked :=
      Wrap(SumOver(keys, Counts(v.requests))), Wrap(SumOver(keys, Counts(v.passed))), Wrap(SumOver(keys, Counts(v.blocked)));
    Summary(total, passed, blocked, |keys|, v.interval, v.enabled,
            Rate(passed, total), Rate(blocked, total))
  }

  class MetricsCollector {
    var enabled: bool
    var interval: int
    var requestCounter: map<Resource, Int64>
    var blockedCounter: map<Resource, Int64>
    var passedCounter: map<Resource, Int64>
    var rtHistogram: map<Resource, seq<real>>

    ghost function Contents(): View
      reads this
    {
      View(enabled, interval, requestCounter, blockedCounter, passedCounter, rtHistogram)
    }

    constructor (interval: int)
      ensures Contents() == Fresh(interval)
    {
      this.enabled := true;
      this.interval := interval;
      this.requestCounter := map[];
      this.blockedCounter := map[];
      this.passedCounter := map[];
      this.rtHistogram := map[];
    }

    method RecordPassed(resource: Resource)
      modifies this
      ensures Contents() == Record(old(Contents()), Passed(resource))
    {
      if !enabled {
        return;
      }
      requestCounter := Bump(requestCounter, resource);
      passedCounter := Bump(passedCounter, resource);
    }

    method RecordBlocked(resource: Resource)
      modifies this
      ensures Contents() == Record(old(Contents()), Blocked(resource))
    {
      if !enabled {
        return;
      }
      requestCounter := Bump(requestCounter, resource);
      blockedCounter := Bump(blockedCounter, resource);
    }

    method RecordRT(resource: Resource, duration: int)
      modifies this
      ensures Contents() == Record(old(Contents()), ResponseTime(resource, duration))
    {
      if !enabled {
        return;
      }
      var rtMs := Millis(duration);
      rtHistogram := rtHistogram[resource := Window(rtHistogram, resource) + [rtMs]];
      if |rtHistogram[resource]| > WINDOW {
        rtHistogram := rtHistogram[resource := rtHistogram[resource][1..]];
      }
    }

    method Reset()
      modifies this
      ensures Contents() == Apply(old(Contents()), Update.Reset)
    {
      requestCounter := map[];
      blockedCounter := map[];
      passedCounter := map[];
      rtHistogram := map[];
    }

    method SetEnabled(on: bool)
      modifies this
      ensures Contents() == Apply(old(Contents()), Update.SetEnabled(on))
    {
      enabled := on;
    }

    method SetInterval(d: int)
      modifies this
      ensures Contents() == Apply(old(Contents()), Update.SetInterval(d))
    {
      interval := d;
    }

    method CalculateResourceStats(resource: Resource) returns (stats: ResourceStats)
      ensures stats == StatsOf(Contents(), resource)
    {
      var intervalSeconds := Seconds(interval);
      stats := ResourceStats(
        resource,
        Divide(Count(passedCounter, resource) as real, intervalSeconds),
        Divide(Count(blockedCounter, resource) as real, intervalSeconds),
        Divide(Count(requestCounter, resource) as real, intervalSeconds),
        0.0, 0.0, 0.0, 0.0);
      var rtValues := Window(rtHistogram, resource);
      if |rtValues| > 0 {
        var sum := 0.0;
        var min, max := rtValues[0], rtValues[0];
        for i := 0 to |rtValues|
          invariant sum == Sum(rtValues[..i])
          invariant min == if i == 0 then rtValues[0] else MinOf(rtValues[..i])
          invariant max == if i == 0 then rtValues[0] else MaxOf(rtValues[..i])
        {
          assert rtValues[..i + 1][..i] == rtValues[..i];
          var rt := rtValues[i];
          sum := sum + rt;
          if rt < min { min := rt; }
          if rt > max { max := rt; }
        }
        assert rtValues[..|rtValues|] == rtValues;
        stats := stats.(avgRT := sum / |rtValues| as real, minRT := min, maxRT := max);
      }
    }

    method GetResourceStats(resource: Resource) returns (stats: ResourceStats)
      ensures stats == StatsOf(Contents(), resource)
    {
      stats := CalculateResourceStats(resource);
    }

    // The keys are visited in whatever order the map yields them.
    method GetAllResourceStats() returns (stats: map<Resource, ResourceStats>)
      ensures stats.Keys == requestCounter.Keys
      ensures forall r | r in stats :: stats[r] == StatsOf(Contents(), r)
    {
      stats := map[];
      var todo := requestCounter.Keys;
      while todo != {}
        invariant todo <= requestCounter.Keys
        invariant stats.Keys == requestCounter.Keys - todo
        invariant forall r | r in stats :: stats[r] == StatsOf(Contents(), r)
        decreases todo
      {
        var r :| r in todo;
        var s := CalculateResourceStats(r);
        stats := stats[r := s];
        todo := todo - {r};
      }
    }

    method GetMetricsSummary() returns (summary: Summary)
      ensures summary == SummaryOf(Contents())
    {
      hide Visited, SummaryOf;
      ghost var v := Contents();
      NothingVisited(v);
      var totalRequests: Int64, totalPassed: Int64, totalBlocked: Int64 := 0, 0, 0;
      var resourceCount: nat := 0;
      var todo := requestCounter.Keys;
      while todo != {}
        invariant todo <= requestCounter.Keys
        invariant Visited(v, requestCounter.Keys - todo, totalRequests, totalPassed, totalBlocked, resourceCount)
        decreases todo
      {
        var r :| r in todo;
        VisitNext(v, todo, r, totalRequests, totalPassed, totalBlocked, resourceCount);
        totalRequests := Wrap(totalRequests + Count(requestCounter, r));
        totalPassed := Wrap(totalPassed + Count(passedCounter, r));
        totalBlocked := Wrap(totalBlocked + Count(blockedCounter, r));
        resourceCount := resourceCount + 1;
        todo := todo - {r};
      }
      AllVisited(v, totalRequests, totalPassed, totalBlocked, resourceCount);
      summary := Summary(totalRequests, totalPassed, totalBlocked, resourceCount, interval, enabled,
                         Rate(totalPassed, totalRequests), Rate(totalBlocked, totalRequests));
    }
  }

  ghost predicate Totalled(total: Int64, done: set<Resource>, m: map<Resource, Int64>) {
    total == Wrap(SumOver(done, Counts(m)))
  }

  // The totals after visiting the keys in `done`.
  ghost predicate Visited(v: View, done: set<Resource>, requests: Int64, passed: Int64, blocked: Int64, n: nat) {
    && Totalled(requests, done, v.requests)
    && Totalled(passed, done, v.passed)
    && Totalled(blocked, done, v.blocked)
    && n == |done|
  }

  lemma NothingVisited(v: View)
    ensures Visited(v, v.requests.Keys - v.requests.Keys, 0, 0, 0, 0)
  {
    assert v.requests.Keys - v.requests.Keys == {};
  }

  lemma VisitKey(total: Int64, done: set<Resource>, m: map<Resource, Int64>, r: Resource)
    requires r !in done && Totalled(total, done, m)
    ensures Totalled(Wrap(total + Count(m, r)), done + {r}, m)
  {
    SumOverInsert(done + {r}, Counts(m), r);
    assert done + {r} - {r} == done;
    WrapAdd(SumOver(done, Counts(m)), Count(m, r));
  }

  lemma VisitNext(v: View, todo: set<Resource>, r: Resource, requests: Int64, passed: Int64, blocked: Int64, n: nat)
    requires todo <= v.requests.Keys && r in todo
    requires Visited(v, v.requests.Keys - todo, requests, passed, blocked, n)
    ensures Visited(v, v.requests.Keys - (todo - {r}), Wrap(requests + Count(v.requests, r)),
                    Wrap(passed + Count(v.passed, r)), Wrap(blocked + Count(v.blocked, r)), n + 1)
  {
    hide Totalled;
    var done := v.requests.Keys - todo;
    VisitKey(requests, done, v.requests, r);
    VisitKey(passed, done, v.passed, r);
    VisitKey(blocked, done, v.blocked, r);
    assert v.requests.Keys - (todo - {r}) == done + {r};
  }

  lemma AllVisited(v: View, requests: Int64, passed: Int64, blocked: Int64, n: nat)
    requires Visited(v, v.requests.Keys - {}, requests, passed, blocked, n)
    ensures SummaryOf(v) == Summary(requests, passed, blocked, n, v.interval, v.enabled,
                                    Rate(passed, requests), Rate(blocked, requests))
  {
    assert v.requests.Keys - {} == v.requests.Keys;
  }
}
