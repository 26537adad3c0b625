/**
  The collector under concurrency refines an event log.

  A recorder reads `enabled` without the lock and performs its update later, under the lock; resets
  and setters run in between. The log lists the locked sections in the order they ran.
*/
module CollectorLog {
  import opened Collector

  // --- the log and what it says ---

  function Replay(v: View, log: seq<Update>): View {
    if log == [] then v else Apply(Replay(v, log[..|log| - 1]), log[|log| - 1])
  }

  // The recorded updates after the last reset, oldest first.
  function SinceReset(log: seq<Update>): seq<Update> {
    if log == [] then []
    else
      var u, before := log[|log| - 1], SinceReset(log[..|log| - 1]);
      if u.Reset? then [] else if u.Recorded() then before + [u] else before
  }

  function CountPassed(us: seq<Update>, r: Resource): nat {
    if us == [] then 0 else CountPassed(us[..|us| - 1], r) + if us[|us| - 1] == Passed(r) then 1 else 0
  }

  function CountBlocked(us: seq<Update>, r: Resource): nat {
    if us == [] then 0 else CountBlocked(us[..|us| - 1], r) + if us[|us| - 1] == Blocked(r) then 1 else 0
  }

  // Every response time recorded for a resource, oldest first.
  function Times(us: seq<Update>, r: Resource): seq<real> {
    if us == [] then []
    else
      var u, before := us[|us| - 1], Times(us[..|us| - 1], r);
      if u.ResponseTime? && u.resource == r then before + [Millis(u.ns)] else before
  }

  // The same in nanoseconds, as they were measured.
  function TimesNs(us: seq<Update>, r: Resource): seq<int> {
    if us == [] then []
    else
      var u, before := us[|us| - 1], TimesNs(us[..|us| - 1], r);
      if u.ResponseTime? && u.resource == r then before + [u.ns] else before
  }

  lemma {:induction false} TimesAreMillis(us: seq<Update>, r: Resource)
    ensures |Times(us, r)| == |TimesNs(us, r)|
    ensures forall i | 0 <= i < |Times(us, r)| :: Times(us, r)[i] * 1000000.0 == TimesNs(us, r)[i] as real
  {
    if us != [] { TimesAreMillis(us[..|us| - 1], r); }
  }

  // What the last setter left.
  function EnabledAfter(log: seq<Update>): bool {
    if log == [] then true
    else if log[|log| - 1].SetEnabled? then log[|log| - 1].on
    else EnabledAfter(log[..|log| - 1])
  }

  function IntervalAfter(interval: int, log: seq<Update>): int {
    if log == [] then interval
    else if log[|log| - 1].SetInterval? then log[|log| - 1].interval
    else IntervalAfter(interval, log[..|log| - 1])
  }

  function Last(s: seq<real>, n: nat): seq<real> {
    if |s| <= n then s else s[|s| - n..]
  }

  // --- the collector is what the log says ---

  ghost predicate Agrees(v: View, us: seq<Update>, r: Resource) {
    && Count(v.passed, r) == Wrap(CountPassed(us, r))
    && Count(v.blocked, r) == Wrap(CountBlocked(us, r))
    && Count(v.requests, r) == Wrap(CountPassed(us, r) + CountBlocked(us, r))
    && (r in v.passed <==> CountPassed(us, r) > 0)
    && (r in v.blocked <==> CountBlocked(us, r) > 0)
    && (r in v.requests <==> CountPassed(us, r) + CountBlocked(us, r) > 0)
    && Window(v.times, r) == Last(Times(us, r), WINDOW)
    && (r in v.times <==> Times(us, r) != [])
  }

  lemma {:induction false} PushIsLast(all: seq<real>, t: real)
    ensures Push(Last(all, WINDOW), t) == Last(all + [t], WINDOW)
  {
  }

  // Bumping one key adds one to it, modulo 2^64, and leaves the others alone.
  lemma {:induction false} BumpCounts(m: map<Resource, Int64>, k: Resource, r: Resource, n: int)
    requires Count(m, r) == Wrap(n)
    ensures Count(Bump(m, k), r) == Wrap(n + if k == r then 1 else 0)
  {
    WrapAdd(n, 1);
  }

  lemma {:induction false} AppendCounts(us: seq<Update>, u: Update, r: Resource)
    ensures CountPassed(us + [u], r) == CountPassed(us, r) + if u == Passed(r) then 1 else 0
    ensures CountBlocked(us + [u], r) == CountBlocked(us, r) + if u == Blocked(r) then 1 else 0
    ensures Times(us + [u], r)
         == if u.ResponseTime? && u.resource == r then Times(us, r) + [Millis(u.ns)] else Times(us, r)
  {
    assert (us + [u])[..|us|] == us;
  }

  lemma {:induction false} PassedAgrees(v: View, us: seq<Update>, k: Resource, r: Resource)
    requires Agrees(v, us, r)
    ensures Agrees(Apply(v, Passed(k)), us + [Passed(k)], r)
  {
    hide Wrap, CountPassed, CountBlocked, Times;
    AppendCounts(us, Passed(k), r);
    BumpCounts(v.passed, k, r, CountPassed(us, r));
    BumpCounts(v.requests, k, r, CountPassed(us, r) + CountBlocked(us, r));
  }

  lemma {:induction false} BlockedAgrees(v: View, us: seq<Update>, k: Resource, r: Resource)
    requires Agrees(v, us, r)
    ensures Agrees(Apply(v, Blocked(k)), us + [Blocked(k)], r)
  {
    hide Wrap, CountPassed, CountBlocked, Times;
    AppendCounts(us, Blocked(k), r);
    BumpCounts(v.blocked, k, r, CountBlocked(us, r));
    BumpCounts(v.requests, k, r, CountPassed(us, r) + CountBlocked(us, r));
  }

  lemma {:induction false} AppendAgrees(v: View, us: seq<Update>, u: Update, r: Resource)
    requires Agrees(v, us, r) && u.Recorded()
    ensures Agrees(Apply(v, u), us + [u], r)
  {
    hide Wrap, CountPassed, CountBlocked, Times;
    match u
    case Passed(k) => PassedAgrees(v, us, k, r);
    case Blocked(k) => BlockedAgrees(v, us, k, r);
    case ResponseTime(_, ns) =>
      AppendCounts(us, u, r);
      PushIsLast(Times(us, r), Millis(ns));
  }

  lemma {:induction false} ReplayAgrees(interval: int, log: seq<Update>, r: Resource)
    ensures Agrees(Replay(Fresh(interval), log), SinceReset(log), r)
  {
    if log != [] {
      var before, u := log[..|log| - 1], log[|log| - 1];
      ReplayAgrees(interval, before, r);
      if u.Recorded() { AppendAgrees(Replay(Fresh(interval), before), SinceReset(before), u, r); }
    }
  }

  lemma {:induction false} ReplaySets(interval: int, log: seq<Update>)
    ensures var v := Replay(Fresh(interval), log);
            v.enabled == EnabledAfter(log) && v.interval == IntervalAfter(interval, log)
  {
    if log != [] {
      var before, u := log[..|log| - 1], log[|log| - 1];
      ReplaySets(interval, before);
      ApplySets(Replay(Fresh(interval), before), u);
      hide Apply;
    }
  }

  lemma {:induction false} ApplySets(v: View, u: Update)
    ensures Apply(v, u).enabled == if u.SetEnabled? then u.on else v.enabled
    ensures Apply(v, u).interval == if u.SetInterval? then u.interval else v.interval
  {
    hide Bump, Push, Window;
  }

  // --- interleaved recorders ---

  // `pending`: recorders that saw `enabled` and have not yet taken the lock.
  datatype State = State(view: View, pending: seq<Update>, log: seq<Update>)

  datatype Action =
    | Check(update: Update)    // the unlocked read of `enabled`
    | Commit(recorder: nat)    // the locked section of a pending recorder
    | Control(update: Update)  // Reset, SetEnabled or SetInterval

  predicate Enabled(s: State, a: Action) {
    match a
    case Check(u) => u.Recorded()
    case Commit(i) => i < |s.pending|
    case Control(u) => !u.Recorded()
  }

  function Next(s: State, a: Action): State
    requires Enabled(s, a)
  {
    match a
    case Check(u) => if s.view.enabled then s.(pending := s.pending + [u]) else s
    case Commit(i) =>
      State(Apply(s.view, s.pending[i]), s.pending[..i] + s.pending[i + 1..], s.log + [s.pending[i]])
    case Control(u) => State(Apply(s.view, u), s.pending, s.log + [u])
  }

  predicate Valid(s: State, acts: seq<Action>)
    decreases |acts|
  {
    acts == [] || (Enabled(s, acts[0]) && Valid(Next(s, acts[0]), acts[1..]))
  }

  function After(s: State, acts: seq<Action>): State
    requires Valid(s, acts)
    decreases |acts|
  {
    if acts == [] then s else After(Next(s, acts[0]), acts[1..])
  }

  function Start(interval: int): State {
    State(Fresh(interval), [], [])
  }

  ghost predicate OnlyRecorded(us: seq<Update>) {
    forall i | 0 <= i < |us| :: us[i].Recorded()
  }

  // `v`: what the collector held when the log began.
  ghost predicate Inv(s: State, v: View) {
    && s.view == Replay(v, s.log)
    && OnlyRecorded(s.pending)
  }

  lemma {:induction false} StepKeeps(s: State, a: Action, v: View)
    requires Inv(s, v) && Enabled(s, a)
    ensures Inv(Next(s, a), v)
  {
    hide Apply, Replay;
    match a
    case Check(u) =>
    case Commit(i) => ReplayAppend(v, s.log, s.pending[i]);
    case Control(u) => ReplayAppend(v, s.log, u);
  }

  lemma {:induction false} ReplayAppend(v: View, log: seq<Update>, u: Update)
    ensures Replay(v, log + [u]) == Apply(Replay(v, log), u)
  {
    hide Apply;
    assert (log + [u])[..|log|] == log;
  }

  lemma {:induction false} RunKeeps(s: State, acts: seq<Action>, v: View)
    requires Inv(s, v) && Valid(s, acts)
    ensures Inv(After(s, acts), v)
    decreases |acts|
  {
    if acts != [] {
      StepKeeps(s, acts[0], v);
      RunKeeps(Next(s, acts[0]), acts[1..], v);
    }
  }

  // Under every interleaving, and for every resource, counters and window are those of the log, and
  // flag and interval are those set last.
  lemma {:induction false} CollectorRefinesLog(interval: int, acts: seq<Action>, r: Resource)
    requires Valid(Start(interval), acts)
    ensures var s := After(Start(interval), acts);
            && Agrees(s.view, SinceReset(s.log), r)
            && s.view.enabled == EnabledAfter(s.log)
            && s.view.interval == IntervalAfter(interval, s.log)
  {
    ReplaySets(interval, After(Start(interval), acts).log);
    RunKeeps(Start(interval), acts, Fresh(interval));
    ReplayAgrees(interval, After(Start(interval), acts).log, r);
  }

  // request = passed + blocked: modulo 2^64 always, exactly while fewer than 2^63 updates were made.
  lemma {:induction false} RequestsArePassedPlusBlocked(interval: int, acts: seq<Action>, r: Resource)
    requires Valid(Start(interval), acts)
    ensures var v := After(Start(interval), acts).view;
            && Count(v.requests, r) == Wrap(Count(v.passed, r) + Count(v.blocked, r))
            && v.requests.Keys == v.passed.Keys + v.blocked.Keys
            && (|SinceReset(After(Start(interval), acts).log)| < TWO_63 ==>
                  Count(v.requests, r) == Count(v.passed, r) + Count(v.blocked, r))
  {
    var s := After(Start(interval), acts);
    var v, us := s.view, SinceReset(s.log);
    CollectorRefinesLog(interval, acts, r);
    var p, b := CountPassed(us, r), CountBlocked(us, r);
    WrapAdd(p, Wrap(b));
    WrapAdd(b, p);
    CountsBounded(us, r);
    forall k ensures k in v.requests <==> k in v.passed || k in v.blocked {
      CollectorRefinesLog(interval, acts, k);
    }
  }

  lemma {:induction false} CountsBounded(us: seq<Update>, r: Resource)
    ensures CountPassed(us, r) + CountBlocked(us, r) <= |us|
  {
    if us != [] { CountsBounded(us[..|us| - 1], r); }
  }

  // The window is a suffix of the history, at most 100 long, and complete as long as it fits. A
  // duration of a million nanoseconds is a response time of one millisecond.
  lemma {:induction false} WindowIsRecentHistory(interval: int, acts: seq<Action>, r: Resource)
    requires Valid(Start(interval), acts)
    ensures var s := After(Start(interval), acts);
            var w, all := Window(s.view.times, r), Times(SinceReset(s.log), r);
            && |w| == (if |all| < 100 then |all| else 100)
            && w == all[|all| - |w|..]
            && |TimesNs(SinceReset(s.log), r)| == |all|
            && forall i | 0 <= i < |w| ::
                 w[i] * 1000000.0 == TimesNs(SinceReset(s.log), r)[|all| - |w| + i] as real
  {
    CollectorRefinesLog(interval, acts, r);
    TimesAreMillis(SinceReset(After(Start(interval), acts).log), r);
  }

  // --- what the unlocked check allows ---

  predicate Reenables(acts: seq<Action>) {
    exists i | 0 <= i < |acts| :: acts[i] == Control(SetEnabled(true))
  }

  function Commits(acts: seq<Action>): nat {
    if acts == [] then 0 else (if acts[0].Commit? then 1 else 0) + Commits(acts[1..])
  }

  lemma {:induction false} NoneGetsIn(s: State, acts: seq<Action>)
    requires Valid(s, acts) && !s.view.enabled && !Reenables(acts)
    requires OnlyRecorded(s.pending)
    ensures !After(s, acts).view.enabled
    ensures Commits(acts) + |After(s, acts).pending| == |s.pending|
    decreases |acts|
  {
    if acts != [] {
      assert forall i | 0 <= i < |acts[1..]| :: acts[1..][i] == acts[i + 1];
      assert acts[0] != Control(SetEnabled(true));
      NoneGetsIn(Next(s, acts[0]), acts[1..]);
    }
  }

  // Once disabled and not enabled again, the collector is changed only by the recorders that were
  // already past the check: each commit uses one of them up, and no new one gets in.
  lemma {:induction false} LateUpdatesWereInFlight(interval: int, before: seq<Action>, later: seq<Action>)
    requires Valid(Start(interval), before)
    requires var s := After(Start(interval), before); !s.view.enabled && Valid(s, later) && !Reenables(later)
    ensures var s := After(Start(interval), before);
            && !After(s, later).view.enabled
            && Commits(later) + |After(s, later).pending| == |s.pending|
  {
    RunKeeps(Start(interval), before, Fresh(interval));
    NoneGetsIn(After(Start(interval), before), later);
  }

  // A call that nothing interferes with is a check immediately followed by its commit.
  lemma {:induction false} UninterruptedCallIsRecord(s: State, u: Update)
    requires u.Recorded() && s.pending == []
    ensures var c := Next(s, Check(u));
            if s.view.enabled
            then Enabled(c, Commit(0)) && Next(c, Commit(0)).view == Record(s.view, u) && Next(c, Commit(0)).pending == []
            else c.view == Record(s.view, u) && c.pending == []
  {
    var c := Next(s, Check(u));
    if s.view.enabled {
      assert c.pending == [u];
      assert c.pending[..0] + c.pending[1..] == [];
    }
  }

  // --- adding to a collector that already holds data ---

  ghost predicate Adds(v: View, n: View, us: seq<Update>, r: Resource) {
    && n.enabled == v.enabled && n.interval == v.interval
    && Count(n.passed, r) == Wrap(Count(v.passed, r) + CountPassed(us, r))
    && Count(n.blocked, r) == Wrap(Count(v.blocked, r) + CountBlocked(us, r))
    && Count(n.requests, r) == Wrap(Count(v.requests, r) + CountPassed(us, r) + CountBlocked(us, r))
  }

  lemma {:induction false} AppendAdds(v: View, n: View, us: seq<Update>, u: Update, r: Resource)
    requires Adds(v, n, us, r) && u.Recorded()
    ensures Adds(v, Apply(n, u), us + [u], r)
  {
    hide Wrap, CountPassed, CountBlocked, Times;
    var p, b := Count(v.passed, r) + CountPassed(us, r), Count(v.blocked, r) + CountBlocked(us, r);
    var q := Count(v.requests, r) + CountPassed(us, r) + CountBlocked(us, r);
    AppendCounts(us, u, r);
    match u
    case Passed(k) =>
      BumpCounts(n.passed, k, r, p);
      BumpCounts(n.requests, k, r, q);
    case Blocked(k) =>
      BumpCounts(n.blocked, k, r, b);
      BumpCounts(n.requests, k, r, q);
    case ResponseTime(_, _) =>
  }

  lemma {:induction false} ReplayAdds(v: View, us: seq<Update>, r: Resource)
    requires OnlyRecorded(us)
    ensures Adds(v, Replay(v, us), us, r)
  {
    if us != [] {
      var k := |us| - 1;
      ReplayAdds(v, us[..k], r);
      AppendAdds(v, Replay(v, us[..k]), us[..k], us[k], r);
      assert us[..k] + [us[k]] == us;
    }
  }
}
