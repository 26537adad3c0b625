/**
  What a startup launches: nothing before initialisation, and then exactly one worker for each
  configured part, each on the plugin's own channel. Hence exactly which unsuccessful startups leave
  workers behind that nobody has told to stop.
*/
module LifecycleLaunch {
  import opened Wrappers
  import opened Lifecycle
  import opened LifecycleInvariant
  import opened LifecycleSafety

  function CollectorPart(f: Flags): seq<Kind> {
    if f.hasCollector then [Metrics] else []
  }

  function DashboardPart(f: Flags): seq<Kind> {
    if f.hasDashboard then [Dashboard] else []
  }

  function Configured(f: Flags): seq<Kind> {
    CollectorPart(f) + DashboardPart(f)
  }

  // What a startup at `pc` has launched so far.
  function Expected(pc: StartPc, f: Flags): seq<Kind> {
    if pc.BeforeLaunch() then []
    else if pc.AddDashboard? || pc.GoDashboard? then CollectorPart(f)
    else Configured(f)
  }

  // The workers from `first` on are of these kinds, in this order, on the current channel.
  ghost predicate LaunchedSince(p: Pool, first: nat, kinds: seq<Kind>) {
    && |p.workers| == first + |kinds|
    && forall k | 0 <= k < |kinds| ::
         p.workers[first + k].kind == kinds[k] && p.cur == Some(p.workers[first + k].gen)
  }

  // Where a startup is, its flags are; the rollback begins once everything has been launched.
  ghost predicate PcInv(pc: StartPc, f: Flags) {
    && (!pc.Ctx0? && !pc.CheckInit? ==> f.isInitialized)
    && (pc.GoMetrics? ==> f.hasCollector)
    && (pc.GoDashboard? ==> f.hasDashboard)
  }

  ghost predicate StartInv(p: Pool, h: Holder, f: Flags) {
    && (h.Startup? ==> PcInv(h.pc, f) && LaunchedSince(p, h.first, Expected(h.pc, f)))
    && (h.Rollback? ==> LaunchedSince(p, h.first, Configured(f)))
  }

  ghost predicate LaunchInv(s: State) {
    && (s.pool.workers != [] ==> s.flags.isInitialized)
    && StartInv(s.pool, s.holder, s.flags)
  }

  lemma LaunchAppends(p: Pool, first: nat, kinds: seq<Kind>, k: Kind)
    requires LaunchedSince(p, first, kinds) && p.cur.Some?
    ensures LaunchedSince(Launch(p, k), first, kinds + [k])
  {
  }

  lemma NothingLaunched(p: Pool, first: nat, cur: Option<nat>)
    requires LaunchedSince(p, first, [])
    ensures LaunchedSince(p.(cur := cur), first, [])
  {
  }

  // Only the current channel and what the workers are matter, not how far they have got.
  ghost predicate SameWorkers(p: Pool, q: Pool) {
    && q.cur == p.cur && |q.workers| == |p.workers|
    && forall i | 0 <= i < |p.workers| ::
         q.workers[i].kind == p.workers[i].kind && q.workers[i].gen == p.workers[i].gen
  }

  lemma SameLaunches(p: Pool, q: Pool, first: nat, kinds: seq<Kind>)
    requires SameWorkers(p, q)
    ensures LaunchedSince(p, first, kinds) <==> LaunchedSince(q, first, kinds)
  {
  }

  lemma GoKeepsLaunch(s: State, ok: bool)
    requires LaunchInv(s) && s.holder.Startup? && s.holder.pc.Launching() && HolderEnabled(s)
    ensures LaunchInv(StartupDo(s, ok).next)
  {
    var h, n := s.holder, StartupDo(s, ok).next;
    if h.pc.GoMetrics? {
      LaunchAppends(s.pool, h.first, [], Metrics);
      assert n.pool == Launch(s.pool, Metrics) && [] + [Metrics] == Expected(AddDashboard, s.flags);
    } else {
      LaunchAppends(s.pool, h.first, CollectorPart(s.flags), Dashboard);
      assert n.pool == Launch(s.pool, Dashboard);
    }
  }

  lemma ResetKeepsLaunch(s: State, ok: bool)
    requires LaunchInv(s) && s.holder.Startup? && s.holder.pc.Reset?
    ensures LaunchInv(StartupDo(s, ok).next)
  {
    hide LaunchedSince;
    var n := StartupDo(s, ok).next;
    assert n.pool == ResetStopChannel(s.pool) && n.holder == s.holder.(pc := LoadFlow);
    NothingLaunched(s.pool, s.holder.first, n.pool.cur);
    SameLaunches(s.pool.(cur := n.pool.cur), n.pool, s.holder.first, []);
  }

  // The other statements launch nothing, and at the next one nothing more is expected.
  lemma NextExpects(s: State, ok: bool)
    requires s.holder.Startup? && !s.holder.pc.Launching() && !s.holder.pc.Reset?
    requires PcInv(s.holder.pc, s.flags)
    ensures var n := StartupDo(s, ok).next;
            && n.pool.workers == s.pool.workers && n.pool.cur == s.pool.cur && n.flags == s.flags
            && (n.holder.Startup? ==>
                  && n.holder.first == s.holder.first && PcInv(n.holder.pc, s.flags)
                  && Expected(n.holder.pc, s.flags) == Expected(s.holder.pc, s.flags))
            && (n.holder.Rollback? ==>
                  n.holder.first == s.holder.first && Expected(s.holder.pc, s.flags) == Configured(s.flags))
  {
    assert CollectorPart(s.flags) + [] == CollectorPart(s.flags);
  }

  lemma StartupKeepsLaunch(s: State, ok: bool)
    requires LaunchInv(s) && s.holder.Startup? && HolderEnabled(s)
    ensures LaunchInv(StartupDo(s, ok).next)
  {
    if s.holder.pc.Launching() {
      GoKeepsLaunch(s, ok);
    } else if s.holder.pc.Reset? {
      ResetKeepsLaunch(s, ok);
    } else {
      hide LaunchedSince, Expected, PcInv, StartupDo;
      NextExpects(s, ok);
      SameLaunches(s.pool, StartupDo(s, ok).next.pool, s.holder.first, Expected(s.holder.pc, s.flags));
    }
  }

  lemma HolderKeepsLaunch(s: State, ok: bool)
    requires LaunchInv(s) && HolderEnabled(s)
    ensures LaunchInv(HolderDo(s, ok).next)
  {
    match s.holder
    case Startup(_, _, _) =>
      hide StartupDo, LaunchInv;
      StartupKeepsLaunch(s, ok);
    case Rollback(_, first) =>
      hide LaunchedSince;
      var n := RollbackDo(s).next;
      assert n.pool.workers == s.pool.workers && n.pool.cur == s.pool.cur && n.flags == s.flags;
      SameLaunches(s.pool, n.pool, first, Configured(s.flags));
    case Cleanup(_, _, _) =>
      hide LaunchedSince;
      var n := CleanupDo(s).next;
      assert n.pool.workers == s.pool.workers && n.flags == s.flags;
      assert !n.holder.Startup? && !n.holder.Rollback?;
    case Initializing(_, _, _) =>
      hide LaunchedSince;
      var n := InitDo(s, ok).next;
      assert n.pool == s.pool && !n.holder.Startup? && !n.holder.Rollback?;
    case Configuring(_) =>
      hide LaunchedSince;
      var n := ConfigureDo(s, ok).next;
      assert n.pool == s.pool && !n.holder.Startup? && !n.holder.Rollback?;
  }

  // What leaves the workers, the channel and the place in the call alone.
  lemma AsideKeepsLaunch(p: Pool, q: Pool, h: Holder, h': Holder, f: Flags)
    requires StartInv(p, h, f) && SameWorkers(p, q)
    requires h'.Startup? ==> h.Startup? && h'.pc == h.pc && h'.first == h.first
    requires h'.Rollback? ==> h' == h
    ensures StartInv(q, h', f)
  {
    hide LaunchedSince, SameWorkers;
    if h'.Startup? {
      SameLaunches(p, q, h'.first, Expected(h'.pc, f));
    } else if h'.Rollback? {
      SameLaunches(p, q, h'.first, Configured(f));
    }
  }

  lemma BeginKeepsLaunch(s: State, call: Call, cancelled: bool)
    requires LaunchInv(s) && Enabled(s, Begin(call, cancelled))
    ensures LaunchInv(Next(s, Begin(call, cancelled)))
  {
  }

  lemma StepKeepsLaunch(s: State, a: Action)
    requires LaunchInv(s) && Enabled(s, a)
    ensures LaunchInv(Next(s, a))
  {
    match a
    case Advance(ok) => HolderKeepsLaunch(s, ok);
    case Begin(call, cancelled) =>
      BeginKeepsLaunch(s, call, cancelled);
    case _ =>
      hide LaunchedSince, StartInv;
      AsideKeepsLaunch(s.pool, Next(s, a).pool, s.holder, Next(s, a).holder, s.flags);
  }

  lemma {:induction false} RunKeepsLaunch(s: State, acts: seq<Action>)
    requires LaunchInv(s) && Valid(s, acts)
    ensures LaunchInv(After(s, acts))
    decreases |acts|
  {
    if acts != [] {
      StepKeepsLaunch(s, acts[0]);
      RunKeepsLaunch(Next(s, acts[0]), acts[1..]);
    }
  }

  lemma NoWorkerBeforeInitialization(s0: State, acts: seq<Action>)
    requires Run(s0, acts)
    ensures After(s0, acts).pool.workers != [] ==> After(s0, acts).flags.isInitialized
  {
    RunKeepsLaunch(s0, acts);
  }

  // What the startup behind an outcome has launched.
  function LaunchedBy(r: Outcome, f: Flags): seq<Kind>
    requires r.StartupOk? || r.StartupFailed? || r.StartupPanicked?
  {
    if (r.StartupFailed? && !r.rolledBack) || (r.StartupPanicked? && !r.late) then [] else Configured(f)
  }

  // However a startup ends, it has launched the configured workers and no others, or none at all;
  // its workers are on the plugin's current channel, which is open unless it has been rolled back.
  lemma StartupLaunches(s0: State, acts: seq<Action>, a: Action)
    requires Run(s0, acts) && Enabled(After(s0, acts), a)
    requires Do(After(s0, acts), a).returned.Some?
    requires var r := Do(After(s0, acts), a).returned.value; r.StartupOk? || r.StartupFailed? || r.StartupPanicked?
    ensures var r, n := Do(After(s0, acts), a).returned.value, Next(After(s0, acts), a);
            && n.holder.Free?
            && LaunchedSince(n.pool, r.first, LaunchedBy(r, n.flags))
            && (LaunchedBy(r, n.flags) != [] ==>
                  n.flags.isInitialized && (CurOpen(n.pool) <==> !r.StartupFailed?))
  {
    RunKeepsLaunch(s0, acts);
    RunInv(s0, acts);
    OutcomeOfStartup(After(s0, acts), a);
  }

  lemma OutcomeOfStartup(s: State, a: Action)
    requires Inv(s) && LaunchInv(s) && Enabled(s, a) && Do(s, a).returned.Some?
    requires var r := Do(s, a).returned.value; r.StartupOk? || r.StartupFailed? || r.StartupPanicked?
    ensures var r, n := Do(s, a).returned.value, Next(s, a);
            && n.holder.Free?
            && LaunchedSince(n.pool, r.first, LaunchedBy(r, n.flags))
            && (LaunchedBy(r, n.flags) != [] ==>
                  n.flags.isInitialized && (CurOpen(n.pool) <==> !r.StartupFailed?))
  {
    StartupOutcomes(s, a);
    hide LaunchedSince, Do, Enabled;
    if s.holder.Rollback? { ConfiguredWorkersExist(s.pool, s.holder.first, s.flags); }
  }

  lemma ConfiguredWorkersExist(p: Pool, first: nat, f: Flags)
    requires LaunchedSince(p, first, Configured(f))
    ensures Configured(f) != [] ==> p.workers != []
  {
  }

  // A startup that does not succeed leaves a worker behind on a channel nobody has closed exactly
  // when a foreign call panics while there are workers to run. Such a worker may have finished by
  // itself; no other unsuccessful startup leaves a live one.
  lemma UnsuccessfulStartupLeaksExactlyWhen(s0: State, acts: seq<Action>, a: Action)
    requires Run(s0, acts) && Enabled(After(s0, acts), a)
    requires Do(After(s0, acts), a).returned.Some?
    requires var r := Do(After(s0, acts), a).returned.value; r.StartupFailed? || r.StartupPanicked?
    ensures var r, n := Do(After(s0, acts), a).returned.value, Next(After(s0, acts), a);
            (exists i :: r.first <= i < |n.pool.workers| && !Closed(n.pool, n.pool.workers[i].gen))
            <==> r.StartupPanicked? && r.late && (n.flags.hasCollector || n.flags.hasDashboard)
    ensures var r, n := Do(After(s0, acts), a).returned.value, Next(After(s0, acts), a);
            (exists i :: r.first <= i < |n.pool.workers| && n.pool.workers[i].Live())
            ==> r.StartupPanicked? && r.late && (n.flags.hasCollector || n.flags.hasDashboard)
  {
    var s := After(s0, acts);
    StartupLaunches(s0, acts, a);
    if Do(s, a).returned.value.StartupFailed? { FailedStartupLeaksNoWorker(s0, acts, a); }
    RunInv(s0, acts);
    StartupOutcomes(s, a);
    var r, n := Do(s, a).returned.value, Next(s, a);
    OnCurrentChannel(n.pool, r.first, LaunchedBy(r, n.flags));
    hide Do, Enabled, Valid, After, LaunchedSince, HolderInv, WorkerInv, CountInv, FlagInv;
  }

  lemma OnCurrentChannel(p: Pool, first: nat, kinds: seq<Kind>)
    requires LaunchedSince(p, first, kinds)
    ensures forall i | first <= i < |p.workers| :: p.cur == Some(p.workers[i].gen)
    ensures |p.workers| > first <==> kinds != []
    ensures kinds != [] ==> p.cur == Some(p.workers[first].gen)
  {
    forall i | first <= i < |p.workers| ensures p.cur == Some(p.workers[i].gen) {
      assert p.workers[first + (i - first)].kind == kinds[i - first];
    }
    if kinds != [] { assert p.workers[first + 0].kind == kinds[0]; }
  }
}
