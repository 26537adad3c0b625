/**
  What every run of the worker protocol guarantees: startups (also repeated ones), cleanups,
  abandoned waits, restarts, initialisations, panics and worker steps in any interleaving.
*/
module LifecycleSafety {
  import opened Wrappers
  import opened Lifecycle
  import opened LifecycleInvariant

  ghost predicate Run(s0: State, acts: seq<Action>) {
    IsInit(s0) && Valid(s0, acts)
  }

  lemma RunInv(s0: State, acts: seq<Action>)
    requires Run(s0, acts)
    ensures Inv(After(s0, acts))
  {
    RunKeeps(s0, acts);
  }

  // --- in every reachable state ---

  lemma NoStrandedWorker(s0: State, acts: seq<Action>, i: nat)
    requires Run(s0, acts) && i < |After(s0, acts).pool.workers|
    ensures var p := After(s0, acts).pool;
            p.workers[i].Live() ==> Closed(p, p.workers[i].gen) || p.cur == Some(p.workers[i].gen)
  {
    RunInv(s0, acts);
    var p := After(s0, acts).pool;
    assert Tethered(p, p.workers[i]);
  }

  lemma WaitGroupIsExact(s0: State, acts: seq<Action>)
    requires Run(s0, acts)
    ensures var s := After(s0, acts);
            && s.pool.wg == LiveCount(s.pool.workers) + PendingAdd(s.holder)
            && s.pool.wg >= 0
            && (s.pool.wg == 0 ==> forall i | 0 <= i < |s.pool.workers| :: !s.pool.workers[i].Live())
  {
    RunInv(s0, acts);
    LiveCountZero(After(s0, acts).pool.workers);
  }

  lemma WaitGroupRisesOnlyUnderTheLock(s: State, a: Action)
    requires Enabled(s, a)
    ensures Next(s, a).pool.wg > s.pool.wg ==>
              a.Advance? && s.holder.Startup? && Next(s, a).pool.wg == s.pool.wg + 1
  {
    if a.Advance? {
      match s.holder
      case Rollback(_, _) => assert RollbackDo(s).next.pool.wg == s.pool.wg;
      case Cleanup(_, _, _) => assert CleanupDo(s).next.pool.wg == s.pool.wg;
      case Initializing(_, _, _) => assert InitDo(s, a.ok).next.pool == s.pool;
      case Configuring(_) => assert ConfigureDo(s, a.ok).next.pool == s.pool;
      case _ =>
    }
  }

  lemma NoChannelIsClosedTwice(s0: State, acts: seq<Action>)
    requires Run(s0, acts)
    ensures forall g | 0 <= g < |After(s0, acts).pool.closes| :: After(s0, acts).pool.closes[g] <= 1
  {
    RunInv(s0, acts);
  }

  lemma CoreInitialisedAtMostOnce(s0: State, acts: seq<Action>)
    requires Run(s0, acts)
    ensures var s := After(s0, acts);
            && s.core.runs <= 1
            && (s.flags.sentinelInitialized ==> s.core.runs == 1 && !s.core.failed)
            && (s.flags.isInitialized ==> s.flags.sentinelInitialized)
            && (s.holder.Free? ==> s.flags.isInitialized == s.flags.sentinelInitialized)
  {
    RunInv(s0, acts);
  }

  // The step in which the global initialisation, run for the first and only time, panics.
  predicate PanicsCore(s: State, a: Action)
    requires Enabled(s, a)
  {
    && !s.core.onceDone
    && ((a.Panic? && s.holder.Initializing? && s.holder.init.Once?) || (a.OtherInit? && a.result.Panics?))
  }

  predicate CorePanics(s: State, acts: seq<Action>)
    requires Valid(s, acts)
    decreases |acts|
  {
    acts != [] && (PanicsCore(s, acts[0]) || CorePanics(Next(s, acts[0]), acts[1..]))
  }

  // Done, but neither failed nor ready.
  predicate Broken(c: Core) {
    c.onceDone && !c.failed && !c.ready
  }

  lemma StepBreaksCore(s: State, a: Action)
    requires Enabled(s, a)
    ensures s.core.onceDone ==> Next(s, a).core == s.core
    ensures !s.core.onceDone ==> (Broken(Next(s, a).core) <==> PanicsCore(s, a))
  {
    if a.Advance? && s.holder.Startup? {
      assert StartupDo(s, a.ok).next.core == s.core;
    }
  }

  lemma {:induction false} RunBreaksCore(s: State, acts: seq<Action>)
    requires Valid(s, acts)
    ensures s.core.onceDone ==> After(s, acts).core == s.core && !CorePanics(s, acts)
    ensures !s.core.onceDone ==> (Broken(After(s, acts).core) <==> CorePanics(s, acts))
    decreases |acts|
  {
    if acts != [] {
      StepBreaksCore(s, acts[0]);
      RunBreaksCore(Next(s, acts[0]), acts[1..]);
    }
  }

  // The once guard remembers errors but not panics: an initialised plugin runs on a core that was
  // really initialised exactly when the one initialisation there was did not panic.
  lemma InitialisedCoreIsReadyExactlyWhen(s0: State, acts: seq<Action>)
    requires Run(s0, acts)
    ensures var s := After(s0, acts);
            s.flags.isInitialized ==> (s.core.ready <==> !CorePanics(s0, acts))
  {
    RunInv(s0, acts);
    RunBreaksCore(s0, acts);
  }

  // --- when a lifecycle method returns ---

  ghost predicate Drained(p: Pool) {
    p.wg == 0 && forall i | 0 <= i < |p.workers| :: !p.workers[i].Live()
  }

  // Every worker still alive is on a closed channel.
  ghost predicate AllSignalled(p: Pool) {
    && !CurOpen(p)
    && forall i | 0 <= i < |p.workers| && p.workers[i].Live() :: Closed(p, p.workers[i].gen)
  }

  lemma NotOpenMeansSignalled(p: Pool)
    requires ChannelInv(p) && WorkerInv(p) && !CurOpen(p)
    ensures AllSignalled(p)
  {
    forall i | 0 <= i < |p.workers| && p.workers[i].Live() ensures Closed(p, p.workers[i].gen) {
      assert Tethered(p, p.workers[i]);
    }
  }

  // A nil result means that no worker of any earlier start is alive when the lock is released; an
  // error is returned only after the context ended; either way the survivors have been signalled.
  lemma CleanupAlwaysSignals(s0: State, acts: seq<Action>, a: Action)
    requires Run(s0, acts) && Enabled(After(s0, acts), a)
    requires Do(After(s0, acts), a).returned in {Some(CleanupOk), Some(CleanupAbandoned)}
    ensures var s, n := After(s0, acts), Next(After(s0, acts), a);
            && n.holder.Free?
            && AllSignalled(n.pool)
            && (Do(s, a).returned == Some(CleanupOk) ==> Drained(n.pool))
            && (Do(s, a).returned == Some(CleanupAbandoned) ==> s.holder.Cleanup? && s.holder.ended)
  {
    RunInv(s0, acts);
    var s := After(s0, acts);
    assert s.holder.Cleanup? && s.holder.clean.CClear? && Next(s, a).pool == s.pool;
    NotOpenMeansSignalled(s.pool);
    LiveCountZero(s.pool.workers);
  }

  predicate EndsStartup(o: Option<Outcome>) {
    o.Some? && (o.value.StartupOk? || o.value.StartupFailed? || o.value.StartupPanicked?)
  }

  // The statement a startup returns from, by outcome; it changes nothing but the holder.
  lemma StartupOutcomes(s: State, a: Action)
    requires Enabled(s, a) && EndsStartup(Do(s, a).returned)
    ensures var r, h := Do(s, a).returned.value, s.holder;
            && Next(s, a) == s.(holder := Free)
            && (h.Startup? || h.Rollback?) && r.first == h.first
            && (r.StartupOk? ==> a.Advance? && h.Startup? && h.pc.Publish?)
            && (r.StartupPanicked? ==> h.Startup? && (if r.late then h.pc.Attaching() else h.pc.Loading()))
            && (r.StartupFailed? ==>
                  if r.rolledBack then h.Rollback? && h.stop.Await? && s.pool.wg == 0
                  else h.Startup? && h.pc.BeforeLaunch())
  {
    match a
    case Advance(ok) =>
      hide InitDo, ConfigureDo, CleanupDo;
      if s.holder.Startup? {
        assert Do(s, a) == StartupDo(s, ok);
      } else if s.holder.Rollback? {
        assert Do(s, a) == RollbackDo(s);
      } else {
        OthersEndNoStartup(s, ok);
      }
    case _ =>
  }

  lemma OthersEndNoStartup(s: State, ok: bool)
    requires HolderEnabled(s) && !s.holder.Startup? && !s.holder.Rollback?
    ensures !EndsStartup(HolderDo(s, ok).returned)
  {
  }

  // Whichever cancellation point or rule load fails, the call leaves none of its workers behind.
  lemma FailedStartupLeaksNoWorker(s0: State, acts: seq<Action>, a: Action)
    requires Run(s0, acts) && Enabled(After(s0, acts), a)
    requires Do(After(s0, acts), a).returned.Some? && Do(After(s0, acts), a).returned.value.StartupFailed?
    ensures var r, n := Do(After(s0, acts), a).returned.value, Next(After(s0, acts), a);
            && n.holder.Free?
            && (forall i | r.first <= i < |n.pool.workers| :: !n.pool.workers[i].Live())
            && (r.rolledBack ==> Drained(n.pool) && CurValid(n.pool) && Closed(n.pool, n.pool.cur.value))
            && (!r.rolledBack ==> r.first == |n.pool.workers|)
  {
    RunInv(s0, acts);
    var s := After(s0, acts);
    StartupOutcomes(s, a);
    LiveCountZero(s.pool.workers);
    hide Do, Enabled, Valid, After, LiveCount;
  }

  // The partner of the above: any other way out of startup leaves the workers as they are, on the
  // plugin's own open channel, so that a later cleanup still reaches them.
  lemma OtherStartupExitsKeepWorkers(s0: State, acts: seq<Action>, a: Action)
    requires Run(s0, acts) && Enabled(After(s0, acts), a)
    requires Do(After(s0, acts), a).returned.Some?
    requires var r := Do(After(s0, acts), a).returned.value; r.StartupOk? || r.StartupPanicked?
    ensures var s, n := After(s0, acts), Next(After(s0, acts), a);
            n.holder.Free? && n.pool == s.pool && CurOpen(n.pool)
  {
    RunInv(s0, acts);
    var s := After(s0, acts);
    StartupOutcomes(s, a);
    hide Do, Enabled, Valid, After;
  }

  // `n` successful statements of the lock holder in a row.
  function Drive(s: State, n: nat): Option<State>
    decreases n
  {
    if n == 0 then Some(s)
    else if HolderEnabled(s) then Drive(HolderDo(s, true).next, n - 1)
    else None
  }

  lemma {:induction false} DriveIsRun(s: State, n: nat) returns (acts: seq<Action>)
    requires Drive(s, n).Some?
    ensures Valid(s, acts) && After(s, acts) == Drive(s, n).value
    decreases n
  {
    if n == 0 {
      acts := [];
    } else {
      var rest := DriveIsRun(HolderDo(s, true).next, n - 1);
      acts := [Advance(true)] + rest;
      assert acts[1..] == rest;
    }
  }

  lemma DrivesThroughInit(s: State)
    requires s.holder == Initializing(Base, true, false) && !s.core.onceDone
    requires s.flags == Flags(false, false, false, false)
    ensures Drive(s, 8) == Some(s.(holder := Free, flags := Flags(true, true, true, false),
                                   core := Core(true, false, true, s.core.runs + 1)))
  {
  }

  lemma DrivesToLoad(s: State, first: nat)
    requires s.holder == Startup(Ctx0, false, first) && s.flags.isInitialized
    ensures Drive(s, 3) == Some(s.(pool := ResetStopChannel(s.pool), holder := Startup(LoadFlow, false, first)))
  {
  }

  lemma DrivesThroughLoad(s: State, first: nat)
    requires s.holder == Startup(LoadFlow, false, first)
    ensures Drive(s, 3) == Some(s.(holder := Startup(Ctx1, false, first)))
  {
  }

  lemma DrivesToLaunch(s: State, first: nat)
    requires s.holder == Startup(Ctx1, false, first) && s.flags.hasCollector
    ensures Drive(s, 2) == Some(s.(pool := Add(s.pool), holder := Startup(GoMetrics, false, first)))
  {
  }

  lemma DrivesThroughLaunch(s: State, first: nat)
    requires s.holder == Startup(GoMetrics, false, first) && s.pool.cur.Some?
    ensures Drive(s, 1) == Some(s.(pool := Launch(s.pool, Metrics), holder := Startup(AddDashboard, false, first)))
  {
  }

  lemma DrivesToForeignCall(s: State, first: nat)
    requires s.holder == Startup(AddDashboard, false, first) && !s.flags.hasDashboard
    ensures Drive(s, 2) == Some(s.(holder := Startup(Attach, false, first)))
  {
  }

  // A plugin with a collector starts undisturbed, up to the first foreign call after the launch.
  lemma StartupRuns(s: State) returns (acts: seq<Action>)
    requires s.holder.Free? && s.flags.isInitialized && s.flags.hasCollector && !s.flags.hasDashboard
    ensures Valid(s, acts)
    ensures After(s, acts) == s.(pool := Launch(Add(ResetStopChannel(s.pool)), Metrics),
                                 holder := Startup(Attach, false, |s.pool.workers|))
  {
    var first, b := |s.pool.workers|, Begin(StartupCall, false);
    DrivesToLoad(Next(s, b), first);
    var s1, a1 := BeginAndDrive(s, b, 3);
    DrivesThroughLoad(s1, first);
    var s2, a2 := DriveOn(s, a1, s1, 3);
    DrivesToLaunch(s2, first);
    var s3, a3 := DriveOn(s, a2, s2, 2);
    DrivesThroughLaunch(s3, first);
    var s4, a4 := DriveOn(s, a3, s3, 1);
    DrivesToForeignCall(s4, first);
    var s5, a5 := DriveOn(s, a4, s4, 2);
    acts := a5;
  }

  // Longer runs, piece by piece.
  lemma DriveOn(s: State, acts: seq<Action>, t: State, n: nat) returns (t': State, acts': seq<Action>)
    requires Valid(s, acts) && After(s, acts) == t && Drive(t, n).Some?
    ensures t' == Drive(t, n).value
    ensures Valid(s, acts') && After(s, acts') == t'
  {
    t' := Drive(t, n).value;
    var more := DriveIsRun(t, n);
    RunsCompose(s, acts, more);
    acts' := acts + more;
  }

  lemma StepOn(s: State, acts: seq<Action>, t: State, a: Action) returns (t': State, acts': seq<Action>)
    requires Valid(s, acts) && After(s, acts) == t && Enabled(t, a)
    ensures t' == Next(t, a)
    ensures Valid(s, acts') && After(s, acts') == t'
  {
    t' := Next(t, a);
    assert [a][1..] == [];
    RunsCompose(s, acts, [a]);
    acts' := acts + [a];
  }

  // A plugin with a collector and no dashboard, initialised and free.
  lemma InitRuns(s0: State) returns (s: State, acts: seq<Action>)
    requires IsInit(s0)
    ensures Valid(s0, acts) && After(s0, acts) == s
    ensures s == s0.(flags := Flags(true, true, true, false), core := Core(true, false, true, s0.core.runs + 1))
  {
    var b := Begin(InitCall(true, false), false);
    DrivesThroughInit(Next(s0, b));
    s, acts := BeginAndDrive(s0, b, 8);
  }

  // The rollback guard is `startErr == nil`, which also holds while a panic unwinds: a plugin that
  // initialises, starts, and panics in the first foreign call releases the lock with its worker alive.
  lemma PanickingStartupLeaksItsWorker(s0: State) returns (acts: seq<Action>)
    requires IsInit(s0)
    ensures Run(s0, acts) && Enabled(After(s0, acts), Panic)
    ensures var s := After(s0, acts);
            && Do(s, Panic).returned == Some(StartupPanicked(0, true))
            && Next(s, Panic).holder.Free?
            && |s.pool.workers| == 1 && Next(s, Panic).pool.workers[0].Live()
  {
    var s, a1 := InitRuns(s0);
    var a2 := StartupRuns(s);
    RunsCompose(s0, a1, a2);
    acts := a1 + a2;
  }

  lemma DrivesToEnd(s: State, first: nat)
    requires s.holder == Startup(Attach, false, first)
    ensures Drive(s, 3) == Some(s.(holder := Free))
  {
  }

  lemma DrivesToWait(s: State)
    requires s.holder == Cleanup(CProbe, true, 0) && CurOpen(s.pool)
    ensures Drive(s, 3) == Some(s.(pool := CloseCur(s.pool).(waiters := s.pool.waiters + [Waiting]),
                                   holder := Cleanup(CSelect, true, |s.pool.waiters|)))
  {
  }

  // Cleanup may be abandoned and the plugin started again while a worker of the first start is still
  // alive: `acts` ends with the abandoned cleanup's last statement `a`, and `more` is the restart.
  lemma AbandonedThenRestarted(s0: State) returns (acts: seq<Action>, a: Action, more: seq<Action>)
    requires IsInit(s0)
    ensures Run(s0, acts) && Enabled(After(s0, acts), a)
    ensures Do(After(s0, acts), a).returned == Some(CleanupAbandoned)
    ensures Valid(Next(After(s0, acts), a), more)
    ensures var n := After(Next(After(s0, acts), a), more);
            && n.holder.Free? && |n.pool.workers| == 2
            && n.pool.workers[0].Live() && Closed(n.pool, n.pool.workers[0].gen)
            && n.pool.workers[1].Live() && CurOpen(n.pool) && n.pool.cur == Some(n.pool.workers[1].gen)
  {
    var s, started := FirstStartRuns(s0);
    var t, told := CleanupGivesUp(s);
    RunsCompose(s0, started, told);
    acts, a := started + told, Advance(true);
    var b := StartupRuns(Next(t, a));
    var u := After(Next(t, a), b);
    DrivesToEnd(u, 1);
    var v, b' := DriveOn(Next(t, a), b, u, 3);
    more := b';
  }

  // One start, in full.
  lemma FirstStartRuns(s0: State) returns (s: State, acts: seq<Action>)
    requires IsInit(s0)
    ensures Valid(s0, acts) && After(s0, acts) == s
    ensures s.holder.Free? && s.flags == Flags(true, true, true, false) && CurOpen(s.pool)
    ensures s.pool.workers == [Worker(Metrics, s.pool.cur.value, Launched)]
  {
    var s1, a1 := InitRuns(s0);
    var a2 := StartupRuns(s1);
    RunsCompose(s0, a1, a2);
    var s2 := After(s1, a2);
    DrivesToEnd(s2, 0);
    s, acts := DriveOn(s0, a1 + a2, s2, 3);
  }

  // A cleanup whose context has ended, up to its last statement.
  lemma CleanupGivesUp(s: State) returns (t: State, acts: seq<Action>)
    requires s.holder.Free? && CurOpen(s.pool)
    ensures Valid(s, acts) && After(s, acts) == t
    ensures t == s.(pool := CloseCur(s.pool).(waiters := s.pool.waiters + [Waiting]),
                    holder := Cleanup(CClear(true), true, |s.pool.waiters|))
  {
    var b := Begin(CleanupCall, true);
    DrivesToWait(Next(s, b));
    var s1, a1 := BeginAndDrive(s, b, 3);
    var s2, a2 := StepOn(s, a1, s1, TakeCancel);
    t, acts := StepOn(s, a2, s2, Advance(true));
  }

  lemma BeginAndDrive(s: State, b: Action, n: nat) returns (t: State, acts: seq<Action>)
    requires b.Begin? && Enabled(s, b) && Drive(Next(s, b), n).Some?
    ensures t == Drive(Next(s, b), n).value
    ensures Valid(s, acts) && After(s, acts) == t
  {
    t := Drive(Next(s, b), n).value;
    var rest := DriveIsRun(Next(s, b), n);
    acts := [b] + rest;
    assert acts[1..] == rest;
  }

  lemma DrivesToCore(s: State)
    requires s.holder == Initializing(Base, true, false)
    ensures Drive(s, 3) == Some(s.(holder := Initializing(Once, true, false)))
  {
  }

  lemma DrivesPastCore(s: State)
    requires s.holder == Initializing(Once, true, false) && s.core.onceDone && !s.core.failed
    ensures Drive(s, 5) == Some(s.(holder := Free, flags := Flags(true, true, true, s.flags.hasDashboard)))
  {
  }

  // An initialisation panics, is retried, and succeeds on a core that was never initialised.
  lemma RetryAfterPanicInitialisesNothing(s0: State) returns (acts: seq<Action>)
    requires IsInit(s0)
    ensures Run(s0, acts)
    ensures var s := After(s0, acts);
            s.holder.Free? && s.flags.isInitialized && s.core.runs == 1 && !s.core.ready
  {
    var b := Begin(InitCall(true, false), false);
    DrivesToCore(Next(s0, b));
    var s1, a1 := BeginAndDrive(s0, b, 3);
    var s2 := Next(s1, Panic);
    DrivesToCore(Next(s2, b));
    var s3, a3 := BeginAndDrive(s2, b, 3);
    DrivesPastCore(s3);
    var a4 := DriveIsRun(s3, 5);
    assert [Panic][1..] == [];
    RunsCompose(s2, a3, a4);
    RunsCompose(s1, [Panic], a3 + a4);
    RunsCompose(s0, a1, [Panic] + (a3 + a4));
    acts := a1 + ([Panic] + (a3 + a4));
  }

  // --- across runs ---

  // `q` is a later pool than `p`: no channel is reopened, no worker moves to another channel, changes
  // its kind or comes back to life, and no worker is ever started on a channel that was already closed.
  ghost predicate Extends(p: Pool, q: Pool) {
    && |p.closes| <= |q.closes| && |p.workers| <= |q.workers|
    && (forall g: nat | Closed(p, g) :: Closed(q, g))
    && (forall i | 0 <= i < |p.workers| ::
          && q.workers[i].kind == p.workers[i].kind && q.workers[i].gen == p.workers[i].gen
          && (!p.workers[i].Live() ==> !q.workers[i].Live()))
    && (forall i | |p.workers| <= i < |q.workers| :: !Closed(p, q.workers[i].gen))
  }

  lemma HolderDoExtends(s: State, ok: bool)
    requires Inv(s) && HolderEnabled(s)
    ensures Extends(s.pool, HolderDo(s, ok).next.pool)
  {
    var p := HolderDo(s, ok).next.pool;
    match s.holder
    case Startup(pc, _, _) =>
      if pc.GoMetrics? {
        assert p == Launch(s.pool, Metrics);
      } else if pc.GoDashboard? {
        assert p == Launch(s.pool, Dashboard);
      } else {
        assert p.workers == s.pool.workers && (p.closes == s.pool.closes || p.closes == s.pool.closes + [0]);
      }
    case Rollback(_, _) =>
      assert p.workers == s.pool.workers;
    case Cleanup(_, _, _) =>
      assert p.workers == s.pool.workers;
    case Initializing(_, _, _) => assert InitDo(s, ok).next.pool == s.pool;
    case Configuring(_) => assert ConfigureDo(s, ok).next.pool == s.pool;
  }

  lemma StepExtends(s: State, a: Action)
    requires Inv(s) && Enabled(s, a)
    ensures Extends(s.pool, Next(s, a).pool)
  {
    if a.Advance? {
      HolderDoExtends(s, a.ok);
    }
  }

  lemma ExtendsTransitive(p: Pool, q: Pool, r: Pool)
    requires Extends(p, q) && Extends(q, r)
    ensures Extends(p, r)
  {
    forall i | |p.workers| <= i < |r.workers| ensures !Closed(p, r.workers[i].gen) {
      if i < |q.workers| { assert r.workers[i].gen == q.workers[i].gen; }
    }
  }

  lemma {:induction false} RunExtends(s: State, acts: seq<Action>)
    requires Inv(s) && Valid(s, acts)
    ensures Extends(s.pool, After(s, acts).pool)
    decreases |acts|
  {
    if acts != [] {
      StepKeeps(s, acts[0]);
      StepExtends(s, acts[0]);
      RunExtends(Next(s, acts[0]), acts[1..]);
      ExtendsTransitive(s.pool, Next(s, acts[0]).pool, After(s, acts).pool);
    }
  }

  // Workers that survive an abandoned cleanup stay on their closed channels through every later
  // run, restarts included; whatever is started later gets a channel that was not closed then.
  lemma SurvivorsAreNeverRevived(s0: State, acts: seq<Action>, a: Action, more: seq<Action>)
    requires Run(s0, acts) && Enabled(After(s0, acts), a)
    requires Do(After(s0, acts), a).returned in {Some(CleanupOk), Some(CleanupAbandoned)}
    requires Valid(Next(After(s0, acts), a), more)
    ensures var p, q := Next(After(s0, acts), a).pool, After(Next(After(s0, acts), a), more).pool;
            && |p.workers| <= |q.workers|
            && (forall i | 0 <= i < |p.workers| && q.workers[i].Live() ::
                  p.workers[i].Live() && q.workers[i].gen == p.workers[i].gen && Closed(q, q.workers[i].gen))
            && (forall i | |p.workers| <= i < |q.workers| :: !Closed(p, q.workers[i].gen))
  {
    CleanupAlwaysSignals(s0, acts, a);
    RunInv(s0, acts);
    StepKeeps(After(s0, acts), a);
    RunExtends(Next(After(s0, acts), a), more);
  }
}
