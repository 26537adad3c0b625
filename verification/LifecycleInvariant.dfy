/**
  The inductive invariant of the worker protocol, and its preservation by every step.
*/
module LifecycleInvariant {
  import opened Wrappers
  import opened Lifecycle

  // Launched and not yet finished.
  function LiveCount(ws: seq<Worker>): nat {
    if ws == [] then 0
    else LiveCount(ws[..|ws| - 1]) + if ws[|ws| - 1].Live() then 1 else 0
  }

  function PendingAdd(h: Holder): nat {
    if h.Startup? && h.pc.Launching() then 1 else 0
  }

  ghost predicate ChannelInv(p: Pool) {
    && (forall g | 0 <= g < |p.closes| :: p.closes[g] <= 1)
    && (p.cur.Some? ==> p.cur.value < |p.closes|)
  }

  // A worker's channel exists; while the worker lives, it is closed or it is the plugin's own.
  ghost predicate Tethered(p: Pool, w: Worker) {
    && w.gen < |p.closes|
    && (w.Live() ==> Closed(p, w.gen) || p.cur == Some(w.gen))
  }

  ghost predicate WorkerInv(p: Pool) {
    forall i | 0 <= i < |p.workers| :: Tethered(p, p.workers[i])
  }

  ghost predicate CountInv(p: Pool, h: Holder) {
    p.wg == LiveCount(p.workers) + PendingAdd(h)
  }

  ghost predicate HolderInv(p: Pool, h: Holder) {
    match h
    case Startup(pc, _, first) =>
      && first <= |p.workers|
      && (!pc.BeforeReset() ==> CurOpen(p))
      && (pc.BeforeLaunch() ==> first == |p.workers|)
    case Rollback(stop, first) =>
      && first <= |p.workers|
      && CurValid(p)
      && (stop.Close? ==> CurOpen(p))
      && (stop.Await? ==> !CurOpen(p))
    case Cleanup(clean, ended, done) =>
      && (clean.CInner? || clean == CClear(true) ==> ended)
      && (clean.CClose? ==> CurOpen(p))
      && (!clean.CProbe? && !clean.CClose? ==> !CurOpen(p))
      && (clean.CSelect? || clean.CInner? ==>
            done < |p.waiters| && (!p.waiters[done].Waiting? ==> p.wg == 0))
      && (clean == CClear(false) ==> p.wg == 0)
    case _ => true
  }

  ghost predicate FlagInv(f: Flags, c: Core, h: Holder) {
    && c.runs == (if c.onceDone then 1 else 0)
    && (c.failed ==> c.onceDone)
    && (c.ready ==> c.onceDone && !c.failed)
    && (f.sentinelInitialized ==> c.onceDone && !c.failed)
    && (f.isInitialized ==> f.sentinelInitialized)
    && (h.Initializing? ==>
          && (h.init.CheckCore? || h.init.MarkCore? ==> c.onceDone)
          && (h.init.MarkCore? ==> !c.failed)
          && (h.init.Build? || h.init.MarkInit? ==> f.sentinelInitialized))
    && (f.sentinelInitialized && !f.isInitialized ==>
          h.Initializing? && (h.init.Build? || h.init.MarkInit?))
  }

  ghost predicate PoolInv(p: Pool, h: Holder) {
    ChannelInv(p) && WorkerInv(p) && CountInv(p, h) && HolderInv(p, h)
  }

  ghost predicate Inv(s: State) {
    PoolInv(s.pool, s.holder) && FlagInv(s.flags, s.core, s.holder)
  }

  // --- counting ---

  lemma {:induction false} LiveCountUpdate(ws: seq<Worker>, i: nat, w: Worker)
    requires i < |ws|
    ensures LiveCount(ws[i := w])
         == LiveCount(ws) - (if ws[i].Live() then 1 else 0) + (if w.Live() then 1 else 0)
  {
    var k := |ws| - 1;
    if i == k {
      assert ws[i := w][..k] == ws[..k];
    } else {
      LiveCountUpdate(ws[..k], i, w);
      assert ws[i := w][..k] == ws[..k][i := w];
    }
  }

  lemma {:induction false} LiveCountZero(ws: seq<Worker>)
    ensures LiveCount(ws) == 0 <==> forall i | 0 <= i < |ws| :: !ws[i].Live()
  {
    if ws != [] {
      var k := |ws| - 1;
      LiveCountZero(ws[..k]);
      assert forall i | 0 <= i < k :: ws[..k][i] == ws[i];
    }
  }

  // --- preservation, operation by operation ---

  lemma WorkerDoKeeps(p: Pool, h: Holder, locked: bool, i: nat, alt: bool)
    requires PoolInv(p, h) && WorkerEnabled(p, locked, i, alt)
    ensures PoolInv(WorkerDo(p, i, alt), h)
  {
    var w := p.workers[i].(phase := NextPhase(p.workers[i], alt));
    LiveCountUpdate(p.workers, i, w);
    LiveCountZero(p.workers);
    var n := WorkerDo(p, i, alt);
    forall k | 0 <= k < |n.workers| ensures Tethered(n, n.workers[k]) {
      assert Tethered(p, p.workers[k]);
    }
  }

  lemma WaiterDoKeeps(p: Pool, h: Holder, j: nat)
    requires PoolInv(p, h) && WaiterEnabled(p, j)
    ensures PoolInv(WaiterDo(p, j), h)
  {
    var n := WaiterDo(p, j);
    forall k | 0 <= k < |n.workers| ensures Tethered(n, n.workers[k]) {
      assert Tethered(p, p.workers[k]);
    }
  }

  // The channel is replaced only once closed, so nobody is left on an open, forgotten channel.
  lemma ResetKeeps(p: Pool)
    requires ChannelInv(p) && WorkerInv(p)
    ensures ChannelInv(ResetStopChannel(p)) && WorkerInv(ResetStopChannel(p)) && CurOpen(ResetStopChannel(p))
  {
    var n := ResetStopChannel(p);
    forall i | 0 <= i < |n.workers| ensures Tethered(n, n.workers[i]) {
      assert Tethered(p, p.workers[i]);
    }
  }

  lemma LaunchKeeps(p: Pool, k: Kind)
    requires ChannelInv(p) && WorkerInv(p) && p.cur.Some?
    ensures ChannelInv(Launch(p, k)) && WorkerInv(Launch(p, k))
    ensures LiveCount(Launch(p, k).workers) == LiveCount(p.workers) + 1
  {
    var n := Launch(p, k);
    assert n.workers[..|p.workers|] == p.workers;
    forall i | 0 <= i < |n.workers| ensures Tethered(n, n.workers[i]) {
      if i < |p.workers| { assert Tethered(p, p.workers[i]); }
    }
  }

  // Closing the current channel: it was open, so it is now closed exactly once.
  lemma CloseKeeps(p: Pool)
    requires ChannelInv(p) && WorkerInv(p) && CurOpen(p)
    ensures ChannelInv(CloseCur(p)) && WorkerInv(CloseCur(p)) && Closed(CloseCur(p), p.cur.value)
  {
    var n := CloseCur(p);
    forall i | 0 <= i < |n.workers| ensures Tethered(n, n.workers[i]) {
      assert Tethered(p, p.workers[i]);
    }
  }

  // The statements of startup that touch the channel, the WaitGroup or the workers.
  predicate Writes(pc: StartPc) {
    pc.Reset? || pc.AddMetrics? || pc.GoMetrics? || pc.AddDashboard? || pc.GoDashboard?
  }

  lemma StartupResetKeeps(s: State, ok: bool)
    requires Inv(s) && s.holder.Startup? && s.holder.pc.Reset?
    ensures PoolInv(StartupDo(s, ok).next.pool, StartupDo(s, ok).next.holder)
  {
    ResetKeeps(s.pool);
    assert StartupDo(s, ok).next.pool == ResetStopChannel(s.pool);
  }

  lemma LaunchStepKeeps(p: Pool, h: Holder, k: Kind, pc: StartPc)
    requires PoolInv(p, h) && h.Startup? && h.pc.Launching()
    requires pc.AddDashboard? || pc.Ctx2?
    ensures PoolInv(Launch(p, k), h.(pc := pc))
  {
    LaunchKeeps(p, k);
    hide ChannelInv, WorkerInv, LiveCount;
  }

  lemma StartupLaunchKeeps(s: State, ok: bool)
    requires Inv(s) && s.holder.Startup? && s.holder.pc.Launching()
    ensures PoolInv(StartupDo(s, ok).next.pool, StartupDo(s, ok).next.holder)
  {
    var n := StartupDo(s, ok).next;
    if s.holder.pc.GoMetrics? {
      assert n.pool == Launch(s.pool, Metrics) && n.holder == s.holder.(pc := AddDashboard);
      LaunchStepKeeps(s.pool, s.holder, Metrics, AddDashboard);
    } else {
      assert n.pool == Launch(s.pool, Dashboard) && n.holder == s.holder.(pc := Ctx2);
      LaunchStepKeeps(s.pool, s.holder, Dashboard, Ctx2);
    }
  }

  lemma StartupAddKeeps(s: State, ok: bool)
    requires Inv(s) && s.holder.Startup? && (s.holder.pc.AddMetrics? || s.holder.pc.AddDashboard?)
    ensures PoolInv(StartupDo(s, ok).next.pool, StartupDo(s, ok).next.holder)
  {
    AddKeeps(s.pool);
    var n := StartupDo(s, ok).next;
    assert n.pool == if n.holder.pc.Launching() then Add(s.pool) else s.pool;
  }

  lemma StartupReadKeeps(s: State, ok: bool)
    requires Inv(s) && s.holder.Startup? && !Writes(s.holder.pc)
    ensures PoolInv(StartupDo(s, ok).next.pool, StartupDo(s, ok).next.holder)
  {
    assert StartupDo(s, ok).next.pool == s.pool;
  }

  lemma StartupDoKeeps(s: State, ok: bool)
    requires Inv(s) && s.holder.Startup?
    ensures PoolInv(StartupDo(s, ok).next.pool, StartupDo(s, ok).next.holder)
  {
    match s.holder.pc
    case Reset => StartupResetKeeps(s, ok);
    case GoMetrics => StartupLaunchKeeps(s, ok);
    case GoDashboard => StartupLaunchKeeps(s, ok);
    case AddMetrics => StartupAddKeeps(s, ok);
    case AddDashboard => StartupAddKeeps(s, ok);
    case _ => StartupReadKeeps(s, ok);
  }

  lemma AddKeeps(p: Pool)
    requires WorkerInv(p)
    ensures WorkerInv(Add(p))
  {
    forall i | 0 <= i < |p.workers| ensures Tethered(Add(p), p.workers[i]) {
      assert Tethered(p, p.workers[i]);
    }
  }

  lemma SpawnKeeps(p: Pool)
    requires WorkerInv(p)
    ensures WorkerInv(p.(waiters := p.waiters + [Waiting]))
  {
    forall i | 0 <= i < |p.workers| ensures Tethered(p.(waiters := p.waiters + [Waiting]), p.workers[i]) {
      assert Tethered(p, p.workers[i]);
    }
  }

  lemma RollbackDoKeeps(s: State, ok: bool)
    requires Inv(s) && s.holder.Rollback? && HolderEnabled(s)
    ensures PoolInv(HolderDo(s, ok).next.pool, HolderDo(s, ok).next.holder)
  {
    if s.holder.stop.Close? {
      CloseKeeps(s.pool);
    } else {
      assert HolderDo(s, ok).next.pool == s.pool;
    }
  }

  lemma CleanupDoKeeps(s: State, ok: bool)
    requires Inv(s) && s.holder.Cleanup? && HolderEnabled(s)
    ensures PoolInv(HolderDo(s, ok).next.pool, HolderDo(s, ok).next.holder)
  {
    if s.holder.clean.CClose? {
      CloseKeeps(s.pool);
    } else if s.holder.clean.CSpawn? {
      SpawnKeeps(s.pool);
    } else {
      assert HolderDo(s, ok).next.pool == s.pool;
    }
  }

  // A holder that neither launches nor stops workers asks nothing of the pool.
  lemma QuietKeeps(p: Pool, h: Holder, h': Holder)
    requires PoolInv(p, h) && (h.Initializing? || h.Configuring?) && (h'.Initializing? || h'.Configuring? || h'.Free?)
    ensures PoolInv(p, h')
  {
  }

  lemma InitDoKeeps(s: State, ok: bool)
    requires PoolInv(s.pool, s.holder) && s.holder.Initializing?
    ensures PoolInv(InitDo(s, ok).next.pool, InitDo(s, ok).next.holder)
  {
    QuietKeeps(s.pool, s.holder, InitDo(s, ok).next.holder);
  }

  lemma HolderDoKeeps(s: State, ok: bool)
    requires Inv(s) && HolderEnabled(s)
    ensures PoolInv(HolderDo(s, ok).next.pool, HolderDo(s, ok).next.holder)
  {
    match s.holder
    case Startup(_, _, _) => StartupDoKeeps(s, ok);
    case Rollback(_, _) => RollbackDoKeeps(s, ok);
    case Cleanup(_, _, _) => CleanupDoKeeps(s, ok);
    case Initializing(_, _, _) => InitDoKeeps(s, ok);
    case Configuring(_) => QuietKeeps(s.pool, s.holder, ConfigureDo(s, ok).next.holder);
  }

  lemma StepKeepsPool(s: State, a: Action)
    requires Inv(s) && Enabled(s, a)
    ensures PoolInv(Next(s, a).pool, Next(s, a).holder)
  {
    match a
    case Advance(ok) => HolderDoKeeps(s, ok);
    case Work(i, alt) => WorkerDoKeeps(s.pool, s.holder, s.collectorLocked, i, alt);
    case Wake(j) => WaiterDoKeeps(s.pool, s.holder, j);
    case _ => assert Next(s, a).pool == s.pool;
  }

  lemma InitDoKeepsFlags(s: State, ok: bool)
    requires Inv(s) && s.holder.Initializing?
    ensures FlagInv(InitDo(s, ok).next.flags, InitDo(s, ok).next.core, InitDo(s, ok).next.holder)
  {
    hide PoolInv;
    var n := InitDo(s, ok).next;
    if s.holder.init.Once? {
      assert n.flags == s.flags && n.core == RunOnce(s.core, if ok then Succeeds else Fails);
    } else {
      assert n.core == s.core;
    }
  }

  lemma HolderKeepsFlags(s: State, ok: bool)
    requires HolderEnabled(s) && !s.holder.Initializing?
    ensures var n := HolderDo(s, ok).next; n.flags == s.flags && n.core == s.core && !n.holder.Initializing?
  {
    match s.holder
    case Startup(_, _, _) => assert HolderDo(s, ok) == StartupDo(s, ok);
    case Rollback(_, _) => assert HolderDo(s, ok) == RollbackDo(s);
    case Cleanup(_, _, _) => assert HolderDo(s, ok) == CleanupDo(s);
    case Configuring(_) => assert HolderDo(s, ok) == ConfigureDo(s, ok);
  }

  lemma PanicKeepsFlags(s: State)
    requires Inv(s) && CanPanic(s.holder, s.core)
    ensures FlagInv(PanicDo(s).next.flags, PanicDo(s).next.core, PanicDo(s).next.holder)
  {
    hide PoolInv;
  }

  lemma StepKeepsFlags(s: State, a: Action)
    requires Inv(s) && Enabled(s, a)
    ensures FlagInv(Next(s, a).flags, Next(s, a).core, Next(s, a).holder)
  {
    hide PoolInv, InitDo, StartupDo, RollbackDo, CleanupDo, ConfigureDo, PanicDo;
    match a
    case Advance(ok) =>
      if s.holder.Initializing? { InitDoKeepsFlags(s, ok); } else { HolderKeepsFlags(s, ok); }
    case Panic => PanicKeepsFlags(s);
    case _ =>
  }

  lemma StepKeeps(s: State, a: Action)
    requires Inv(s) && Enabled(s, a)
    ensures Inv(Next(s, a))
  {
    StepKeepsPool(s, a);
    StepKeepsFlags(s, a);
  }

  // Every state of every run satisfies the invariant.
  lemma {:induction false} RunKeeps(s: State, acts: seq<Action>)
    requires Inv(s) && Valid(s, acts)
    ensures Inv(After(s, acts))
    decreases |acts|
  {
    if acts != [] {
      StepKeeps(s, acts[0]);
      RunKeeps(Next(s, acts[0]), acts[1..]);
    }
  }
}
