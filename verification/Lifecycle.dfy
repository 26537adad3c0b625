/**
  The background-worker protocol of the plugin as a transition system.

  One plugin object, its replaceable stop channel, its WaitGroup, every worker goroutine ever
  launched and every waiter goroutine ever spawned by a cleanup. A lifecycle method runs with the
  plugin mutex `s.mu` held, so at most one of them is in progress: it is the `holder`, with a
  program counter. Workers, waiters, metric recorders and context cancellation interleave with the
  holder's statements freely. Channels are generations: `closes[g]` counts how often generation `g`
  was closed; closing twice is a panic in Go, so `closes[g]` must never exceed 1.
*/
module Lifecycle {
  import opened Wrappers

  datatype Kind = Metrics | Dashboard

  datatype Phase =
    | Launched      // the goroutine exists and has executed nothing yet
    | Ticking       // metrics: blocked in the select on ticker and stop channel
    | Collecting    // metrics: took a tick, needs the collector's read lock
    | Serving       // dashboard: bound, blocked on the stop channel
    | ShuttingDown  // dashboard: Shutdown in progress, bounded by its own timeout
    | Leaving       // only the deferred wg.Done() is left
    | Finished

  // `gen` is the channel passed to Start: a `go` statement evaluates its arguments at launch.
  datatype Worker = Worker(kind: Kind, gen: nat, phase: Phase) {
    predicate Live() { phase != Finished }
  }

  // The goroutine a cleanup spawns to turn wg.Wait() into a closed `done` channel.
  datatype Waiter = Waiting | Released | Signalled

  datatype StartPc =
    | Ctx0 | CheckInit | Reset | LoadFlow | LoadBreaker | LoadSystem | Ctx1
    | AddMetrics | GoMetrics | AddDashboard | GoDashboard | Ctx2 | Attach | Ctx3 | Publish
  {
    predicate BeforeReset() { Ctx0? || CheckInit? || Reset? }

    // No `go` statement of this startup has run yet.
    predicate BeforeLaunch() {
      BeforeReset() || LoadFlow? || LoadBreaker? || LoadSystem? || Ctx1? || AddMetrics? || GoMetrics?
    }

    // Between wg.Add(1) and the go statement that follows it.
    predicate Launching() { GoMetrics? || GoDashboard? }

    predicate Loading() { LoadFlow? || LoadBreaker? || LoadSystem? }

    // The foreign calls made when the workers are running.
    predicate Attaching() { Attach? || Publish? }
  }

  datatype StopPc = Probe | Close | Await

  datatype CleanPc = CProbe | CClose | CSpawn | CSelect | CInner | CClear(failed: bool)

  datatype ConfPc = Vet | ReloadFlow | ReloadBreaker | ReloadSystem

  datatype InitPc = Base | Scan | Validate | Once | CheckCore | MarkCore | Build | MarkInit

  // Which lifecycle method holds s.mu, and where it is.
  // `first` is the number of workers ever launched when the startup took the lock;
  // `done` is the index of the waiter the cleanup spawned.
  datatype Holder =
    | Free
    | Startup(pc: StartPc, cancelled: bool, first: nat)
    | Rollback(stop: StopPc, first: nat)
    | Cleanup(clean: CleanPc, ended: bool, done: nat)
    | Initializing(init: InitPc, metrics: bool, dashboard: bool)
    | Configuring(step: ConfPc)

  // What workers and waiters share: every channel, worker and waiter ever created.
  datatype Pool = Pool(closes: seq<nat>, cur: Option<nat>, wg: int, workers: seq<Worker>, waiters: seq<Waiter>)

  datatype Flags = Flags(isInitialized: bool, sentinelInitialized: bool, hasCollector: bool, hasDashboard: bool)

  // sentinelInitOnce and sentinelInitErr are process-global. `failed`: the recorded error is not nil;
  // `ready`: api.InitWithConfig has returned nil; `runs` counts its calls.
  datatype Core = Core(onceDone: bool, failed: bool, ready: bool, runs: nat)

  datatype CoreResult = Succeeds | Fails | Panics

  // `collectorLocked`: some recorder holds a collector mutex.
  datatype State = State(pool: Pool, holder: Holder, flags: Flags, core: Core, collectorLocked: bool)

  datatype Call = StartupCall | CleanupCall | InitCall(metrics: bool, dashboard: bool) | ConfigureCall

  datatype Action =
    | Begin(call: Call, cancelled: bool)  // a method acquires s.mu; its context may have ended already
    | Cancel                              // the holder's context ends
    | Advance(ok: bool)                   // the holder executes one statement; ok: a foreign call's outcome
    | TakeCancel                          // cleanup's select takes the ctx.Done() case
    | Panic                               // a panic, mostly of a foreign call, leaves the holder's method
    | Work(worker: nat, alt: bool)        // a worker takes a step
    | Wake(waiter: nat)                   // a waiter goroutine takes a step
    | RecorderLock
    | RecorderUnlock
    | OtherInit(result: CoreResult)       // another plugin instance reaches the shared once guard

  // Why a startup or a reconfiguration returns an error.
  datatype Failure = ContextEnded | Uninitialized | Refused | FlowFailed | BreakerFailed | SystemFailed

  datatype Outcome =
    | StartupOk(first: nat)
    | StartupFailed(first: nat, rolledBack: bool, why: Failure)
    | StartupPanicked(first: nat, late: bool)  // late: with the workers running
    | CleanupOk
    | CleanupAbandoned
    | InitReturned(ok: bool)
    | InitPanicked
    | ConfigureReturned(failure: Option<Failure>)
    | ConfigurePanicked

  datatype Step = Step(next: State, returned: Option<Outcome>)

  ghost predicate IsInit(s: State) {
    && (s.pool.cur == None ==> s.pool.closes == [])
    && (s.pool.cur.Some? ==> s.pool.cur == Some(0) && s.pool.closes == [0])
    && s.pool.wg == 0 && s.pool.workers == [] && s.pool.waiters == []
    && s.holder == Free
    && s.flags == Flags(false, false, false, false)
    && s.core == Core(false, false, false, 0)
    && !s.collectorLocked
  }

  predicate Closed(p: Pool, gen: nat) {
    gen < |p.closes| && p.closes[gen] > 0
  }

  predicate CurValid(p: Pool) {
    p.cur.Some? && p.cur.value < |p.closes|
  }

  predicate CurOpen(p: Pool) {
    CurValid(p) && p.closes[p.cur.value] == 0
  }

  // --- the lock holder ---

  function Goto(s: State, h: Holder): Step {
    Step(s.(holder := h), None)
  }

  function With(s: State, p: Pool, h: Holder): Step {
    Step(s.(pool := p, holder := h), None)
  }

  function Return(s: State, o: Outcome): Step {
    Step(s.(holder := Free), Some(o))
  }

  function CloseCur(p: Pool): Pool
    requires CurValid(p)
  {
    p.(closes := p.closes[p.cur.value := p.closes[p.cur.value] + 1])
  }

  function ResetStopChannel(p: Pool): Pool {
    if CurOpen(p) then p else p.(closes := p.closes + [0], cur := Some(|p.closes|))
  }

  function Add(p: Pool): Pool {
    p.(wg := p.wg + 1)
  }

  function Launch(p: Pool, k: Kind): Pool
    requires p.cur.Some?
  {
    p.(workers := p.workers + [Worker(k, p.cur.value, Launched)])
  }

  function Fail(s: State, first: nat, why: Failure): Step {
    Return(s, StartupFailed(first, false, why))
  }

  function StartupDo(s: State, ok: bool): Step
    requires s.holder.Startup?
    requires s.holder.pc.Launching() ==> s.pool.cur.Some?
  {
    var h := s.holder;
    match h.pc
    case Ctx0 => if h.cancelled then Fail(s, h.first, ContextEnded) else Goto(s, h.(pc := CheckInit))
    case CheckInit => if !s.flags.isInitialized then Fail(s, h.first, Uninitialized) else Goto(s, h.(pc := Reset))
    case Reset => With(s, ResetStopChannel(s.pool), h.(pc := LoadFlow))
    case LoadFlow => if ok then Goto(s, h.(pc := LoadBreaker)) else Fail(s, h.first, FlowFailed)
    case LoadBreaker => if ok then Goto(s, h.(pc := LoadSystem)) else Fail(s, h.first, BreakerFailed)
    case LoadSystem => if ok then Goto(s, h.(pc := Ctx1)) else Fail(s, h.first, SystemFailed)
    case Ctx1 => if h.cancelled then Fail(s, h.first, ContextEnded) else Goto(s, h.(pc := AddMetrics))
    case AddMetrics =>
      if s.flags.hasCollector then With(s, Add(s.pool), h.(pc := GoMetrics)) else Goto(s, h.(pc := AddDashboard))
    case GoMetrics => With(s, Launch(s.pool, Metrics), h.(pc := AddDashboard))
    case AddDashboard =>
      if s.flags.hasDashboard then With(s, Add(s.pool), h.(pc := GoDashboard)) else Goto(s, h.(pc := Ctx2))
    case GoDashboard => With(s, Launch(s.pool, Dashboard), h.(pc := Ctx2))
    // From here a returned error runs the rollback defer before the lock is released.
    case Ctx2 => if h.cancelled then Goto(s, Rollback(Probe, h.first)) else Goto(s, h.(pc := Attach))
    case Attach => Goto(s, h.(pc := Ctx3))  // an error of the foreign call is only logged
    case Ctx3 => if h.cancelled then Goto(s, Rollback(Probe, h.first)) else Goto(s, h.(pc := Publish))
    case Publish => Return(s, StartupOk(h.first))
  }

  function RollbackDo(s: State): Step
    requires s.holder.Rollback?
    requires s.holder.stop.Close? ==> CurValid(s.pool)
  {
    var h := s.holder;
    match h.stop
    case Probe => Goto(s, h.(stop := if CurOpen(s.pool) then Close else Await))
    case Close => With(s, CloseCur(s.pool), h.(stop := Await))
    case Await => Return(s, StartupFailed(h.first, true, ContextEnded))
  }

  function CleanupDo(s: State): Step
    requires s.holder.Cleanup?
    requires s.holder.clean.CClose? ==> CurValid(s.pool)
    requires s.holder.clean.CInner? ==> s.holder.done < |s.pool.waiters|
  {
    var h := s.holder;
    match h.clean
    case CProbe => Goto(s, h.(clean := if CurOpen(s.pool) then CClose else CSpawn))
    case CClose => With(s, CloseCur(s.pool), h.(clean := CSpawn))
    case CSpawn =>
      With(s, s.pool.(waiters := s.pool.waiters + [Waiting]), h.(clean := CSelect, done := |s.pool.waiters|))
    case CSelect => Goto(s, h.(clean := CClear(false)))  // the done case
    case CInner => Goto(s, h.(clean := CClear(s.pool.waiters[h.done] != Signalled)))
    case CClear(failed) => Return(s, if failed then CleanupAbandoned else CleanupOk)
  }

  // sync.Once counts a call that panics as done; the error variable then keeps its nil.
  function RunOnce(c: Core, r: CoreResult): Core {
    if c.onceDone then c else Core(true, r.Fails?, r.Succeeds?, c.runs + 1)
  }

  function InitDo(s: State, ok: bool): Step
    requires s.holder.Initializing?
  {
    var h := s.holder;
    var f := s.flags;
    var fail := Return(s, InitReturned(false));
    match h.init
    case Base => if ok then Goto(s, h.(init := Scan)) else fail
    case Scan => if ok then Goto(s, h.(init := Validate)) else fail
    case Validate => if ok then Goto(s, h.(init := Once)) else fail
    case Once => Step(s.(core := RunOnce(s.core, if ok then Succeeds else Fails), holder := h.(init := CheckCore)), None)
    case CheckCore => if s.core.failed then fail else Goto(s, h.(init := MarkCore))
    case MarkCore => Step(s.(flags := f.(sentinelInitialized := true), holder := h.(init := Build)), None)
    case Build =>
      var f' := f.(hasCollector := f.hasCollector || h.metrics, hasDashboard := f.hasDashboard || h.dashboard);
      Step(s.(flags := f', holder := h.(init := MarkInit)), None)
    case MarkInit => Return(s.(flags := f.(isInitialized := true)), InitReturned(true))
  }

  // Vet: the type check and the validation; a valid configuration is installed at once.
  function ConfigureDo(s: State, ok: bool): Step
    requires s.holder.Configuring?
  {
    match s.holder.step
    case Vet =>
      if !ok then Return(s, ConfigureReturned(Some(Refused)))
      else if s.flags.isInitialized then Goto(s, Configuring(ReloadFlow))
      else Return(s, ConfigureReturned(None))
    case ReloadFlow =>
      if ok then Goto(s, Configuring(ReloadBreaker)) else Return(s, ConfigureReturned(Some(FlowFailed)))
    case ReloadBreaker =>
      if ok then Goto(s, Configuring(ReloadSystem)) else Return(s, ConfigureReturned(Some(BreakerFailed)))
    case ReloadSystem => Return(s, ConfigureReturned(if ok then None else Some(SystemFailed)))
  }

  predicate HolderEnabled(s: State) {
    match s.holder
    case Free => false
    case Startup(pc, _, _) => pc.Launching() ==> s.pool.cur.Some?
    case Rollback(stop, _) =>
      && (stop.Close? ==> CurValid(s.pool))
      && (stop.Await? ==> s.pool.wg == 0)
    case Cleanup(clean, _, done) =>
      && (clean.CClose? ==> CurValid(s.pool))
      && (clean.CInner? ==> done < |s.pool.waiters|)
      && (clean.CSelect? ==> done < |s.pool.waiters| && s.pool.waiters[done] == Signalled)
    case Initializing(_, _, _) => true
    case Configuring(_) => true
  }

  function HolderDo(s: State, ok: bool): Step
    requires HolderEnabled(s)
  {
    match s.holder
    case Startup(_, _, _) => StartupDo(s, ok)
    case Rollback(_, _) => RollbackDo(s)
    case Cleanup(_, _, _) => CleanupDo(s)
    case Initializing(_, _, _) => InitDo(s, ok)
    case Configuring(_) => ConfigureDo(s, ok)
  }

  function Entered(p: Pool, call: Call, cancelled: bool): Holder {
    match call
    case StartupCall => Startup(Ctx0, cancelled, |p.workers|)
    case CleanupCall => Cleanup(CProbe, cancelled, 0)
    case InitCall(m, d) => Initializing(Base, m, d)
    case ConfigureCall => Configuring(Vet)
  }

  function Cancelled(h: Holder): Holder {
    match h
    case Startup(_, _, _) => h.(cancelled := true)
    case Cleanup(_, _, _) => h.(ended := true)
    case _ => h
  }

  // Where a panic can come from; Configure also panics on a nil pointer to a configuration.
  predicate CanPanic(h: Holder, c: Core) {
    || (h.Startup? && (h.pc.Loading() || h.pc.Attaching()))
    || h.Configuring?
    || (h.Initializing? && (h.init.Base? || h.init.Scan? || h.init.Validate? || (h.init.Once? && !c.onceDone)))
  }

  // The rollback defer sees a nil startErr during a panic and does nothing; only s.mu is released.
  function PanicDo(s: State): Step
    requires CanPanic(s.holder, s.core)
  {
    match s.holder
    case Startup(pc, _, first) => Return(s, StartupPanicked(first, pc.Attaching()))
    case Initializing(init, _, _) =>
      Return(if init.Once? then s.(core := RunOnce(s.core, Panics)) else s, InitPanicked)
    case Configuring(_) => Return(s, ConfigurePanicked)
  }

  // --- workers and waiters: none of these steps reads or writes the holder ---

  // `alt` picks the other outcome of the worker's next statement: a disabled collector, a failed
  // bind, or the ticker case of the select.
  predicate WorkerEnabled(p: Pool, locked: bool, i: nat, alt: bool) {
    && i < |p.workers|
    && var w := p.workers[i];
       match w.phase
       case Launched => true
       case Ticking => alt || Closed(p, w.gen)
       case Collecting => !alt && !locked
       case Serving => !alt && Closed(p, w.gen)
       case ShuttingDown => !alt
       case Leaving => !alt
       case Finished => false
  }

  function NextPhase(w: Worker, alt: bool): Phase
    requires w.Live()
  {
    match w.phase
    case Launched => if alt then Leaving else if w.kind.Metrics? then Ticking else Serving
    case Ticking => if alt then Collecting else Leaving
    case Collecting => Ticking
    case Serving => ShuttingDown
    case ShuttingDown => Leaving
    case Leaving => Finished
  }

  function WorkerDo(p: Pool, i: nat, alt: bool): Pool
    requires i < |p.workers| && p.workers[i].Live()
  {
    var w := p.workers[i];
    p.(workers := p.workers[i := w.(phase := NextPhase(w, alt))],
       wg := if w.phase.Leaving? then p.wg - 1 else p.wg)
  }

  predicate WaiterEnabled(p: Pool, j: nat) {
    && j < |p.waiters|
    && !p.waiters[j].Signalled?
    && (p.waiters[j].Waiting? ==> p.wg == 0)
  }

  function WaiterDo(p: Pool, j: nat): Pool
    requires j < |p.waiters|
  {
    p.(waiters := p.waiters[j := if p.waiters[j].Waiting? then Released else Signalled])
  }

  // --- the whole system ---

  predicate Enabled(s: State, a: Action) {
    match a
    case Begin(_, _) => s.holder.Free?
    case Cancel => !s.holder.Free?
    case Advance(_) => HolderEnabled(s)
    case TakeCancel => s.holder.Cleanup? && s.holder.clean.CSelect? && s.holder.ended
    case Panic => CanPanic(s.holder, s.core)
    case Work(i, alt) => WorkerEnabled(s.pool, s.collectorLocked, i, alt)
    case Wake(j) => WaiterEnabled(s.pool, j)
    case RecorderLock => !s.collectorLocked
    case RecorderUnlock => s.collectorLocked
    case OtherInit(_) => true
  }

  function Do(s: State, a: Action): Step
    requires Enabled(s, a)
  {
    match a
    case Begin(call, cancelled) => Goto(s, Entered(s.pool, call, cancelled))
    case Cancel => Goto(s, Cancelled(s.holder))
    case Advance(ok) => HolderDo(s, ok)
    case TakeCancel => Goto(s, s.holder.(clean := CInner))
    case Panic => PanicDo(s)
    case Work(i, alt) => Step(s.(pool := WorkerDo(s.pool, i, alt)), None)
    case Wake(j) => Step(s.(pool := WaiterDo(s.pool, j)), None)
    case RecorderLock => Step(s.(collectorLocked := true), None)
    case RecorderUnlock => Step(s.(collectorLocked := false), None)
    case OtherInit(result) => Step(s.(core := RunOnce(s.core, result)), None)
  }

  function Next(s: State, a: Action): State
    requires Enabled(s, a)
  {
    Do(s, a).next
  }

  predicate Valid(s: State, acts: seq<Action>)
    decreases |acts|
  {
    acts == [] || (Enabled(s, acts[0]) && Valid(Next(s, acts[0]), acts[1..]))
  }

  function After(s: State, acts: seq<Action>): State
    requires Valid(s, acts)
    decreases |acts|
  {
    if acts == [] then s else After(Next(s, acts[0]), acts[1..])
  }

  // Runs compose.
  lemma {:induction false} RunsCompose(s: State, a: seq<Action>, b: seq<Action>)
    requires Valid(s, a) && Valid(After(s, a), b)
    ensures Valid(s, a + b) && After(s, a + b) == After(After(s, a), b)
    decreases |a|
  {
    if a == [] {
      assert a + b == b;
    } else {
      RunsCompose(Next(s, a[0]), a[1..], b);
      assert (a + b)[1..] == a[1..] + b;
    }
  }
}
