/**
  The worker protocol and the rule stores together: every statement of a lifecycle method does to the
  configuration and the live rules what the plugin's statement does, while workers, waiters and
  contexts interleave with it. Beside them runs an observer, who notes what each statement meets: an
  ended context, a failing load, a scanned configuration, a drained WaitGroup. Seen whenever the mutex
  is free, any such run is a history of whole calls, each with the effect and the outcome that
  RuleSync specifies for what was noted.
*/
module LifecycleRules {
  import opened Wrappers
  import opened Lifecycle
  import opened LifecycleInvariant
  import opened LifecycleSafety
  import opened LifecycleLaunch
  import opened Rules
  import opened RuleHistory
  import Sync = RuleSync

  datatype Live = Live(
    conf: Option<Sync.Config>,
    flow: multiset<FlowRule>,
    breaker: multiset<BreakerRule>,
    system: multiset<SystemRule>)

  // What the holder of the mutex has met since it took it. `ended`: its context has ended.
  datatype Seen = Seen(
    start: Sync.StartEnv,
    init: Sync.InitEnv,
    arg: Sync.ConfigArg,
    loads: Sync.Loads,
    drained: bool,
    ended: bool)

  datatype Plug = Plug(s: State, live: Live, seen: Seen)

  // What the outside supplies with a statement: the scanned configuration, the name of the
  // application, the argument of Configure.
  datatype Supply = Supply(scanned: Sync.Config, lynxName: string, arg: Sync.ConfigArg)

  // The calls that add and remove rules take no lock; here they do not overlap with a lifecycle call.
  datatype Event = Take(action: Action, supply: Supply) | Dynamic(op: Op)

  function StopOf(p: Pool): Sync.StopState {
    if p.cur == None then Sync.NoChannel else if CurOpen(p) then Sync.OpenChannel else Sync.ClosedChannel
  }

  // The state as the specifications of single calls see it.
  function ViewOf(s: State, l: Live): Sync.World {
    Sync.World(l.conf, s.flags, StopOf(s.pool), l.flow, l.breaker, l.system)
  }

  function View(q: Plug): Sync.World {
    ViewOf(q.s, q.live)
  }

  // --- one statement ---

  // An empty list of system rules is not loaded, so nothing can go wrong.
  predicate NothingToLoad(h: Holder, conf: Option<Sync.Config>) {
    && ((h.Startup? && h.pc.LoadSystem?) || (h.Configuring? && h.step.ReloadSystem?))
    && conf.Some? && conf.value.systemRules == []
  }

  // The outcomes the protocol leaves open are decided by the configuration. Configure returns before
  // it takes the mutex when there is no argument at all, and panics on a nil pointer.
  ghost predicate Answers(h: Holder, conf: Option<Sync.Config>, ok: bool, d: Supply) {
    && (NothingToLoad(h, conf) ==> ok)
    && (h.Initializing? && h.init.Validate? && conf.Some? ==>
          (ok <==> Sync.ValidConfig(Sync.WithDefaults(conf.value, d.lynxName))))
    && (h.Initializing? && h.init.Build? && conf.Some? ==>
          h.metrics == conf.value.metricsEnabled && h.dashboard == conf.value.dashboardEnabled)
    && (h.Configuring? && h.step.Vet? ==>
          (d.arg.WrongType? || d.arg.Given?) && (ok <==> d.arg.Given? && Sync.ValidConfig(d.arg.conf)))
  }

  ghost predicate Panics(h: Holder, conf: Option<Sync.Config>, d: Supply) {
    && !NothingToLoad(h, conf)
    && (h.Configuring? && h.step.Vet? ==> d.arg.NilConfig?)
  }

  ghost predicate Can(q: Plug, e: Event) {
    match e
    case Take(a, d) =>
      && Enabled(q.s, a)
      && (a.Advance? ==> Answers(q.s.holder, q.live.conf, a.ok, d))
      && (a.Panic? ==> Panics(q.s.holder, q.live.conf, d))
    case Dynamic(op) =>
      q.s.holder.Free? && (op.AddFlowOp? || op.RemoveFlowOp? || op.AddBreakerOp? || op.RemoveBreakerOp?)
  }

  ghost function LoadDo(l: Live, stage: Sync.Stage): Live
    requires l.conf.Some?
  {
    var c := l.conf.value;
    match stage
    case FlowStage => l.(flow := FlowImages(c.flowRules))
    case BreakerStage => l.(breaker := BreakerImages(c.breakerRules))
    case SystemStage => if c.systemRules == [] then l else l.(system := SystemImages(c.systemRules))
  }

  function StageOf(pc: StartPc): Option<Sync.Stage> {
    match pc
    case LoadFlow => Some(Sync.FlowStage)
    case LoadBreaker => Some(Sync.BreakerStage)
    case LoadSystem => Some(Sync.SystemStage)
    case _ => None
  }

  ghost function StartupLive(l: Live, pc: StartPc, ok: bool): Live {
    if ok && l.conf.Some? && StageOf(pc).Some? then LoadDo(l, StageOf(pc).value) else l
  }

  ghost function CleanupLive(l: Live, clean: CleanPc): Live {
    if clean.CClear? then Live(l.conf, multiset{}, multiset{}, multiset{}) else l
  }

  // A scan that fails or panics may have filled the new configuration already.
  ghost function InitLive(l: Live, init: InitPc, panics: bool, d: Supply): Live {
    if init.Scan? then l.(conf := Some(d.scanned))
    else if init.Validate? && l.conf.Some? && !panics then l.(conf := Some(Sync.WithDefaults(l.conf.value, d.lynxName)))
    else l
  }

  ghost function ConfigureLive(l: Live, step: ConfPc, ok: bool, d: Supply): Live {
    if !ok then l
    else match step
      case Vet => if d.arg.Given? then l.(conf := Some(d.arg.conf)) else l
      case ReloadFlow => if l.conf.Some? then LoadDo(l, Sync.FlowStage) else l
      case ReloadBreaker => if l.conf.Some? then LoadDo(l, Sync.BreakerStage) else l
      case ReloadSystem => if l.conf.Some? then LoadDo(l, Sync.SystemStage) else l
  }

  ghost function LiveOf(w: Sync.World): Live {
    Live(w.conf, w.flow, w.breaker, w.system)
  }

  ghost function LiveDo(q: Plug, a: Action, d: Supply): Live {
    var h, l := q.s.holder, q.live;
    if a.Advance? then
      match h
      case Startup(pc, _, _) => StartupLive(l, pc, a.ok)
      case Cleanup(clean, _, _) => CleanupLive(l, clean)
      case Initializing(init, _, _) => InitLive(l, init, false, d)
      case Configuring(step) => ConfigureLive(l, step, a.ok, d)
      case _ => l
    else if a.Panic? && h.Initializing? then InitLive(l, h.init, true, d)
    else l
  }

  // --- the observer ---

  const ALL_LOAD: Sync.Loads := Sync.Loads(true, true, true)
  const UNDISTURBED: Sync.StartEnv := Sync.StartEnv(false, false, false, false, ALL_LOAD)
  const EMPTY_CONFIG: Sync.Config := Sync.Config("", "", "", false, "", false, 0, [], [], [])
  const ALL_WELL: Sync.InitEnv := Sync.InitEnv(true, EMPTY_CONFIG, true, "", true)
  const NOTHING_YET: Seen := Seen(UNDISTURBED, ALL_WELL, Sync.NoConfig, ALL_LOAD, false, false)

  function NoteLoad(o: Sync.Loads, stage: Sync.Stage, ok: bool): Sync.Loads {
    match stage
    case FlowStage => o.(flow := ok)
    case BreakerStage => o.(breaker := ok)
    case SystemStage => o.(system := ok)
  }

  // The four checks note what the context says, the loads note their answers.
  function NoteStart(e: Sync.StartEnv, pc: StartPc, cancelled: bool, ok: bool): Sync.StartEnv {
    match pc
    case Ctx0 => e.(ended0 := cancelled)
    case Ctx1 => e.(ended1 := cancelled)
    case Ctx2 => e.(ended2 := cancelled)
    case Ctx3 => e.(ended3 := cancelled)
    case LoadFlow => e.(loads := NoteLoad(e.loads, Sync.FlowStage, ok))
    case LoadBreaker => e.(loads := NoteLoad(e.loads, Sync.BreakerStage, ok))
    case LoadSystem => e.(loads := NoteLoad(e.loads, Sync.SystemStage, ok))
    case _ => e
  }

  // A panic of the lookup of the application's name leaves the configuration as scanned, as a failed
  // scan does. Whether the core is in order is read off the global error after the once guard.
  function NoteInit(e: Sync.InitEnv, init: InitPc, ok: bool, panics: bool, c: Core, d: Supply): Sync.InitEnv {
    match init
    case Base => e.(baseOk := ok)
    case Scan => e.(scanned := d.scanned, scanOk := ok)
    case Validate => if panics then e.(scanOk := false) else e.(lynxName := d.lynxName)
    case Once => if panics then e.(coreOk := false) else e
    case CheckCore => e.(coreOk := !c.failed)
    case _ => e
  }

  function NoteConfigure(k: Seen, step: ConfPc, ok: bool, d: Supply): Seen {
    match step
    case Vet => k.(arg := d.arg)
    case ReloadFlow => k.(loads := NoteLoad(k.loads, Sync.FlowStage, ok))
    case ReloadBreaker => k.(loads := NoteLoad(k.loads, Sync.BreakerStage, ok))
    case ReloadSystem => k.(loads := NoteLoad(k.loads, Sync.SystemStage, ok))
  }

  // Where cleanup looks at `done`, the note says whether it was closed.
  function NoteCleanup(drained: bool, clean: CleanPc, done: nat, p: Pool): bool {
    if clean.CSelect? || clean.CInner? then done < |p.waiters| && p.waiters[done].Signalled? else drained
  }

  function NoteStatement(s: State, k: Seen, ok: bool, panics: bool, d: Supply): Seen {
    match s.holder
    case Startup(pc, cancelled, _) => k.(start := NoteStart(k.start, pc, cancelled, ok))
    case Cleanup(clean, _, done) => k.(drained := NoteCleanup(k.drained, clean, done, s.pool))
    case Initializing(init, _, _) => k.(init := NoteInit(k.init, init, ok, panics, s.core, d))
    case Configuring(step) => NoteConfigure(k, step, ok, d)
    case _ => k
  }

  function Observe(s: State, k: Seen, a: Action, d: Supply): Seen {
    match a
    case Begin(_, cancelled) => NOTHING_YET.(ended := cancelled)
    case Cancel => k.(ended := true)
    case Advance(ok) => NoteStatement(s, k, ok, false, d)
    case Panic => NoteStatement(s, k, false, true, d)
    case _ => k
  }

  ghost function StepTo(q: Plug, e: Event): Plug
    requires Can(q, e)
  {
    match e
    case Take(a, d) => Plug(Next(q.s, a), LiveDo(q, a, d), Observe(q.s, q.seen, a, d))
    case Dynamic(op) => Plug(q.s, LiveOf(Perform(View(q), op)), q.seen)
  }

  // --- whole calls ---

  // The holder's call, for what it has met.
  function CallOf(h: Holder, k: Seen): Op
    requires !h.Free?
  {
    match h
    case Startup(_, _, _) => StartOp(k.start)
    case Rollback(_, _) => StartOp(k.start)
    case Cleanup(_, _, _) => CleanOp(k.drained)
    case Initializing(_, _, _) => InitOp(k.init)
    case Configuring(_) => ConfigureOp(k.arg, k.loads)
  }

  // The call that returns, if this step returns from one.
  ghost function Returns(q: Plug, e: Event): Option<Op>
    requires Can(q, e)
  {
    match e
    case Dynamic(op) => Some(op)
    case Take(a, d) =>
      if Do(q.s, a).returned == None || q.s.holder.Free? then None
      else Some(CallOf(q.s.holder, Observe(q.s, q.seen, a, d)))
  }

  ghost predicate Runs(q: Plug, es: seq<Event>)
    decreases |es|
  {
    es == [] || (Can(q, es[0]) && Runs(StepTo(q, es[0]), es[1..]))
  }

  ghost function Reached(q: Plug, es: seq<Event>): Plug
    requires Runs(q, es)
    decreases |es|
  {
    if es == [] then q else Reached(StepTo(q, es[0]), es[1..])
  }

  // The calls that returned, in the order in which they did.
  ghost function Calls(q: Plug, es: seq<Event>): seq<Op>
    requires Runs(q, es)
    decreases |es|
  {
    if es == [] then []
    else
      var r := Returns(q, es[0]);
      (if r.Some? then [r.value] else []) + Calls(StepTo(q, es[0]), es[1..])
  }

  ghost predicate IsFresh(q: Plug) {
    IsInit(q.s) && q.live == Live(None, multiset{}, multiset{}, multiset{})
  }

  // --- in the middle of a call ---

  // The rules of the first so many stages are loaded.
  ghost function LoadedUpTo(w: Sync.World, stages: nat): Sync.World
    requires w.conf.Some?
  {
    var c := w.conf.value;
    var w1 := if stages >= 1 then w.(flow := FlowImages(c.flowRules)) else w;
    var w2 := if stages >= 2 then w1.(breaker := BreakerImages(c.breakerRules)) else w1;
    if stages >= 3 && c.systemRules != [] then w2.(system := SystemImages(c.systemRules)) else w2
  }

  function StagesBefore(pc: StartPc): nat {
    if pc.BeforeReset() || pc.LoadFlow? then 0 else if pc.LoadBreaker? then 1 else if pc.LoadSystem? then 2 else 3
  }

  // `w`: what the plugin looked like when the holder took the mutex. `v`: what it looks like now.
  // Whatever has been noted so far did not stop the call.
  ghost predicate StartMidway(pc: StartPc, w: Sync.World, v: Sync.World, e: Sync.StartEnv) {
    && e == UNDISTURBED
    && if pc.Ctx0? || pc.CheckInit? then v == w
       else
         && w.flags.isInitialized && w.conf.Some?
         && v == if pc.Reset? then w else LoadedUpTo(w.(stop := Sync.OpenChannel), StagesBefore(pc))
  }

  ghost predicate RollbackMidway(stop: StopPc, w: Sync.World, v: Sync.World, e: Sync.StartEnv) {
    && (e == UNDISTURBED.(ended2 := true) || e == UNDISTURBED.(ended3 := true))
    && w.flags.isInitialized && w.conf.Some?
    && v == LoadedUpTo(w.(stop := if stop.Await? then Sync.ClosedChannel else Sync.OpenChannel), 3)
  }

  ghost predicate CleanMidway(clean: CleanPc, w: Sync.World, v: Sync.World, drained: bool) {
    && (clean.CClear? ==> drained == !clean.failed)
    && v == if clean.CProbe? || clean.CClose? then w
            else w.(stop := if w.stop.NoChannel? then Sync.NoChannel else Sync.ClosedChannel)
  }

  ghost predicate InitMidway(h: Holder, w: Sync.World, v: Sync.World, e: Sync.InitEnv)
    requires h.Initializing?
  {
    var c := Sync.WithDefaults(e.scanned, e.lynxName);
    && e.baseOk && e.scanOk && e.coreOk
    && (!h.init.Base? && !h.init.Scan? && !h.init.Validate? ==> Sync.ValidConfig(c))
    && match h.init
       case Base => v == w
       case Scan => v == w
       case Validate => v == w.(conf := Some(e.scanned))
       case Build => v == w.(conf := Some(c), flags := w.flags.(sentinelInitialized := true))
       case MarkInit =>
         v == w.(conf := Some(c), flags := Sync.InitFlags(w.flags, c).(isInitialized := w.flags.isInitialized))
       case _ => v == w.(conf := Some(c))
  }

  function StagesBeforeStep(step: ConfPc): nat {
    match step case Vet => 0 case ReloadFlow => 0 case ReloadBreaker => 1 case ReloadSystem => 2
  }

  ghost predicate ConfigureMidway(step: ConfPc, w: Sync.World, v: Sync.World, arg: Sync.ConfigArg, o: Sync.Loads) {
    && o == ALL_LOAD
    && if step.Vet? then v == w
       else
         && arg.Given? && Sync.ValidConfig(arg.conf) && w.flags.isInitialized
         && v == LoadedUpTo(w.(conf := Some(arg.conf)), StagesBeforeStep(step))
  }

  ghost predicate Midway(h: Holder, w: Sync.World, v: Sync.World, k: Seen) {
    && (w.flags.isInitialized ==> w.conf.Some?)
    && match h
       case Startup(pc, cancelled, _) => StartMidway(pc, w, v, k.start) && cancelled == k.ended
       case Rollback(stop, _) => RollbackMidway(stop, w, v, k.start) && k.ended
       case Cleanup(clean, ended, _) => CleanMidway(clean, w, v, k.drained) && ended == k.ended
       case Initializing(_, _, _) => InitMidway(h, w, v, k.init)
       case Configuring(step) => ConfigureMidway(step, w, v, k.arg, k.loads)
       case Free => v == w
  }

  // --- every step fits ---

  // The outcome the protocol reports is the one specified for the call, down to the reason.
  ghost predicate Matches(o: Outcome, r: Sync.Outcome) {
    match o
    case StartupOk(_) => r == Sync.Ok
    case StartupFailed(_, _, why) => r == Specified(why)
    case CleanupOk => r == Sync.Ok
    case CleanupAbandoned => r == Sync.Abandoned
    case InitReturned(ok) => r == if ok then Sync.Ok else Sync.Rejected
    case ConfigureReturned(why) => r == if why.Some? then Specified(why.value) else Sync.Ok
    case _ => true  // a panic has no outcome
  }

  function Specified(why: Failure): Sync.Outcome {
    match why
    case ContextEnded => Sync.Cancelled
    case Uninitialized => Sync.NotInitialized
    case Refused => Sync.Rejected
    case FlowFailed => Sync.LoadFailed(Sync.FlowStage)
    case BreakerFailed => Sync.LoadFailed(Sync.BreakerStage)
    case SystemFailed => Sync.LoadFailed(Sync.SystemStage)
  }

  // A reload with one answer noted as false, or none.
  lemma ReloadSpecAt(w: Sync.World, o: Sync.Loads)
    requires w.conf.Some?
    ensures o == ALL_LOAD ==> Sync.ReloadSpec(w, o) == Sync.Effect(LoadedUpTo(w, 3), Sync.Ok)
    ensures o == NoteLoad(ALL_LOAD, Sync.FlowStage, false) ==>
              Sync.ReloadSpec(w, o) == Sync.Effect(LoadedUpTo(w, 0), Sync.LoadFailed(Sync.FlowStage))
    ensures o == NoteLoad(ALL_LOAD, Sync.BreakerStage, false) ==>
              Sync.ReloadSpec(w, o) == Sync.Effect(LoadedUpTo(w, 1), Sync.LoadFailed(Sync.BreakerStage))
    ensures o == NoteLoad(ALL_LOAD, Sync.SystemStage, false) && w.conf.value.systemRules != [] ==>
              Sync.ReloadSpec(w, o) == Sync.Effect(LoadedUpTo(w, 2), Sync.LoadFailed(Sync.SystemStage))
  {
    hide FlowImages, BreakerImages, SystemImages;
  }

  // The statement that follows in the three stages loads the next.
  lemma LoadLeadsOn(w: Sync.World, l: Live, n: nat, stage: Sync.Stage)
    requires w.conf.Some? && LiveOf(LoadedUpTo(w, n)) == l
    requires stage == if n == 0 then Sync.FlowStage else if n == 1 then Sync.BreakerStage else Sync.SystemStage
    requires n <= 2
    ensures LiveOf(LoadedUpTo(w, n + 1)) == LoadDo(l, stage)
  {
    hide FlowImages, BreakerImages, SystemImages;
  }

  lemma LoadsLeaveTheRest(w: Sync.World, n: nat)
    requires w.conf.Some?
    ensures var v := LoadedUpTo(w, n);
            v.conf == w.conf && v.flags == w.flags && v.stop == w.stop && LoadedUpTo(w, 0) == w
  {
    hide FlowImages, BreakerImages, SystemImages;
  }

  lemma LoadsIgnoreTheChannel(w: Sync.World, n: nat, stop: Sync.StopState)
    requires w.conf.Some?
    ensures LoadedUpTo(w.(stop := stop), n) == LoadedUpTo(w, n).(stop := stop)
  {
    hide FlowImages, BreakerImages, SystemImages;
  }

  lemma StartupStop(s: State, ok: bool)
    requires s.holder.Startup? && HolderEnabled(s)
    ensures var n := StartupDo(s, ok).next;
            && n.flags == s.flags
            && StopOf(n.pool) == (if s.holder.pc.Reset? then Sync.OpenChannel else StopOf(s.pool))
  {
  }

  // The next statement of a startup: loads follow each other, the rest only reads and launches.
  lemma StartupNext(s: State, ok: bool)
    requires s.holder.Startup? && HolderEnabled(s) && StartupDo(s, ok).returned == None
    ensures var pc, h := s.holder.pc, StartupDo(s, ok).next.holder;
            && (h.Startup? ==> h.cancelled == s.holder.cancelled)
            && if pc.Ctx0? then h.Startup? && h.pc.CheckInit? && !s.holder.cancelled
               else if pc.CheckInit? then h.Startup? && h.pc.Reset? && s.flags.isInitialized
               else if pc.Reset? then h.Startup? && h.pc.LoadFlow?
               else if pc.LoadFlow? then h.Startup? && h.pc.LoadBreaker? && ok
               else if pc.LoadBreaker? then h.Startup? && h.pc.LoadSystem? && ok
               else if pc.LoadSystem? then h.Startup? && h.pc.Ctx1? && ok
               else if pc.Ctx1? then h.Startup? && StagesBefore(h.pc) == 3 && !s.holder.cancelled
               else if (pc.Ctx2? || pc.Ctx3?) && s.holder.cancelled then h.Rollback? && h.stop.Probe?
               else h.Startup? && StagesBefore(h.pc) == 3
  {
  }

  // Statements after which a startup goes on note nothing out of the ordinary.
  lemma NothingNoted(pc: StartPc, cancelled: bool, ok: bool)
    requires (pc.Ctx0? || pc.Ctx1? || pc.Ctx2? || pc.Ctx3? ==> !cancelled) && (pc.Loading() ==> ok)
    ensures NoteStart(UNDISTURBED, pc, cancelled, ok) == UNDISTURBED
  {
  }

  ghost function WithLive(v: Sync.World, l: Live): Sync.World {
    v.(conf := l.conf, flow := l.flow, breaker := l.breaker, system := l.system)
  }

  function AfterLoad(pc: StartPc): StartPc {
    if pc.LoadFlow? then LoadBreaker else if pc.LoadBreaker? then LoadSystem else Ctx1
  }

  lemma StageLoads(w: Sync.World, v: Sync.World, pc: StartPc)
    requires pc.Loading() && StartMidway(pc, w, v, UNDISTURBED)
    ensures v.conf.Some? && StartMidway(AfterLoad(pc), w, WithLive(v, LoadDo(LiveOf(v), StageOf(pc).value)), UNDISTURBED)
  {
    hide LoadDo, LoadedUpTo;
    var u, n := w.(stop := Sync.OpenChannel), StagesBefore(pc);
    LoadsLeaveTheRest(u, n);
    LoadLeadsOn(u, LiveOf(v), n, StageOf(pc).value);
    LoadsLeaveTheRest(u, n + 1);
    assert StagesBefore(AfterLoad(pc)) == n + 1;
    assert WithLive(v, LoadDo(LiveOf(v), StageOf(pc).value)) == LoadedUpTo(u, n + 1);
  }

  lemma StartupLoads(s: State, l: Live, w: Sync.World, k: Seen)
    requires s.holder.Startup? && s.holder.pc.Loading() && Midway(s.holder, w, ViewOf(s, l), k)
    ensures var n, k' := StartupDo(s, true).next, k.(start := NoteStart(k.start, s.holder.pc, s.holder.cancelled, true));
            Midway(n.holder, w, ViewOf(n, StartupLive(l, s.holder.pc, true)), k')
  {
    var pc := s.holder.pc;
    StageLoads(w, ViewOf(s, l), pc);
    NothingNoted(pc, s.holder.cancelled, true);
    hide NoteStart, LoadDo, StopOf, StartMidway, RollbackMidway, CleanMidway, InitMidway, ConfigureMidway;
    assert StartupDo(s, true).next == s.(holder := s.holder.(pc := AfterLoad(pc)));
  }

  lemma StartupOpens(s: State, l: Live, w: Sync.World, ok: bool, k: Seen)
    requires s.holder.Startup? && HolderEnabled(s) && StartupDo(s, ok).returned == None
    requires Midway(s.holder, w, ViewOf(s, l), k)
    requires s.holder.pc.BeforeReset()
    ensures var n := StartupDo(s, ok).next;
            var k' := k.(start := NoteStart(k.start, s.holder.pc, s.holder.cancelled, ok));
            Midway(n.holder, w, ViewOf(n, StartupLive(l, s.holder.pc, ok)), k')
  {
    StartupNext(s, ok);
    StartupStop(s, ok);
    NothingNoted(s.holder.pc, s.holder.cancelled, ok);
    if s.holder.pc.Reset? { LoadsLeaveTheRest(w.(stop := Sync.OpenChannel), 0); }
    hide StartupDo, LoadedUpTo, StopOf, NoteStart, RollbackMidway, CleanMidway, InitMidway, ConfigureMidway;
  }

  lemma StartupLaunchesAndChecks(s: State, l: Live, w: Sync.World, ok: bool, k: Seen)
    requires s.holder.Startup? && HolderEnabled(s) && StartupDo(s, ok).returned == None
    requires Midway(s.holder, w, ViewOf(s, l), k)
    requires !s.holder.pc.BeforeReset() && !s.holder.pc.Loading()
    ensures var n := StartupDo(s, ok).next;
            var k' := k.(start := NoteStart(k.start, s.holder.pc, s.holder.cancelled, ok));
            Midway(n.holder, w, ViewOf(n, StartupLive(l, s.holder.pc, ok)), k')
  {
    var pc := s.holder.pc;
    StartupNext(s, ok);
    StartupStop(s, ok);
    hide StartupDo, LoadedUpTo, StopOf, CleanMidway, InitMidway, ConfigureMidway;
    assert StartupLive(l, pc, ok) == l && StagesBefore(pc) == 3;
    if (pc.Ctx2? || pc.Ctx3?) && s.holder.cancelled {
      LoadsLeaveTheRest(w.(stop := Sync.OpenChannel), 3);
    } else {
      NothingNoted(pc, s.holder.cancelled, ok);
      hide NoteStart, RollbackMidway;
    }
  }

  lemma StartupGoesOn(s: State, l: Live, w: Sync.World, ok: bool, k: Seen)
    requires s.holder.Startup? && HolderEnabled(s) && StartupDo(s, ok).returned == None
    requires Midway(s.holder, w, ViewOf(s, l), k)
    ensures var n := StartupDo(s, ok).next;
            var k' := k.(start := NoteStart(k.start, s.holder.pc, s.holder.cancelled, ok));
            Midway(n.holder, w, ViewOf(n, StartupLive(l, s.holder.pc, ok)), k')
  {
    StartupNext(s, ok);
    hide StartupDo, Midway, ViewOf, HolderEnabled, NoteStart, StartupLive;
    if s.holder.pc.Loading() {
      StartupLoads(s, l, w, k);
    } else if s.holder.pc.BeforeReset() {
      StartupOpens(s, l, w, ok, k);
    } else {
      StartupLaunchesAndChecks(s, l, w, ok, k);
    }
  }

  // How a startup ends that stops at `pc`.
  function EndAt(pc: StartPc): Sync.Outcome {
    match pc
    case Ctx0 => Sync.Cancelled
    case CheckInit => Sync.NotInitialized
    case LoadFlow => Sync.LoadFailed(Sync.FlowStage)
    case LoadBreaker => Sync.LoadFailed(Sync.BreakerStage)
    case LoadSystem => Sync.LoadFailed(Sync.SystemStage)
    case Ctx1 => Sync.Cancelled
    case _ => Sync.Ok
  }

  predicate StopsAt(pc: StartPc, cancelled: bool, initialized: bool, ok: bool) {
    || ((pc.Ctx0? || pc.Ctx1?) && cancelled)
    || (pc.CheckInit? && !initialized)
    || (pc.Loading() && !ok)
    || pc.Attaching()
  }

  lemma StartSpecEarly(w: Sync.World, pc: StartPc, cancelled: bool, ok: bool)
    requires (pc.Ctx0? && cancelled) || (pc.CheckInit? && !w.flags.isInitialized)
    ensures Sync.StartSpec(w, NoteStart(UNDISTURBED, pc, cancelled, ok)) == Sync.Effect(w, EndAt(pc))
  {
    hide Sync.ReloadSpec;
  }

  lemma StartSpecLoad(w: Sync.World, pc: StartPc, cancelled: bool)
    requires w.flags.isInitialized && w.conf.Some? && pc.Loading()
    requires pc.LoadSystem? ==> w.conf.value.systemRules != []
    ensures Sync.StartSpec(w, NoteStart(UNDISTURBED, pc, cancelled, false))
         == Sync.Effect(LoadedUpTo(w.(stop := Sync.OpenChannel), StagesBefore(pc)), EndAt(pc))
  {
    ReloadSpecAt(w.(stop := Sync.OpenChannel), NoteStart(UNDISTURBED, pc, cancelled, false).loads);
    hide Sync.ReloadSpec, LoadedUpTo, NoteLoad;
  }

  lemma StartSpecLate(w: Sync.World, pc: StartPc, cancelled: bool, ok: bool)
    requires w.flags.isInitialized && w.conf.Some? && ((pc.Ctx1? && cancelled) || pc.Attaching())
    ensures Sync.StartSpec(w, NoteStart(UNDISTURBED, pc, cancelled, ok))
         == Sync.Effect(LoadedUpTo(w.(stop := Sync.OpenChannel), 3), EndAt(pc))
  {
    ReloadSpecAt(w.(stop := Sync.OpenChannel), ALL_LOAD);
    hide Sync.ReloadSpec, LoadedUpTo, NoteLoad;
  }

  lemma StartSpecRollback(w: Sync.World, e: Sync.StartEnv)
    requires w.flags.isInitialized && w.conf.Some?
    requires e == UNDISTURBED.(ended2 := true) || e == UNDISTURBED.(ended3 := true)
    ensures Sync.StartSpec(w, e) == Sync.Effect(LoadedUpTo(w.(stop := Sync.ClosedChannel), 3), Sync.Cancelled)
  {
    var v := w.(stop := Sync.OpenChannel);
    ReloadSpecAt(v, ALL_LOAD);
    LoadsIgnoreTheChannel(w, 3, Sync.OpenChannel);
    LoadsIgnoreTheChannel(w, 3, Sync.ClosedChannel);
    hide Sync.ReloadSpec, LoadedUpTo, NoteLoad;
  }

  // A call that stops at `pc` leaves what is specified for what it has met.
  lemma StartSpecFrom(w: Sync.World, v: Sync.World, pc: StartPc, cancelled: bool, ok: bool)
    requires StartMidway(pc, w, v, UNDISTURBED) && StopsAt(pc, cancelled, w.flags.isInitialized, ok)
    requires pc.LoadSystem? && w.conf.Some? ==> w.conf.value.systemRules != []
    ensures Sync.StartSpec(w, NoteStart(UNDISTURBED, pc, cancelled, ok)) == Sync.Effect(v, EndAt(pc))
  {
    hide Sync.StartSpec, NoteStart, LoadedUpTo;
    if pc.Ctx0? || pc.CheckInit? {
      StartSpecEarly(w, pc, cancelled, ok);
    } else if pc.Loading() {
      StartSpecLoad(w, pc, cancelled);
    } else {
      StartSpecLate(w, pc, cancelled, ok);
    }
  }

  lemma StartupEnds(s: State, ok: bool)
    requires s.holder.Startup? && HolderEnabled(s) && StartupDo(s, ok).returned.Some?
    ensures var n, pc, h := StartupDo(s, ok), s.holder.pc, s.holder;
            && n.next == s.(holder := Free)
            && ((pc.Ctx0? && h.cancelled && n.returned == Some(StartupFailed(h.first, false, ContextEnded)))
                || (pc.CheckInit? && !s.flags.isInitialized
                    && n.returned == Some(StartupFailed(h.first, false, Uninitialized)))
                || (pc.LoadFlow? && !ok && n.returned == Some(StartupFailed(h.first, false, FlowFailed)))
                || (pc.LoadBreaker? && !ok && n.returned == Some(StartupFailed(h.first, false, BreakerFailed)))
                || (pc.LoadSystem? && !ok && n.returned == Some(StartupFailed(h.first, false, SystemFailed)))
                || (pc.Ctx1? && h.cancelled && n.returned == Some(StartupFailed(h.first, false, ContextEnded)))
                || (pc.Publish? && n.returned == Some(StartupOk(h.first))))
  {
  }

  // Until the rules are in, the configuration is the one found.
  lemma StartupConf(h: Holder, l: Live, w: Sync.World, s: State, k: Seen)
    requires h.Startup? && Midway(h, w, ViewOf(s, l), k)
    ensures l.conf == w.conf && s.flags == w.flags
  {
    hide FlowImages, BreakerImages, SystemImages, StopOf;
  }

  lemma StartupReturns(s: State, l: Live, w: Sync.World, ok: bool, k: Seen)
    requires s.holder.Startup? && HolderEnabled(s) && StartupDo(s, ok).returned.Some?
    requires Midway(s.holder, w, ViewOf(s, l), k) && (NothingToLoad(s.holder, l.conf) ==> ok)
    ensures var n := StartupDo(s, ok);
            var e := Sync.StartSpec(w, NoteStart(k.start, s.holder.pc, s.holder.cancelled, ok));
            && n.next.holder.Free?
            && ViewOf(n.next, StartupLive(l, s.holder.pc, ok)) == e.world
            && Matches(n.returned.value, e.outcome)
  {
    StartupEnds(s, ok);
    StartupConf(s.holder, l, w, s, k);
    hide StartupDo, StopOf, Sync.StartSpec, NoteStart, StartMidway, RollbackMidway, CleanMidway, InitMidway, ConfigureMidway;
    assert StartupLive(l, s.holder.pc, ok) == l;
    StartSpecFrom(w, ViewOf(s, l), s.holder.pc, s.holder.cancelled, ok);
  }

  lemma RollbackStop(s: State)
    requires PoolInv(s.pool, s.holder) && s.holder.Rollback? && HolderEnabled(s)
    ensures var n := RollbackDo(s).next;
            && n.flags == s.flags
            && StopOf(n.pool) == (if s.holder.stop.Probe? then StopOf(s.pool) else Sync.ClosedChannel)
            && (s.holder.stop.Probe? ==> (n.holder.stop.Await? <==> StopOf(s.pool) == Sync.ClosedChannel))
  {
  }

  lemma RollbackFits(s: State, l: Live, w: Sync.World, k: Seen)
    requires PoolInv(s.pool, s.holder) && s.holder.Rollback? && HolderEnabled(s)
    requires Midway(s.holder, w, ViewOf(s, l), k)
    ensures var n := RollbackDo(s);
            if n.returned == None then Midway(n.next.holder, w, ViewOf(n.next, l), k)
            else
              var e := Sync.StartSpec(w, k.start);
              n.next.holder.Free? && ViewOf(n.next, l) == e.world && Matches(n.returned.value, e.outcome)
  {
    RollbackStop(s);
    StartSpecRollback(w, k.start);
    LoadsLeaveTheRest(w, 3);
    LoadsIgnoreTheChannel(w, 3, Sync.OpenChannel);
    LoadsIgnoreTheChannel(w, 3, Sync.ClosedChannel);
    hide Sync.StartSpec, LoadedUpTo, StopOf, PoolInv, StartMidway, CleanMidway, InitMidway, ConfigureMidway;
  }

  lemma CleanupStop(s: State)
    requires PoolInv(s.pool, s.holder) && s.holder.Cleanup? && HolderEnabled(s)
    ensures var n, c := CleanupDo(s).next, s.holder.clean;
            && n.flags == s.flags
            && StopOf(n.pool) == (if c.CClose? then Sync.ClosedChannel else StopOf(s.pool))
            && (c.CClose? ==> StopOf(s.pool) == Sync.OpenChannel)
            && (if c.CClear? then
                  && n.holder.Free?
                  && CleanupDo(s).returned == Some(if c.failed then CleanupAbandoned else CleanupOk)
                else
                  && CleanupDo(s).returned == None
                  && n.holder.Cleanup? && n.holder.ended == s.holder.ended && !n.holder.clean.CProbe?
                  && (n.holder.clean.CClose? <==> c.CProbe? && StopOf(s.pool) == Sync.OpenChannel))
  {
  }

  // What is noted where cleanup looks at `done` is what it acts on.
  lemma CleanupNotes(s: State, drained: bool)
    requires s.holder.Cleanup? && HolderEnabled(s)
    ensures var c, h, d := s.holder.clean, CleanupDo(s).next.holder, NoteCleanup(drained, s.holder.clean, s.holder.done, s.pool);
            && (h.Cleanup? && h.clean.CClear? ==> d == !h.clean.failed)
            && (c.CClear? ==> d == drained)
  {
  }

  lemma CleanupFits(s: State, l: Live, w: Sync.World, k: Seen)
    requires PoolInv(s.pool, s.holder) && s.holder.Cleanup? && HolderEnabled(s)
    requires Midway(s.holder, w, ViewOf(s, l), k)
    ensures var n, l' := CleanupDo(s), CleanupLive(l, s.holder.clean);
            var k' := k.(drained := NoteCleanup(k.drained, s.holder.clean, s.holder.done, s.pool));
            if n.returned == None then Midway(n.next.holder, w, ViewOf(n.next, l'), k')
            else
              var e := Sync.CleanSpec(w, k'.drained);
              n.next.holder.Free? && ViewOf(n.next, l') == e.world && Matches(n.returned.value, e.outcome)
  {
    CleanupStop(s);
    CleanupNotes(s, k.drained);
    hide StopOf, PoolInv, NoteCleanup, CleanupDo, HolderEnabled, StartMidway, RollbackMidway, InitMidway, ConfigureMidway;
  }

  lemma InitConfigures(s: State, l: Live, w: Sync.World, ok: bool, d: Supply, k: Seen)
    requires s.holder.Initializing? && InitDo(s, ok).returned == None
    requires Midway(s.holder, w, ViewOf(s, l), k) && Answers(s.holder, l.conf, ok, d)
    requires s.holder.init.Base? || s.holder.init.Scan? || s.holder.init.Validate?
    ensures var n, k' := InitDo(s, ok).next, k.(init := NoteInit(k.init, s.holder.init, ok, false, s.core, d));
            Midway(n.holder, w, ViewOf(n, InitLive(l, s.holder.init, false, d)), k')
  {
    hide Sync.ValidConfig, Sync.WithDefaults, Sync.InitFlags, StopOf, StartMidway, RollbackMidway, CleanMidway, ConfigureMidway;
  }

  lemma InitMarks(s: State, l: Live, w: Sync.World, ok: bool, d: Supply, k: Seen)
    requires s.holder.Initializing? && InitDo(s, ok).returned == None
    requires Midway(s.holder, w, ViewOf(s, l), k) && Answers(s.holder, l.conf, ok, d)
    requires !s.holder.init.Base? && !s.holder.init.Scan? && !s.holder.init.Validate?
    ensures var n, k' := InitDo(s, ok).next, k.(init := NoteInit(k.init, s.holder.init, ok, false, s.core, d));
            Midway(n.holder, w, ViewOf(n, InitLive(l, s.holder.init, false, d)), k')
  {
    hide Sync.ValidConfig, Sync.WithDefaults, StopOf, StartMidway, RollbackMidway, CleanMidway, ConfigureMidway;
  }

  lemma InitFails(s: State, l: Live, w: Sync.World, ok: bool, d: Supply, k: Seen)
    requires s.holder.Initializing? && InitDo(s, ok).returned.Some? && !s.holder.init.MarkInit?
    requires Midway(s.holder, w, ViewOf(s, l), k) && Answers(s.holder, l.conf, ok, d)
    ensures var n, l' := InitDo(s, ok), InitLive(l, s.holder.init, false, d);
            var e := Sync.InitSpec(w, NoteInit(k.init, s.holder.init, ok, false, s.core, d));
            n.next.holder.Free? && ViewOf(n.next, l') == e.world && Matches(n.returned.value, e.outcome)
  {
    hide Sync.ValidConfig, Sync.WithDefaults, Sync.InitFlags, StopOf, StartMidway, RollbackMidway, CleanMidway, ConfigureMidway;
  }

  lemma InitSucceeds(s: State, l: Live, w: Sync.World, ok: bool, d: Supply, k: Seen)
    requires s.holder.Initializing? && s.holder.init.MarkInit?
    requires Midway(s.holder, w, ViewOf(s, l), k)
    ensures var n, l' := InitDo(s, ok), InitLive(l, s.holder.init, false, d);
            var e := Sync.InitSpec(w, NoteInit(k.init, s.holder.init, ok, false, s.core, d));
            && n.returned.Some? && n.next.holder.Free?
            && ViewOf(n.next, l') == e.world && Matches(n.returned.value, e.outcome)
  {
    hide Sync.ValidConfig, Sync.WithDefaults, StopOf, StartMidway, RollbackMidway, CleanMidway, ConfigureMidway;
  }

  lemma ConfigureInstalls(s: State, l: Live, w: Sync.World, ok: bool, d: Supply, k: Seen)
    requires s.holder.Configuring? && s.holder.step.Vet?
    requires Midway(s.holder, w, ViewOf(s, l), k) && Answers(s.holder, l.conf, ok, d)
    ensures var n, l' := ConfigureDo(s, ok), ConfigureLive(l, Vet, ok, d);
            if n.returned == None then Midway(n.next.holder, w, ViewOf(n.next, l'), k.(arg := d.arg))
            else
              var e := Sync.ConfigureSpec(w, d.arg, k.loads);
              n.next.holder.Free? && ViewOf(n.next, l') == e.world && Matches(n.returned.value, e.outcome)
  {
    hide Sync.ValidConfig, Sync.ReloadSpec, StopOf;
    if d.arg.Given? { LoadsLeaveTheRest(w.(conf := Some(d.arg.conf)), 0); }
    hide LoadedUpTo, StartMidway, RollbackMidway, CleanMidway, InitMidway;
  }

  function StageOfStep(step: ConfPc): Sync.Stage {
    match step case ReloadBreaker => Sync.BreakerStage case ReloadSystem => Sync.SystemStage case _ => Sync.FlowStage
  }

  lemma ReloadFits(l: Live, w: Sync.World, v: Sync.World, step: ConfPc, arg: Sync.ConfigArg, ok: bool)
    requires !step.Vet? && ConfigureMidway(step, w, v, arg, ALL_LOAD) && l == LiveOf(v)
    requires NothingToLoad(Configuring(step), l.conf) ==> ok
    ensures var e, l' := Sync.ConfigureSpec(w, arg, NoteLoad(ALL_LOAD, StageOfStep(step), ok)),
                         if ok then LoadDo(l, StageOfStep(step)) else l;
            && (!ok || step.ReloadSystem? ==>
                  && LiveOf(e.world) == l' && e.world.flags == v.flags && e.world.stop == v.stop
                  && e.outcome == if ok then Sync.Ok else Sync.LoadFailed(StageOfStep(step)))
            && (ok && !step.ReloadSystem? ==>
                  var next := if step.ReloadFlow? then ReloadBreaker else ReloadSystem;
                  ConfigureMidway(next, w, WithLive(v, l'), arg, ALL_LOAD))
  {
    var u, n := w.(conf := Some(arg.conf)), StagesBeforeStep(step);
    ReloadSpecAt(u, NoteLoad(ALL_LOAD, StageOfStep(step), ok));
    LoadsLeaveTheRest(u, n);
    LoadsLeaveTheRest(u, n + 1);
    LoadLeadsOn(u, l, n, StageOfStep(step));
    hide Sync.ValidConfig, Sync.ReloadSpec, LoadedUpTo, LoadDo;
  }

  lemma ConfigureReloads(s: State, l: Live, w: Sync.World, ok: bool, d: Supply, k: Seen)
    requires s.holder.Configuring? && !s.holder.step.Vet?
    requires Midway(s.holder, w, ViewOf(s, l), k) && Answers(s.holder, l.conf, ok, d)
    ensures var n, l' := ConfigureDo(s, ok), ConfigureLive(l, s.holder.step, ok, d);
            var k' := NoteConfigure(k, s.holder.step, ok, d);
            if n.returned == None then Midway(n.next.holder, w, ViewOf(n.next, l'), k')
            else
              var e := Sync.ConfigureSpec(w, k'.arg, k'.loads);
              n.next.holder.Free? && ViewOf(n.next, l') == e.world && Matches(n.returned.value, e.outcome)
  {
    ConfigureConf(s, l, w, k);
    ReloadFits(l, w, ViewOf(s, l), s.holder.step, k.arg, ok);
    ReloadNext(s, ok);
    assert NoteConfigure(k, s.holder.step, ok, d) == k.(loads := NoteLoad(ALL_LOAD, StageOfStep(s.holder.step), ok));
    assert ok ==> NoteLoad(ALL_LOAD, StageOfStep(s.holder.step), ok) == ALL_LOAD;
    hide Sync.ConfigureSpec, StopOf, LoadDo, ConfigureDo, NoteConfigure, NoteLoad, StartMidway, RollbackMidway, CleanMidway, InitMidway, ConfigureMidway;
    var n, l' := ConfigureDo(s, ok), ConfigureLive(l, s.holder.step, ok, d);
    assert l' == if ok then LoadDo(l, StageOfStep(s.holder.step)) else l;
    assert ViewOf(n.next, l') == WithLive(ViewOf(s, l), l');
  }

  lemma ReloadNext(s: State, ok: bool)
    requires s.holder.Configuring? && !s.holder.step.Vet?
    ensures var n, step := ConfigureDo(s, ok), s.holder.step;
            && n.next.flags == s.flags && n.next.pool == s.pool
            && (!ok || step.ReloadSystem? ==>
                  && n.next.holder.Free? && n.returned.Some? && n.returned.value.ConfigureReturned?
                  && (if ok then n.returned.value.failure == None
                      else n.returned.value.failure.Some?
                           && Specified(n.returned.value.failure.value) == Sync.LoadFailed(StageOfStep(step))))
            && (ok && !step.ReloadSystem? ==>
                  n.returned == None
                  && n.next.holder == Configuring(if step.ReloadFlow? then ReloadBreaker else ReloadSystem))
  {
  }

  lemma ConfigureConf(s: State, l: Live, w: Sync.World, k: Seen)
    requires s.holder.Configuring? && !s.holder.step.Vet? && Midway(s.holder, w, ViewOf(s, l), k)
    ensures l.conf.Some? && k.loads == ALL_LOAD
  {
    hide FlowImages, BreakerImages, SystemImages, StopOf;
  }

  lemma StartupPanicFits(s: State, l: Live, w: Sync.World, k: Seen)
    requires s.holder.Startup? && CanPanic(s.holder, s.core) && !NothingToLoad(s.holder, l.conf)
    requires Midway(s.holder, w, ViewOf(s, l), k)
    ensures var n := PanicDo(s);
            && ViewOf(n.next, l)
               == Sync.StartSpec(w, NoteStart(k.start, s.holder.pc, s.holder.cancelled, false)).world
            && n.next.holder.Free? && n.returned.Some? && n.returned.value.StartupPanicked?
  {
    StartupConf(s.holder, l, w, s, k);
    hide StopOf, Sync.StartSpec, NoteStart, StartMidway, RollbackMidway, CleanMidway, InitMidway, ConfigureMidway;
    StartSpecFrom(w, ViewOf(s, l), s.holder.pc, s.holder.cancelled, false);
  }

  lemma InitPanicFits(s: State, l: Live, w: Sync.World, d: Supply, k: Seen)
    requires s.holder.Initializing? && CanPanic(s.holder, s.core) && Midway(s.holder, w, ViewOf(s, l), k)
    ensures var n, l' := PanicDo(s), InitLive(l, s.holder.init, true, d);
            && ViewOf(n.next, l') == Sync.InitSpec(w, NoteInit(k.init, s.holder.init, false, true, s.core, d)).world
            && n.next.holder.Free? && n.returned == Some(InitPanicked)
  {
    hide Sync.ValidConfig, Sync.WithDefaults, StopOf, StartMidway, RollbackMidway, CleanMidway, ConfigureMidway;
  }

  lemma ConfigurePanicFits(s: State, l: Live, w: Sync.World, d: Supply, k: Seen)
    requires s.holder.Configuring? && Midway(s.holder, w, ViewOf(s, l), k) && Panics(s.holder, l.conf, d)
    ensures var n, k' := PanicDo(s), NoteConfigure(k, s.holder.step, false, d);
            && ViewOf(n.next, l) == Sync.ConfigureSpec(w, k'.arg, k'.loads).world
            && n.next.holder.Free? && n.returned == Some(ConfigurePanicked)
  {
    if s.holder.step.Vet? {
      hide Sync.ReloadSpec, Sync.ValidConfig, StopOf, StartMidway, RollbackMidway, CleanMidway, InitMidway;
    } else {
      hide Sync.ConfigureSpec, StopOf, LoadDo, NoteConfigure, StartMidway, RollbackMidway, CleanMidway, InitMidway,
           ConfigureMidway;
      ConfigureConf(s, l, w, k);
      ReloadFits(l, w, ViewOf(s, l), s.holder.step, k.arg, false);
      FailureNoted(k, s.holder.step, d);
    }
  }

  lemma FailureNoted(k: Seen, step: ConfPc, d: Supply)
    requires !step.Vet? && k.loads == ALL_LOAD
    ensures NoteConfigure(k, step, false, d) == k.(loads := NoteLoad(ALL_LOAD, StageOfStep(step), false))
  {
  }

  // Everything else happens beside the call, or begins it, and changes nothing one could see.
  lemma OtherFits(s: State, l: Live, w: Sync.World, a: Action, d: Supply, k: Seen)
    requires Midway(s.holder, w, ViewOf(s, l), k) && Enabled(s, a) && !a.Advance? && !a.Panic?
    ensures Do(s, a).returned == None
    ensures ViewOf(Next(s, a), l) == ViewOf(s, l)
    ensures Midway(Next(s, a).holder, w, ViewOf(s, l), Observe(s, k, a, d))
  {
    hide Sync.ValidConfig, Sync.WithDefaults, LoadedUpTo;
  }

  // From the middle of a call a step leads further into it, or out of it with the specified effect.
  ghost predicate Fits(q: Plug, w: Sync.World, e: Event)
    requires Can(q, e)
  {
    var n, r := StepTo(q, e), Returns(q, e);
    if r == None then Midway(n.s.holder, w, View(n), n.seen)
    else
      && n.s.holder.Free?
      && View(n) == Perform(w, r.value)
      && (e.Take? ==> Matches(Do(q.s, e.action).returned.value, EffectOf(w, r.value).outcome))
  }

  lemma DynamicFits(q: Plug, w: Sync.World, op: Op)
    requires Midway(q.s.holder, w, View(q), q.seen) && Can(q, Dynamic(op))
    ensures Fits(q, w, Dynamic(op))
  {
    hide StopOf, Sync.AddFlow, Sync.RemoveFlow, Sync.AddBreaker, Sync.RemoveBreaker;
  }

  lemma PanicFits(q: Plug, w: Sync.World, d: Supply)
    requires Midway(q.s.holder, w, View(q), q.seen) && Can(q, Take(Panic, d))
    ensures Fits(q, w, Take(Panic, d))
  {
    hide StartMidway, RollbackMidway, CleanMidway, InitMidway, ConfigureMidway, ViewOf, PanicDo, InitLive,
         Sync.StartSpec, Sync.InitSpec, Sync.ConfigureSpec, NoteStart, NoteInit, NoteConfigure;
    match q.s.holder
    case Startup(_, _, _) => StartupPanicFits(q.s, q.live, w, q.seen);
    case Initializing(_, _, _) => InitPanicFits(q.s, q.live, w, d, q.seen);
    case Configuring(_) => ConfigurePanicFits(q.s, q.live, w, d, q.seen);
  }

  lemma AdvanceFits(q: Plug, w: Sync.World, ok: bool, d: Supply)
    requires Inv(q.s) && Midway(q.s.holder, w, View(q), q.seen) && Can(q, Take(Advance(ok), d))
    ensures Fits(q, w, Take(Advance(ok), d))
  {
    hide StartMidway, RollbackMidway, CleanMidway, InitMidway, ConfigureMidway, StartupDo, RollbackDo, CleanupDo,
         InitDo, ConfigureDo, ViewOf, Sync.StartSpec, Sync.CleanSpec, Sync.InitSpec, Sync.ConfigureSpec, Matches,
         PoolInv, FlagInv, StartupLive, CleanupLive, InitLive, ConfigureLive, NoteStart, NoteInit, NoteCleanup;
    var s, l, k := q.s, q.live, q.seen;
    match s.holder
    case Startup(_, _, _) =>
      if StartupDo(s, ok).returned == None { StartupGoesOn(s, l, w, ok, k); } else { StartupReturns(s, l, w, ok, k); }
    case Rollback(_, _) => RollbackFits(s, l, w, k);
    case Cleanup(_, _, _) => CleanupFits(s, l, w, k);
    case Initializing(init, _, _) =>
      if init.MarkInit? {
        InitSucceeds(s, l, w, ok, d, k);
      } else if InitDo(s, ok).returned.Some? {
        InitFails(s, l, w, ok, d, k);
      } else if init.Base? || init.Scan? || init.Validate? {
        InitConfigures(s, l, w, ok, d, k);
      } else {
        InitMarks(s, l, w, ok, d, k);
      }
    case Configuring(step) =>
      if step.Vet? { ConfigureInstalls(s, l, w, ok, d, k); } else { ConfigureReloads(s, l, w, ok, d, k); }
  }

  lemma StepFits(q: Plug, w: Sync.World, e: Event)
    requires Inv(q.s) && Midway(q.s.holder, w, View(q), q.seen) && Can(q, e)
    ensures Fits(q, w, e)
  {
    match e
    case Dynamic(op) => DynamicFits(q, w, op);
    case Take(a, d) =>
      if a.Advance? {
        AdvanceFits(q, w, a.ok, d);
      } else if a.Panic? {
        PanicFits(q, w, d);
      } else {
        hide Midway, ViewOf, Inv, Enabled, Observe;
        OtherFits(q.s, q.live, w, a, d, q.seen);
      }
  }

  // --- every run ---

  // A history can be cut anywhere.
  lemma {:induction false} HistoriesCompose(w: Sync.World, a: seq<Op>, b: seq<Op>, n: nat)
    requires n <= |b|
    ensures At(w, a + b, |a| + n) == At(PerformAll(w, a), b, n)
  {
    if n == 0 {
      PrefixIsHistory(w, a, b, |a|);
    } else {
      HistoriesCompose(w, a, b, n - 1);
      assert (a + b)[|a| + n - 1] == b[n - 1];
    }
  }

  lemma {:induction false} PrefixIsHistory(w: Sync.World, a: seq<Op>, b: seq<Op>, n: nat)
    requires n <= |a|
    ensures At(w, a + b, n) == At(w, a, n)
  {
    if n > 0 { PrefixIsHistory(w, a, b, n - 1); }
  }

  lemma StepKeepsProtocol(q: Plug, e: Event)
    requires Inv(q.s) && Can(q, e)
    ensures Inv(StepTo(q, e).s)
  {
    if e.Take? { StepKeeps(q.s, e.action); }
  }

  // A step that returns from a call ends its history with that call.
  lemma StepIsHistory(q: Plug, w: Sync.World, e: Event)
    requires Inv(q.s) && Midway(q.s.holder, w, View(q), q.seen) && Can(q, e)
    ensures var n, r := StepTo(q, e), Returns(q, e);
            Inv(n.s) && Midway(n.s.holder, if r.Some? then Perform(w, r.value) else w, View(n), n.seen)
  {
    StepKeepsProtocol(q, e);
    StepFits(q, w, e);
    var r := Returns(q, e);
    if r.Some? {
      StepSetsConf(w, r.value);
    }
    hide Inv, Can, StepTo, Returns, Perform, StartMidway, RollbackMidway, CleanMidway, InitMidway, ConfigureMidway,
         ConfSet, Initializes;
  }

  lemma {:induction false} RunIsHistory(q: Plug, w: Sync.World, es: seq<Event>)
    requires Inv(q.s) && Midway(q.s.holder, w, View(q), q.seen) && Runs(q, es)
    ensures var n := Reached(q, es);
            Inv(n.s) && Midway(n.s.holder, PerformAll(w, Calls(q, es)), View(n), n.seen)
    decreases |es|
  {
    hide Inv, Can, StepTo, Returns, Perform, Midway, View;
    if es != [] {
      var r := Returns(q, es[0]);
      var w' := if r.Some? then Perform(w, r.value) else w;
      var n := StepTo(q, es[0]);
      StepIsHistory(q, w, es[0]);
      RunIsHistory(n, w', es[1..]);
      var rest := Calls(n, es[1..]);
      if r.Some? {
        HistoriesCompose(w, [r.value], rest, |rest|);
        assert At(w, [r.value], 0) == w && PerformAll(w, [r.value]) == w';
      } else {
        assert [] + rest == rest;
      }
    }
  }

  lemma FreshIsPristine(q: Plug)
    requires IsFresh(q)
    ensures Inv(q.s) && Pristine(View(q)) && Midway(q.s.holder, View(q), View(q), q.seen)
  {
  }

  // However workers, waiters, recorders and contexts interleave with the lifecycle methods: whenever
  // the mutex is free, the plugin is in the state the returned calls lead to, performed one after
  // the other in the order in which they returned. What is proved about histories holds of all runs.
  lemma EveryRunIsAHistory(q: Plug, es: seq<Event>)
    requires IsFresh(q) && Runs(q, es)
    ensures Pristine(View(q))
    ensures Reached(q, es).s.holder.Free? ==> View(Reached(q, es)) == PerformAll(View(q), Calls(q, es))
  {
    FreshIsPristine(q);
    RunIsHistory(q, View(q), es);
  }

  // What a returning call is said to have met, it has met: a context said to have ended has ended, a
  // load said to have failed is the statement that just failed or panicked, a cleanup said to have
  // drained leaves no live worker, and a core said to be in order has no error recorded.
  ghost predicate Justified(q: Plug, e: Event, op: Op) {
    var h := q.s.holder;
    match op
    case StartOp(env) =>
      && (env.ended0 || env.ended1 || env.ended2 || env.ended3 ==> q.seen.ended)
      && (!env.loads.flow ==> h.Startup? && h.pc.LoadFlow? && Stops(e))
      && (!env.loads.breaker ==> h.Startup? && h.pc.LoadBreaker? && Stops(e))
      && (!env.loads.system ==> h.Startup? && h.pc.LoadSystem? && Stops(e))
    case CleanOp(drained) =>
      if drained then Drained(q.s.pool) else q.seen.ended
    case InitOp(env) =>
      && (!env.baseOk ==> h.Initializing? && h.init.Base? && Stops(e))
      && (!env.scanOk ==> h.Initializing? && (h.init.Scan? || h.init.Validate?) && Stops(e))
      && (env.coreOk ==> h.Initializing? && (h.init.MarkInit? ==> q.s.core.onceDone && !q.s.core.failed))
      && (!env.coreOk ==> h.Initializing? && (q.s.core.failed || (h.init.Once? && e.Take? && e.action.Panic?)))
    case ConfigureOp(_, loads) =>
      && (!loads.flow ==> h == Configuring(ReloadFlow) && Stops(e))
      && (!loads.breaker ==> h == Configuring(ReloadBreaker) && Stops(e))
      && (!loads.system ==> h == Configuring(ReloadSystem) && Stops(e))
    case _ => e == Dynamic(op)
  }

  // The statement fails or panics.
  predicate Stops(e: Event) {
    e.Take? && (e.action == Advance(false) || e.action == Panic)
  }

  lemma StartIsJustified(q: Plug, w: Sync.World, e: Event)
    requires Midway(q.s.holder, w, View(q), q.seen) && Can(q, e) && Returns(q, e).Some?
    requires (q.s.holder.Startup? || q.s.holder.Rollback?) && e.Take?
    ensures Justified(q, e, Returns(q, e).value)
  {
    hide Sync.ValidConfig, Sync.WithDefaults, LoadedUpTo, StopOf;
  }

  lemma CleanIsJustified(q: Plug, w: Sync.World, e: Event)
    requires Inv(q.s) && Midway(q.s.holder, w, View(q), q.seen) && Can(q, e) && Returns(q, e).Some?
    requires q.s.holder.Cleanup? && e.Take?
    ensures Justified(q, e, Returns(q, e).value)
  {
    LiveCountZero(q.s.pool.workers);
    hide Sync.ValidConfig, Sync.WithDefaults, LoadedUpTo, StopOf, LiveCount;
  }

  lemma InitIsJustified(q: Plug, w: Sync.World, e: Event)
    requires Inv(q.s) && Midway(q.s.holder, w, View(q), q.seen) && Can(q, e) && Returns(q, e).Some?
    requires q.s.holder.Initializing? && e.Take?
    ensures Justified(q, e, Returns(q, e).value)
  {
    hide Sync.ValidConfig, Sync.WithDefaults, LoadedUpTo, StopOf, PoolInv;
  }

  lemma ConfigureIsJustified(q: Plug, w: Sync.World, e: Event)
    requires Midway(q.s.holder, w, View(q), q.seen) && Can(q, e) && Returns(q, e).Some?
    requires q.s.holder.Configuring? && e.Take?
    ensures Justified(q, e, Returns(q, e).value)
  {
    hide Sync.ValidConfig, Sync.WithDefaults, LoadedUpTo, StopOf;
  }

  lemma CallIsJustified(q: Plug, w: Sync.World, e: Event)
    requires Inv(q.s) && Midway(q.s.holder, w, View(q), q.seen) && Can(q, e) && Returns(q, e).Some?
    ensures Justified(q, e, Returns(q, e).value)
  {
    if e.Take? {
      hide Inv, Midway, Can, Justified, Do, Observe;
      match q.s.holder
      case Cleanup(_, _, _) => CleanIsJustified(q, w, e);
      case Initializing(_, _, _) => InitIsJustified(q, w, e);
      case Configuring(_) => ConfigureIsJustified(q, w, e);
      case Startup(_, _, _) => StartIsJustified(q, w, e);
      case Rollback(_, _) => StartIsJustified(q, w, e);
      case Free =>
    }
  }

  // And every call has the effect and the outcome specified, in the state the calls before it left,
  // for what it has demonstrably met.
  lemma EveryCallIsAtomic(q: Plug, es: seq<Event>, e: Event)
    requires IsFresh(q) && Runs(q, es) && Can(Reached(q, es), e) && Returns(Reached(q, es), e).Some?
    ensures var m, w := Reached(q, es), PerformAll(View(q), Calls(q, es));
            var op := Returns(m, e).value;
            && StepTo(m, e).s.holder.Free?
            && View(StepTo(m, e)) == Perform(w, op)
            && (e.Take? ==> Matches(Do(m.s, e.action).returned.value, EffectOf(w, op).outcome))
            && Justified(m, e, op)
  {
    FreshIsPristine(q);
    RunIsHistory(q, View(q), es);
    StepFits(Reached(q, es), PerformAll(View(q), Calls(q, es)), e);
    CallIsJustified(Reached(q, es), PerformAll(View(q), Calls(q, es)), e);
  }

  // The protocol launches workers in a startup that ends like this.
  predicate LaunchesBefore(r: Outcome) {
    r.StartupOk? || (r.StartupFailed? && r.rolledBack) || (r.StartupPanicked? && r.late)
  }

  // A startup that stops early meets what keeps it from launching, one that stops late does not.
  lemma EarlyMeansNoLaunch(w: Sync.World, v: Sync.World, pc: StartPc, cancelled: bool, ok: bool)
    requires StartMidway(pc, w, v, UNDISTURBED) && StopsAt(pc, cancelled, w.flags.isInitialized, ok)
    requires pc.LoadSystem? && w.conf.Some? ==> w.conf.value.systemRules != []
    ensures Sync.ReachesLaunch(w, NoteStart(UNDISTURBED, pc, cancelled, ok)) <==> pc.Attaching()
  {
    hide Sync.ReloadSpec, LoadedUpTo, NoteLoad;
    if pc.Loading() {
      ReloadSpecAt(w, NoteLoad(ALL_LOAD, StageOf(pc).value, false));
    } else if pc.Attaching() {
      ReloadSpecAt(w, ALL_LOAD);
    }
  }

  lemma RollbackMeansLaunch(w: Sync.World, e: Sync.StartEnv)
    requires w.flags.isInitialized && w.conf.Some?
    requires e == UNDISTURBED.(ended2 := true) || e == UNDISTURBED.(ended3 := true)
    ensures Sync.ReachesLaunch(w, e)
  {
    ReloadSpecAt(w, ALL_LOAD);
    hide Sync.ReloadSpec, LoadedUpTo;
  }

  // Where a startup stops, its outcome tells whether it has launched.
  lemma OutcomeTellsLaunch(s: State, a: Action)
    requires Enabled(s, a) && EndsStartup(Do(s, a).returned)
    ensures var r, h := Do(s, a).returned.value, s.holder;
            && (h.Rollback? ==> LaunchesBefore(r))
            && (h.Startup? ==> (LaunchesBefore(r) <==> h.pc.Attaching()))
            && (h.Startup? ==> StopsAt(h.pc, h.cancelled, s.flags.isInitialized, a.Advance? && a.ok))
            && (h.Rollback? ==> a.Advance?)
  {
    StartupOutcomes(s, a);
    if a.Advance? && s.holder.Startup? { StartupEnds(s, a.ok); }
    hide HolderDo, HolderEnabled;
  }

  lemma StepLaunchesAsSpecified(q: Plug, w: Sync.World, a: Action, d: Supply)
    requires Inv(q.s) && Midway(q.s.holder, w, View(q), q.seen) && Can(q, Take(a, d))
    requires EndsStartup(Do(q.s, a).returned)
    ensures Sync.ReachesLaunch(w, Observe(q.s, q.seen, a, d).start) <==> LaunchesBefore(Do(q.s, a).returned.value)
  {
    var s, l, k := q.s, q.live, q.seen;
    StartupOutcomes(s, a);
    OutcomeTellsLaunch(s, a);
    if s.holder.Startup? {
      StartupConf(s.holder, l, w, s, k);
      hide Do, Enabled, StopOf, NoteStart, Sync.ReachesLaunch, StartMidway, Inv, LaunchesBefore;
      EarlyMeansNoLaunch(w, View(q), s.holder.pc, s.holder.cancelled, a.Advance? && a.ok);
    } else {
      hide Do, Enabled, StopOf, NoteStart, Sync.ReachesLaunch, LoadedUpTo, Inv, LaunchesBefore;
      RollbackMeansLaunch(w, k.start);
    }
  }

  // A startup launches workers in a run exactly when the specification of the call says so, for what
  // it has met.
  lemma StartupLaunchesAsSpecified(q: Plug, es: seq<Event>, a: Action, d: Supply)
    requires IsFresh(q) && Runs(q, es) && Can(Reached(q, es), Take(a, d))
    requires EndsStartup(Do(Reached(q, es).s, a).returned)
    ensures var m, w := Reached(q, es), PerformAll(View(q), Calls(q, es));
            var r := Do(m.s, a).returned.value;
            && Returns(m, Take(a, d)) == Some(StartOp(Observe(m.s, m.seen, a, d).start))
            && (Sync.ReachesLaunch(w, Observe(m.s, m.seen, a, d).start) <==> LaunchesBefore(r))
            && LaunchedSince(StepTo(m, Take(a, d)).s.pool, r.first,
                             if LaunchesBefore(r) then Configured(m.s.flags) else [])
  {
    var m := Reached(q, es);
    FreshIsPristine(q);
    RunIsHistory(q, View(q), es);
    StepLaunchesAsSpecified(m, PerformAll(View(q), Calls(q, es)), a, d);
    ProtocolRuns(q, es);
    StartupLaunches(q.s, Actions(es), a);
    StartupOutcomes(m.s, a);
    hide Runs, Reached, Valid, After, Do, Enabled, Calls, View, Midway, IsFresh, Observe, LaunchedSince, Sync.ReachesLaunch,
         LiveDo;
  }

  // --- cleanup and startup, all they do ---

  function Actions(es: seq<Event>): seq<Action> {
    if es == [] then []
    else (if es[0].Take? then [es[0].action] else []) + Actions(es[1..])
  }

  // Leaving the rules out gives a run of the protocol.
  lemma {:induction false} ProtocolRuns(q: Plug, es: seq<Event>)
    requires Runs(q, es)
    ensures Valid(q.s, Actions(es)) && After(q.s, Actions(es)) == Reached(q, es).s
    decreases |es|
  {
    if es != [] {
      ProtocolRuns(StepTo(q, es[0]), es[1..]);
      if es[0].Take? {
        assert Actions(es)[1..] == Actions(es[1..]);
      } else {
        assert Actions(es) == Actions(es[1..]);
      }
    }
  }

  // Cleanup, however its wait ends: the channel is closed, all workers still alive have been told to
  // stop, and no rule is left. A nil result means that no worker is alive, an error that the context
  // had ended.
  lemma CleanupSignalsAndClears(q: Plug, es: seq<Event>, a: Action, d: Supply)
    requires IsFresh(q) && Runs(q, es) && Can(Reached(q, es), Take(a, d))
    requires Do(Reached(q, es).s, a).returned.Some?
    requires var r := Do(Reached(q, es).s, a).returned.value; r.CleanupOk? || r.CleanupAbandoned?
    ensures var m, n := Reached(q, es), StepTo(Reached(q, es), Take(a, d));
            var r := Do(m.s, a).returned.value;
            && AllSignalled(n.s.pool)
            && n.live == Live(m.live.conf, multiset{}, multiset{}, multiset{})
            && (r.CleanupOk? ==> Drained(n.s.pool))
            && (r.CleanupAbandoned? ==> m.s.holder.Cleanup? && m.s.holder.ended)
  {
    ProtocolRuns(q, es);
    CleanupAlwaysSignals(q.s, Actions(es), a);
    ReturningCleanup(Reached(q, es).s, a);
    hide Runs, Reached, Valid, After, AllSignalled, Drained, Do, Enabled;
  }

  lemma ReturningCleanup(s: State, a: Action)
    requires Enabled(s, a) && Do(s, a).returned.Some?
    requires var r := Do(s, a).returned.value; r.CleanupOk? || r.CleanupAbandoned?
    ensures a.Advance? && s.holder.Cleanup? && s.holder.clean.CClear?
    ensures Do(s, a).returned in {Some(CleanupOk), Some(CleanupAbandoned)}
  {
  }

  lemma ReturningStartup(s: State, a: Action)
    requires Enabled(s, a) && Do(s, a).returned.Some? && Do(s, a).returned.value.StartupOk?
    ensures a.Advance? && s.holder.Startup? && s.holder.pc.Publish?
  {
  }

  // The configured rules are in force, except that earlier system rules stay when none are
  // configured and no cleanup has come after them.
  ghost predicate ConfiguredRulesLive(v: Sync.World, w: Sync.World, ops: seq<Op>) {
    && v.conf.Some?
    && var c, k := v.conf.value, LastIndex(|ops|, SystemSets(w, ops));
       && v.flow == FlowImages(c.flowRules)
       && v.breaker == BreakerImages(c.breakerRules)
       && (v.system == SystemImages(c.systemRules) <==> c.systemRules != [] || k < 0 || ops[k].CleanOp?)
  }

  lemma SuccessfulStartLoads(w: Sync.World, ops: seq<Op>, env: Sync.StartEnv)
    requires Pristine(w) && EffectOf(PerformAll(w, ops), StartOp(env)).outcome.Ok?
    ensures ConfiguredRulesLive(Perform(PerformAll(w, ops), StartOp(env)), w, ops)
  {
    StartupAfterAnyHistory(w, ops, env);
    hide Sync.StartSpec, At, SystemSets, FlowImages, BreakerImages, SystemImages, Pristine;
  }

  lemma StartupReturnsOk(m: Plug, a: Action, d: Supply)
    requires Can(m, Take(a, d)) && Do(m.s, a).returned.Some? && Do(m.s, a).returned.value.StartupOk?
    ensures m.s.holder.Startup? && Returns(m, Take(a, d)) == Some(StartOp(Observe(m.s, m.seen, a, d).start))
    ensures StepTo(m, Take(a, d)).s == Next(m.s, a)
  {
    ReturningStartup(m.s, a);
    hide Do, Enabled, Observe, LiveDo, Answers;
  }

  // A startup that returns nil: the configured workers run on the open channel, under the
  // configured rules.
  lemma StartupStartsAndLoads(q: Plug, es: seq<Event>, a: Action, d: Supply)
    requires IsFresh(q) && Runs(q, es) && Can(Reached(q, es), Take(a, d))
    requires Do(Reached(q, es).s, a).returned.Some?
    requires Do(Reached(q, es).s, a).returned.value.StartupOk?
    ensures var m, n := Reached(q, es), StepTo(Reached(q, es), Take(a, d));
            && CurOpen(n.s.pool)
            && LaunchedSince(n.s.pool, Do(m.s, a).returned.value.first, Configured(n.s.flags))
            && ConfiguredRulesLive(View(n), View(q), Calls(q, es))
  {
    var m := Reached(q, es);
    StartupReturnsOk(m, a, d);
    ProtocolRuns(q, es);
    StartupLaunches(q.s, Actions(es), a);
    OtherStartupExitsKeepWorkers(q.s, Actions(es), a);
    FreshIsPristine(q);
    EveryCallIsAtomic(q, es, Take(a, d));
    hide Runs, Reached, Valid, After, Do, Enabled, StepTo, Returns, Can, Calls, View, PerformAll, Observe, EffectOf,
         LaunchedSince, IsFresh, Pristine, ConfiguredRulesLive, Justified;
    SuccessfulStartLoads(View(q), Calls(q, es), Observe(m.s, m.seen, a, d).start);
  }
}
