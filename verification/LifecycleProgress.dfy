/**
  Waiting for the workers while holding `s.mu` cannot deadlock: workers drain without the lock, and
  from every reachable state the lock can be released.
*/
module LifecycleProgress {
  import opened Wrappers
  import opened Lifecycle
  import opened LifecycleInvariant
  import opened LifecycleSafety

  // Distance to Finished along the stop path; a tick moves a worker one step back.
  function Distance(ph: Phase): nat {
    match ph
    case Launched => 5
    case Collecting => 4
    case Ticking => 3
    case Serving => 3
    case ShuttingDown => 2
    case Leaving => 1
    case Finished => 0
  }

  // As Distance, but blind to ticks.
  function Stage(ph: Phase): nat {
    match ph
    case Launched => 4
    case Collecting => 3
    case Ticking => 3
    case Serving => 3
    case ShuttingDown => 2
    case Leaving => 1
    case Finished => 0
  }

  function TotalDistance(ws: seq<Worker>): nat {
    if ws == [] then 0 else TotalDistance(ws[..|ws| - 1]) + Distance(ws[|ws| - 1].phase)
  }

  function TotalStage(ws: seq<Worker>): nat {
    if ws == [] then 0 else TotalStage(ws[..|ws| - 1]) + Stage(ws[|ws| - 1].phase)
  }

  lemma {:induction false} TotalsUpdate(ws: seq<Worker>, i: nat, w: Worker)
    requires i < |ws|
    ensures TotalDistance(ws[i := w]) == TotalDistance(ws) - Distance(ws[i].phase) + Distance(w.phase)
    ensures TotalStage(ws[i := w]) == TotalStage(ws) - Stage(ws[i].phase) + Stage(w.phase)
  {
    var k := |ws| - 1;
    if i == k {
      assert ws[i := w][..k] == ws[..k];
    } else {
      TotalsUpdate(ws[..k], i, w);
      assert ws[i := w][..k] == ws[..k][i := w];
    }
  }

  // What is left to do before the WaitGroup is down to zero, the recorder's mutex included.
  function Remaining(s: State): nat {
    TotalDistance(s.pool.workers) + if s.collectorLocked then 1 else 0
  }

  // A cleanup or a rollback waits for the workers with s.mu held.
  ghost predicate Waits(h: Holder) {
    || (h.Rollback? && h.stop.Await?)
    || (h.Cleanup? && h.clean.CSelect?)
  }

  // Steps that take no lifecycle lock: workers, and the recorder giving back the collector mutex.
  ghost predicate Background(a: Action) {
    a.Work? || a.RecorderUnlock?
  }

  lemma BackgroundIgnoresTheLock(s: State, a: Action, h: Holder)
    requires Background(a)
    ensures Enabled(s, a) <==> Enabled(s.(holder := h), a)
    ensures Enabled(s, a) ==>
              && Next(s, a).holder == s.holder
              && Next(s.(holder := h), a) == Next(s, a).(holder := h)
  {
  }

  // The next statement of worker `i` towards Done, or the unlock it is blocked behind.
  function Towards(s: State, i: nat): Action
    requires i < |s.pool.workers|
  {
    if s.pool.workers[i].phase.Collecting? && s.collectorLocked then RecorderUnlock else Work(i, false)
  }

  lemma WorkerCanAdvance(p: Pool, locked: bool, i: nat)
    requires i < |p.workers| && p.workers[i].Live() && Closed(p, p.workers[i].gen)
    requires p.workers[i].phase.Collecting? ==> !locked
    ensures WorkerEnabled(p, locked, i, false)
    ensures TotalDistance(WorkerDo(p, i, false).workers) < TotalDistance(p.workers)
  {
    TotalsUpdate(p.workers, i, p.workers[i].(phase := NextPhase(p.workers[i], false)));
  }

  lemma EveryWorkerCanAdvance(s: State, i: nat)
    requires Inv(s) && Waits(s.holder)
    requires i < |s.pool.workers| && s.pool.workers[i].Live()
    ensures var a := Towards(s, i);
            Background(a) && Enabled(s, a) && Remaining(Next(s, a)) < Remaining(s)
  {
    NotOpenMeansSignalled(s.pool);
    if Towards(s, i).Work? {
      WorkerCanAdvance(s.pool, s.collectorLocked, i);
    }
  }

  // Whatever a worker does, it never moves away from Done; only a tick and its collection, which
  // keep the stage, come without progress.
  lemma NoWorkerStepRegresses(s: State, i: nat, alt: bool)
    requires WorkerEnabled(s.pool, s.collectorLocked, i, alt)
    ensures var n := WorkerDo(s.pool, i, alt);
            && TotalStage(n.workers) <= TotalStage(s.pool.workers)
            && (TotalStage(n.workers) == TotalStage(s.pool.workers) <==>
                  IsTick(s, Work(i, alt)))
  {
    TotalsUpdate(s.pool.workers, i, s.pool.workers[i].(phase := NextPhase(s.pool.workers[i], alt)));
  }

  predicate IsTick(s: State, a: Action)
    requires Enabled(s, a) && a.Work?
  {
    var ph := s.pool.workers[a.worker].phase;
    (ph.Ticking? && a.alt) || ph.Collecting?
  }

  // How many steps of a run are worker steps other than a tick and its collection.
  function Moves(s: State, acts: seq<Action>): nat
    requires Valid(s, acts)
    decreases |acts|
  {
    if acts == [] then 0
    else
      var rest := Moves(Next(s, acts[0]), acts[1..]);
      if acts[0].Work? && !IsTick(s, acts[0]) then 1 + rest else rest
  }

  // A step that is not a worker's leaves the workers alone, but for the one it may launch.
  lemma OtherStepsOnlyLaunch(s: State, a: Action)
    requires Enabled(s, a) && !a.Work?
    ensures var ws, ws' := s.pool.workers, Next(s, a).pool.workers;
            || ws' == ws
            || (ws' != [] && ws'[..|ws'| - 1] == ws && ws'[|ws'| - 1].phase.Launched?)
  {
    if a.Advance? {
      match s.holder
      case Startup(pc, _, _) =>
        if pc.Launching() {
          var k := if pc.GoMetrics? then Metrics else Dashboard;
          assert Next(s, a).pool == Launch(s.pool, k);
        } else {
          assert StartupDo(s, a.ok).next.pool.workers == s.pool.workers;
        }
      case Rollback(_, _) => assert RollbackDo(s).next.pool.workers == s.pool.workers;
      case Cleanup(_, _, _) => assert CleanupDo(s).next.pool.workers == s.pool.workers;
      case Initializing(_, _, _) => assert InitDo(s, a.ok).next.pool == s.pool;
      case Configuring(_) => assert ConfigureDo(s, a.ok).next.pool == s.pool;
    }
  }

  // In any run at all only ticks can repeat: a worker makes at most four other steps. So all steps
  // but ticks are bounded by the stages left and four for each worker launched meanwhile.
  lemma {:induction false} OnlyTicksRepeat(s: State, acts: seq<Action>)
    requires Valid(s, acts)
    ensures var ws, ws' := s.pool.workers, After(s, acts).pool.workers;
            && |ws| <= |ws'|
            && Moves(s, acts) + TotalStage(ws') <= TotalStage(ws) + 4 * (|ws'| - |ws|)
    decreases |acts|
  {
    if acts != [] {
      var a := acts[0];
      if a.Work? {
        NoWorkerStepRegresses(s, a.worker, a.alt);
      } else {
        OtherStepsOnlyLaunch(s, a);
      }
      OnlyTicksRepeat(Next(s, a), acts[1..]);
    }
  }

  lemma {:induction false} SomeWorkerLives(ws: seq<Worker>) returns (i: nat)
    requires LiveCount(ws) > 0
    ensures i < |ws| && ws[i].Live()
  {
    var k := |ws| - 1;
    if ws[k].Live() { i := k; } else { i := SomeWorkerLives(ws[..k]); }
  }

  ghost predicate AllBackground(acts: seq<Action>) {
    forall k | 0 <= k < |acts| :: Background(acts[k])
  }

  // From every state that waits under the lock, background steps alone bring the count to zero.
  lemma {:induction false} DrainPath(s: State) returns (acts: seq<Action>)
    requires Inv(s) && Waits(s.holder)
    ensures AllBackground(acts) && |acts| <= Remaining(s)
    ensures Valid(s, acts)
    ensures var n := After(s, acts); Inv(n) && n.holder == s.holder && Drained(n.pool)
    decreases Remaining(s)
  {
    if s.pool.wg == 0 {
      acts := [];
      LiveCountZero(s.pool.workers);
    } else {
      var i := SomeWorkerLives(s.pool.workers);
      var a := Towards(s, i);
      EveryWorkerCanAdvance(s, i);
      StepKeeps(s, a);
      var rest := DrainPath(Next(s, a));
      acts := [a] + rest;
      assert acts[1..] == rest;
    }
  }

  // --- the lock as a whole ---

  // Statements the holder has left, at most, on the path that releases s.mu.
  function HolderLeft(p: Pool, h: Holder): nat {
    match h
    case Free => 0
    case Startup(pc, _, _) => 4 + StartLeft(pc)
    case Rollback(stop, _) => (match stop case Probe => 3 case Close => 2 case Await => 1)
    case Cleanup(clean, _, done) =>
      (match clean
       case CProbe => 8 case CClose => 7 case CSpawn => 6
       case CSelect => if done < |p.waiters| && p.waiters[done].Signalled? then 2
                       else if done < |p.waiters| && p.waiters[done].Released? then 3 else 4
       case CInner => 2
       case CClear(_) => 1)
    case Initializing(init, _, _) =>
      (match init
       case Base => 8 case Scan => 7 case Validate => 6 case Once => 5
       case CheckCore => 4 case MarkCore => 3 case Build => 2 case MarkInit => 1)
    case Configuring(step) =>
      (match step case Vet => 4 case ReloadFlow => 3 case ReloadBreaker => 2 case ReloadSystem => 1)
  }

  function StartLeft(pc: StartPc): nat {
    match pc
    case Ctx0 => 15 case CheckInit => 14 case Reset => 13 case LoadFlow => 12 case LoadBreaker => 11
    case LoadSystem => 10 case Ctx1 => 9 case AddMetrics => 8 case GoMetrics => 7 case AddDashboard => 6
    case GoDashboard => 5 case Ctx2 => 4 case Attach => 3 case Ctx3 => 2 case Publish => 1
  }

  // The step that brings the holder closer to releasing the lock once no worker is in the way.
  function Release(s: State): Action {
    if s.holder.Cleanup? && s.holder.clean.CSelect? && s.holder.done < |s.pool.waiters|
       && !s.pool.waiters[s.holder.done].Signalled?
    then Wake(s.holder.done)
    else Advance(true)
  }

  ghost predicate Gains(s: State, a: Action) {
    && Enabled(s, a)
    && HolderLeft(Next(s, a).pool, Next(s, a).holder) < HolderLeft(s.pool, s.holder)
  }

  lemma StartupCanAdvance(s: State)
    requires Inv(s) && s.holder.Startup?
    ensures Gains(s, Advance(true))
  {
    assert Next(s, Advance(true)) == StartupDo(s, true).next;
  }

  lemma StopCanAdvance(s: State)
    requires Inv(s) && (s.holder.Rollback? || s.holder.Cleanup?)
    requires Waits(s.holder) ==> s.pool.wg == 0
    ensures Gains(s, Release(s))
  {
    if Release(s).Wake? {
      assert Next(s, Release(s)).pool == WaiterDo(s.pool, s.holder.done);
    }
  }

  lemma InitCanAdvance(s: State)
    requires Inv(s) && s.holder.Initializing?
    ensures Gains(s, Advance(true))
  {
    assert Next(s, Advance(true)) == InitDo(s, true).next;
  }

  lemma HolderCanAdvance(s: State)
    requires Inv(s) && !s.holder.Free?
    requires Waits(s.holder) ==> s.pool.wg == 0
    ensures Gains(s, Release(s))
  {
    match s.holder
    case Startup(_, _, _) => StartupCanAdvance(s);
    case Rollback(_, _) => StopCanAdvance(s);
    case Cleanup(_, _, _) => StopCanAdvance(s);
    case Initializing(_, _, _) => InitCanAdvance(s);
    case Configuring(_) => assert Next(s, Advance(true)) == ConfigureDo(s, true).next;
  }

  // Drain first if the holder waits, then let it run to its return.
  lemma {:induction false} LockCanAlwaysBeReleased(s: State) returns (acts: seq<Action>)
    requires Inv(s)
    ensures Valid(s, acts) && After(s, acts).holder.Free?
    decreases HolderLeft(s.pool, s.holder), if s.pool.wg == 0 then 0 else 1
  {
    if s.holder.Free? {
      acts := [];
    } else if Waits(s.holder) && s.pool.wg != 0 {
      var drain := DrainPath(s);
      BackgroundKeepsWaiters(s, drain);
      var rest := LockCanAlwaysBeReleased(After(s, drain));
      RunsCompose(s, drain, rest);
      acts := drain + rest;
    } else {
      HolderCanAdvance(s);
      StepKeeps(s, Release(s));
      var rest := LockCanAlwaysBeReleased(Next(s, Release(s)));
      acts := [Release(s)] + rest;
      assert acts[1..] == rest;
    }
  }

  lemma {:induction false} BackgroundKeepsWaiters(s: State, acts: seq<Action>)
    requires Valid(s, acts) && AllBackground(acts)
    ensures After(s, acts).pool.waiters == s.pool.waiters
    decreases |acts|
  {
    if acts != [] {
      assert AllBackground(acts[1..]);
      BackgroundKeepsWaiters(Next(s, acts[0]), acts[1..]);
    }
  }

  // After any run, whatever holds s.mu and whatever it waits for, some continuation frees it.
  lemma NoDeadlock(s0: State, acts: seq<Action>) returns (more: seq<Action>)
    requires Run(s0, acts)
    ensures Valid(After(s0, acts), more) && After(After(s0, acts), more).holder.Free?
    ensures Valid(s0, acts + more) && After(s0, acts + more).holder.Free?
  {
    RunInv(s0, acts);
    more := LockCanAlwaysBeReleased(After(s0, acts));
    RunsCompose(s0, acts, more);
  }
}
