/**
  What the two kinds of workers do in every run: which statements they reach, that they go on until
  they are told to stop, and how they leave.
*/
module LifecycleWorkers {
  import opened Wrappers
  import opened Lifecycle
  import opened LifecycleInvariant
  import opened LifecycleSafety

  // Only the collector's worker waits for ticks and collects; only the dashboard's serves and shuts
  // a server down.
  ghost predicate InCharacter(w: Worker) {
    && (w.phase.Ticking? || w.phase.Collecting? ==> w.kind.Metrics?)
    && (w.phase.Serving? || w.phase.ShuttingDown? ==> w.kind.Dashboard?)
  }

  ghost predicate AllInCharacter(ws: seq<Worker>) {
    forall i | 0 <= i < |ws| :: InCharacter(ws[i])
  }

  // What one step may do to a worker: nothing, or one statement of its Start method.
  ghost predicate MayBecome(p: Pool, locked: bool, w: Worker, w': Worker) {
    && w'.kind == w.kind && w'.gen == w.gen
    && (w'.phase == w.phase
        || match w.phase
           case Launched => w'.phase.Leaving? || w'.phase == if w.kind.Metrics? then Ticking else Serving
           case Ticking => w'.phase.Collecting? || (w'.phase.Leaving? && Closed(p, w.gen))
           case Collecting => w'.phase.Ticking? && !locked
           case Serving => w'.phase.ShuttingDown? && Closed(p, w.gen)
           case ShuttingDown => w'.phase.Leaving?
           case Leaving => w'.phase.Finished?
           case Finished => false)
  }

  // Every step of anybody: old workers take at most one statement, new ones have just been launched.
  ghost predicate WorkersStep(s: State, n: State) {
    var ws, ws' := s.pool.workers, n.pool.workers;
    && |ws| <= |ws'|
    && (forall i | 0 <= i < |ws| :: MayBecome(s.pool, s.collectorLocked, ws[i], ws'[i]))
    && (forall i | |ws| <= i < |ws'| :: ws'[i].phase.Launched?)
  }

  lemma HolderStepsNoWorker(s: State, ok: bool)
    requires HolderEnabled(s)
    ensures WorkersStep(s, HolderDo(s, ok).next)
  {
    match s.holder
    case Startup(pc, _, _) =>
      if pc.Launching() {
        assert HolderDo(s, ok).next.pool == Launch(s.pool, if pc.GoMetrics? then Metrics else Dashboard);
      } else {
        assert StartupDo(s, ok).next.pool.workers == s.pool.workers;
      }
    case Rollback(_, _) => assert RollbackDo(s).next.pool.workers == s.pool.workers;
    case Cleanup(_, _, _) => assert CleanupDo(s).next.pool.workers == s.pool.workers;
    case Initializing(_, _, _) => assert InitDo(s, ok).next.pool == s.pool;
    case Configuring(_) => assert ConfigureDo(s, ok).next.pool == s.pool;
  }

  lemma WorkersTakeStatements(s: State, a: Action)
    requires Enabled(s, a)
    ensures WorkersStep(s, Next(s, a))
  {
    if a.Advance? { HolderStepsNoWorker(s, a.ok); }
  }

  lemma {:induction false} RunKeepsCharacter(s: State, acts: seq<Action>)
    requires Valid(s, acts) && AllInCharacter(s.pool.workers)
    ensures AllInCharacter(After(s, acts).pool.workers)
    decreases |acts|
  {
    if acts != [] {
      WorkersTakeStatements(s, acts[0]);
      hide Next, Enabled;
      RunKeepsCharacter(Next(s, acts[0]), acts[1..]);
    }
  }

  // In every run the collector's worker ticks and collects, and the dashboard's serves.
  lemma WorkersKeepToTheirKind(s0: State, acts: seq<Action>, i: nat)
    requires Run(s0, acts) && i < |After(s0, acts).pool.workers|
    ensures var w := After(s0, acts).pool.workers[i];
            && (w.phase.Ticking? || w.phase.Collecting? ==> w.kind.Metrics?)
            && (w.phase.Serving? || w.phase.ShuttingDown? ==> w.kind.Dashboard?)
  {
    RunKeepsCharacter(s0, acts);
    assert InCharacter(After(s0, acts).pool.workers[i]);
  }

  // --- until told to stop ---

  // In its loop, or blocked on its channel.
  predicate AtWork(ph: Phase) {
    ph.Ticking? || ph.Collecting? || ph.Serving?
  }

  lemma ClosedStays(s: State, a: Action, gen: nat)
    requires Inv(s) && Enabled(s, a) && Closed(s.pool, gen)
    ensures Closed(Next(s, a).pool, gen)
  {
    StepExtends(s, a);
  }

  // A worker that has begun its work keeps at it, whatever happens, as long as its channel is open.
  lemma {:induction false} WorkersStayUntilTold(s: State, acts: seq<Action>, i: nat)
    requires Inv(s) && Valid(s, acts) && i < |s.pool.workers| && AtWork(s.pool.workers[i].phase)
    ensures i < |After(s, acts).pool.workers|
    ensures var w := After(s, acts).pool.workers[i];
            w.kind == s.pool.workers[i].kind && w.gen == s.pool.workers[i].gen
            && (Closed(After(s, acts).pool, w.gen) || AtWork(w.phase))
    decreases |acts|
  {
    if acts != [] {
      var n, w := Next(s, acts[0]), s.pool.workers[i];
      WorkersTakeStatements(s, acts[0]);
      StepKeeps(s, acts[0]);
      StepExtends(s, acts[0]);
      assert MayBecome(s.pool, s.collectorLocked, w, n.pool.workers[i]);
      if AtWork(n.pool.workers[i].phase) {
        WorkersStayUntilTold(n, acts[1..], i);
      } else {
        RunExtends(n, acts[1..]);
      }
    }
  }

  // --- how they leave ---

  predicate Left(ph: Phase) {
    ph.Leaving? || ph.Finished?
  }

  // A dashboard that has served is gone only after it has shut its server down: some earlier state of
  // the run has it shutting down.
  lemma {:induction false} ServersShutDownFirst(s: State, acts: seq<Action>, i: nat) returns (k: nat)
    requires Valid(s, acts) && i < |s.pool.workers| && s.pool.workers[i].phase.Serving?
    requires i < |After(s, acts).pool.workers| && Left(After(s, acts).pool.workers[i].phase)
    ensures k < |acts| && Valid(s, acts[..k])
    ensures i < |After(s, acts[..k]).pool.workers| && After(s, acts[..k]).pool.workers[i].phase.ShuttingDown?
    decreases |acts|
  {
    var a := acts[0];
    var n := Next(s, a);
    WorkersTakeStatements(s, a);
    assert MayBecome(s.pool, s.collectorLocked, s.pool.workers[i], n.pool.workers[i]);
    if n.pool.workers[i].phase.ShuttingDown? {
      k := 1;
      assert acts[..1] == [a] && [a][1..] == [];
    } else {
      var j := ServersShutDownFirst(n, acts[1..], i);
      k := j + 1;
      assert acts[..k][1..] == acts[1..][..j];
    }
  }

  // A worker always has the steps that its select or its receive offer it: a tick at any time, the way
  // out once the channel is closed.
  lemma WorkersHaveTheirSteps(s: State, i: nat)
    requires i < |s.pool.workers| && InCharacter(s.pool.workers[i])
    ensures var w := s.pool.workers[i];
            && (w.phase.Launched? ==>
                  && Enabled(s, Work(i, false)) && Enabled(s, Work(i, true))
                  && Next(s, Work(i, false)).pool.workers[i].phase == (if w.kind.Metrics? then Ticking else Serving)
                  && Next(s, Work(i, true)).pool.workers[i].phase.Leaving?)
            && (w.phase.Ticking? ==>
                  Enabled(s, Work(i, true)) && Next(s, Work(i, true)).pool.workers[i].phase.Collecting?)
            && (w.phase.Ticking? && Closed(s.pool, w.gen) ==>
                  Enabled(s, Work(i, false)) && Next(s, Work(i, false)).pool.workers[i].phase.Leaving?)
            && (w.phase.Serving? ==> (Enabled(s, Work(i, false)) <==> Closed(s.pool, w.gen)))
  {
  }

  // A tick, followed by its collection when no recorder holds the collector's mutex, leads back to
  // where it began: nothing in the pool has changed.
  lemma TicksChangeNothing(s: State, i: nat)
    requires i < |s.pool.workers| && s.pool.workers[i].phase.Ticking? && !s.collectorLocked
    ensures Valid(s, [Work(i, true), Work(i, false)]) && After(s, [Work(i, true), Work(i, false)]) == s
  {
    var acts := [Work(i, true), Work(i, false)];
    var n := Next(s, acts[0]);
    assert acts[1..] == [Work(i, false)] && acts[1..][1..] == [];
    assert n.pool.workers[i := s.pool.workers[i]] == s.pool.workers;
    assert n.pool.wg == s.pool.wg && Next(n, acts[1]) == s;
    assert After(n, [Work(i, false)]) == After(s, []);
    assert After(s, acts) == After(n, acts[1..]);
  }

  // --- beside the workers ---

  // A collection and a recorder exclude each other: while one holds the collector's mutex the other
  // waits, and giving it back lets a waiting collection go on.
  lemma RecordersExcludeCollections(s: State, i: nat)
    requires i < |s.pool.workers| && s.pool.workers[i].phase.Collecting?
    ensures Enabled(s, Work(i, false)) <==> !s.collectorLocked
    ensures Enabled(s, RecorderLock) <==> !s.collectorLocked
    ensures Enabled(s, RecorderUnlock) <==> s.collectorLocked
    ensures Enabled(s, RecorderLock) ==> !Enabled(Next(s, RecorderLock), Work(i, false))
    ensures Enabled(s, RecorderUnlock) ==> Enabled(Next(s, RecorderUnlock), Work(i, false))
  {
  }

  // Another plugin instance may come to the shared once guard at any time, and touches nothing of
  // this one; only the first ever to come runs the initialisation.
  lemma InstancesShareTheCore(s: State, r: CoreResult)
    ensures Enabled(s, OtherInit(r))
    ensures var n := Next(s, OtherInit(r));
            && n.(core := s.core) == s
            && (s.core.onceDone ==> n.core == s.core)
            && (!s.core.onceDone ==> n.core.onceDone && n.core.runs == s.core.runs + 1
                                     && (n.core.ready <==> r.Succeeds?) && (n.core.failed <==> r.Fails?))
  {
  }

  // Anybody's context may end at any time of a call, and an ended context is never alive again: the
  // holder keeps what it was told.
  lemma ContextsEnd(s: State)
    ensures Enabled(s, Cancel) <==> !s.holder.Free?
    ensures s.holder.Startup? ==> Next(s, Cancel).holder == s.holder.(cancelled := true)
    ensures s.holder.Cleanup? ==> Next(s, Cancel).holder == s.holder.(ended := true)
    ensures Enabled(s, Cancel) ==> Next(s, Cancel).(holder := s.holder) == s
  {
  }
}
