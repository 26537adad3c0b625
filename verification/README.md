# Verification of the Sentinel plugin for Lynx

The plugin wraps an external rate limiter. What it adds of its own is state: background workers that
are started, stopped, abandoned and restarted under one mutex; protected calls that must leave every
entry they acquire; a metrics collector written to by concurrent requests; and rule stores that have
to follow the configuration. This project models that state in Dafny and proves what the plugin
promises about it.

| files | subject |
|---|---|
| `Lifecycle.dfy`, `LifecycleInvariant.dfy`, `LifecycleSafety.dfy`, `LifecycleLaunch.dfy`, `LifecycleWorkers.dfy`, `LifecycleProgress.dfy` | The worker protocol as a transition system: the holder of `s.mu` with a program counter, workers, waiter goroutines, recorders and context cancellation interleave freely, and foreign calls may panic. Its inductive invariant, the guarantees of every run, what the workers do, and freedom from deadlock. |
| `Collector.dfy`, `CollectorLog.dfy`, `CollectorStats.dfy` | The metrics collector as a class, its refinement of an event log under interleaved recorders, and what its statistics say about that log. |
| `Middleware.dfy`, `Protection.dfy`, `CallTree.dfy`, `Brackets.dfy`, `Accounting.dfy` | The status recorder; protected calls as arbitrary call trees, carried out by a class; what the tree alone says about decisions, durations, reports and results; a referee automaton that judges the event traces; the exact effect on the collector. |
| `Rules.dfy`, `RuleSync.dfy`, `Plugin.dfy`, `RuleHistory.dfy` | Rule images and stores; specifications of the lifecycle and rule calls; the plugin class proved against them; where live rules come from, after any history of calls. |
| `LifecycleRules.dfy` | The two sides joined: the protocol with the rule stores, statement by statement. Every interleaved run, seen when the mutex is free, is a history of whole calls. |

`dafny verify dfyconfig.toml` checks everything.

## Assumptions

- A rule store (one of Sentinel's rule managers) is a multiset: `LoadRules` replaces it or fails and
  leaves it, `ClearRules` empties it, `GetRules` lists it in some order.
- `wg.Wait()` returns once the counter is zero; a mutex has one holder; a `select` with several ready
  cases may take any of them; `sync.Once` counts a call that panics as done; memory is sequentially consistent (the unlocked read of `enabled` sees
  the value of that moment).
- Whether Sentinel admits a call, how user code behaves, whether a context has ended, whether a load
  or a foreign call succeeds, how long a call takes and in which order a map yields its keys are
  arbitrary. Response times and rates are real numbers, counters are wrapping 64-bit integers.

## Where the code does not do what one would expect

- **A panic during startup leaks the workers.** The rollback of startup looks at the error result,
  which is still nil while a panic of a foreign call unwinds. An unsuccessful startup leaves workers on
  a channel that nobody has closed exactly when the panic comes from attaching or publishing, the two
  foreign calls made after the launch, and a collector or a dashboard is configured; no other
  unsuccessful startup leaves a live worker (`UnsuccessfulStartupLeaksExactlyWhen`). The workers are
  then on the plugin's own open channel (`StartupLaunches`). A run that does so with a live worker
  exists (`PanickingStartupLeaksItsWorker`).
- **A panic during initialisation would pass for success later.** This is conditional: it needs a panic
  that leaves Sentinel's `InitWithConfig`, which may well turn panics into errors; that function is not
  part of this model. The once guard counts a panicking call as done and the recorded error stays nil,
  so a retry succeeds on a core that was never initialised (`RetryAfterPanicInitialisesNothing`). An
  initialised plugin has a ready core exactly when the one run of the guard did not panic
  (`InitialisedCoreIsReadyExactlyWhen`).
- **Removing the last system rule from the configuration keeps it in force.** An empty list is loaded
  for flow and breaker rules but not for system rules. The live system rules match the configuration
  after a load exactly when the list is non-empty or none were live (`SystemRulesFollowExactlyWhen`),
  that is, when no system rules were ever loaded or a cleanup came after them
  (`StartupAfterAnyHistory`). Initialising, starting and reconfiguring leads to a stale rule
  (`StaleSystemRules`); a cleanup before the restart restores the match (`RestartRoundTrip`).
- **An interim response hides a server error.** The status recorder keeps the first status, also a 1xx
  one. It is the status sent exactly when the handler does not begin with an interim response, which
  is any 1xx but 101 Switching Protocols; net/http sends that one as the last (`RecordedIsFinal`,
  `ServerErrorIsSeen`, `InterimResponseHidesServerError`).

## Model

| member | source | states |
|---|---|---|
| LifecycleSafety.NoStrandedWorker | lifecycle.go:92-108 | in every reachable state each live worker's channel is closed or is the plugin's current one |
| LifecycleSafety.WaitGroupIsExact | lifecycle_context.go:78-88 | the WaitGroup counter equals the workers launched and unfinished (plus an Add whose go statement is next), is never negative, and zero means none is alive |
| LifecycleSafety.WaitGroupRisesOnlyUnderTheLock | lifecycle_context.go:79-88 | any step that raises the counter is a statement of a startup holding the mutex and raises it by one |
| LifecycleSafety.NoChannelIsClosedTwice | lifecycle_context.go:119-128 | no channel is closed more than once in any run |
| LifecycleSafety.CoreInitialisedAtMostOnce | lifecycle.go:174-198 | the global core is initialised at most once; the plugin counts as initialised only after that, with no error recorded, and both flags agree whenever the mutex is free |
| LifecycleSafety.InitialisedCoreIsReadyExactlyWhen | lifecycle.go:174-198 | an initialised plugin runs on a core that was really initialised exactly when the one initialisation did not panic |
| LifecycleSafety.RetryAfterPanicInitialisesNothing | lifecycle.go:185-190 | a run exists in which a retry after a panic succeeds with the core not ready |
| LifecycleSafety.CleanupAlwaysSignals | lifecycle_context.go:133-171 | when cleanup returns, the channel is closed and every survivor is on a closed channel; nil means no worker of any earlier start is alive; an error means the context had ended |
| LifecycleSafety.FailedStartupLeaksNoWorker | lifecycle_context.go:38-116 | whichever check or load fails, no worker of the failed startup is alive when it returns; after a rollback the channel is closed and no worker at all is alive |
| LifecycleSafety.OtherStartupExitsKeepWorkers | lifecycle_context.go:70-116 | success and panic leave every worker of the pool as it is, and the current channel open |
| LifecycleSafety.PanickingStartupLeaksItsWorker | lifecycle_context.go:70-97 | a run exists in which a panic makes startup release the mutex with its worker alive |
| LifecycleSafety.AbandonedThenRestarted | lifecycle_context.go:133-171 | a run exists in which a cleanup is abandoned and the plugin restarted, a worker of each start alive, the first on a closed channel and the second on the open one |
| LifecycleSafety.RunExtends | lifecycle.go:92-96 | along any run no channel reopens, no worker changes channel or kind or comes back, and none is started on a channel already closed |
| LifecycleSafety.SurvivorsAreNeverRevived | lifecycle_context.go:133-157 | workers that outlive a cleanup stay on closed channels through every later run, restarts included |
| LifecycleLaunch.NoWorkerBeforeInitialization | lifecycle_context.go:45-47 | workers exist only in initialised plugins |
| LifecycleLaunch.StartupLaunches | lifecycle_context.go:78-88 | however a startup ends, it has launched exactly the configured workers, in order, on the current channel, or none; the channel is open unless the startup has been rolled back |
| LifecycleLaunch.UnsuccessfulStartupLeaksExactlyWhen | lifecycle_context.go:70-107 | a startup that fails or panics leaves a worker, perhaps one that has finished by itself, on a channel that is not closed exactly when a foreign call after the launch panics and a part is configured; a live worker is left only then |
| LifecycleWorkers.WorkersTakeStatements | dashboard.go:27-79 | a step of anybody takes each worker at most one statement further along the Start method of its kind: out of the loop or off the channel only once the channel is closed, into collecting only by a tick |
| LifecycleWorkers.WorkersKeepToTheirKind | metrics.go:36-45 | in every run only the collector's worker ticks and collects, and only the dashboard's serves and shuts down |
| LifecycleWorkers.WorkersStayUntilTold | metrics.go:36-45 | through any run a worker that has begun its work keeps at it as long as its channel is not closed |
| LifecycleWorkers.ServersShutDownFirst | dashboard.go:65-79 | a dashboard that served and is gone shut its server down in between |
| LifecycleWorkers.WorkersHaveTheirSteps | metrics.go:27-45 | what each worker can do next: begin or give up, tick at any time, leave exactly once told |
| LifecycleWorkers.TicksChangeNothing | metrics.go:38-39 | a tick and its collection lead back to the same state |
| LifecycleWorkers.RecordersExcludeCollections | metrics.go:48-50 | a recorder and a collection wait for each other, and giving the mutex back lets the other go on |
| LifecycleWorkers.InstancesShareTheCore | lifecycle.go:182-187 | any instance may reach the once guard at any time; only the first runs it, and its error is what all see |
| LifecycleProgress.BackgroundIgnoresTheLock | metrics.go:24-58 | whether a worker step is possible and what it does is independent of who holds the plugin mutex |
| LifecycleProgress.EveryWorkerCanAdvance | metrics.go:36-45 | while cleanup or rollback waits, every live worker (or the recorder it is blocked behind) has a step that brings it closer to Done |
| LifecycleProgress.NoWorkerStepRegresses | metrics.go:36-45 | no worker step moves away from Done, and only ticks keep the stage |
| LifecycleProgress.OnlyTicksRepeat | dashboard.go:27-79 | in any run whatever, the worker steps other than ticks are bounded by the stages left and four per worker launched meanwhile |
| LifecycleProgress.DrainPath | lifecycle_context.go:139-157 | from every state of the invariant that waits under the mutex, background steps alone bring the counter to zero |
| LifecycleProgress.NoDeadlock | lifecycle_context.go:70-76 | after any run there is a continuation that frees the mutex, whoever holds it and whatever it waits for |
| Collector.WrapIsCongruent | metrics.go:69-70 | counter arithmetic is exact modulo 2^64 |
| Collector.MetricsCollector.RecordPassed | metrics.go:61-71 | request and passed counter of the resource grow by one, if enabled; nothing else changes |
| Collector.MetricsCollector.RecordBlocked | metrics.go:74-84 | request and blocked counter of the resource grow by one, if enabled; nothing else changes |
| Collector.MetricsCollector.RecordRT | metrics.go:87-102 | the response time enters the resource's window, the oldest leaving a full one, if enabled |
| Collector.MetricsCollector.Reset | metrics.go:179-189 | counters and windows are emptied, flag and interval kept |
| Collector.MetricsCollector.CalculateResourceStats | metrics.go:136-176 | the computed statistics are those StatsOf defines on the contents |
| Collector.MetricsCollector.GetAllResourceStats | metrics.go:123-133 | exactly the request keys, each with the statistics of that key |
| Collector.MetricsCollector.GetMetricsSummary | metrics.go:192-221 | for every order of the keys, totals are the wrapped sums over all resources, with the rates derived from them |
| Collector.SumOverInsert | metrics.go:201-206 | a sum over the keys does not depend on the order in which they are visited |
| CollectorLog.CollectorRefinesLog | metrics.go:61-102 | under every interleaving counters, key sets and windows are those of the locked updates since the last reset, and flag and interval those set last |
| CollectorLog.RequestsArePassedPlusBlocked | metrics.go:61-84 | request = passed + blocked modulo 2^64, exactly below 2^63 updates; request keys are the union of the other two |
| CollectorLog.WindowIsRecentHistory | metrics.go:95-101 | the window is the last min(100, n) of the n times recorded, in order, in milliseconds |
| CollectorLog.LateUpdatesWereInFlight | metrics.go:62-67 | after disabling, only recorders already past the unlocked check still write, once each |
| CollectorLog.UninterruptedCallIsRecord | metrics.go:61-71 | check followed by its commit has the effect proved for the class methods |
| CollectorStats.WindowStatistics | metrics.go:154-173 | minimum and maximum are members bounding the window and enclose the average, which times the length is the sum |
| CollectorStats.TimesFollowTheLog | metrics.go:151-173 | minimum, maximum and average are those of the last hundred durations measured since the last reset, zero if there are none |
| CollectorStats.RatesCountTheLog | metrics.go:142-151 | rates times the interval are the numbers of updates since the last reset and the total rate is the sum of the other two; without an interval each rate is infinite or NaN, by its count |
| CollectorStats.SummaryCountsTheLog | metrics.go:192-221 | the totals count the updates since the last reset, total = passed + blocked, each rate times the total is the number of its kind, the two add up to one; flag and interval are those set last |
| Middleware.StatusRecorder.WriteHeader | middleware.go:87-93 | forwards the call and keeps the recorded status that of the first call |
| Middleware.StatusRecorder.Write | middleware.go:95-100 | forwards the call; a body first means status 200 |
| Middleware.Respond | middleware.go:69-72 | the status read after the handler is the first call's code, or 200 |
| Middleware.RecordedIsFinal | middleware.go:87-100 | recorded and sent status agree exactly when the first call is not an interim WriteHeader |
| Middleware.ServerErrorIsSeen | middleware.go:72-74 | a server error is reported exactly when it is sent, except behind an interim response |
| Middleware.FinalCodesAreRecorded | middleware.go:87-100 | with final codes only, the recorded status is the one sent |
| Middleware.InterimResponseHidesServerError | middleware.go:87-93 | a concrete handler whose 503 is recorded as 103 |
| Protection.Guard.Protect | api.go:61-156 | a protected call and all it nests produce exactly the trace of the call tree, the collector being told exactly what the trace notes |
| Protection.Guard.Entry | api.go:23-48 | the flag is looked at before Sentinel; admission and refusal are noted with the collector, if there is one |
| Protection.Guard.RunExecute | api.go:99-134 | context, entry, user code, response time, error report and deferred exit happen in this order |
| Protection.Guard.RunServe | middleware.go:44-77 | entry, handler, error report by status and deferred exit happen in this order |
| CallTree.EventsFollowTree | api.go:61-156 | the decisions made, nested calls included and in order, the durations measured and the reports to Sentinel are those of the call tree, an unrecovered panic cutting off the rest |
| CallTree.ResultFollowsTree | api.go:86-96 | which answer each kind of call gives, exactly: the error of the context, of an uninitialised plugin, of a refusal, that of the user code, none, or a panic |
| Brackets.CallIsBracketed | api.go:61-156 | inside any open entries, any call tree is accepted by the referee and leaves exactly those entries open |
| Brackets.ExactlyOnce | api.go:72-77 | in any accepted trace each closed entry was entered and left once, and user code ran once in it unless it is a probe |
| Brackets.InFlightBalance | api.go:136-156 | open entries of a resource before plus entered equals open after plus left |
| Brackets.ProtectedCallsBalance | middleware.go:59-70 | every entry a call tree acquires is left exactly once, user code runs exactly once in it, in-flight counts return to their start |
| Accounting.MetricsAccountForCalls | api.go:29-45 | request, passed and blocked grow by the entries decided, admitted and refused in the call tree; response times never outnumber admissions; a disabled collector is unchanged |
| Accounting.ResponseTimesAreExact | api.go:72-93 | the response times recorded for a resource are exactly the durations of the user code that returned, with or without an error, in its entries, as judged by the referee and as read off the tree, in order |
| Accounting.ConcurrentCallsAreAccounted | metrics.go:61-84 | however the unlocked checks and locked updates of any number of protected calls interleave, the counters grow by exactly the entries decided in all of their call trees |
| Accounting.QuietCalls | api.go:24-27 | uninitialised and already cancelled calls do nothing; a refused call runs nothing and is counted once |
| Rules.FlowImagesFollow | rules.go:17-37 | a rule is in the image of a list as often as the list has an entry equal to it in resource, strategy, behaviour, threshold, interval, warm-up and queueing time |
| Rules.BreakerImagesFollow | rules.go:65-77 | the same for circuit breaker rules, in all their six settings |
| Rules.SystemImagesFollow | rules.go:105-112 | the same for system rules, in type and trigger count |
| Rules.CopyRules | rules.go:194-197 | pairwise distinct fresh copies of exactly the rules to keep |
| Rules.RuleStore.GetRules | rules.go:168-181 | the rules of the store in some order |
| Rules.KeepTwice | rules.go:209-217 | filtering is idempotent and filters commute, multiplicities included |
| RuleSync.ValidateConfiguration | lifecycle.go:239-272 | no error exactly for a valid configuration, otherwise the first violation in checking order |
| RuleSync.DefaultsFillGaps | lifecycle.go:209-236 | defaults keep every setting, fill every gap with its documented value, keep validity (and establish it when only the name is missing) and change nothing when applied again |
| RuleSync.AddedRulesAreAsAsked | rules.go:184-252 | a rule added dynamically is the one that an entry with exactly the requested settings and the fixed ones would give |
| Plugin.LaunchesAreConfigured | lifecycle_context.go:78-88 | plugin object and worker protocol launch the same workers in the same order |
| Plugin.PlugSentinel.LoadFlowRules | rules.go:13-58 | the flow store becomes the image of the list, also when empty, holding exactly the rules that follow an entry field by field, or stays as it is |
| Plugin.PlugSentinel.LoadCircuitBreakerRules | rules.go:61-98 | the breaker store becomes the image of the list, also when empty, holding exactly the rules that follow an entry field by field, or stays as it is |
| Plugin.PlugSentinel.LoadSystemRules | rules.go:101-124 | the system store becomes the image of a non-empty list, holding exactly the rules that follow an entry, or stays as it is |
| Plugin.PlugSentinel.ReloadRules | lifecycle.go:275-286 | stage by stage, stopping at the first failure |
| Plugin.PlugSentinel.Configure | lifecycle.go:141-171 | whole new state and outcome for every argument |
| Plugin.PlugSentinel.ResetStopChannel | lifecycle.go:92-96 | an open channel is kept, a missing or closed one replaced by a fresh open one |
| Plugin.PlugSentinel.SignalStop | lifecycle_context.go:119-128 | the channel ends up closed without being closed twice |
| Plugin.PlugSentinel.StartupTasksContext | lifecycle_context.go:38-116 | whole new state and outcome for every combination of ended contexts and failing loads; exactly which workers are launched, each with the current channel |
| Plugin.PlugSentinel.CleanupTasksContext | lifecycle_context.go:133-171 | channel closed and stores empty, however the wait ends |
| Plugin.PlugSentinel.InitializeResources | lifecycle.go:26-84 | whole new state and outcome: both flags and the parts enabled by the completed configuration on success only, the configuration replaced even on failure |
| Plugin.PlugSentinel.AddFlowRule | rules.go:184-206 | one rule more, the others unchanged, or no change if the load fails |
| Plugin.PlugSentinel.RemoveFlowRule | rules.go:209-226 | exactly the rules of other resources remain, or no change if the load fails |
| Plugin.PlugSentinel.AddCircuitBreakerRule | rules.go:229-252 | one rule more, the others unchanged, or no change if the load fails |
| Plugin.PlugSentinel.RemoveCircuitBreakerRule | rules.go:255-272 | exactly the rules of other resources remain, or no change if the load fails |
| RuleHistory.ReconfigurationFrame | lifecycle.go:141-171 | a rejected Configure changes nothing; an accepted one installs the new images up to the failing stage and keeps the rest |
| RuleHistory.SystemRulesFollowExactlyWhen | rules.go:114-123 | after a load the live system rules match the configuration exactly when the list is non-empty or none were live |
| RuleHistory.StaleSystemRules | rules.go:114-123 | after initialisation, startup and a reconfiguration without system rules, all successful, the old one is in force |
| RuleHistory.StartupFrame | lifecycle_context.go:38-76 | which startups succeed, and what channel and rules each failure leaves |
| RuleHistory.RestartRoundTrip | lifecycle_context.go:159-162 | after a cleanup and any calls that keep the configuration, a successful startup puts exactly the configured rules in force |
| RuleHistory.StartupAfterAnyHistory | lifecycle_context.go:50-63 | after any history a successful startup renews flow and breaker rules; system rules match exactly when some are configured, none were ever loaded, or a cleanup came last |
| RuleHistory.ConfigurationComesFrom | lifecycle.go:26-171 | after any history the configuration is the last one put in place, and the plugin is initialised exactly if some initialisation succeeded |
| RuleHistory.SystemRulesComeFrom | rules.go:101-124 | after any history the system rules are those of the last non-empty list loaded, or none if a cleanup came later or none was loaded |
| RuleHistory.FlowRulesComeFrom | rules.go:13-226 | after any history a flow rule is live as often as the last load, cleanup or removal of its resource left it, plus the additions since |
| RuleHistory.BreakerRulesComeFrom | rules.go:61-272 | the same for circuit breaker rules |
| RuleHistory.NothingSurvivesCleanup | lifecycle_context.go:159-162 | every rule live after a cleanup was added, or loaded from a configuration listing it, after that cleanup |
| RuleHistory.RemoveKeepsOthers | rules.go:209-217 | removal keeps the rules of other resources with their multiplicity and drops the rest |
| RuleHistory.FlowRuleAlgebra | rules.go:184-226 | removal is idempotent and commutes; removing undoes adding exactly when the resource had no rule |
| RuleHistory.BreakerRuleAlgebra | rules.go:229-272 | the same for circuit breaker rules |
| LifecycleRules.EveryRunIsAHistory | lifecycle.go:26-171 | under any interleaving, whenever the mutex is free the plugin's state is that of the returned calls performed one after the other, each for what an observer noted at its statements: ended contexts, failed loads, the scanned configuration, the drained WaitGroup |
| LifecycleRules.EveryCallIsAtomic | lifecycle_context.go:38-171 | every startup, cleanup, initialisation and reconfiguration returns with the effect and the outcome, down to the reason of an error, specified for what was noted; and the notes are true: an ended context has ended, a failed load is the statement that just failed, a drained cleanup leaves no live worker, a core in order has no error |
| LifecycleRules.CleanupSignalsAndClears | lifecycle_context.go:133-171 | in any run, a returning cleanup leaves no rule, no open channel and no worker that was not told to stop; nil means no worker is alive, an error that the context had ended |
| LifecycleRules.StartupStartsAndLoads | lifecycle_context.go:38-116 | in any run, a startup returning nil leaves the configured workers on the open channel and the configured rules in force, system rules under the exact condition |
| LifecycleRules.StartupLaunchesAsSpecified | lifecycle_context.go:38-116 | in any run a startup has launched the configured workers exactly when the specification of the call says it gets that far, and none otherwise |

## Left out

- Sentinel itself (token buckets, breaker state, filtering of invalid rules): admission is an oracle, no rate is claimed to be limited. The Go integer types of breaker strategies and system metric types are Sentinel's own; the conversion to them is the identity here.
- HTTP and JSON handlers, dashboard pages, logging, YAML scanning, plugin lookup and the package-level forwarding functions: plumbing.
- `HTTPMiddleware`, the gRPC interceptors and `rateLimitMiddleware`: each is one Execute or ExecuteWithContext whose function calls the next handler; only the resource name and the captured response are added.
- The dashboard's `running` flag and `server` field under overlapping starts: shared and overwritten. The goroutine that serves is not counted in the WaitGroup.
- A collector interval that is not positive makes the ticker panic: worker steps assume a positive interval.
- Concurrent calls of the Add and Remove methods and of the package-level ReloadRules, which take no lock: they never overlap with another call here.
- Go's panic on reusing a WaitGroup beside an unfinished Wait: only the counter is modelled.
- Validity of the configuration after a failed re-initialisation of an initialised plugin, which replaces it before validating.
- Rounding of float64 values, infinite or NaN thresholds, and timestamps.
- Panics of Sentinel's `ClearRules` during cleanup. A load that panics is taken to leave its store as it was.
- Plugin.PlugSentinel.StartupTasksContext: does not model the workers themselves, the wait of the rollback, or a panic of a foreign call; these are in the transition system, which LifecycleRules.EveryCallIsAtomic proves to have the same effects.
- Plugin.PlugSentinel.CleanupTasksContext: whether the workers drained is an argument; the wait and its waiter goroutine are in the transition system, which LifecycleRules.EveryCallIsAtomic proves to have the same effects.
