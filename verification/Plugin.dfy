/**
  The lifecycle and rule methods of the plugin object, carried out in place and proved against the
  specifications in RuleSync.
*/
module Plugin {
  import Lifecycle
  import LifecycleLaunch
  import opened Wrappers
  import opened Rules
  import opened RuleSync

  // A `chan struct{}` used only to be closed. Closing it a second time would panic.
  class StopChannel {
    var closed: bool

    constructor ()
      ensures !closed
    {
      closed := false;
    }

    method Close()
      requires !closed
      modifies this
      ensures closed
    {
      closed := true;
    }
  }

  // A `go` statement: the worker gets the channel current at that moment.
  datatype Launch = Launch(kind: Lifecycle.Kind, stop: StopChannel)

  function Launches(collector: bool, dashboard: bool, stop: StopChannel): seq<Launch> {
    (if collector then [Launch(Lifecycle.Metrics, stop)] else [])
    + (if dashboard then [Launch(Lifecycle.Dashboard, stop)] else [])
  }

  lemma LoadsIgnoreTheChannel(w: World, o: Loads)
    ensures ReloadSpec(w.(stop := OpenChannel), o).outcome == ReloadSpec(w, o).outcome
  {
  }

  // Plugin object and worker protocol launch the same workers, in the same order.
  lemma LaunchesAreConfigured(f: Lifecycle.Flags, stop: StopChannel)
    ensures var ls, kinds := Launches(f.hasCollector, f.hasDashboard, stop), LifecycleLaunch.Configured(f);
            |ls| == |kinds| && forall i | 0 <= i < |ls| :: ls[i] == Launch(kinds[i], stop)
  {
  }

  class PlugSentinel {
    var conf: Option<Config>
    var isInitialized: bool
    var sentinelInitialized: bool
    var hasCollector: bool
    var hasDashboard: bool
    var stopCh: StopChannel?
    var launched: seq<Launch>
    const flow: RuleStore<FlowRule>
    const breaker: RuleStore<BreakerRule>
    const system: RuleStore<SystemRule>

    ghost predicate Valid() {
      && flow as object != breaker
      && flow as object != system
      && breaker as object != system
    }

    ghost function Stores(): set<object> {
      {flow as object, breaker as object, system as object}
    }

    ghost function Channel(): set<object>
      reads this
    {
      if stopCh == null then {} else {stopCh}
    }

    ghost function View(): World
      reads this, Stores(), Channel()
    {
      World(conf, Lifecycle.Flags(isInitialized, sentinelInitialized, hasCollector, hasDashboard),
            if stopCh == null then NoChannel else if stopCh.closed then ClosedChannel else OpenChannel,
            flow.contents, breaker.contents, system.contents)
    }

    lemma ViewShows()
      ensures View().conf == conf && View().flow == flow.contents
      ensures View().breaker == breaker.contents && View().system == system.contents
    {
    }

    constructor ()
      ensures Valid() && fresh(Stores()) && fresh(Channel())
      ensures View() == World(None, Lifecycle.Flags(false, false, false, false), OpenChannel, multiset{}, multiset{}, multiset{})
      ensures launched == []
    {
      conf := None;
      isInitialized := false;
      sentinelInitialized := false;
      hasCollector := false;
      hasDashboard := false;
      launched := [];
      stopCh := new StopChannel();
      flow := new RuleStore();
      breaker := new RuleStore();
      system := new RuleStore();
    }

    method LoadFlowRules(ok: bool) returns (loaded: bool)
      requires Valid() && conf.Some?
      modifies flow
      ensures loaded == ok
      ensures View() == old(View()).(flow := if ok then FlowImages(conf.value.flowRules) else old(flow.contents))
      ensures ok ==> forall x :: x in flow.contents <==> exists c | c in conf.value.flowRules :: FlowFollows(x, c)
    {
      var confRules := conf.value.flowRules;
      var rules: seq<Ref<FlowRule>> := [];
      for i := 0 to |confRules|
        invariant fresh(rules) && |rules| == i
        invariant forall k | 0 <= k < i :: rules[k].value == FlowImage(confRules[k])
        invariant unchanged(flow)
      {
        var c := confRules[i];
        var rule := FlowRule(c.resource, c.tokenCalculateStrategy, c.controlBehavior, c.threshold,
                             c.statIntervalInMs, 0, 0);
        if c.warmUpPeriodSec > 0 {
          rule := rule.(warmUpPeriodSec := c.warmUpPeriodSec);
        }
        if c.maxQueueingTimeMs > 0 {
          rule := rule.(maxQueueingTimeMs := c.maxQueueingTimeMs);
        }
        var p := new Ref(rule);
        rules := rules + [p];
      }
      assert Values(rules) == FlowList(confRules);
      // An empty list is loaded too, so that earlier rules do not linger.
      loaded := flow.LoadRules(rules, ok);
      forall x ensures x in FlowImages(confRules) <==> exists c | c in confRules :: FlowFollows(x, c) {
        FlowImagesFollow(confRules, x);
      }
    }

    method LoadCircuitBreakerRules(ok: bool) returns (loaded: bool)
      requires Valid() && conf.Some?
      modifies breaker
      ensures loaded == ok
      ensures View() == old(View()).(breaker := if ok then BreakerImages(conf.value.breakerRules)
                                                else old(breaker.contents))
      ensures ok ==>
                forall x :: x in breaker.contents <==> exists c | c in conf.value.breakerRules :: BreakerFollows(x, c)
    {
      var confRules := conf.value.breakerRules;
      var rules: seq<Ref<BreakerRule>> := [];
      for i := 0 to |confRules|
        invariant fresh(rules) && |rules| == i
        invariant forall k | 0 <= k < i :: rules[k].value == BreakerImage(confRules[k])
        invariant unchanged(breaker)
      {
        var c := confRules[i];
        var p := new Ref(BreakerRule(c.resource, c.strategy, c.retryTimeoutMs, c.minRequestAmount,
                                     c.statIntervalMs, c.threshold));
        rules := rules + [p];
      }
      assert Values(rules) == BreakerList(confRules);
      loaded := breaker.LoadRules(rules, ok);
      forall x ensures x in BreakerImages(confRules) <==> exists c | c in confRules :: BreakerFollows(x, c) {
        BreakerImagesFollow(confRules, x);
      }
    }

    // Unlike the other two, an empty list is not loaded.
    method LoadSystemRules(ok: bool) returns (loaded: bool)
      requires Valid() && conf.Some?
      modifies system
      ensures loaded == (ok || conf.value.systemRules == [])
      ensures View() == old(View()).(system := if ok && conf.value.systemRules != []
                                               then SystemImages(conf.value.systemRules) else old(system.contents))
      ensures ok && conf.value.systemRules != [] ==>
                forall x :: x in system.contents <==> exists c | c in conf.value.systemRules :: SystemFollows(x, c)
    {
      var confRules := conf.value.systemRules;
      var rules: seq<Ref<SystemRule>> := [];
      for i := 0 to |confRules|
        invariant fresh(rules) && |rules| == i
        invariant forall k | 0 <= k < i :: rules[k].value == SystemImage(confRules[k])
        invariant unchanged(system)
      {
        var p := new Ref(SystemRule(confRules[i].metricType, confRules[i].triggerCount));
        rules := rules + [p];
      }
      assert Values(rules) == SystemList(confRules);
      loaded := true;
      if |rules| > 0 {
        loaded := system.LoadRules(rules, ok);
      }
      forall x ensures x in SystemImages(confRules) <==> exists c | c in confRules :: SystemFollows(x, c) {
        SystemImagesFollow(confRules, x);
      }
    }

    method ReloadRules(o: Loads) returns (r: Outcome)
      requires Valid()
      modifies Stores()
      ensures Effect(View(), r) == ReloadSpec(old(View()), o)
    {
      hide View, FlowImages, BreakerImages, SystemImages;
      ViewShows();
      if conf == None {
        return NilDereference;
      }
      var loaded := LoadFlowRules(o.flow);
      if !loaded {
        return LoadFailed(FlowStage);
      }
      loaded := LoadCircuitBreakerRules(o.breaker);
      if !loaded {
        return LoadFailed(BreakerStage);
      }
      loaded := LoadSystemRules(o.system);
      if !loaded {
        return LoadFailed(SystemStage);
      }
      return Ok;
    }

    method Configure(arg: ConfigArg, o: Loads) returns (r: Outcome)
      requires Valid()
      modifies this`conf, Stores()
      ensures Effect(View(), r) == ConfigureSpec(old(View()), arg, o)
    {
      hide ReloadSpec, ValidConfig, IsFirstError;
      match arg {
        case NoConfig => return Ok;
        case WrongType => return Rejected;
        case NilConfig => return NilDereference;
        case Given(newConf) =>
          var e := ValidateConfiguration(newConf);
          if e.Some? {
            return Rejected;
          }
          conf := Some(newConf);
          if isInitialized {
            r := ReloadRules(o);
            return;
          }
          return Ok;
      }
    }

    method ResetStopChannel()
      modifies this`stopCh
      ensures stopCh != null && !stopCh.closed
      ensures stopCh == old(stopCh) || (fresh(stopCh) && (old(stopCh) == null || old(stopCh).closed))
    {
      if stopCh == null || stopCh.closed {
        stopCh := new StopChannel();
      }
    }

    method SignalStop()
      modifies Channel()
      ensures stopCh != null ==> stopCh.closed
    {
      if stopCh == null {
        return;
      }
      if !stopCh.closed {
        stopCh.Close();
      }
    }

    // The part of startup after the rules are in: launch, the last checks, and the rollback.
    method LaunchWorkers(ended: bool) returns (r: Outcome)
      requires stopCh != null && !stopCh.closed
      modifies this`launched, stopCh
      ensures launched == old(launched) + Launches(hasCollector, hasDashboard, stopCh)
      ensures r == (if ended then Cancelled else Ok) && stopCh.closed == ended
    {
      if hasCollector {
        launched := launched + [Launch(Lifecycle.Metrics, stopCh)];
      }
      if hasDashboard {
        launched := launched + [Launch(Lifecycle.Dashboard, stopCh)];
      }
      if ended {
        SignalStop();  // the wait for the workers that follows is not part of this class
        return Cancelled;
      }
      return Ok;
    }

    method StartupTasksContext(env: StartEnv) returns (r: Outcome)
      requires Valid()
      modifies this`stopCh, this`launched, Stores(), Channel()
      ensures Effect(View(), r) == StartSpec(old(View()), env)
      ensures stopCh == old(stopCh) || fresh(stopCh)
      ensures old(stopCh) != null && old(stopCh.closed) ==> old(stopCh).closed
      ensures if ReachesLaunch(old(View()), env)
              then stopCh != null && launched == old(launched) + Launches(hasCollector, hasDashboard, stopCh)
              else launched == old(launched)
    {
      LoadsIgnoreTheChannel(View(), env.loads);
      hide ReloadSpec;
      if env.ended0 {
        return Cancelled;
      }
      if !isInitialized {
        return NotInitialized;
      }
      ghost var w := View();
      ResetStopChannel();
      assert View() == w.(stop := OpenChannel);
      r := ReloadRules(env.loads);
      if r != Ok {
        return;
      }
      if env.ended1 {
        return Cancelled;
      }
      w := View();
      r := LaunchWorkers(env.ended2 || env.ended3);
      assert View() == w.(stop := if r == Ok then OpenChannel else ClosedChannel);
    }

    // `drained`: the workers finished before the context ended.
    method CleanupTasksContext(drained: bool) returns (r: Outcome)
      requires Valid()
      modifies Stores(), Channel()
      ensures Effect(View(), r) == CleanSpec(old(View()), drained)
    {
      SignalStop();
      flow.ClearRules();
      breaker.ClearRules();
      system.ClearRules();
      r := if drained then Ok else Abandoned;
    }

    method InitializeResources(env: InitEnv) returns (r: Outcome)
      requires Valid()
      modifies this`conf, this`isInitialized, this`sentinelInitialized, this`hasCollector, this`hasDashboard
      ensures Effect(View(), r) == InitSpec(old(View()), env)
    {
      hide ValidConfig, IsFirstError, WithDefaults;
      if !env.baseOk {
        return Rejected;
      }
      conf := Some(env.scanned);
      if !env.scanOk {
        return Rejected;
      }
      conf := Some(WithDefaults(env.scanned, env.lynxName));
      var e := ValidateConfiguration(conf.value);
      if e.Some? || !env.coreOk {
        return Rejected;
      }
      sentinelInitialized := true;
      CreateParts();
      isInitialized := true;
      return Ok;
    }

    method CreateParts()
      requires conf.Some?
      modifies this`hasCollector, this`hasDashboard
      ensures hasCollector == (old(hasCollector) || conf.value.metricsEnabled)
      ensures hasDashboard == (old(hasDashboard) || conf.value.dashboardEnabled)
    {
      if conf.value.metricsEnabled {
        hasCollector := true;
      }
      if conf.value.dashboardEnabled {
        hasDashboard := true;
      }
    }

    method AddFlowRule(resource: string, qpsLimit: real, controlBehavior: string, ok: bool) returns (loaded: bool)
      modifies flow
      ensures loaded == ok
      ensures flow.contents ==
              if ok then AddFlow(old(flow.contents), resource, qpsLimit, controlBehavior) else old(flow.contents)
    {
      var current := flow.GetRules();
      var rules := CopyRules(current, (r: FlowRule) => true);
      KeepAll(multiset(current), (r: FlowRule) => true);
      var rule := new Ref(DynamicFlow(resource, qpsLimit, controlBehavior));
      ValuesAppend(rules, [rule]);
      loaded := flow.LoadRules(rules + [rule], ok);
    }

    method RemoveFlowRule(resource: string, ok: bool) returns (loaded: bool)
      modifies flow
      ensures loaded == ok
      ensures flow.contents == if ok then RemoveFlow(old(flow.contents), resource) else old(flow.contents)
    {
      var current := flow.GetRules();
      var newRules := CopyRules(current, FlowOther(resource));
      loaded := flow.LoadRules(newRules, ok);
    }

    method AddCircuitBreakerRule(resource: string, strategy: int, threshold: real, min: nat, ok: bool)
      returns (loaded: bool)
      modifies breaker
      ensures loaded == ok
      ensures breaker.contents ==
              if ok then AddBreaker(old(breaker.contents), resource, strategy, threshold, min) else old(breaker.contents)
    {
      var current := breaker.GetRules();
      var rules := CopyRules(current, (r: BreakerRule) => true);
      KeepAll(multiset(current), (r: BreakerRule) => true);
      var rule := new Ref(DynamicBreaker(resource, strategy, threshold, min));
      ValuesAppend(rules, [rule]);
      loaded := breaker.LoadRules(rules + [rule], ok);
    }

    method RemoveCircuitBreakerRule(resource: string, ok: bool) returns (loaded: bool)
      modifies breaker
      ensures loaded == ok
      ensures breaker.contents == if ok then RemoveBreaker(old(breaker.contents), resource) else old(breaker.contents)
    {
      var current := breaker.GetRules();
      var newRules := CopyRules(current, BreakerOther(resource));
      loaded := breaker.LoadRules(newRules, ok);
    }
  }
}
