/**
  How configuration and live rules follow each other: initialisation, startup, reconfiguration,
  dynamic changes and cleanup, one call at a time.

  What the outside world answers is an argument: the scanned configuration, whether a context has
  ended at a check, whether a load succeeds, whether the workers drained in time.
*/
module RuleSync {
  import Lifecycle
  import opened Wrappers
  import opened Rules

  datatype Config = Config(
    appName: string,
    logDir: string,
    logLevel: string,
    metricsEnabled: bool,
    metricsInterval: string,
    dashboardEnabled: bool,
    dashboardPort: int,
    flowRules: seq<FlowConf>,
    breakerRules: seq<BreakerConf>,
    systemRules: seq<SystemConf>)

  const DEFAULT_PORT: int := 8719

  // `lynxName` is the name of the surrounding application, possibly empty.
  function WithDefaults(c: Config, lynxName: string): Config {
    c.(appName := if c.appName != "" then c.appName else if lynxName != "" then lynxName else "lynx-app",
       logDir := if c.logDir == "" then "./logs/sentinel" else c.logDir,
       logLevel := if c.logLevel == "" then "info" else c.logLevel,
       metricsInterval := if c.metricsInterval == "" then "30s" else c.metricsInterval,
       dashboardPort := if c.dashboardPort == 0 then DEFAULT_PORT else c.dashboardPort)
  }

  datatype ConfigError =
    | EmptyAppName | BadPort
    | FlowResource(i: nat) | FlowThreshold(i: nat) | BreakerResource(i: nat) | BreakerThreshold(i: nat)

  predicate PortOk(port: int) {
    port == 0 || 1024 <= port <= 65535
  }

  predicate FlowOk(c: FlowConf) {
    c.resource != "" && c.threshold >= 0.0
  }

  predicate BreakerOk(c: BreakerConf) {
    c.resource != "" && c.threshold >= 0.0
  }

  ghost predicate ValidConfig(c: Config) {
    && c.appName != "" && PortOk(c.dashboardPort)
    && (forall i | 0 <= i < |c.flowRules| :: FlowOk(c.flowRules[i]))
    && (forall i | 0 <= i < |c.breakerRules| :: BreakerOk(c.breakerRules[i]))
  }

  ghost predicate FlowOkBefore(c: Config, n: nat)
    requires n <= |c.flowRules|
  {
    c.appName != "" && PortOk(c.dashboardPort) && forall i | 0 <= i < n :: FlowOk(c.flowRules[i])
  }

  ghost predicate BreakerOkBefore(c: Config, n: nat)
    requires n <= |c.breakerRules|
  {
    FlowOkBefore(c, |c.flowRules|) && forall i | 0 <= i < n :: BreakerOk(c.breakerRules[i])
  }

  // `e` is the first thing wrong with `c`, in the order the checks are made.
  ghost predicate IsFirstError(c: Config, e: ConfigError) {
    match e
    case EmptyAppName => c.appName == ""
    case BadPort => c.appName != "" && !PortOk(c.dashboardPort)
    case FlowResource(i) => i < |c.flowRules| && FlowOkBefore(c, i) && c.flowRules[i].resource == ""
    case FlowThreshold(i) =>
      i < |c.flowRules| && FlowOkBefore(c, i) && c.flowRules[i].resource != "" && c.flowRules[i].threshold < 0.0
    case BreakerResource(i) => i < |c.breakerRules| && BreakerOkBefore(c, i) && c.breakerRules[i].resource == ""
    case BreakerThreshold(i) =>
      && i < |c.breakerRules| && BreakerOkBefore(c, i)
      && c.breakerRules[i].resource != "" && c.breakerRules[i].threshold < 0.0
  }

  method ValidateConfiguration(c: Config) returns (e: Option<ConfigError>)
    ensures e == None <==> ValidConfig(c)
    ensures e.Some? ==> IsFirstError(c, e.value)
  {
    if c.appName == "" {
      return Some(EmptyAppName);
    }
    if c.dashboardPort != 0 && (c.dashboardPort < 1024 || c.dashboardPort > 65535) {
      return Some(BadPort);
    }
    for i := 0 to |c.flowRules|
      invariant FlowOkBefore(c, i)
    {
      if c.flowRules[i].resource == "" {
        return Some(FlowResource(i));
      }
      if c.flowRules[i].threshold < 0.0 {
        return Some(FlowThreshold(i));
      }
    }
    for i := 0 to |c.breakerRules|
      invariant BreakerOkBefore(c, i)
    {
      if c.breakerRules[i].resource == "" {
        return Some(BreakerResource(i));
      }
      if c.breakerRules[i].threshold < 0.0 {
        return Some(BreakerThreshold(i));
      }
      // min_request_amount is unsigned, so the plugin's check that it is not negative never fails.
    }
    return None;
  }

  // A text setting that is kept, or the default where it is missing.
  predicate Filled(d: string, c: string, default: string) {
    (c != "" ==> d == c) && (c == "" ==> d == default)
  }

  // `d` keeps every setting of `c` and has the documented value wherever `c` has a gap.
  ghost predicate Completes(d: Config, c: Config, lynxName: string) {
    && Filled(d.appName, c.appName, if lynxName != "" then lynxName else "lynx-app")
    && Filled(d.logDir, c.logDir, "./logs/sentinel")
    && Filled(d.logLevel, c.logLevel, "info")
    && Filled(d.metricsInterval, c.metricsInterval, "30s")
    && (c.dashboardPort != 0 ==> d.dashboardPort == c.dashboardPort)
    && (c.dashboardPort == 0 ==> d.dashboardPort == 8719)
    && d.metricsEnabled == c.metricsEnabled && d.dashboardEnabled == c.dashboardEnabled
    && d.flowRules == c.flowRules && d.breakerRules == c.breakerRules && d.systemRules == c.systemRules
  }

  // Defaults fill the gaps and nothing else. They mend a missing name and never spoil anything: the
  // completed configuration is valid exactly when the given one is, its name aside. Applying them
  // again, even for an application of another name, changes nothing.
  lemma DefaultsFillGaps(c: Config, lynxName: string, otherName: string)
    ensures var d := WithDefaults(c, lynxName);
            && Completes(d, c, lynxName)
            && d.appName != "" && d.logDir != "" && d.logLevel != "" && d.metricsInterval != "" && d.dashboardPort != 0
            && (ValidConfig(d) <==> ValidConfig(c.(appName := d.appName)))
            && (ValidConfig(c) ==> ValidConfig(d))
            && WithDefaults(d, otherName) == d
  {
  }

  // --- the state the lifecycle methods share ---

  datatype StopState = NoChannel | OpenChannel | ClosedChannel

  datatype World = World(
    conf: Option<Config>,
    flags: Lifecycle.Flags,
    stop: StopState,
    flow: multiset<FlowRule>,
    breaker: multiset<BreakerRule>,
    system: multiset<SystemRule>)

  datatype Stage = FlowStage | BreakerStage | SystemStage

  datatype Outcome =
    | Ok | Rejected | LoadFailed(stage: Stage) | Cancelled | NotInitialized | Abandoned | NilDereference

  datatype Loads = Loads(flow: bool, breaker: bool, system: bool)

  datatype ConfigArg = NoConfig | WrongType | NilConfig | Given(conf: Config)

  // `ended0` to `ended3`: what the four checks of ctx.Err() see.
  datatype StartEnv = StartEnv(ended0: bool, ended1: bool, ended2: bool, ended3: bool, loads: Loads)

  datatype InitEnv = InitEnv(baseOk: bool, scanned: Config, scanOk: bool, lynxName: string, coreOk: bool)

  // Outcome and state of a call.
  datatype Effect = Effect(world: World, outcome: Outcome)

  ghost function ReloadSpec(w: World, o: Loads): Effect {
    if w.conf == None then Effect(w, NilDereference)
    else
      var c := w.conf.value;
      if !o.flow then Effect(w, LoadFailed(FlowStage))
      else
        var w1 := w.(flow := FlowImages(c.flowRules));
        if !o.breaker then Effect(w1, LoadFailed(BreakerStage))
        else
          var w2 := w1.(breaker := BreakerImages(c.breakerRules));
          if c.systemRules == [] then Effect(w2, Ok)
          else if !o.system then Effect(w2, LoadFailed(SystemStage))
          else Effect(w2.(system := SystemImages(c.systemRules)), Ok)
  }

  ghost function ConfigureSpec(w: World, arg: ConfigArg, o: Loads): Effect {
    match arg
    case NoConfig => Effect(w, Ok)
    case WrongType => Effect(w, Rejected)
    case NilConfig => Effect(w, NilDereference)
    case Given(c) =>
      if !ValidConfig(c) then Effect(w, Rejected)
      else if w.flags.isInitialized then ReloadSpec(w.(conf := Some(c)), o)
      else Effect(w.(conf := Some(c)), Ok)
  }

  ghost function StartSpec(w: World, env: StartEnv): Effect {
    if env.ended0 then Effect(w, Cancelled)
    else if !w.flags.isInitialized then Effect(w, NotInitialized)
    else
      var r := ReloadSpec(w.(stop := OpenChannel), env.loads);
      if r.outcome != Ok then r
      else if env.ended1 then r.(outcome := Cancelled)
      else if env.ended2 || env.ended3 then Effect(r.world.(stop := ClosedChannel), Cancelled)
      else r
  }

  // The startup gets as far as launching the workers.
  ghost predicate ReachesLaunch(w: World, env: StartEnv) {
    && !env.ended0 && w.flags.isInitialized && !env.ended1
    && ReloadSpec(w, env.loads).outcome == Ok
  }

  ghost function CleanSpec(w: World, drained: bool): Effect {
    Effect(w.(stop := if w.stop.NoChannel? then NoChannel else ClosedChannel,
              flow := multiset{}, breaker := multiset{}, system := multiset{}),
           if drained then Ok else Abandoned)
  }

  // Initialisation creates the parts the configuration enables and never removes one.
  function InitFlags(f: Lifecycle.Flags, c: Config): Lifecycle.Flags {
    Lifecycle.Flags(true, true, f.hasCollector || c.metricsEnabled, f.hasDashboard || c.dashboardEnabled)
  }

  ghost function InitSpec(w: World, env: InitEnv): Effect {
    if !env.baseOk then Effect(w, Rejected)
    else if !env.scanOk then Effect(w.(conf := Some(env.scanned)), Rejected)
    else
      var c := WithDefaults(env.scanned, env.lynxName);
      if !ValidConfig(c) || !env.coreOk then Effect(w.(conf := Some(c)), Rejected)
      else Effect(w.(conf := Some(c), flags := InitFlags(w.flags, c)), Ok)
  }

  // --- dynamic rules ---

  const DIRECT: int := 0
  const REJECT: int := 0
  const THROTTLING: int := 1

  function ParseControlBehavior(behavior: string): int {
    if behavior == "throttling" then THROTTLING else REJECT
  }

  function DynamicFlow(resource: string, qpsLimit: real, behavior: string): FlowRule {
    FlowRule(resource, DIRECT, ParseControlBehavior(behavior), qpsLimit, 1000, 0, 0)
  }

  function DynamicBreaker(resource: string, strategy: int, threshold: real, minRequestAmount: nat): BreakerRule {
    BreakerRule(resource, strategy, 5000, minRequestAmount, 1000, threshold)
  }

  // An added rule is the one that a configured entry with exactly these settings would give; any
  // behaviour but throttling means rejection.
  lemma AddedRulesAreAsAsked(resource: string, qps: real, behavior: string, c: FlowConf,
                             strategy: int, threshold: real, min: nat, d: BreakerConf)
    ensures FlowFollows(DynamicFlow(resource, qps, behavior), c) <==>
              && c.resource == resource && c.threshold == qps
              && c.controlBehavior == (if behavior == "throttling" then 1 else 0)
              && c.tokenCalculateStrategy == 0 && c.statIntervalInMs == 1000
              && c.warmUpPeriodSec == 0 && c.maxQueueingTimeMs == 0
    ensures BreakerFollows(DynamicBreaker(resource, strategy, threshold, min), d) <==>
              && d.resource == resource && d.strategy == strategy && d.threshold == threshold
              && d.minRequestAmount == min && d.retryTimeoutMs == 5000 && d.statIntervalMs == 1000
  {
  }

  ghost function AddFlow(m: multiset<FlowRule>, resource: string, qps: real, behavior: string): multiset<FlowRule> {
    m + multiset{DynamicFlow(resource, qps, behavior)}
  }

  ghost function RemoveFlow(m: multiset<FlowRule>, resource: string): multiset<FlowRule> {
    Keep(m, FlowOther(resource))
  }

  ghost function AddBreaker(m: multiset<BreakerRule>, resource: string, strategy: int, threshold: real, min: nat)
    : multiset<BreakerRule>
  {
    m + multiset{DynamicBreaker(resource, strategy, threshold, min)}
  }

  ghost function RemoveBreaker(m: multiset<BreakerRule>, resource: string): multiset<BreakerRule> {
    Keep(m, BreakerOther(resource))
  }
}
