/**
  What any history of lifecycle and rule calls guarantees about the live rules.
*/
module RuleHistory {
  import Lifecycle
  import opened Wrappers
  import opened Rules
  import opened RuleSync

  datatype Op =
    | InitOp(initEnv: InitEnv)
    | ConfigureOp(arg: ConfigArg, loads: Loads)
    | ReloadOp(loads: Loads)
    | StartOp(startEnv: StartEnv)
    | CleanOp(drained: bool)
    | AddFlowOp(resource: string, qps: real, behavior: string, ok: bool)
    | RemoveFlowOp(resource: string, ok: bool)
    | AddBreakerOp(resource: string, strategy: int, threshold: real, min: nat, ok: bool)
    | RemoveBreakerOp(resource: string, ok: bool)
  {
    // Calls that leave the configuration in place, whatever they do to the live rules.
    ghost predicate KeepsConf() {
      match this
      case InitOp(env) => !env.baseOk
      case ConfigureOp(Given(c), _) => !ValidConfig(c)
      case _ => true
    }
  }

  ghost function EffectOf(w: World, op: Op): Effect {
    match op
    case InitOp(env) => InitSpec(w, env)
    case ConfigureOp(arg, loads) => ConfigureSpec(w, arg, loads)
    case ReloadOp(loads) => ReloadSpec(w, loads)
    case StartOp(env) => StartSpec(w, env)
    case CleanOp(drained) => CleanSpec(w, drained)
    case AddFlowOp(r, q, b, ok) =>
      if ok then Effect(w.(flow := AddFlow(w.flow, r, q, b)), Ok) else Effect(w, LoadFailed(FlowStage))
    case RemoveFlowOp(r, ok) =>
      if ok then Effect(w.(flow := RemoveFlow(w.flow, r)), Ok) else Effect(w, LoadFailed(FlowStage))
    case AddBreakerOp(r, s, t, m, ok) =>
      if ok then Effect(w.(breaker := AddBreaker(w.breaker, r, s, t, m)), Ok) else Effect(w, LoadFailed(BreakerStage))
    case RemoveBreakerOp(r, ok) =>
      if ok then Effect(w.(breaker := RemoveBreaker(w.breaker, r)), Ok) else Effect(w, LoadFailed(BreakerStage))
  }

  ghost function Perform(w: World, op: Op): World {
    EffectOf(w, op).world
  }

  // The state after the first `n` calls.
  ghost function At(w: World, ops: seq<Op>, n: nat): World
    requires n <= |ops|
  {
    if n == 0 then w else Perform(At(w, ops, n - 1), ops[n - 1])
  }

  ghost function PerformAll(w: World, ops: seq<Op>): World {
    At(w, ops, |ops|)
  }

  // A plugin as it is created; the stop channel may or may not have been made yet.
  ghost predicate Pristine(w: World) {
    && w.conf == None && w.flags == Lifecycle.Flags(false, false, false, false) && !w.stop.ClosedChannel?
    && w.flow == multiset{} && w.breaker == multiset{} && w.system == multiset{}
  }

  // The last of the first `n` positions with `p`, or -1.
  ghost function LastIndex(n: nat, p: nat -> bool): (k: int)
    ensures -1 <= k < n
    ensures k >= 0 ==> p(k)
    ensures forall j: nat | k < j < n :: !p(j)
  {
    if n == 0 then -1 else if p(n - 1) then n - 1 else LastIndex(n - 1, p)
  }

  // --- reconfiguration ---

  // A rejected call touches nothing. An accepted one installs the configuration and, on an
  // initialised plugin, the images of its lists up to the stage that fails; an empty system list
  // leaves the system store as it was.
  lemma ReconfigurationFrame(w: World, arg: ConfigArg, o: Loads)
    ensures var e := ConfigureSpec(w, arg, o);
            && (e.outcome == Rejected <==> arg.WrongType? || (arg.Given? && !ValidConfig(arg.conf)))
            && (e.outcome == Rejected || !arg.Given? ==> e.world == w)
            && e.world.stop == w.stop && e.world.flags == w.flags
            && (arg.Given? && e.outcome != Rejected ==> e.world.conf == Some(arg.conf))
            && (arg.Given? && e.outcome != Rejected && !w.flags.isInitialized ==>
                  e.outcome == Ok && e.world == w.(conf := Some(arg.conf)))
            && (arg.Given? && e.outcome != Rejected && w.flags.isInitialized ==>
                  var c := arg.conf;
                  && e.world.flow
                     == (if e.outcome == LoadFailed(FlowStage) then w.flow else FlowImages(c.flowRules))
                  && e.world.breaker
                     == (if e.outcome == LoadFailed(FlowStage) || e.outcome == LoadFailed(BreakerStage)
                         then w.breaker else BreakerImages(c.breakerRules))
                  && e.world.system
                     == (if e.outcome == Ok && c.systemRules != [] then SystemImages(c.systemRules) else w.system))
  {
  }

  // Startup: only a success leaves the channel open with all rules in force; a context that ends
  // once workers run closes it again; a failed stage keeps what earlier stages loaded.
  lemma StartupFrame(w: World, env: StartEnv)
    ensures var e := StartSpec(w, env);
            && e.world.conf == w.conf && e.world.flags == w.flags
            && (env.ended0 || !w.flags.isInitialized ==> e.outcome != Ok && e.world == w)
            && (!env.ended0 && w.flags.isInitialized ==>
                  var r := ReloadSpec(w, env.loads);
                  && e.world.(stop := w.stop) == r.world
                  && (r.outcome != Ok ==> e.outcome == r.outcome && e.world.stop == OpenChannel)
                  && (e.outcome == Ok <==> r.outcome == Ok && !env.ended1 && !env.ended2 && !env.ended3)
                  && (e.world.stop == ClosedChannel <==>
                        r.outcome == Ok && !env.ended1 && (env.ended2 || env.ended3)))
  {
  }

  lemma NoConfNoImage(c: Config)
    ensures SystemImages(c.systemRules) == multiset{} <==> c.systemRules == []
  {
    var l := SystemList(c.systemRules);
    if c.systemRules != [] { assert l[0] in multiset(l); }
  }

  // After a successful load the live flow and breaker rules are those configured; the system rules
  // are exactly when the list is not empty or there were none before.
  lemma SystemRulesFollowExactlyWhen(w: World, o: Loads)
    requires w.conf.Some? && ReloadSpec(w, o).outcome == Ok
    ensures var n, c := ReloadSpec(w, o).world, w.conf.value;
            && n.conf == w.conf
            && n.flow == FlowImages(c.flowRules)
            && n.breaker == BreakerImages(c.breakerRules)
            && (n.system == SystemImages(c.systemRules) <==> c.systemRules != [] || w.system == multiset{})
  {
    NoConfNoImage(w.conf.value);
  }

  // The failing case: a plugin is initialised with one system rule, started, and reconfigured
  // without; every call succeeds, and the rule stays in force.
  lemma StaleSystemRules(w: World) returns (ops: seq<Op>)
    requires Pristine(w)
    ensures var n := PerformAll(w, ops);
            && n.conf.Some? && n.conf.value.systemRules == []
            && n.system == multiset{SystemRule(0, 1.0)} && n.system != SystemImages(n.conf.value.systemRules)
  {
    var before := Config("app", "", "", false, "", false, 0, [], [], [SystemConf(0, 1.0, 0)]);
    var after := before.(systemRules := []);
    var fine := Loads(true, true, true);
    ops := [InitOp(InitEnv(true, before, true, "", true)),
            StartOp(StartEnv(false, false, false, false, fine)),
            ConfigureOp(Given(after), fine)];
    var w1 := Perform(w, ops[0]);
    assert w1.flags.isInitialized && w1.conf == Some(WithDefaults(before, ""));
    var w2 := Perform(w1, ops[1]);
    assert SystemList(before.systemRules) == [SystemRule(0, 1.0)];
    assert w2.system == SystemImages(before.systemRules) && w2.flags.isInitialized;
    var w3 := Perform(w2, ops[2]);
    assert w3.conf == Some(after) && w3.system == w2.system;
    hide Perform;
    assert At(w, ops, 0) == w;
    assert At(w, ops, 1) == w1;
    assert At(w, ops, 2) == w2;
    assert PerformAll(w, ops) == w3;
    NoConfNoImage(after);
    assert SystemRule(0, 1.0) in w3.system;
  }

  // --- restart ---

  // The system store is empty or in step with the configuration.
  ghost predicate SystemInStep(w: World) {
    w.conf.Some? && (w.system == multiset{} || w.system == SystemImages(w.conf.value.systemRules))
  }

  lemma ReloadKeepsSystem(w: World, o: Loads)
    requires w.conf.Some?
    ensures var n := ReloadSpec(w, o).world;
            n.conf == w.conf && (n.system == w.system || n.system == SystemImages(w.conf.value.systemRules))
  {
  }

  lemma StepKeepsSystem(w: World, op: Op)
    requires SystemInStep(w) && op.KeepsConf()
    ensures SystemInStep(Perform(w, op)) && Perform(w, op).conf == w.conf
  {
    hide ReloadSpec, ValidConfig, WithDefaults, SystemImages, AddFlow, RemoveFlow, AddBreaker, RemoveBreaker;
    match op
    case ReloadOp(loads) => ReloadKeepsSystem(w, loads);
    case StartOp(env) => ReloadKeepsSystem(w.(stop := OpenChannel), env.loads);
    case _ =>
  }

  lemma {:induction false} HistoryKeepsSystem(w: World, ops: seq<Op>, n: nat)
    requires SystemInStep(w) && n <= |ops| && forall i | 0 <= i < |ops| :: ops[i].KeepsConf()
    ensures SystemInStep(At(w, ops, n)) && At(w, ops, n).conf == w.conf
  {
    if n > 0 {
      HistoryKeepsSystem(w, ops, n - 1);
      StepKeepsSystem(At(w, ops, n - 1), ops[n - 1]);
    }
  }

  // After a cleanup, and any number of failed startups, reloads, rejected configurations, dynamic
  // changes and further cleanups, a successful startup puts exactly the configured rules in force:
  // whatever was added dynamically is gone, before or after the cleanup.
  lemma RestartRoundTrip(w: World, drained: bool, ops: seq<Op>, env: StartEnv)
    requires w.conf.Some?
    requires forall i | 0 <= i < |ops| :: ops[i].KeepsConf()
    ensures var before := PerformAll(CleanSpec(w, drained).world, ops);
            var e, c := StartSpec(before, env), w.conf.value;
            e.outcome == Ok ==>
              && e.world.conf == w.conf
              && e.world.stop == OpenChannel
              && e.world.flow == FlowImages(c.flowRules)
              && e.world.breaker == BreakerImages(c.breakerRules)
              && e.world.system == SystemImages(c.systemRules)
  {
    var cleaned := CleanSpec(w, drained).world;
    HistoryKeepsSystem(cleaned, ops, |ops|);
    NoConfNoImage(w.conf.value);
  }

  // --- where live rules come from ---

  // The configuration a call puts in place.
  ghost function ConfSet(op: Op): Option<Config> {
    match op
    case InitOp(env) =>
      if !env.baseOk then None
      else Some(if env.scanOk then WithDefaults(env.scanned, env.lynxName) else env.scanned)
    case ConfigureOp(Given(c), _) => if ValidConfig(c) then Some(c) else None
    case _ => None
  }

  ghost predicate Initializes(op: Op) {
    && op.InitOp? && op.initEnv.baseOk && op.initEnv.scanOk && op.initEnv.coreOk
    && ValidConfig(WithDefaults(op.initEnv.scanned, op.initEnv.lynxName))
  }

  // The configuration in force is the last one put in place, and a plugin is initialised once an
  // initialisation has succeeded, whatever fails afterwards.
  lemma {:induction false} ConfigurationComesFrom(w: World, ops: seq<Op>, n: nat)
    requires Pristine(w) && n <= |ops|
    ensures var k := LastIndex(n, (i: nat) => i < |ops| && ConfSet(ops[i]).Some?);
            At(w, ops, n).conf == if k < 0 then None else ConfSet(ops[k])
    ensures At(w, ops, n).flags.isInitialized <==> exists i | 0 <= i < n :: Initializes(ops[i])
    ensures At(w, ops, n).flags.isInitialized ==> At(w, ops, n).conf.Some?
  {
    hide Perform, ConfSet, Initializes;
    if n > 0 {
      ConfigurationComesFrom(w, ops, n - 1);
      StepSetsConf(At(w, ops, n - 1), ops[n - 1]);
    }
  }

  lemma StepSetsConf(w: World, op: Op)
    ensures Perform(w, op).conf == if ConfSet(op).Some? then ConfSet(op) else w.conf
    ensures Perform(w, op).flags.isInitialized <==> w.flags.isInitialized || Initializes(op)
    ensures Initializes(op) ==> ConfSet(op).Some?
  {
    hide ValidConfig, WithDefaults;
  }

  // A call that loads the rules of a configuration, and what the three loads answer.
  datatype Loading = Loading(conf: Config, loads: Loads)

  ghost function LoadingOf(w: World, op: Op): Option<Loading> {
    match op
    case ConfigureOp(Given(c), loads) =>
      if ValidConfig(c) && w.flags.isInitialized then Some(Loading(c, loads)) else None
    case ReloadOp(loads) =>
      if w.conf.Some? then Some(Loading(w.conf.value, loads)) else None
    case StartOp(env) =>
      if !env.ended0 && w.flags.isInitialized && w.conf.Some? then Some(Loading(w.conf.value, env.loads)) else None
    case _ => None
  }

  // The three stages run in order, each only if the ones before it succeed.
  ghost predicate LoadsFlow(w: World, op: Op) {
    LoadingOf(w, op).Some? && LoadingOf(w, op).value.loads.flow
  }

  ghost predicate LoadsBreaker(w: World, op: Op) {
    LoadsFlow(w, op) && LoadingOf(w, op).value.loads.breaker
  }

  ghost predicate LoadsSystem(w: World, op: Op) {
    LoadsBreaker(w, op) && LoadingOf(w, op).value.loads.system && LoadingOf(w, op).value.conf.systemRules != []
  }

  // What a call makes the system rules, if it replaces them.
  ghost function SystemSet(w: World, op: Op): Option<multiset<SystemRule>> {
    if op.CleanOp? then Some(multiset{})
    else if LoadsSystem(w, op) then Some(SystemImages(LoadingOf(w, op).value.conf.systemRules))
    else None
  }

  // What a call does to the multiplicity of one rule.
  datatype Change = Sets(times: nat) | Adds | Keeps {
    function Of(m: nat): nat {
      match this case Sets(t) => t case Adds => m + 1 case Keeps => m
    }
  }

  ghost function FlowChange(w: World, op: Op, x: FlowRule): Change {
    if op.CleanOp? || (op.RemoveFlowOp? && op.ok && op.resource == x.resource) then Sets(0)
    else if LoadsFlow(w, op) then Sets(FlowImages(LoadingOf(w, op).value.conf.flowRules)[x])
    else if op.AddFlowOp? && op.ok && DynamicFlow(op.resource, op.qps, op.behavior) == x then Adds
    else Keeps
  }

  ghost function BreakerChange(w: World, op: Op, x: BreakerRule): Change {
    if op.CleanOp? || (op.RemoveBreakerOp? && op.ok && op.resource == x.resource) then Sets(0)
    else if LoadsBreaker(w, op) then Sets(BreakerImages(LoadingOf(w, op).value.conf.breakerRules)[x])
    else if op.AddBreakerOp? && op.ok && DynamicBreaker(op.resource, op.strategy, op.threshold, op.min) == x then Adds
    else Keeps
  }

  // The changes of one rule over a history, call by call.
  ghost function FlowChanges(w: World, ops: seq<Op>, x: FlowRule): nat -> Change {
    (i: nat) => if i < |ops| then FlowChange(At(w, ops, i), ops[i], x) else Keeps
  }

  ghost function BreakerChanges(w: World, ops: seq<Op>, x: BreakerRule): nat -> Change {
    (i: nat) => if i < |ops| then BreakerChange(At(w, ops, i), ops[i], x) else Keeps
  }

  lemma InitialisedIsConfigured(w: World, ops: seq<Op>, n: nat)
    requires Pristine(w) && n <= |ops|
    ensures At(w, ops, n).flags.isInitialized ==> At(w, ops, n).conf.Some?
  {
    ConfigurationComesFrom(w, ops, n);
  }

  function SetAt(c: nat -> Change): nat -> bool {
    (i: nat) => c(i).Sets?
  }

  // How many of the changes from `i` up to `n` add the rule.
  function Additions(c: nat -> Change, i: nat, n: nat): nat {
    if n <= i then 0 else Additions(c, i, n - 1) + if c(n - 1).Adds? then 1 else 0
  }

  // What the last change that fixed the multiplicity left, and one more for each addition since.
  ghost function Tally(c: nat -> Change, n: nat): nat {
    var k := LastIndex(n, SetAt(c));
    (if k < 0 then 0 else c(k).times) + Additions(c, k + 1, n)
  }

  lemma TallyStep(c: nat -> Change, n: nat)
    ensures Tally(c, 0) == 0
    ensures Tally(c, n + 1) == c(n).Of(Tally(c, n))
  {
    assert LastIndex(n + 1, SetAt(c)) == if SetAt(c)(n) then n else LastIndex(n, SetAt(c));
  }

  lemma {:induction false} SomeAddition(c: nat -> Change, i: nat, n: nat) returns (j: nat)
    requires Additions(c, i, n) > 0
    ensures i <= j < n && c(j).Adds?
  {
    if c(n - 1).Adds? { j := n - 1; } else { j := SomeAddition(c, i, n - 1); }
  }

  // The change at `j` adds the rule, or loads a list that has it.
  predicate Brings(c: nat -> Change, j: nat) {
    c(j).Adds? || (c(j).Sets? && c(j).times > 0)
  }

  // Once gone, a rule is back only if it was added or set again.
  lemma TallyHasOrigin(c: nat -> Change, n: nat, i: nat)
    requires i < n && c(i) == Sets(0) && Tally(c, n) > 0
    ensures exists j | i < j < n :: Brings(c, j)
  {
    var k := LastIndex(n, SetAt(c));
    assert SetAt(c)(i) && k >= i;
    if c(k).times > 0 {
      assert Brings(c, k);
    } else {
      var j := SomeAddition(c, k + 1, n);
      assert Brings(c, j);
    }
  }

  lemma StepSetsSystem(w: World, op: Op)
    requires w.flags.isInitialized ==> w.conf.Some?
    ensures Perform(w, op).system == if SystemSet(w, op).Some? then SystemSet(w, op).value else w.system
  {
    hide ValidConfig, WithDefaults, SystemImages, FlowImages, BreakerImages;
  }

  lemma StepChangesFlow(w: World, op: Op, x: FlowRule)
    requires w.flags.isInitialized ==> w.conf.Some?
    ensures Perform(w, op).flow[x] == FlowChange(w, op, x).Of(w.flow[x])
  {
    hide ValidConfig, WithDefaults, SystemImages, FlowImages, BreakerImages;
    if op.RemoveFlowOp? { KeepAt(w.flow, FlowOther(op.resource), x); }
  }

  lemma StepChangesBreaker(w: World, op: Op, x: BreakerRule)
    requires w.flags.isInitialized ==> w.conf.Some?
    ensures Perform(w, op).breaker[x] == BreakerChange(w, op, x).Of(w.breaker[x])
  {
    hide ValidConfig, WithDefaults, SystemImages, FlowImages, BreakerImages;
    if op.RemoveBreakerOp? { KeepAt(w.breaker, BreakerOther(op.resource), x); }
  }

  ghost function SystemSets(w: World, ops: seq<Op>): nat -> bool {
    (i: nat) => i < |ops| && SystemSet(At(w, ops, i), ops[i]).Some?
  }

  // The system rules are what the last call that replaced them made them: none after a cleanup,
  // otherwise the images of the non-empty list configured at that moment.
  lemma {:induction false} SystemRulesComeFrom(w: World, ops: seq<Op>, n: nat)
    requires Pristine(w) && n <= |ops|
    ensures var k := LastIndex(n, SystemSets(w, ops));
            At(w, ops, n).system == if k < 0 then multiset{} else SystemSet(At(w, ops, k), ops[k]).value
  {
    hide Perform, SystemSet;
    if n > 0 {
      SystemRulesComeFrom(w, ops, n - 1);
      ConfigurationComesFrom(w, ops, n - 1);
      StepSetsSystem(At(w, ops, n - 1), ops[n - 1]);
    }
  }

  lemma FlowStep(w: World, ops: seq<Op>, n: nat, x: FlowRule)
    requires Pristine(w) && n < |ops|
    ensures At(w, ops, n + 1).flow[x] == FlowChanges(w, ops, x)(n).Of(At(w, ops, n).flow[x])
  {
    InitialisedIsConfigured(w, ops, n);
    StepChangesFlow(At(w, ops, n), ops[n], x);
    hide Perform, FlowChange, Pristine;
    assert At(w, ops, n + 1) == Perform(At(w, ops, n), ops[n]);
    hide At;
  }

  lemma BreakerStep(w: World, ops: seq<Op>, n: nat, x: BreakerRule)
    requires Pristine(w) && n < |ops|
    ensures At(w, ops, n + 1).breaker[x] == BreakerChanges(w, ops, x)(n).Of(At(w, ops, n).breaker[x])
  {
    InitialisedIsConfigured(w, ops, n);
    StepChangesBreaker(At(w, ops, n), ops[n], x);
    hide Perform, BreakerChange, Pristine;
    assert At(w, ops, n + 1) == Perform(At(w, ops, n), ops[n]);
    hide At;
  }

  lemma NoRulesYet(w: World, ops: seq<Op>)
    requires Pristine(w)
    ensures At(w, ops, 0).flow == multiset{} && At(w, ops, 0).breaker == multiset{}
  {
  }

  // A rule is live as often as the last load, cleanup or removal of its resource left it, and once
  // more for each time it was added since.
  lemma {:induction false} FlowRulesComeFrom(w: World, ops: seq<Op>, n: nat, x: FlowRule)
    requires Pristine(w) && n <= |ops|
    ensures At(w, ops, n).flow[x] == Tally(FlowChanges(w, ops, x), n)
  {
    hide At, Tally, FlowChanges, Pristine;
    if n == 0 {
      NoRulesYet(w, ops);
      TallyStep(FlowChanges(w, ops, x), 0);
    } else {
      FlowRulesComeFrom(w, ops, n - 1, x);
      FlowStep(w, ops, n - 1, x);
      TallyStep(FlowChanges(w, ops, x), n - 1);
    }
  }

  lemma {:induction false} BreakerRulesComeFrom(w: World, ops: seq<Op>, n: nat, x: BreakerRule)
    requires Pristine(w) && n <= |ops|
    ensures At(w, ops, n).breaker[x] == Tally(BreakerChanges(w, ops, x), n)
  {
    hide At, Tally, BreakerChanges, Pristine;
    if n == 0 {
      NoRulesYet(w, ops);
      TallyStep(BreakerChanges(w, ops, x), 0);
    } else {
      BreakerRulesComeFrom(w, ops, n - 1, x);
      BreakerStep(w, ops, n - 1, x);
      TallyStep(BreakerChanges(w, ops, x), n - 1);
    }
  }

  ghost predicate BringsSystem(w: World, ops: seq<Op>, j: nat, z: SystemRule) {
    && j < |ops| && LoadsSystem(At(w, ops, j), ops[j])
    && z in SystemImages(LoadingOf(At(w, ops, j), ops[j]).value.conf.systemRules)
  }

  // No rule survives a cleanup: every rule live later was added, or loaded from a configuration that
  // lists it, after the cleanup.
  lemma NothingSurvivesCleanup(w: World, ops: seq<Op>, i: nat, x: FlowRule, y: BreakerRule, z: SystemRule)
    requires Pristine(w) && i < |ops| && ops[i].CleanOp?
    ensures x in PerformAll(w, ops).flow ==> exists j | i < j < |ops| :: Brings(FlowChanges(w, ops, x), j)
    ensures y in PerformAll(w, ops).breaker ==> exists j | i < j < |ops| :: Brings(BreakerChanges(w, ops, y), j)
    ensures z in PerformAll(w, ops).system ==> exists j | i < j < |ops| :: BringsSystem(w, ops, j, z)
  {
    FlowRulesComeFrom(w, ops, |ops|, x);
    BreakerRulesComeFrom(w, ops, |ops|, y);
    hide At, Tally, Pristine, LoadsFlow, LoadsBreaker, FlowImages, BreakerImages;
    if x in PerformAll(w, ops).flow { TallyHasOrigin(FlowChanges(w, ops, x), |ops|, i); }
    if y in PerformAll(w, ops).breaker { TallyHasOrigin(BreakerChanges(w, ops, y), |ops|, i); }
    SystemSurvivesNot(w, ops, i, z);
  }

  lemma SystemSurvivesNot(w: World, ops: seq<Op>, i: nat, z: SystemRule)
    requires Pristine(w) && i < |ops| && ops[i].CleanOp?
    ensures z in PerformAll(w, ops).system ==> exists j | i < j < |ops| :: BringsSystem(w, ops, j, z)
  {
    hide LoadsSystem, SystemImages, At;
    SystemRulesComeFrom(w, ops, |ops|);
    var k := LastIndex(|ops|, SystemSets(w, ops));
    assert SystemSets(w, ops)(i) && k >= i;
    if z in PerformAll(w, ops).system { assert BringsSystem(w, ops, k, z); }
  }

  // Without a cleanup in between, a successful startup renews the flow and breaker rules. The system
  // rules match exactly when some are configured, or when the last call that replaced them was a
  // cleanup, or when no call ever did.
  lemma StartupAfterAnyHistory(w: World, ops: seq<Op>, env: StartEnv)
    requires Pristine(w)
    ensures var e, k := StartSpec(PerformAll(w, ops), env), LastIndex(|ops|, SystemSets(w, ops));
            e.outcome == Ok ==>
              && e.world.conf == PerformAll(w, ops).conf && e.world.conf.Some?
              && var c := e.world.conf.value;
                 && e.world.flow == FlowImages(c.flowRules)
                 && e.world.breaker == BreakerImages(c.breakerRules)
                 && (e.world.system == SystemImages(c.systemRules) <==>
                       c.systemRules != [] || k < 0 || ops[k].CleanOp?)
  {
    hide FlowImages, BreakerImages, SystemImages, StartSpec, Pristine, LastIndex;
    ConfigurationComesFrom(w, ops, |ops|);
    SomeSystemRuleLives(w, ops);
    StartupRenews(PerformAll(w, ops), env);
  }

  lemma SomeSystemRuleLives(w: World, ops: seq<Op>)
    requires Pristine(w)
    ensures var k := LastIndex(|ops|, SystemSets(w, ops));
            PerformAll(w, ops).system == multiset{} <==> k < 0 || ops[k].CleanOp?
  {
    hide FlowImages, BreakerImages, SystemImages, Pristine, LastIndex;
    SystemRulesComeFrom(w, ops, |ops|);
    var k := LastIndex(|ops|, SystemSets(w, ops));
    if k >= 0 && !ops[k].CleanOp? { NoConfNoImage(LoadingOf(At(w, ops, k), ops[k]).value.conf); }
  }

  lemma StartupRenews(w: World, env: StartEnv)
    requires w.flags.isInitialized ==> w.conf.Some?
    ensures var e := StartSpec(w, env);
            e.outcome == Ok ==>
              && e.world.conf == w.conf && w.conf.Some?
              && var c := w.conf.value;
                 && e.world.flow == FlowImages(c.flowRules)
                 && e.world.breaker == BreakerImages(c.breakerRules)
                 && (e.world.system == SystemImages(c.systemRules) <==>
                       c.systemRules != [] || w.system == multiset{})
  {
    hide FlowImages, BreakerImages, SystemImages;
    if w.conf.Some? { NoConfNoImage(w.conf.value); }
  }

  // --- dynamic rules ---

  lemma RemoveKeepsOthers(m: multiset<FlowRule>, n: multiset<BreakerRule>, resource: string, x: FlowRule, y: BreakerRule)
    ensures RemoveFlow(m, resource)[x] == if x.resource == resource then 0 else m[x]
    ensures RemoveBreaker(n, resource)[y] == if y.resource == resource then 0 else n[y]
  {
    KeepAt(m, FlowOther(resource), x);
    KeepAt(n, BreakerOther(resource), y);
  }

  // Removal is idempotent and removals commute; removing undoes adding exactly when the resource had
  // no rule before.
  lemma FlowRuleAlgebra(m: multiset<FlowRule>, p: string, q: string, qps: real, behavior: string)
    ensures RemoveFlow(RemoveFlow(m, p), p) == RemoveFlow(m, p)
    ensures RemoveFlow(RemoveFlow(m, p), q) == RemoveFlow(RemoveFlow(m, q), p)
    ensures RemoveFlow(AddFlow(m, p, qps, behavior), p) == RemoveFlow(m, p)
    ensures RemoveFlow(AddFlow(m, p, qps, behavior), p) == m <==> forall x | x in m :: x.resource != p
    ensures p != q ==>
              RemoveFlow(AddFlow(m, p, qps, behavior), q) == AddFlow(RemoveFlow(m, q), p, qps, behavior)
  {
    hide Keep;
    KeepTwice(m, FlowOther(p), FlowOther(q));
    KeepAdded(m, DynamicFlow(p, qps, behavior), FlowOther(p));
    KeepAdded(m, DynamicFlow(p, qps, behavior), FlowOther(q));
    KeepAll(m, FlowOther(p));
  }

  lemma BreakerRuleAlgebra(m: multiset<BreakerRule>, p: string, q: string, s: int, t: real, min: nat)
    ensures RemoveBreaker(RemoveBreaker(m, p), p) == RemoveBreaker(m, p)
    ensures RemoveBreaker(RemoveBreaker(m, p), q) == RemoveBreaker(RemoveBreaker(m, q), p)
    ensures RemoveBreaker(AddBreaker(m, p, s, t, min), p) == RemoveBreaker(m, p)
    ensures RemoveBreaker(AddBreaker(m, p, s, t, min), p) == m <==> forall x | x in m :: x.resource != p
    ensures p != q ==>
              RemoveBreaker(AddBreaker(m, p, s, t, min), q) == AddBreaker(RemoveBreaker(m, q), p, s, t, min)
  {
    hide Keep;
    KeepTwice(m, BreakerOther(p), BreakerOther(q));
    KeepAdded(m, DynamicBreaker(p, s, t, min), BreakerOther(p));
    KeepAdded(m, DynamicBreaker(p, s, t, min), BreakerOther(q));
    KeepAll(m, BreakerOther(p));
  }
}
