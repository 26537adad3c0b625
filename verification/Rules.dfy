/**
  Rules as the configuration lists them, rules as Sentinel holds them, and the rule stores.

  A store stands for one of Sentinel's rule managers. The only assumption about it: LoadRules
  replaces the contents or fails and leaves them, ClearRules empties it, GetRules lists the contents
  in some order. Whether a load succeeds is an argument.
*/
module Rules {
  datatype FlowConf = FlowConf(
    resource: string,
    tokenCalculateStrategy: int,
    controlBehavior: int,
    threshold: real,
    relationStrategy: int,
    refResource: string,
    maxQueueingTimeMs: nat,
    warmUpPeriodSec: nat,
    warmUpColdFactor: nat,
    statIntervalInMs: nat,
    lowMemUsageThreshold: int,
    highMemUsageThreshold: int,
    memLowWaterMarkBytes: int,
    memHighWaterMarkBytes: int)

  datatype FlowRule = FlowRule(
    resource: string,
    tokenCalculateStrategy: int,
    controlBehavior: int,
    threshold: real,
    statIntervalInMs: nat,
    warmUpPeriodSec: nat,
    maxQueueingTimeMs: nat)

  datatype BreakerConf = BreakerConf(
    resource: string,
    strategy: int,
    retryTimeoutMs: nat,
    minRequestAmount: nat,
    statIntervalMs: nat,
    statSlidingWindowBucketCount: nat,
    threshold: real,
    probeNum: nat)

  datatype BreakerRule = BreakerRule(
    resource: string,
    strategy: int,
    retryTimeoutMs: nat,
    minRequestAmount: nat,
    statIntervalMs: nat,
    threshold: real)

  datatype SystemConf = SystemConf(metricType: int, triggerCount: real, strategy: int)

  datatype SystemRule = SystemRule(metricType: int, triggerCount: real)

  // The field-wise images.
  function FlowImage(c: FlowConf): FlowRule {
    FlowRule(c.resource, c.tokenCalculateStrategy, c.controlBehavior, c.threshold, c.statIntervalInMs,
             c.warmUpPeriodSec, c.maxQueueingTimeMs)
  }

  function BreakerImage(c: BreakerConf): BreakerRule {
    BreakerRule(c.resource, c.strategy, c.retryTimeoutMs, c.minRequestAmount, c.statIntervalMs, c.threshold)
  }

  function SystemImage(c: SystemConf): SystemRule {
    SystemRule(c.metricType, c.triggerCount)
  }

  function FlowList(cs: seq<FlowConf>): (rs: seq<FlowRule>)
    ensures |rs| == |cs| && forall i | 0 <= i < |cs| :: rs[i] == FlowImage(cs[i])
  {
    seq(|cs|, i requires 0 <= i < |cs| => FlowImage(cs[i]))
  }

  function BreakerList(cs: seq<BreakerConf>): (rs: seq<BreakerRule>)
    ensures |rs| == |cs| && forall i | 0 <= i < |cs| :: rs[i] == BreakerImage(cs[i])
  {
    seq(|cs|, i requires 0 <= i < |cs| => BreakerImage(cs[i]))
  }

  function SystemList(cs: seq<SystemConf>): (rs: seq<SystemRule>)
    ensures |rs| == |cs| && forall i | 0 <= i < |cs| :: rs[i] == SystemImage(cs[i])
  {
    seq(|cs|, i requires 0 <= i < |cs| => SystemImage(cs[i]))
  }

  function FlowImages(cs: seq<FlowConf>): multiset<FlowRule> { multiset(FlowList(cs)) }

  function BreakerImages(cs: seq<BreakerConf>): multiset<BreakerRule> { multiset(BreakerList(cs)) }

  function SystemImages(cs: seq<SystemConf>): multiset<SystemRule> { multiset(SystemList(cs)) }

  // --- what a configured list puts in force, field by field ---

  predicate FlowFollows(x: FlowRule, c: FlowConf) {
    && x.resource == c.resource
    && x.tokenCalculateStrategy == c.tokenCalculateStrategy
    && x.controlBehavior == c.controlBehavior
    && x.threshold == c.threshold
    && x.statIntervalInMs == c.statIntervalInMs
    && x.warmUpPeriodSec == c.warmUpPeriodSec
    && x.maxQueueingTimeMs == c.maxQueueingTimeMs
  }

  predicate BreakerFollows(x: BreakerRule, c: BreakerConf) {
    && x.resource == c.resource
    && x.strategy == c.strategy
    && x.retryTimeoutMs == c.retryTimeoutMs
    && x.minRequestAmount == c.minRequestAmount
    && x.statIntervalMs == c.statIntervalMs
    && x.threshold == c.threshold
  }

  predicate SystemFollows(x: SystemRule, c: SystemConf) {
    x.metricType == c.metricType && x.triggerCount == c.triggerCount
  }

  function CountWhere<C>(cs: seq<C>, p: C -> bool): nat {
    if cs == [] then 0 else CountWhere(cs[..|cs| - 1], p) + if p(cs[|cs| - 1]) then 1 else 0
  }

  lemma {:induction false} CountWhereSome<C>(cs: seq<C>, p: C -> bool)
    ensures CountWhere(cs, p) > 0 <==> exists c | c in cs :: p(c)
  {
    if cs != [] {
      var k := |cs| - 1;
      CountWhereSome(cs[..k], p);
      assert forall c :: c in cs <==> c in cs[..k] || c == cs[k];
    }
  }

  lemma {:induction false} ImagesCount<C, R>(cs: seq<C>, rs: seq<R>, x: R, p: C -> bool)
    requires |rs| == |cs| && forall i | 0 <= i < |cs| :: rs[i] == x <==> p(cs[i])
    ensures multiset(rs)[x] == CountWhere(cs, p)
  {
    if cs != [] {
      var k := |cs| - 1;
      ImagesCount(cs[..k], rs[..k], x, p);
      assert rs == rs[..k] + [rs[k]];
    }
  }

  // A rule comes from a list as often as the list has an entry with its settings, and is there
  // exactly when it has one.
  lemma FlowImagesFollow(cs: seq<FlowConf>, x: FlowRule)
    ensures FlowImages(cs)[x] == CountWhere(cs, (c: FlowConf) => FlowFollows(x, c))
    ensures x in FlowImages(cs) <==> exists c | c in cs :: FlowFollows(x, c)
  {
    var p := (c: FlowConf) => FlowFollows(x, c);
    ImagesCount(cs, FlowList(cs), x, p);
    CountWhereSome(cs, p);
    assert forall c :: p(c) <==> FlowFollows(x, c);
  }

  lemma BreakerImagesFollow(cs: seq<BreakerConf>, x: BreakerRule)
    ensures BreakerImages(cs)[x] == CountWhere(cs, (c: BreakerConf) => BreakerFollows(x, c))
    ensures x in BreakerImages(cs) <==> exists c | c in cs :: BreakerFollows(x, c)
  {
    var p := (c: BreakerConf) => BreakerFollows(x, c);
    ImagesCount(cs, BreakerList(cs), x, p);
    CountWhereSome(cs, p);
    assert forall c :: p(c) <==> BreakerFollows(x, c);
  }

  lemma SystemImagesFollow(cs: seq<SystemConf>, x: SystemRule)
    ensures SystemImages(cs)[x] == CountWhere(cs, (c: SystemConf) => SystemFollows(x, c))
    ensures x in SystemImages(cs) <==> exists c | c in cs :: SystemFollows(x, c)
  {
    var p := (c: SystemConf) => SystemFollows(x, c);
    ImagesCount(cs, SystemList(cs), x, p);
    CountWhereSome(cs, p);
    assert forall c :: p(c) <==> SystemFollows(x, c);
  }

  // --- removal on multisets ---

  // The rules of `m` that satisfy `keep`, with their multiplicities.
  ghost function Keep<R>(m: multiset<R>, keep: R -> bool): multiset<R>
    decreases |m|
  {
    if m == multiset{} then m
    else
      var x :| x in m;
      var rest := Keep(m - multiset{x}, keep);
      if keep(x) then rest + multiset{x} else rest
  }

  lemma {:induction false} KeepPicks<R>(m: multiset<R>, keep: R -> bool) returns (y: R)
    requires m != multiset{}
    ensures y in m
    ensures Keep(m, keep) == Keep(m - multiset{y}, keep) + if keep(y) then multiset{y} else multiset{}
  {
    y :| y in m && Keep(m, keep) == var rest := Keep(m - multiset{y}, keep);
                                    if keep(y) then rest + multiset{y} else rest;
  }

  lemma {:induction false} KeepAt<R>(m: multiset<R>, keep: R -> bool, x: R)
    ensures Keep(m, keep)[x] == if keep(x) then m[x] else 0
    decreases |m|
  {
    if m != multiset{} {
      hide Keep;
      var y := KeepPicks(m, keep);
      KeepAt(m - multiset{y}, keep, x);
    }
  }

  function FlowOther(resource: string): FlowRule -> bool {
    (r: FlowRule) => r.resource != resource
  }

  function BreakerOther(resource: string): BreakerRule -> bool {
    (r: BreakerRule) => r.resource != resource
  }

  lemma KeepTwice<R(!new)>(m: multiset<R>, f: R -> bool, g: R -> bool)
    ensures Keep(Keep(m, f), f) == Keep(m, f)
    ensures Keep(Keep(m, f), g) == Keep(Keep(m, g), f)
  {
    forall x: R
      ensures Keep(Keep(m, f), f)[x] == Keep(m, f)[x]
      ensures Keep(Keep(m, f), g)[x] == Keep(Keep(m, g), f)[x]
    {
      KeepAt(m, f, x);
      KeepAt(m, g, x);
      KeepAt(Keep(m, f), f, x);
      KeepAt(Keep(m, f), g, x);
      KeepAt(Keep(m, g), f, x);
    }
  }

  lemma KeepAdded<R(!new)>(m: multiset<R>, x: R, keep: R -> bool)
    ensures Keep(m + multiset{x}, keep) == Keep(m, keep) + if keep(x) then multiset{x} else multiset{}
  {
    forall y: R
      ensures Keep(m + multiset{x}, keep)[y] == (Keep(m, keep) + if keep(x) then multiset{x} else multiset{})[y]
    {
      KeepAt(m, keep, y);
      KeepAt(m + multiset{x}, keep, y);
    }
  }

  lemma KeepAll<R(!new)>(m: multiset<R>, keep: R -> bool)
    ensures Keep(m, keep) == m <==> forall x | x in m :: keep(x)
  {
    forall x: R ensures Keep(m, keep)[x] == if keep(x) then m[x] else 0 { KeepAt(m, keep, x); }
    if Keep(m, keep) == m {
      forall x | x in m ensures keep(x) { assert Keep(m, keep)[x] == m[x]; }
    }
  }

  // --- stores ---

  // A pointer to a rule. Rules are never modified through it.
  class Ref<R> {
    const value: R

    constructor (value: R)
      ensures this.value == value
    {
      this.value := value;
    }
  }

  function Values<R>(refs: seq<Ref<R>>): (vs: seq<R>)
    ensures |vs| == |refs|
    ensures forall i | 0 <= i < |refs| :: vs[i] == refs[i].value
  {
    seq(|refs|, i requires 0 <= i < |refs| => refs[i].value)
  }

  ghost predicate Distinct<R>(refs: seq<Ref<R>>) {
    forall i, j | 0 <= i < j < |refs| :: refs[i] != refs[j]
  }

  class RuleStore<R(==)> {
    var contents: multiset<R>

    constructor ()
      ensures contents == multiset{}
    {
      contents := multiset{};
    }

    method LoadRules(rules: seq<Ref<R>>, ok: bool) returns (loaded: bool)
      modifies this
      ensures loaded == ok
      ensures contents == if ok then multiset(Values(rules)) else old(contents)
    {
      if ok {
        contents := multiset(Values(rules));
      }
      loaded := ok;
    }

    method ClearRules()
      modifies this
      ensures contents == multiset{}
    {
      contents := multiset{};
    }

    method GetRules() returns (rules: seq<R>)
      ensures multiset(rules) == contents
    {
      rules := [];
      var left := contents;
      while left != multiset{}
        invariant multiset(rules) + left == contents
        decreases left
      {
        var r :| r in left;
        rules := rules + [r];
        left := left - multiset{r};
      }
    }
  }

  // The copy loop of the Add and Remove methods: with a loop variable per iteration, every pointer
  // is to a copy of its own.
  method CopyRules<R(==,!new)>(rules: seq<R>, keep: R -> bool) returns (refs: seq<Ref<R>>)
    ensures fresh(refs) && Distinct(refs)
    ensures multiset(Values(refs)) == Keep(multiset(rules), keep)
  {
    hide Keep, Values;
    KeepAll(multiset{}, keep);
    ValuesAppend<R>([], []);
    refs := [];
    for i := 0 to |rules|
      invariant fresh(refs) && Distinct(refs)
      invariant multiset(Values(refs)) == Keep(multiset(rules[..i]), keep)
    {
      assert rules[..i + 1] == rules[..i] + [rules[i]];
      KeepAdded(multiset(rules[..i]), rules[i], keep);
      if keep(rules[i]) {
        var r := new Ref(rules[i]);
        ValuesAppend(refs, [r]);
        refs := refs + [r];
      }
    }
    assert rules[..|rules|] == rules;
  }

  lemma ValuesAppend<R>(a: seq<Ref<R>>, b: seq<Ref<R>>)
    ensures Values(a + b) == Values(a) + Values(b)
    ensures multiset(Values(a + b)) == multiset(Values(a)) + multiset(Values(b))
    ensures |b| == 1 ==> Values(b) == [b[0].value]
    ensures a == [] ==> Values(a) == []
  {
    assert Values(a + b) == Values(a) + Values(b);
  }
}
