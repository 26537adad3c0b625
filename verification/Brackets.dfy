/**
  Protected calls are well bracketed: whatever nests in them and however it ends, every entry they
  acquire is left exactly once, the innermost first.

  `Step` is a referee that knows nothing of call trees: it reads the events one by one, keeps the
  stack of open entries, and rejects the first event that breaks the protocol.
*/
module Brackets {
  import opened Wrappers
  import opened Collector
  import opened Middleware
  import opened Protection

  datatype Stage = Open | Running | Ended(ending: Ending) | Reported(ending: Ending)

  // `counted` and `timed`: the collector has been told of the admission, and of the duration.
  datatype Frame = Frame(id: nat, resource: Resource, probe: bool, stage: Stage, counted: bool, timed: bool)

  // `mc`: there is a collector. Open entries, the innermost last; `next` is the first unused number.
  datatype Referee = Referee(mc: bool, stack: seq<Frame>, next: nat)

  // Errors and 5xx responses must be reported before the entry is left; nothing else may be.
  predicate MustReport(e: Ending) {
    e.Failed? || (e.Served? && IsServerError(e.status))
  }

  // Execute measures code that returns, with or without an error.
  predicate MustTime(e: Ending) {
    e.Nil? || e.Failed?
  }

  predicate MayExit(mc: bool, f: Frame) {
    && (mc ==> f.counted)
    && match f.stage
       case Open => f.probe
       case Running => false
       case Ended(e) => !MustReport(e) && (mc && MustTime(e) ==> f.timed)
       case Reported(e) => mc && MustTime(e) ==> f.timed
  }

  // Events that concern the innermost open entry.
  predicate LegalFor(mc: bool, top: Frame, e: Event) {
    match e
    case Metric(Passed(r)) => mc && top.stage.Open? && top.resource == r && !top.counted
    case Metric(ResponseTime(r, ns)) =>
      && mc && top.stage.Ended? && top.resource == r && !top.timed
      && MustTime(top.stage.ending) && top.stage.ending.ns == ns
    case UserStart(id) => top.id == id && top.stage.Open? && !top.probe && (mc ==> top.counted)
    case UserEnd(id, _) => top.id == id && top.stage.Running?
    case Traced(id) => top.id == id && top.stage.Ended? && MustReport(top.stage.ending)
    case Exited(id, r) => top.id == id && top.resource == r && MayExit(mc, top)
    case _ => false
  }

  predicate Legal(m: Referee, e: Event) {
    match e
    case Entered(id, _, _) => id == m.next
    case Refused(_) => true
    case Metric(Blocked(_)) => m.mc
    case _ => m.stack != [] && LegalFor(m.mc, m.stack[|m.stack| - 1], e)
  }

  function NewTop(top: Frame, e: Event): Frame {
    match e
    case Metric(Passed(_)) => top.(counted := true)
    case Metric(ResponseTime(_, _)) => top.(timed := true)
    case UserStart(_) => top.(stage := Running)
    case UserEnd(_, ending) => top.(stage := Ended(ending))
    case Traced(_) => if top.stage.Ended? then top.(stage := Reported(top.stage.ending)) else top
    case _ => top
  }

  function Step(m: Referee, e: Event): Referee
    requires Legal(m, e)
  {
    match e
    case Entered(id, r, probe) => Push(m, Frame(id, r, probe, Open, false, false))
    case Refused(_) => m
    case Metric(Blocked(_)) => m
    case Exited(_, _) => m.(stack := m.stack[..|m.stack| - 1])
    case _ =>
      var k := |m.stack| - 1;
      m.(stack := m.stack[..k] + [NewTop(m.stack[k], e)])
  }

  function Push(m: Referee, f: Frame): Referee {
    Referee(m.mc, m.stack + [f], m.next + 1)
  }

  function Judge(m: Referee, es: seq<Event>): Option<Referee>
    decreases |es|
  {
    if es == [] then Some(m)
    else if Legal(m, es[0]) then Judge(Step(m, es[0]), es[1..])
    else None
  }

  lemma {:induction false} JudgeConcat(m: Referee, a: seq<Event>, b: seq<Event>)
    requires Judge(m, a).Some?
    ensures Judge(m, a + b) == Judge(Judge(m, a).value, b)
    decreases |a|
  {
    if a == [] {
      assert a + b == b;
    } else {
      assert (a + b)[1..] == a[1..] + b;
      JudgeConcat(Step(m, a[0]), a[1..], b);
    }
  }

  lemma {:induction false} JudgeNone(m: Referee)
    ensures Judge(m, []) == Some(m)
  {
  }

  lemma {:induction false} JudgeOne(m: Referee, e: Event)
    requires Legal(m, e)
    ensures Judge(m, [e]) == Some(Step(m, e))
  {
  }

  // --- every call tree is accepted ---

  lemma {:induction false} JudgeThen(m: Referee, es: seq<Event>, n: Referee, e: Event)
    requires Judge(m, es) == Some(n) && Legal(n, e)
    ensures Judge(m, es + [e]) == Some(Step(n, e))
  {
    JudgeConcat(m, es, [e]);
    JudgeOne(n, e);
  }

  // An entry just admitted and counted.
  lemma {:induction false} EntryIsLegal(m: Referee, r: Resource, probe: bool)
    ensures Judge(m, Admission(m.next, r, probe, m.mc))
         == Some(Push(m, Frame(m.next, r, probe, Open, m.mc, false)))
  {
    hide Judge;
    var f := Frame(m.next, r, probe, Open, false, false);
    JudgeOne(m, Entered(m.next, r, probe));
    if m.mc {
      JudgeThen(m, [Entered(m.next, r, probe)], Push(m, f), Metric(Update.Passed(r)));
      assert Push(m, f).stack[..|m.stack|] == m.stack;
    } else {
      assert [Entered(m.next, r, probe)] + [] == [Entered(m.next, r, probe)];
    }
  }

  // An entry of `m` numbered `id` whose user code is running.
  function Within(m: Referee, id: nat, r: Resource): Referee {
    Referee(m.mc, m.stack + [Frame(id, r, false, Running, m.mc, false)], m.next)
  }

  lemma {:induction false} StartIsLegal(mc: bool, s: seq<Frame>, next: nat, id: nat, r: Resource)
    ensures Judge(Referee(mc, s + [Frame(id, r, false, Open, mc, false)], next), [UserStart(id)])
         == Some(Referee(mc, s + [Frame(id, r, false, Running, mc, false)], next))
  {
    var n := Referee(mc, s + [Frame(id, r, false, Open, mc, false)], next);
    assert n.stack[..|s|] == s;
    JudgeOne(n, UserStart(id));
  }

  lemma {:induction false} OpeningIsLegal(m: Referee, r: Resource)
    ensures Judge(m, Opening(m.next, r, m.mc)) == Some(Within(m.(next := m.next + 1), m.next, r))
  {
    hide Judge, Admission;
    EntryIsLegal(m, r, false);
    StartIsLegal(m.mc, m.stack, m.next + 1, m.next, r);
    JudgeConcat(m, Admission(m.next, r, false, m.mc), [UserStart(m.next)]);
  }

  // User code has ended; the rest of the bracket reports if it must, and leaves.
  lemma {:induction false} TailIsLegal(m: Referee, es: seq<Event>, n: Referee, f: Frame)
    requires f.stage.Ended? && !f.probe && (n.mc ==> f.counted && (MustTime(f.stage.ending) ==> f.timed))
    requires Judge(m, es) == Some(n.(stack := n.stack + [f]))
    ensures var report := if MustReport(f.stage.ending) then [Traced(f.id)] else [];
            Judge(m, es + report + [Exited(f.id, f.resource)]) == Some(n)
  {
    hide Judge;
    var ended := n.(stack := n.stack + [f]);
    assert ended.stack[..|n.stack|] == n.stack;
    if MustReport(f.stage.ending) {
      var reported := n.(stack := n.stack + [f.(stage := Reported(f.stage.ending))]);
      JudgeThen(m, es, ended, Traced(f.id));
      assert reported.stack[..|n.stack|] == n.stack;
      JudgeThen(m, es + [Traced(f.id)], reported, Exited(f.id, f.resource));
    } else {
      assert es + [] == es;
      JudgeThen(m, es, ended, Exited(f.id, f.resource));
    }
  }

  lemma {:induction false} EndIsLegal(m: Referee, id: nat, r: Resource, ending: Ending)
    ensures Judge(Within(m, id, r), [UserEnd(id, ending)])
         == Some(m.(stack := m.stack + [Frame(id, r, false, Ended(ending), m.mc, false)]))
  {
    hide Judge;
    JudgeOne(Within(m, id, r), UserEnd(id, ending));
    assert Within(m, id, r).stack[..|m.stack|] == m.stack;
  }

  lemma {:induction false} ExecuteClosingIsLegal(m: Referee, id: nat, r: Resource, f: Finish, ns: int)
    ensures Judge(Within(m, id, r), ExecuteClosing(id, r, m.mc, f, ns)) == Some(m)
  {
    hide Judge;
    var ending := ExecuteEnding(f, ns);
    var e0 := [UserEnd(id, ending)];
    var frame := Frame(id, r, false, Ended(ending), m.mc, false);
    EndIsLegal(m, id, r, ending);
    var e1 := if f.Panic? then [] else Note(m.mc, ResponseTime(r, ns));
    if e1 == [] {
      assert e0 + e1 == e0;
      TailIsLegal(Within(m, id, r), e0 + e1, m, frame);
    } else {
      JudgeThen(Within(m, id, r), e0, m.(stack := m.stack + [frame]), e1[0]);
      assert (m.stack + [frame])[..|m.stack|] == m.stack;
      TailIsLegal(Within(m, id, r), e0 + e1, m, frame.(timed := true));
    }
  }

  lemma {:induction false} ServeClosingIsLegal(m: Referee, id: nat, r: Resource, f: Finish, writes: seq<WriterCall>)
    ensures Judge(Within(m, id, r), ServeClosing(id, r, f, writes)) == Some(m)
  {
    hide Judge;
    var ending := ServeEnding(f, writes);
    EndIsLegal(m, id, r, ending);
    TailIsLegal(Within(m, id, r), [UserEnd(id, ending)], m, Frame(id, r, false, Ended(ending), m.mc, false));
  }

  lemma {:induction false} RefusedIsLegal(m: Referee, r: Resource)
    ensures Judge(m, RefusedTrace(r, m.mc, m.next).events) == Some(m) && RefusedTrace(r, m.mc, m.next).next == m.next
  {
    hide Judge;
    JudgeOne(m, Refused(r));
    if m.mc {
      JudgeThen(m, [Refused(r)], m, Metric(Update.Blocked(r)));
    } else {
      assert [Refused(r)] + [] == [Refused(r)];
    }
  }

  lemma {:induction false} ProbeIsLegal(m: Referee, r: Resource)
    ensures Judge(m, Admission(m.next, r, true, m.mc) + [Exited(m.next, r)]) == Some(m.(next := m.next + 1))
  {
    hide Judge, Admission;
    var n := Push(m, Frame(m.next, r, true, Open, m.mc, false));
    EntryIsLegal(m, r, true);
    JudgeThen(m, Admission(m.next, r, true, m.mc), n, Exited(m.next, r));
    assert n.stack[..|m.stack|] == m.stack;
  }

  // Whatever entries are open around it, the referee accepts a protected call and is left with
  // exactly those entries open: each admitted entry was left once, innermost first; user code ran
  // once inside it; errors were reported before leaving.
  lemma {:induction false} CallIsBracketed(c: Call, m: Referee)
    ensures var t := CallTrace(c, m.mc, m.next);
            m.next <= t.next && Judge(m, t.events) == Some(m.(next := t.next))
    decreases c
  {
    hide Judge, Opening, ExecuteClosing, ServeClosing, RefusedTrace, Admission;
    JudgeNone(m);
    var mc, n := m.mc, m.next;
    var t := CallTrace(c, mc, n);
    match c
    case Execute(r, ended, gate, body, ns) =>
      if !ended && gate.Refuses? {
        RefusedIsLegal(m, r);
      } else if !ended && gate.Admits? {
        var b := CodeTrace(body, mc, n + 1);
        BodyIsBracketed(m, r, body);
        ExecuteClosingIsLegal(m.(next := b.next), n, r, b.finish, ns);
        JudgeConcat(m, Opening(n, r, mc) + b.events, ExecuteClosing(n, r, mc, b.finish, ns));
      }
    case CheckFlow(r, gate) =>
      if gate.Refuses? {
        RefusedIsLegal(m, r);
      } else if gate.Admits? {
        ProbeIsLegal(m, r);
      }
    case Serve(r, gate, handler, writes) =>
      if gate.Refuses? {
        RefusedIsLegal(m, r);
      } else if gate.Admits? {
        var b := CodeTrace(handler, mc, n + 1);
        BodyIsBracketed(m, r, handler);
        ServeClosingIsLegal(m.(next := b.next), n, r, b.finish, writes);
        JudgeConcat(m, Opening(n, r, mc) + b.events, ServeClosing(n, r, b.finish, writes));
      }
    case Unprotected(body) =>
      CodeIsBracketed(body, m);
  }

  lemma {:induction false} BodyIsBracketed(m: Referee, r: Resource, body: Code)
    ensures var b := CodeTrace(body, m.mc, m.next + 1);
            && m.next < b.next
            && Judge(m, Opening(m.next, r, m.mc) + b.events) == Some(Within(m.(next := b.next), m.next, r))
    decreases body, 1
  {
    OpeningIsLegal(m, r);
    CodeIsBracketed(body, Within(m.(next := m.next + 1), m.next, r));
    JudgeConcat(m, Opening(m.next, r, m.mc), CodeTrace(body, m.mc, m.next + 1).events);
  }

  lemma {:induction false} CodeIsBracketed(k: Code, m: Referee)
    ensures var b := CodeTrace(k, m.mc, m.next);
            m.next <= b.next && Judge(m, b.events) == Some(m.(next := b.next))
    decreases k, 0
  {
    match k
    case End(_) =>
    case Invoke(call, recovers, rest) =>
      CallIsBracketed(call, m);
      var t := CallTrace(call, m.mc, m.next);
      if !(t.result.Panicking? && !recovers) {
        CodeIsBracketed(rest, m.(next := t.next));
        JudgeConcat(m, t.events, CodeTrace(rest, m.mc, t.next).events);
      }
  }

  // --- what acceptance means ---

  function EnterCount(es: seq<Event>, id: nat): nat {
    if es == [] then 0 else (if es[0].Entered? && es[0].id == id then 1 else 0) + EnterCount(es[1..], id)
  }

  function ExitCount(es: seq<Event>, id: nat): nat {
    if es == [] then 0 else (if es[0].Exited? && es[0].id == id then 1 else 0) + ExitCount(es[1..], id)
  }

  function StartCount(es: seq<Event>, id: nat): nat {
    if es == [] then 0 else (if es[0] == UserStart(id) then 1 else 0) + StartCount(es[1..], id)
  }

  predicate IsProbe(es: seq<Event>, id: nat) {
    es != [] && ((es[0].Entered? && es[0].id == id && es[0].probe) || IsProbe(es[1..], id))
  }

  function Find(stack: seq<Frame>, id: nat): Option<Frame> {
    if stack == [] then None
    else if stack[|stack| - 1].id == id then Some(stack[|stack| - 1])
    else Find(stack[..|stack| - 1], id)
  }

  ghost predicate Tidy(m: Referee) {
    && (forall i, j | 0 <= i < j < |m.stack| :: m.stack[i].id < m.stack[j].id)
    && (forall i | 0 <= i < |m.stack| :: m.stack[i].id < m.next)
  }

  lemma {:induction false} FindBounds(stack: seq<Frame>, id: nat)
    ensures Find(stack, id).Some? ==> exists i | 0 <= i < |stack| :: stack[i].id == id
  {
    if stack != [] && stack[|stack| - 1].id != id { FindBounds(stack[..|stack| - 1], id); }
  }

  lemma {:induction false} StepKeepsTidy(m: Referee, e: Event)
    requires Tidy(m) && Legal(m, e)
    ensures Tidy(Step(m, e))
  {
  }

  // How a legal step changes what is known about one entry.
  ghost predicate Finds(m: Referee, e: Event, id: nat)
    requires Legal(m, e)
  {
    var f, f' := Find(m.stack, id), Find(Step(m, e).stack, id);
    && (id >= m.next ==> f == None)
    && (e.Entered? && e.id == id ==> f' == Some(Frame(id, e.resource, e.probe, Open, false, false)))
    && (e.Exited? && e.id == id ==> f.Some? && MayExit(m.mc, f.value) && f' == None)
    && (e == UserStart(id) ==>
          f.Some? && f.value.stage.Open? && !f.value.probe && f' == Some(f.value.(stage := Running)))
    && (!(e.Entered? && e.id == id) && !(e.Exited? && e.id == id) && e != UserStart(id) ==>
          && (f == None <==> f' == None)
          && (f.Some? ==> f'.value.probe == f.value.probe && (f'.value.stage.Open? <==> f.value.stage.Open?)))
  }

  lemma {:induction false} EnterFinds(m: Referee, e: Event, id: nat)
    requires Tidy(m) && Legal(m, e) && e.Entered?
    ensures Finds(m, e, id)
  {
    FindBounds(m.stack, id);
    assert Step(m, e).stack[..|m.stack|] == m.stack;
  }

  lemma {:induction false} ExitFinds(m: Referee, e: Event, id: nat)
    requires Tidy(m) && Legal(m, e) && e.Exited?
    ensures Finds(m, e, id)
  {
    FindBounds(m.stack, id);
    FindBounds(m.stack[..|m.stack| - 1], id);
  }

  // Only the innermost open entry changes, and its number does not.
  lemma {:induction false} TopFinds(m: Referee, e: Event, id: nat)
    requires Tidy(m) && Legal(m, e) && !e.Entered? && !e.Exited?
    ensures Finds(m, e, id)
  {
    FindBounds(m.stack, id);
    if !e.Refused? && !(e.Metric? && e.update.Blocked?) {
      var k := |m.stack| - 1;
      assert Step(m, e).stack[..k] == m.stack[..k];
      FindBounds(m.stack[..k], id);
      hide Tidy;
      assert Step(m, e).stack[k] == NewTop(m.stack[k], e) && NewTop(m.stack[k], e).id == m.stack[k].id;
    }
  }

  lemma {:induction false} StepFinds(m: Referee, e: Event, id: nat)
    requires Tidy(m) && Legal(m, e)
    ensures Finds(m, e, id)
  {
    hide Finds, Tidy, Legal;
    if e.Entered? {
      EnterFinds(m, e, id);
    } else if e.Exited? {
      ExitFinds(m, e, id);
    } else {
      TopFinds(m, e, id);
    }
  }

  // Entries numbered by an accepted run and closed at its end were entered once and left once; user
  // code ran once inside each, and never inside a probe.
  lemma {:induction false} ExactlyOnce(m: Referee, es: seq<Event>, id: nat)
    requires Tidy(m) && Judge(m, es).Some?
    requires id < Judge(m, es).value.next && Find(Judge(m, es).value.stack, id) == None
    ensures EnterCount(es, id) == if id >= m.next then 1 else 0
    ensures ExitCount(es, id) == if id >= m.next || Find(m.stack, id).Some? then 1 else 0
    ensures StartCount(es, id) ==
              if id >= m.next then (if IsProbe(es, id) then 0 else 1)
              else if Find(m.stack, id).Some? && Find(m.stack, id).value.stage.Open?
                      && !Find(m.stack, id).value.probe then 1
              else 0
    ensures id < m.next ==> !IsProbe(es, id)
    decreases |es|
  {
    StepFinds0(m, id);
    if es != [] {
      var e := es[0];
      StepKeepsTidy(m, e);
      StepFinds(m, e, id);
      ExactlyOnce(Step(m, e), es[1..], id);
    }
  }

  lemma {:induction false} StepFinds0(m: Referee, id: nat)
    requires Tidy(m)
    ensures id >= m.next ==> Find(m.stack, id) == None
  {
    FindBounds(m.stack, id);
  }

  // Sentinel's concurrency statistic: entries of a resource currently open.
  function OpenFor(stack: seq<Frame>, r: Resource): nat {
    if stack == [] then 0
    else OpenFor(stack[..|stack| - 1], r) + if stack[|stack| - 1].resource == r then 1 else 0
  }

  function EnteredFor(es: seq<Event>, r: Resource): nat {
    if es == [] then 0 else (if es[0].Entered? && es[0].resource == r then 1 else 0) + EnteredFor(es[1..], r)
  }

  function ExitedFor(es: seq<Event>, r: Resource): nat {
    if es == [] then 0 else (if es[0].Exited? && es[0].resource == r then 1 else 0) + ExitedFor(es[1..], r)
  }

  function RefusedFor(es: seq<Event>, r: Resource): nat {
    if es == [] then 0 else (if es[0] == Refused(r) then 1 else 0) + RefusedFor(es[1..], r)
  }

  lemma {:induction false} StepBalance(m: Referee, e: Event, r: Resource)
    requires Legal(m, e)
    ensures OpenFor(Step(m, e).stack, r)
         == OpenFor(m.stack, r) + (if e.Entered? && e.resource == r then 1 else 0)
                                - (if e.Exited? && e.resource == r then 1 else 0)
  {
    var n := Step(m, e);
    if e.Entered? {
      assert n.stack[..|m.stack|] == m.stack;
    } else if !e.Exited? && m.stack != [] {
      assert n.stack[..|m.stack| - 1] == m.stack[..|m.stack| - 1];
    }
  }

  lemma {:induction false} InFlightBalance(m: Referee, es: seq<Event>, r: Resource)
    requires Judge(m, es).Some?
    ensures OpenFor(m.stack, r) + EnteredFor(es, r) == OpenFor(Judge(m, es).value.stack, r) + ExitedFor(es, r)
    decreases |es|
  {
    hide Step, OpenFor;
    if es != [] {
      StepBalance(m, es[0], r);
      InFlightBalance(Step(m, es[0]), es[1..], r);
    }
  }

  // The bracket theorem for one protected call made at any point.
  lemma {:induction false} ProtectedCallsBalance(c: Call, mc: bool, n: nat, id: nat, r: Resource)
    ensures var t := CallTrace(c, mc, n);
            && (n <= id < t.next ==>
                  && EnterCount(t.events, id) == 1
                  && ExitCount(t.events, id) == 1
                  && StartCount(t.events, id) == if IsProbe(t.events, id) then 0 else 1)
            && (!(n <= id < t.next) ==> EnterCount(t.events, id) == ExitCount(t.events, id) == StartCount(t.events, id) == 0)
            && EnteredFor(t.events, r) == ExitedFor(t.events, r)
  {
    var t := CallTrace(c, mc, n);
    CallIsBracketed(c, Referee(mc, [], n));
    if id < t.next {
      ExactlyOnce(Referee(mc, [], n), t.events, id);
    } else {
      NothingUnborn(Referee(mc, [], n), t.events, id);
    }
    InFlightBalance(Referee(mc, [], n), t.events, r);
  }

  lemma {:induction false} NothingUnborn(m: Referee, es: seq<Event>, id: nat)
    requires Tidy(m) && Judge(m, es).Some? && id >= Judge(m, es).value.next
    ensures m.next <= Judge(m, es).value.next
    ensures EnterCount(es, id) == ExitCount(es, id) == StartCount(es, id) == 0
    decreases |es|
  {
    if es != [] {
      StepKeepsTidy(m, es[0]);
      StepFinds(m, es[0], id);
      NothingUnborn(Step(m, es[0]), es[1..], id);
    }
  }
}
