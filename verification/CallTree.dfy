/**
  What a protected call amounts to, read off the call tree alone: how user code ends, what Sentinel
  decides and in which order, what is measured and reported, what the caller gets. The events of its
  execution and the result agree with that.
*/
module CallTree {
  import opened Collector
  import opened Middleware
  import opened Protection
  import opened Brackets

  // --- the tree ---

  // How user code ends: a panic of a call it makes cuts it off unless it recovers.
  function Ends(k: Code): Finish {
    match k
    case End(f) => f
    case Invoke(call, recovers, rest) => if Panics(call) && !recovers then Panic else Ends(rest)
  }

  predicate Panics(c: Call) {
    match c
    case Execute(_, ended, gate, body, _) => !ended && gate.Admits? && Ends(body).Panic?
    case CheckFlow(_, _) => false
    case Serve(_, gate, handler, _) => gate.Admits? && Ends(handler).Panic?
    case Unprotected(body) => Ends(body).Panic?
  }

  datatype Decision = Decision(resource: Resource, admitted: bool)

  // What Sentinel decides about one entry, if it is asked at all.
  function Decided(r: Resource, gate: Gate): seq<Decision> {
    match gate
    case Uninitialised => []
    case Refuses => [Decision(r, false)]
    case Admits => [Decision(r, true)]
  }

  // Every decision of the call and of the calls nested in it, in order.
  function Decisions(c: Call): seq<Decision> {
    match c
    case Execute(r, ended, gate, body, _) =>
      if ended then []
      else Decided(r, gate) + if gate.Admits? then CodeDecisions(body) else []
    case CheckFlow(r, gate) => Decided(r, gate)
    case Serve(r, gate, handler, _) => Decided(r, gate) + if gate.Admits? then CodeDecisions(handler) else []
    case Unprotected(body) => CodeDecisions(body)
  }

  function CodeDecisions(k: Code): seq<Decision> {
    match k
    case End(_) => []
    case Invoke(call, recovers, rest) =>
      Decisions(call) + if Panics(call) && !recovers then [] else CodeDecisions(rest)
  }

  function CountDecisions(ds: seq<Decision>, r: Resource, admitted: bool): nat {
    if ds == [] then 0
    else (if ds[0].resource == r && ds[0].admitted == admitted then 1 else 0) + CountDecisions(ds[1..], r, admitted)
  }

  function AdmittedBy(c: Call, r: Resource): nat {
    CountDecisions(Decisions(c), r, true)
  }

  function RefusedBy(c: Call, r: Resource): nat {
    CountDecisions(Decisions(c), r, false)
  }

  // The durations of the functions Execute ran for `r` that returned, in the order they returned.
  function Timings(c: Call, r: Resource): seq<int> {
    match c
    case Execute(k, ended, gate, body, ns) =>
      if ended || !gate.Admits? then []
      else CodeTimings(body, r) + if k == r && !Ends(body).Panic? then [ns] else []
    case CheckFlow(_, _) => []
    case Serve(_, gate, handler, _) => if gate.Admits? then CodeTimings(handler, r) else []
    case Unprotected(body) => CodeTimings(body, r)
  }

  function CodeTimings(k: Code, r: Resource): seq<int> {
    match k
    case End(_) => []
    case Invoke(call, recovers, rest) =>
      Timings(call, r) + if Panics(call) && !recovers then [] else CodeTimings(rest, r)
  }

  // How often an error is reported to Sentinel: for a function that returns one, and for a handler
  // that returns having answered with a status of 500 or more.
  function Reports(c: Call): nat {
    match c
    case Execute(_, ended, gate, body, _) =>
      if ended || !gate.Admits? then 0 else CodeReports(body) + if Ends(body).Err? then 1 else 0
    case CheckFlow(_, _) => 0
    case Serve(_, gate, handler, writes) =>
      if !gate.Admits? then 0
      else CodeReports(handler) + if !Ends(handler).Panic? && RecordedStatus(writes) >= 500 then 1 else 0
    case Unprotected(body) => CodeReports(body)
  }

  function CodeReports(k: Code): nat {
    match k
    case End(_) => 0
    case Invoke(call, recovers, rest) =>
      Reports(call) + if Panics(call) && !recovers then 0 else CodeReports(rest)
  }

  // --- the same, read off the events ---

  function DecisionsIn(es: seq<Event>): seq<Decision> {
    if es == [] then []
    else
      var rest := DecisionsIn(es[1..]);
      match es[0]
      case Entered(_, r, _) => [Decision(r, true)] + rest
      case Refused(r) => [Decision(r, false)] + rest
      case _ => rest
  }

  // The durations the collector is told of for a resource, in order.
  function Durations(es: seq<Event>, r: Resource): seq<int> {
    if es == [] then []
    else if es[0].Metric? && es[0].update.ResponseTime? && es[0].update.resource == r
    then [es[0].update.ns] + Durations(es[1..], r)
    else Durations(es[1..], r)
  }

  function ReportsIn(es: seq<Event>): nat {
    if es == [] then 0 else (if es[0].Traced? then 1 else 0) + ReportsIn(es[1..])
  }

  // --- they agree ---

  datatype Digest = Digest(decisions: seq<Decision>, durations: seq<int>, reports: nat)

  function DigestOf(es: seq<Event>, r: Resource): Digest {
    Digest(DecisionsIn(es), Durations(es, r), ReportsIn(es))
  }

  function Join(a: Digest, b: Digest): Digest {
    Digest(a.decisions + b.decisions, a.durations + b.durations, a.reports + b.reports)
  }

  function Both(c: Call, mc: bool, r: Resource): Digest {
    Digest(Decisions(c), if mc then Timings(c, r) else [], Reports(c))
  }

  function CodeBoth(k: Code, mc: bool, r: Resource): Digest {
    Digest(CodeDecisions(k), if mc then CodeTimings(k, r) else [], CodeReports(k))
  }

  lemma {:induction false} DigestConcat(a: seq<Event>, b: seq<Event>, r: Resource)
    ensures DigestOf(a + b, r) == Join(DigestOf(a, r), DigestOf(b, r))
  {
    if a == [] {
      assert a + b == b;
    } else {
      assert (a + b)[1..] == a[1..] + b;
      DigestConcat(a[1..], b, r);
    }
  }

  lemma {:induction false} DigestOne(e: Event, r: Resource)
    ensures DigestOf([e], r) == Digest(
              if e.Entered? then [Decision(e.resource, true)] else if e.Refused? then [Decision(e.resource, false)] else [],
              if e.Metric? && e.update.ResponseTime? && e.update.resource == r then [e.update.ns] else [],
              if e.Traced? then 1 else 0)
  {
    assert [e][1..] == [];
    assert DecisionsIn([]) == [] && Durations([], r) == [] && ReportsIn([]) == 0;
    match e
    case Entered(_, k, _) => assert [Decision(k, true)] + [] == [Decision(k, true)];
    case Refused(k) => assert [Decision(k, false)] + [] == [Decision(k, false)];
    case Metric(u) => if u.ResponseTime? { assert [u.ns] + [] == [u.ns]; }
    case _ =>
  }

  lemma {:induction false} DigestNone(r: Resource)
    ensures DigestOf([], r) == Digest([], [], 0)
  {
  }

  lemma {:induction false} DigestNote(mc: bool, u: Update, r: Resource)
    ensures DigestOf(Note(mc, u), r)
         == Digest([], if mc && u.ResponseTime? && u.resource == r then [u.ns] else [], 0)
  {
    if mc { DigestOne(Metric(u), r); } else { DigestNone(r); }
  }

  lemma {:induction false} AdmissionDigest(n: nat, k: Resource, probe: bool, mc: bool, r: Resource)
    ensures DigestOf(Admission(n, k, probe, mc), r) == Digest([Decision(k, true)], [], 0)
  {
    DigestConcat([Entered(n, k, probe)], Note(mc, Update.Passed(k)), r);
    DigestOne(Entered(n, k, probe), r);
    DigestNote(mc, Update.Passed(k), r);
  }

  lemma {:induction false} OpeningDigest(n: nat, k: Resource, mc: bool, r: Resource)
    ensures DigestOf(Opening(n, k, mc), r) == Digest([Decision(k, true)], [], 0)
  {
    AdmissionDigest(n, k, false, mc, r);
    DigestConcat(Admission(n, k, false, mc), [UserStart(n)], r);
    DigestOne(UserStart(n), r);
  }

  lemma {:induction false} RefusedDigest(n: nat, k: Resource, mc: bool, r: Resource)
    ensures DigestOf(RefusedTrace(k, mc, n).events, r) == Digest([Decision(k, false)], [], 0)
  {
    DigestConcat([Refused(k)], Note(mc, Update.Blocked(k)), r);
    DigestOne(Refused(k), r);
    DigestNote(mc, Update.Blocked(k), r);
  }

  // The end of the code, the time, the report and the exit, the middle two if there is cause.
  lemma {:induction false} ClosingDigest(end: Event, time: seq<Event>, report: seq<Event>, exit: Event, ns: seq<int>, r: Resource)
    requires end.UserEnd? && exit.Exited?
    requires DigestOf(time, r) == Digest([], ns, 0)
    requires report == [] || (|report| == 1 && report[0].Traced?)
    ensures DigestOf([end] + time + report + [exit], r) == Digest([], ns, |report|)
  {
    ReportDigest(report, r);
    DigestOne(end, r);
    DigestOne(exit, r);
    DigestConcat([end], time, r);
    DigestConcat([end] + time, report, r);
    DigestConcat([end] + time + report, [exit], r);
    hide DigestOf;
    assert DigestOf([end] + time, r) == Digest([], ns, 0);
    assert DigestOf([end] + time + report, r) == Digest([], ns, |report|);
  }

  lemma {:induction false} ReportDigest(report: seq<Event>, r: Resource)
    requires report == [] || (|report| == 1 && report[0].Traced?)
    ensures DigestOf(report, r) == Digest([], [], |report|)
  {
    if report == [] {
      DigestNone(r);
    } else {
      DigestOne(report[0], r);
      assert report == [report[0]];
    }
  }

  lemma {:induction false} ExecuteClosingDigest(n: nat, k: Resource, mc: bool, f: Finish, ns: int, r: Resource)
    ensures DigestOf(ExecuteClosing(n, k, mc, f, ns), r)
         == Digest([], if mc && k == r && !f.Panic? then [ns] else [], if f.Err? then 1 else 0)
  {
    hide DigestOf;
    var time := if f.Panic? then [] else Note(mc, ResponseTime(k, ns));
    DigestNone(r);
    DigestNote(mc, ResponseTime(k, ns), r);
    ClosingDigest(UserEnd(n, ExecuteEnding(f, ns)), time, if f.Err? then [Traced(n)] else [], Exited(n, k),
                  if mc && k == r && !f.Panic? then [ns] else [], r);
  }

  lemma {:induction false} ServeClosingDigest(n: nat, k: Resource, f: Finish, writes: seq<WriterCall>, r: Resource)
    ensures DigestOf(ServeClosing(n, k, f, writes), r)
         == Digest([], [], if !f.Panic? && RecordedStatus(writes) >= 500 then 1 else 0)
  {
    hide DigestOf;
    var end := UserEnd(n, ServeEnding(f, writes));
    var report := if !f.Panic? && RecordedStatus(writes) >= STATUS_INTERNAL_SERVER_ERROR then [Traced(n)] else [];
    DigestNone(r);
    ClosingDigest(end, [], report, Exited(n, k), [], r);
    assert [end] + [] + report + [Exited(n, k)] == ServeClosing(n, k, f, writes);
  }

  // The events of a call are those of the tree: each decision is made, in order, nested calls
  // included; each function that returns is timed; each error is reported; and what the caller sees
  // is a panic exactly if the tree says so.
  lemma {:induction false} CallFollowsTree(c: Call, mc: bool, n: nat, r: Resource)
    ensures var t := CallTrace(c, mc, n);
            && DigestOf(t.events, r) == Both(c, mc, r)
            && (t.result.Panicking? <==> Panics(c))
    decreases c
  {
    hide DigestOf, Opening, Admission, ExecuteClosing, ServeClosing, RefusedTrace;
    DigestNone(r);
    match c
    case Execute(k, ended, gate, body, ns) =>
      if !ended && gate.Refuses? {
        RefusedDigest(n, k, mc, r);
        RefusedReturns(n, k, mc);
      } else if !ended && gate.Admits? {
        var b := CodeTrace(body, mc, n + 1);
        CodeFollowsTree(body, mc, n + 1, r);
        OpeningDigest(n, k, mc, r);
        ExecuteClosingDigest(n, k, mc, b.finish, ns, r);
        DigestConcat(Opening(n, k, mc), b.events, r);
        DigestConcat(Opening(n, k, mc) + b.events, ExecuteClosing(n, k, mc, b.finish, ns), r);
      }
    case CheckFlow(k, gate) =>
      if gate.Refuses? {
        RefusedDigest(n, k, mc, r);
        RefusedReturns(n, k, mc);
      } else if gate.Admits? {
        AdmissionDigest(n, k, true, mc, r);
        DigestOne(Exited(n, k), r);
        DigestConcat(Admission(n, k, true, mc), [Exited(n, k)], r);
      }
    case Serve(k, gate, handler, writes) =>
      if gate.Refuses? {
        RefusedDigest(n, k, mc, r);
        RefusedReturns(n, k, mc);
      } else if gate.Admits? {
        var b := CodeTrace(handler, mc, n + 1);
        CodeFollowsTree(handler, mc, n + 1, r);
        OpeningDigest(n, k, mc, r);
        ServeClosingDigest(n, k, b.finish, writes, r);
        DigestConcat(Opening(n, k, mc), b.events, r);
        DigestConcat(Opening(n, k, mc) + b.events, ServeClosing(n, k, b.finish, writes), r);
      }
    case Unprotected(body) =>
      CodeFollowsTree(body, mc, n, r);
  }

  lemma {:induction false} CodeFollowsTree(k: Code, mc: bool, n: nat, r: Resource)
    ensures var b := CodeTrace(k, mc, n);
            DigestOf(b.events, r) == CodeBoth(k, mc, r) && b.finish == Ends(k)
    decreases k
  {
    match k
    case End(_) =>
      DigestNone(r);
    case Invoke(call, recovers, rest) =>
      hide DigestOf, CallTrace, Panics, Decisions, Timings, Reports;
      var t := CallTrace(call, mc, n);
      CallFollowsTree(call, mc, n, r);
      if Panics(call) && !recovers {
        JoinedCode(k, mc, r);
      } else {
        CodeFollowsTree(rest, mc, t.next, r);
        DigestConcat(t.events, CodeTrace(rest, mc, t.next).events, r);
        JoinedCode(k, mc, r);
      }
  }

  lemma {:induction false} JoinedCode(k: Code, mc: bool, r: Resource)
    requires k.Invoke?
    ensures CodeBoth(k, mc, r)
         == if Panics(k.call) && !k.recovers then Both(k.call, mc, r) else Join(Both(k.call, mc, r), CodeBoth(k.rest, mc, r))
  {
    hide Panics, Decisions, Timings, Reports;
  }

  lemma {:induction false} RefusedReturns(n: nat, k: Resource, mc: bool)
    ensures RefusedTrace(k, mc, n).result == Returned(BlockedBySentinel)
  {
  }

  // --- what follows ---

  lemma {:induction false} DecisionsAreEvents(es: seq<Event>, r: Resource)
    ensures CountDecisions(DecisionsIn(es), r, true) == EnteredFor(es, r)
    ensures CountDecisions(DecisionsIn(es), r, false) == RefusedFor(es, r)
  {
    if es != [] {
      DecisionsAreEvents(es[1..], r);
      var rest := DecisionsIn(es[1..]);
      if es[0].Entered? { assert ([Decision(es[0].resource, true)] + rest)[1..] == rest; }
      if es[0].Refused? { assert ([Decision(es[0].resource, false)] + rest)[1..] == rest; }
    }
  }

  // The tree alone tells what happens: which decisions, and hence how many for each resource; which
  // durations, if there is a collector; how many reports.
  lemma {:induction false} EventsFollowTree(c: Call, mc: bool, n: nat, r: Resource)
    ensures var es := CallTrace(c, mc, n).events;
            && DecisionsIn(es) == Decisions(c)
            && EnteredFor(es, r) == AdmittedBy(c, r)
            && RefusedFor(es, r) == RefusedBy(c, r)
            && Durations(es, r) == (if mc then Timings(c, r) else [])
            && ReportsIn(es) == Reports(c)
  {
    CallFollowsTree(c, mc, n, r);
    DecisionsAreEvents(CallTrace(c, mc, n).events, r);
    hide CallTrace, Decisions, Timings, Reports, DecisionsIn, Durations, ReportsIn;
  }

  // The call gets as far as asking for an entry.
  predicate Asks(c: Call) {
    !c.Unprotected? && !(c.Execute? && c.ended)
  }

  // The call runs user code and hands on its answer.
  predicate HandsOn(c: Call) {
    (c.Execute? && !c.ended && c.gate.Admits?) || c.Unprotected?
  }

  // Which answer a call gives, exactly: the error of the context, of an uninitialised plugin, of a
  // refusal, or that of the user code; none for an admitted probe, or a handler that returns.
  lemma {:induction false} ResultFollowsTree(c: Call, mc: bool, n: nat)
    ensures var r := CallTrace(c, mc, n).result;
            && (r == Returned(ContextEnded) <==> c.Execute? && c.ended)
            && (r == Returned(NotInitialised) <==> Asks(c) && c.gate.Uninitialised?)
            && (r == Returned(BlockedBySentinel) <==> Asks(c) && c.gate.Refuses?)
            && (r == Returned(UserError) <==> HandsOn(c) && Ends(c.body).Err?)
            && (r == Returned(NoError) <==>
                  || (HandsOn(c) && Ends(c.body).Ok?)
                  || (c.CheckFlow? && c.gate.Admits?)
                  || (c.Serve? && c.gate.Admits? && !Ends(c.handler).Panic?))
            && (r == Panicking <==> Panics(c))
  {
    match c
    case Execute(_, _, _, body, _) => CodeFollowsTree(body, mc, n + 1, "");
    case CheckFlow(_, _) =>
    case Serve(_, _, handler, _) => CodeFollowsTree(handler, mc, n + 1, "");
    case Unprotected(body) => CodeFollowsTree(body, mc, n, "");
  }
}
