/**
  The collector accounts exactly for the protected calls made, one after the other or concurrently:
  counters for the entries decided, response times for the code that returned.
*/
module Accounting {
  import opened Collector
  import opened CollectorLog
  import opened Protection
  import opened Brackets
  import opened CallTree

  lemma {:induction false} CountsConcat(a: seq<Update>, b: seq<Update>, r: Resource)
    ensures CountPassed(a + b, r) == CountPassed(a, r) + CountPassed(b, r)
    ensures CountBlocked(a + b, r) == CountBlocked(a, r) + CountBlocked(b, r)
    ensures Times(a + b, r) == Times(a, r) + Times(b, r)
    decreases |b|
  {
    if b == [] {
      assert a + b == a;
    } else {
      var k := |b| - 1;
      assert (a + b)[..|a + b| - 1] == a + b[..k];
      CountsConcat(a, b[..k], r);
    }
  }

  lemma {:induction false} EventCountsConcat(a: seq<Event>, b: seq<Event>, r: Resource)
    ensures EnteredFor(a + b, r) == EnteredFor(a, r) + EnteredFor(b, r)
    ensures RefusedFor(a + b, r) == RefusedFor(a, r) + RefusedFor(b, r)
  {
    if a == [] {
      assert a + b == b;
    } else {
      assert (a + b)[1..] == a[1..] + b;
      EventCountsConcat(a[1..], b, r);
    }
  }

  // With a collector, what it is told matches what Sentinel decided; a response time is recorded
  // for at most each admitted call. `extra` admitted calls are still running.
  ghost predicate Accounted(es: seq<Event>, mc: bool, r: Resource, extra: nat) {
    var us := Updates(es);
    && OnlyRecorded(us)
    && (!mc ==> us == [])
    && CountPassed(us, r) == (if mc then EnteredFor(es, r) else 0)
    && CountBlocked(us, r) == (if mc then RefusedFor(es, r) else 0)
    && |Times(us, r)| + (if mc then extra else 0) <= CountPassed(us, r)
  }

  lemma {:induction false} AccountedConcat(a: seq<Event>, b: seq<Event>, mc: bool, r: Resource, i: nat, j: nat)
    requires Accounted(a, mc, r, i) && Accounted(b, mc, r, j)
    ensures Accounted(a + b, mc, r, i + j)
  {
    UpdatesConcat(a, b);
    CountsConcat(Updates(a), Updates(b), r);
    EventCountsConcat(a, b, r);
  }

  lemma {:induction false} AccountedLess(es: seq<Event>, mc: bool, r: Resource, i: nat)
    requires Accounted(es, mc, r, i)
    ensures Accounted(es, mc, r, 0)
  {
  }

  lemma {:induction false} UpdateCounts(u: Update, r: Resource)
    ensures CountPassed([u], r) == if u == Update.Passed(r) then 1 else 0
    ensures CountBlocked([u], r) == if u == Update.Blocked(r) then 1 else 0
    ensures |Times([u], r)| == if u.ResponseTime? && u.resource == r then 1 else 0
  {
    assert [u][..0] == [];
  }

  // A decision and the note that matches it.
  lemma {:induction false} DecisionAccounted(e: Event, u: Update, mc: bool, r: Resource)
    requires (e.Entered? && u == Update.Passed(e.resource)) || (e.Refused? && u == Update.Blocked(e.resource))
    ensures Accounted([e] + Note(mc, u), mc, r, if e.Entered? && e.resource == r then 1 else 0)
  {
    UpdateCounts(u, r);
    EventCountsConcat([e], Note(mc, u), r);
    UpdatesConcat([e], Note(mc, u));
    if mc {
      assert Updates([Metric(u)]) == [u];
    }
  }

  lemma {:induction false} EntryAccounted(id: nat, k: Resource, probe: bool, mc: bool, r: Resource)
    ensures Accounted(Admission(id, k, probe, mc), mc, r, if k == r then 1 else 0)
    ensures Accounted([Refused(k)] + Note(mc, Update.Blocked(k)), mc, r, 0)
  {
    hide Accounted;
    DecisionAccounted(Entered(id, k, probe), Update.Passed(k), mc, r);
    DecisionAccounted(Refused(k), Update.Blocked(k), mc, r);
  }

  // Events that are neither decisions nor metrics.
  lemma {:induction false} SilentAccounted(es: seq<Event>, mc: bool, r: Resource)
    requires forall i | 0 <= i < |es| :: !es[i].Entered? && !es[i].Refused? && !es[i].Metric?
    ensures Accounted(es, mc, r, 0)
    ensures Updates(es) == [] && EnteredFor(es, r) == RefusedFor(es, r) == 0
  {
    if es != [] { SilentAccounted(es[1..], mc, r); }
  }

  // The one response time that closes an admitted call uses up its place.
  lemma {:induction false} ClosingAccounted(before: seq<Event>, k: Resource, mc: bool, r: Resource, f: Finish, id: nat, ns: int)
    requires Accounted(before, mc, r, if k == r then 1 else 0)
    ensures Accounted(before + ExecuteClosing(id, k, mc, f, ns), mc, r, 0)
  {
    var e0 := [UserEnd(id, ExecuteEnding(f, ns))];
    var e1 := if f.Panic? then [] else Note(mc, ResponseTime(k, ns));
    var e2 := (if f.Err? then [Traced(id)] else []) + [Exited(id, k)];
    SilentAccounted(e0, mc, r);
    SilentAccounted(e2, mc, r);
    AccountedConcat(before, e0, mc, r, if k == r then 1 else 0, 0);
    NoteAccounted(before + e0, e1, k, mc, r, ns);
    AccountedConcat(before + e0 + e1, e2, mc, r, 0, 0);
    assert before + ExecuteClosing(id, k, mc, f, ns) == before + e0 + e1 + e2;
  }

  lemma {:induction false} NoteAccounted(before: seq<Event>, note: seq<Event>, k: Resource, mc: bool, r: Resource, ns: int)
    requires Accounted(before, mc, r, if k == r then 1 else 0)
    requires note == [] || (mc && note == [Metric(ResponseTime(k, ns))])
    ensures Accounted(before + note, mc, r, 0)
  {
    UpdatesConcat(before, note);
    CountsConcat(Updates(before), Updates(note), r);
    EventCountsConcat(before, note, r);
    if note != [] {
      assert Updates(note) == [ResponseTime(k, ns)];
      UpdateCounts(ResponseTime(k, ns), r);
    }
  }

  lemma {:induction false} CallAccounted(c: Call, mc: bool, n: nat, r: Resource)
    ensures Accounted(CallTrace(c, mc, n).events, mc, r, 0)
    decreases c
  {
    hide Accounted, Updates;
    SilentAccounted([], mc, r);
    match c
    case Execute(k, ended, gate, body, ns) =>
      EntryAccounted(n, k, false, mc, r);
      if !ended && gate.Admits? {
        var b := CodeTrace(body, mc, n + 1);
        BodyAccounted(k, mc, n, body, r);
        ClosingAccounted(Opening(n, k, mc) + b.events, k, mc, r, b.finish, n, ns);
      }
    case CheckFlow(k, gate) =>
      EntryAccounted(n, k, true, mc, r);
      var entered := Admission(n, k, true, mc);
      SilentAccounted([Exited(n, k)], mc, r);
      AccountedConcat(entered, [Exited(n, k)], mc, r, if k == r then 1 else 0, 0);
      AccountedLess(entered + [Exited(n, k)], mc, r, if k == r then 1 else 0);
    case Serve(k, gate, handler, writes) =>
      EntryAccounted(n, k, false, mc, r);
      if gate.Admits? {
        var b := CodeTrace(handler, mc, n + 1);
        BodyAccounted(k, mc, n, handler, r);
        SilentAccounted(ServeClosing(n, k, b.finish, writes), mc, r);
        var closing := ServeClosing(n, k, b.finish, writes);
        AccountedConcat(Opening(n, k, mc) + b.events, closing, mc, r, if k == r then 1 else 0, 0);
        AccountedLess(Opening(n, k, mc) + b.events + closing, mc, r, if k == r then 1 else 0);
      }
    case Unprotected(body) =>
      CodeAccounted(body, mc, n, r);
  }

  lemma {:induction false} BodyAccounted(k: Resource, mc: bool, n: nat, body: Code, r: Resource)
    ensures Accounted(Opening(n, k, mc) + CodeTrace(body, mc, n + 1).events, mc, r, if k == r then 1 else 0)
    decreases body, 1
  {
    var entered := Admission(n, k, false, mc);
    EntryAccounted(n, k, false, mc, r);
    SilentAccounted([UserStart(n)], mc, r);
    AccountedConcat(entered, [UserStart(n)], mc, r, if k == r then 1 else 0, 0);
    CodeAccounted(body, mc, n + 1, r);
    AccountedConcat(Opening(n, k, mc), CodeTrace(body, mc, n + 1).events, mc, r, if k == r then 1 else 0, 0);
  }

  lemma {:induction false} CodeAccounted(code: Code, mc: bool, n: nat, r: Resource)
    ensures Accounted(CodeTrace(code, mc, n).events, mc, r, 0)
    decreases code, 0
  {
    match code
    case End(_) =>
    case Invoke(call, recovers, rest) =>
      CallAccounted(call, mc, n, r);
      var t := CallTrace(call, mc, n);
      CodeAccounted(rest, mc, t.next, r);
      AccountedConcat(t.events, CodeTrace(rest, mc, t.next).events, mc, r, 0, 0);
  }

  lemma {:induction false} RecordAllIsReplay(v: View, us: seq<Update>)
    requires OnlyRecorded(us)
    ensures RecordAll(v, us) == if v.enabled then Replay(v, us) else v
    ensures v.enabled ==> Replay(v, us).enabled
    decreases |us|
  {
    if us != [] {
      var k := |us| - 1;
      RecordAllIsReplay(v, us[..k]);
      RecordAllConcat(v, us[..k], [us[k]]);
      assert us[..k] + [us[k]] == us;
      assert RecordAll(RecordAll(v, us[..k]), [us[k]]) == Record(RecordAll(v, us[..k]), us[k]);
    }
  }

  // The counters grow by so many admissions and refusals (modulo 2^64), if the collector is enabled.
  ghost predicate Counted(v: View, v': View, admitted: nat, refused: nat, r: Resource) {
    if v.enabled then
      && Count(v'.passed, r) == Wrap(Count(v.passed, r) + admitted)
      && Count(v'.blocked, r) == Wrap(Count(v.blocked, r) + refused)
      && Count(v'.requests, r) == Wrap(Count(v.requests, r) + admitted + refused)
    else v' == v
  }

  lemma {:induction false} AccountedIsCounted(v: View, es: seq<Event>, r: Resource)
    requires Accounted(es, true, r, 0)
    ensures Counted(v, Told(v, es), EnteredFor(es, r), RefusedFor(es, r), r)
  {
    hide Wrap, Count, Replay, Updates, EnteredFor, RefusedFor, CountPassed, CountBlocked, OnlyRecorded, Times;
    RecordAllIsReplay(v, Updates(es));
    AddsNotes(v, Updates(es), EnteredFor(es, r), RefusedFor(es, r), r);
  }

  // One protected call, nesting whatever it nests: passed grows by the entries that Sentinel admits in
  // the tree, blocked by those it refuses, request by both; response times never outnumber
  // admissions; a disabled collector is left alone.
  lemma {:induction false} MetricsAccountForCalls(c: Call, n: nat, v: View, r: Resource)
    ensures var es := CallTrace(c, true, n).events;
            && Counted(v, Told(v, es), AdmittedBy(c, r), RefusedBy(c, r), r)
            && EnteredFor(es, r) == AdmittedBy(c, r) && RefusedFor(es, r) == RefusedBy(c, r)
            && |Times(Updates(es), r)| <= AdmittedBy(c, r)
  {
    hide CallTrace, Counted, Told;
    EventsFollowTree(c, true, n, r);
    CallAccounted(c, true, n, r);
    AccountedIsCounted(v, CallTrace(c, true, n).events, r);
  }

  // --- response times, one by one ---

  lemma {:induction false} TimesAreDurations(es: seq<Event>, r: Resource)
    ensures var ts, ds := Times(Updates(es), r), Durations(es, r);
            |ts| == |ds| && forall i | 0 <= i < |ds| :: ts[i] == Millis(ds[i])
  {
    if es != [] {
      TimesAreDurations(es[1..], r);
      if es[0].Metric? {
        TimesFirst(es[0].update, Updates(es[1..]), r);
      }
      hide Times, Millis;
    }
  }

  lemma {:induction false} TimesFirst(u: Update, us: seq<Update>, r: Resource)
    ensures Times([u] + us, r) == (if u.ResponseTime? && u.resource == r then [Millis(u.ns)] else []) + Times(us, r)
  {
    CountsConcat([u], us, r);
    assert [u][..0] == [] && Times([], r) == [];
    hide Millis;
  }

  // The duration an open entry of `r` still has to report.
  function Owed(f: Frame, r: Resource): multiset<int> {
    if f.resource == r && !f.timed && (f.stage.Ended? || f.stage.Reported?) && MustTime(f.stage.ending)
    then multiset{f.stage.ending.ns}
    else multiset{}
  }

  function AllOwed(stack: seq<Frame>, r: Resource): multiset<int> {
    if stack == [] then multiset{} else AllOwed(stack[..|stack| - 1], r) + Owed(stack[|stack| - 1], r)
  }

  // Code that returns in an entry of `r` as this event happens, with the duration measured; the
  // referee knows whose code it is.
  function MeasuredAt(m: Referee, e: Event, r: Resource): multiset<int>
    requires Legal(m, e)
  {
    if e.UserEnd? && m.stack[|m.stack| - 1].resource == r && MustTime(e.ending) then multiset{e.ending.ns} else multiset{}
  }

  function Measured(m: Referee, es: seq<Event>, r: Resource): multiset<int>
    requires Judge(m, es).Some?
    decreases |es|
  {
    if es == [] then multiset{} else MeasuredAt(m, es[0], r) + Measured(Step(m, es[0]), es[1..], r)
  }

  // Nothing is reported before the code has ended.
  ghost predicate NotEarly(stack: seq<Frame>) {
    forall i | 0 <= i < |stack| :: stack[i].stage.Open? || stack[i].stage.Running? ==> !stack[i].timed
  }

  lemma {:induction false} StepKeepsNotEarly(m: Referee, e: Event)
    requires NotEarly(m.stack) && Legal(m, e)
    ensures NotEarly(Step(m, e).stack)
  {
  }

  lemma {:induction false} OneDuration(e: Event, r: Resource)
    ensures Durations([e], r) == if e.Metric? && e.update.ResponseTime? && e.update.resource == r then [e.update.ns] else []
  {
    assert Durations([e][1..], r) == [];
  }

  // Each legal event moves durations from measured to owed to reported.
  ghost predicate Pays(m: Referee, e: Event, r: Resource)
    requires Legal(m, e)
  {
    multiset(Durations([e], r)) + AllOwed(Step(m, e).stack, r) == MeasuredAt(m, e, r) + AllOwed(m.stack, r)
  }

  lemma {:induction false} EnterPays(m: Referee, e: Event, r: Resource)
    requires Legal(m, e) && (e.Entered? || e.Refused?)
    ensures Pays(m, e, r)
  {
    OneDuration(e, r);
    if e.Entered? { assert Step(m, e).stack[..|m.stack|] == m.stack; }
  }

  lemma {:induction false} ExitPays(m: Referee, e: Event, r: Resource)
    requires m.mc && Legal(m, e) && e.Exited?
    ensures Pays(m, e, r)
  {
    OneDuration(e, r);
  }

  lemma {:induction false} FramePays(f: Frame, e: Event, r: Resource)
    requires LegalFor(true, f, e) && !e.Exited? && (f.stage.Open? || f.stage.Running? ==> !f.timed)
    ensures multiset(Durations([e], r)) + Owed(NewTop(f, e), r)
         == (if e.UserEnd? && f.resource == r && MustTime(e.ending) then multiset{e.ending.ns} else multiset{}) + Owed(f, r)
  {
    OneDuration(e, r);
  }

  lemma {:induction false} AllOwedTop(stack: seq<Frame>, rest: seq<Frame>, f: Frame, r: Resource)
    requires stack == rest + [f]
    ensures AllOwed(stack, r) == AllOwed(rest, r) + Owed(f, r)
  {
    assert stack[..|stack| - 1] == rest;
  }

  // A law of multisets: adding the same to both sides.
  lemma {:induction false} Beside(rest: multiset<int>, a: multiset<int>, b: multiset<int>, c: multiset<int>, d: multiset<int>)
    requires a + b == c + d
    ensures a + (rest + b) == c + (rest + d)
  {
    assert a + (rest + b) == a + b + rest;
  }

  lemma {:induction false} TopPays(m: Referee, e: Event, r: Resource)
    requires m.mc && NotEarly(m.stack) && Legal(m, e) && !e.Entered? && !e.Refused? && !e.Exited?
    ensures Pays(m, e, r)
  {
    if e.Metric? && e.update.Blocked? {
      OneDuration(e, r);
    } else {
      var k := |m.stack| - 1;
      var rest, f := m.stack[..k], m.stack[k];
      assert Step(m, e).stack == rest + [NewTop(f, e)];
      FramePays(f, e, r);
      AllOwedTop(m.stack, rest, f, r);
      AllOwedTop(Step(m, e).stack, rest, NewTop(f, e), r);
      Beside(AllOwed(rest, r), multiset(Durations([e], r)), Owed(NewTop(f, e), r), MeasuredAt(m, e, r), Owed(f, r));
      hide NewTop, Owed, Durations, AllOwed, NotEarly, LegalFor;
    }
  }

  lemma {:induction false} StepPays(m: Referee, e: Event, r: Resource)
    requires m.mc && NotEarly(m.stack) && Legal(m, e)
    ensures Pays(m, e, r)
  {
    hide Pays, Legal, NotEarly;
    if e.Entered? || e.Refused? {
      EnterPays(m, e, r);
    } else if e.Exited? {
      ExitPays(m, e, r);
    } else {
      TopPays(m, e, r);
    }
  }

  lemma {:induction false} FirstDuration(es: seq<Event>, r: Resource)
    requires es != []
    ensures multiset(Durations(es, r)) == multiset(Durations([es[0]], r)) + multiset(Durations(es[1..], r))
  {
    OneDuration(es[0], r);
    assert Durations(es, r) == Durations([es[0]], r) + Durations(es[1..], r);
  }

  // And one of adding two equations.
  lemma {:induction false} InTurn(
      a: multiset<int>, b: multiset<int>, c: multiset<int>, d: multiset<int>,
      e: multiset<int>, f: multiset<int>, g: multiset<int>)
    requires a + b == c + d && e + f == g + b
    ensures (a + e) + f == (c + g) + d
  {
    forall x ensures ((a + e) + f)[x] == ((c + g) + d)[x] {
      assert (a + b)[x] == (c + d)[x] && (e + f)[x] == (g + b)[x];
    }
  }

  lemma {:induction false} DurationsAreMeasured(m: Referee, es: seq<Event>, r: Resource)
    requires m.mc && NotEarly(m.stack) && Judge(m, es).Some?
    ensures multiset(Durations(es, r)) + AllOwed(Judge(m, es).value.stack, r) == Measured(m, es, r) + AllOwed(m.stack, r)
    decreases |es|
  {
    if es != [] {
      var e, n := es[0], Step(m, es[0]);
      StepKeepsNotEarly(m, e);
      StepPays(m, e, r);
      assert n.mc;
      DurationsAreMeasured(n, es[1..], r);
      FirstDuration(es, r);
      InTurn(multiset(Durations([e], r)), AllOwed(n.stack, r), MeasuredAt(m, e, r), AllOwed(m.stack, r),
             multiset(Durations(es[1..], r)), AllOwed(Judge(m, es).value.stack, r), Measured(n, es[1..], r));
      hide Step, Legal, NotEarly, AllOwed, MeasuredAt, Durations;
    }
  }

  // The response times recorded for a resource are exactly the durations of the user code that
  // returned, with or without an error, in entries of that resource: none is lost, none is doubled,
  // none comes from a panic, a probe or an HTTP request. The referee finds these durations in the
  // events, and they are those of the call tree, in the order in which the code returned.
  lemma {:induction false} ResponseTimesAreExact(c: Call, n: nat, r: Resource)
    ensures var es, m := CallTrace(c, true, n).events, Referee(true, [], n);
            && Judge(m, es).Some?
            && multiset(Durations(es, r)) == Measured(m, es, r)
            && Durations(es, r) == Timings(c, r)
            && |Times(Updates(es), r)| == |Durations(es, r)|
            && forall i | 0 <= i < |Durations(es, r)| :: Times(Updates(es), r)[i] == Millis(Durations(es, r)[i])
  {
    var es, m := CallTrace(c, true, n).events, Referee(true, [], n);
    CallIsBracketed(c, m);
    DurationsAreMeasured(m, es, r);
    TimesAreDurations(es, r);
    EventsFollowTree(c, true, n, r);
    assert m.stack == [] && Judge(m, es).value.stack == [] && AllOwed([], r) == multiset{};
    assert multiset(Durations(es, r)) + multiset{} == Measured(m, es, r) + multiset{};
    assert multiset(Durations(es, r)) + multiset{} == multiset(Durations(es, r));
    hide CallTrace, Judge, Measured, AllOwed, Durations, Times, Updates, Timings;
  }

  // --- concurrent requests ---

  // A request makes one protected call, whose first entry is numbered `first`.
  datatype Request = Request(call: Call, first: nat) {
    function Trace(): seq<Event> { CallTrace(call, true, first).events }
  }

  // All the collector is to be told of these requests, in no particular order.
  function AllNotes(rs: seq<Request>): multiset<Update> {
    if rs == [] then multiset{} else AllNotes(rs[..|rs| - 1]) + multiset(Updates(rs[|rs| - 1].Trace()))
  }

  function AllAdmitted(rs: seq<Request>, r: Resource): nat {
    if rs == [] then 0 else AllAdmitted(rs[..|rs| - 1], r) + AdmittedBy(rs[|rs| - 1].call, r)
  }

  function AllRefused(rs: seq<Request>, r: Resource): nat {
    if rs == [] then 0 else AllRefused(rs[..|rs| - 1], r) + RefusedBy(rs[|rs| - 1].call, r)
  }

  // What recorders came to note, in the order in which they looked at `enabled`.
  function Checked(acts: seq<Action>): seq<Update> {
    if acts == [] then []
    else (if acts[0].Check? then [acts[0].update] else []) + Checked(acts[1..])
  }

  ghost predicate Undisturbed(acts: seq<Action>) {
    forall i | 0 <= i < |acts| :: !acts[i].Control?
  }

  lemma {:induction false} StepLosesNothing(s: State, a: Action)
    requires Enabled(s, a) && !a.Control? && s.view.enabled && OnlyRecorded(s.pending)
    ensures var n := Next(s, a);
            && n.view.enabled && OnlyRecorded(n.pending)
            && multiset(n.log) + multiset(n.pending)
               == multiset(s.log) + multiset(s.pending) + (if a.Check? then multiset{a.update} else multiset{})
            && (OnlyRecorded(s.log) ==> OnlyRecorded(n.log))
  {
    hide Apply, OnlyRecorded;
    AppliesQuietly(s);
    if a.Commit? { TakenOut(s.pending, a.recorder); }
  }

  lemma {:induction false} TakenOut(us: seq<Update>, i: nat)
    requires i < |us|
    ensures multiset(us) == multiset(us[..i] + us[i + 1..]) + multiset{us[i]}
    ensures OnlyRecorded(us) ==> OnlyRecorded(us[..i] + us[i + 1..])
  {
    assert us == us[..i] + [us[i]] + us[i + 1..];
  }

  // A recorded update never touches the flag.
  lemma {:induction false} AppliesQuietly(s: State)
    requires OnlyRecorded(s.pending)
    ensures forall i | 0 <= i < |s.pending| :: Apply(s.view, s.pending[i]).enabled == s.view.enabled
    ensures forall u: Update | u.Recorded() :: OnlyRecorded(s.pending + [u])
    ensures OnlyRecorded(s.log) ==> forall i | 0 <= i < |s.pending| :: OnlyRecorded(s.log + [s.pending[i]])
  {
  }

  // An enabled collector that nobody resets or disables loses no note and doubles none.
  lemma {:induction false} NothingLost(s: State, acts: seq<Action>)
    requires Valid(s, acts) && Undisturbed(acts) && s.view.enabled && OnlyRecorded(s.pending)
    ensures var n := After(s, acts);
            && multiset(n.log) + multiset(n.pending) == multiset(s.log) + multiset(s.pending) + multiset(Checked(acts))
            && (OnlyRecorded(s.log) ==> OnlyRecorded(n.log))
    decreases |acts|
  {
    if acts != [] {
      assert !acts[0].Control? && Undisturbed(acts[1..]);
      StepLosesNothing(s, acts[0]);
      NothingLost(Next(s, acts[0]), acts[1..]);
      hide Next, Enabled, OnlyRecorded;
    }
  }

  lemma {:induction false} CountsOfMultiset(us: seq<Update>, r: Resource)
    ensures CountPassed(us, r) == multiset(us)[Update.Passed(r)]
    ensures CountBlocked(us, r) == multiset(us)[Update.Blocked(r)]
  {
    if us != [] {
      var k := |us| - 1;
      CountsOfMultiset(us[..k], r);
      assert us == us[..k] + [us[k]];
    }
  }

  lemma {:induction false} NotesCountDecisions(rs: seq<Request>, r: Resource)
    ensures AllNotes(rs)[Update.Passed(r)] == AllAdmitted(rs, r)
    ensures AllNotes(rs)[Update.Blocked(r)] == AllRefused(rs, r)
  {
    if rs != [] {
      var q := rs[|rs| - 1];
      NotesCountDecisions(rs[..|rs| - 1], r);
      CallAccounted(q.call, true, q.first, r);
      EventsFollowTree(q.call, true, q.first, r);
      CountsOfMultiset(Updates(q.Trace()), r);
    }
  }

  lemma {:induction false} NotesAreLogged(v: View, rs: seq<Request>, acts: seq<Action>)
    requires v.enabled && Valid(State(v, [], []), acts) && Undisturbed(acts)
    requires multiset(Checked(acts)) == AllNotes(rs) && After(State(v, [], []), acts).pending == []
    ensures var n := After(State(v, [], []), acts);
            OnlyRecorded(n.log) && multiset(n.log) == AllNotes(rs) && n.view == Replay(v, n.log)
  {
    var s := State(v, [], []);
    NothingLost(s, acts);
    RunKeeps(s, acts, v);
    hide After, Valid, Undisturbed, Checked, AllNotes, Replay;
    assert multiset(After(s, acts).log) + multiset([]) == multiset(After(s, acts).log);
  }

  lemma {:induction false} AddsNotes(v: View, log: seq<Update>, entered: nat, refused: nat, r: Resource)
    requires OnlyRecorded(log) && CountPassed(log, r) == entered && CountBlocked(log, r) == refused
    ensures var n := Replay(v, log);
            && Count(n.passed, r) == Wrap(Count(v.passed, r) + entered)
            && Count(n.blocked, r) == Wrap(Count(v.blocked, r) + refused)
            && Count(n.requests, r) == Wrap(Count(v.requests, r) + entered + refused)
  {
    hide Wrap, Count, CountPassed, CountBlocked, Replay, OnlyRecorded;
    ReplayAdds(v, log, r);
  }

  lemma {:induction false} LogCounts(v: View, log: seq<Update>, rs: seq<Request>, r: Resource)
    requires OnlyRecorded(log) && multiset(log) == AllNotes(rs)
    ensures var n := Replay(v, log);
            && Count(n.passed, r) == Wrap(Count(v.passed, r) + AllAdmitted(rs, r))
            && Count(n.blocked, r) == Wrap(Count(v.blocked, r) + AllRefused(rs, r))
            && Count(n.requests, r) == Wrap(Count(v.requests, r) + AllAdmitted(rs, r) + AllRefused(rs, r))
  {
    hide Wrap, Count, AllNotes, AllAdmitted, AllRefused, CountPassed, CountBlocked, Replay, OnlyRecorded, Adds;
    CountsOfMultiset(log, r);
    NotesCountDecisions(rs, r);
    assert CountPassed(log, r) == AllAdmitted(rs, r) && CountBlocked(log, r) == AllRefused(rs, r);
    AddsNotes(v, log, AllAdmitted(rs, r), AllRefused(rs, r), r);
  }

  // Any number of protected calls share the collector, their unlocked checks and locked updates
  // interleaving in any way: once all have come through, the counters have grown by exactly the
  // entries that Sentinel decides in all the call trees together.
  lemma {:induction false} ConcurrentCallsAreAccounted(v: View, rs: seq<Request>, acts: seq<Action>, r: Resource)
    requires v.enabled && Valid(State(v, [], []), acts) && Undisturbed(acts)
    requires multiset(Checked(acts)) == AllNotes(rs) && After(State(v, [], []), acts).pending == []
    ensures var n := After(State(v, [], []), acts).view;
            && Count(n.passed, r) == Wrap(Count(v.passed, r) + AllAdmitted(rs, r))
            && Count(n.blocked, r) == Wrap(Count(v.blocked, r) + AllRefused(rs, r))
            && Count(n.requests, r) == Wrap(Count(v.requests, r) + AllAdmitted(rs, r) + AllRefused(rs, r))
  {
    NotesAreLogged(v, rs, acts);
    hide Wrap, Count, After, Valid, Undisturbed, Checked, AllNotes, Replay;
    LogCounts(v, After(State(v, [], []), acts).log, rs, r);
  }

  // Without a collector nothing is told; a call that fails before Sentinel is asked does nothing;
  // a refused call is counted and runs no user code, hence none of the calls nested in it.
  lemma {:induction false} QuietCalls(c: Call, mc: bool, n: nat)
    ensures Updates(CallTrace(c, false, n).events) == []
    ensures (c.Execute? && c.ended) || (!c.Unprotected? && c.gate.Uninitialised?) ==>
              CallTrace(c, mc, n).events == [] && CallTrace(c, mc, n).next == n
    ensures !c.Unprotected? && !(c.Execute? && c.ended) && c.gate.Refuses? ==>
              var t := CallTrace(c, mc, n);
              && t.next == n && t.result == Returned(BlockedBySentinel)
              && t.events == [Refused(c.resource)] + (if mc then [Metric(Update.Blocked(c.resource))] else [])
  {
    CallAccounted(c, false, n, "");
  }
}
