/**
  Protected calls: entry, user code, reporting, deferred exit.

  User code is arbitrary, so one execution of it is a `Code` value: the protected calls it makes in
  order, whether it recovers from their panics, and how it ends. Whether the plugin is initialised,
  whether a context has ended and whether Sentinel admits a call are arbitrary too; they are part of
  the `Call`. `CallTrace` gives the events of such an execution; the class performs them.
*/
module Protection {
  import opened Wrappers
  import opened Collector
  import opened Middleware

  // How user code ended: Execute notes the measured duration, the HTTP middleware the status.
  datatype Ending = Nil(ns: int) | Failed(ns: int) | Panicked | Served(status: int)

  datatype Error = NoError | ContextEnded | NotInitialised | BlockedBySentinel | UserError

  datatype Result = Returned(error: Error) | Panicking

  // What Entry finds: runtimeState's flag first, then Sentinel's verdict.
  datatype Gate = Uninitialised | Refuses | Admits

  // How a handler or a protected function ends on its own account.
  datatype Finish = Ok | Err | Panic

  datatype Code =
    | End(finish: Finish)
    | Invoke(call: Call, recovers: bool, rest: Code)

  // `ended` is the state of the context given to ExecuteWithContext (false for Execute);
  // `ns` is the measured duration; Unprotected is ProtectFunction without a plugin.
  datatype Call =
    | Execute(resource: Resource, ended: bool, gate: Gate, body: Code, ns: int)
    | CheckFlow(resource: Resource, gate: Gate)
    | Serve(resource: Resource, gate: Gate, handler: Code, writes: seq<WriterCall>)
    | Unprotected(body: Code)

  // `id` names the entry object; `probe` marks the entry of CheckFlow, which runs no user code.
  datatype Event =
    | Entered(id: nat, resource: Resource, probe: bool)
    | Refused(resource: Resource)
    | Metric(update: Update)
    | UserStart(id: nat)
    | UserEnd(id: nat, ending: Ending)
    | Traced(id: nat)
    | Exited(id: nat, resource: Resource)

  datatype Trace = Trace(events: seq<Event>, next: nat, result: Result)

  // Events of the calls user code makes, and how the code ends.
  datatype Inner = Inner(events: seq<Event>, next: nat, finish: Finish)

  // The collector is told only if there is one.
  function Note(mc: bool, u: Update): seq<Event> {
    if mc then [Metric(u)] else []
  }

  function RefusedTrace(r: Resource, mc: bool, n: nat): Trace {
    Trace([Refused(r)] + Note(mc, Update.Blocked(r)), n, Returned(BlockedBySentinel))
  }

  // An admitted entry, and its count.
  function Admission(n: nat, r: Resource, probe: bool, mc: bool): seq<Event> {
    [Entered(n, r, probe)] + Note(mc, Update.Passed(r))
  }

  function Opening(n: nat, r: Resource, mc: bool): seq<Event> {
    Admission(n, r, false, mc) + [UserStart(n)]
  }

  function ExecuteEnding(f: Finish, ns: int): Ending {
    match f case Ok => Nil(ns) case Err => Failed(ns) case Panic => Panicked
  }

  // A panic skips all reporting but not the deferred Exit.
  function ExecuteClosing(n: nat, r: Resource, mc: bool, f: Finish, ns: int): seq<Event> {
    [UserEnd(n, ExecuteEnding(f, ns))]
    + (if f.Panic? then [] else Note(mc, ResponseTime(r, ns)))
    + (if f.Err? then [Traced(n)] else [])
    + [Exited(n, r)]
  }

  function ServeEnding(f: Finish, writes: seq<WriterCall>): Ending {
    if f.Panic? then Panicked else Served(RecordedStatus(writes))
  }

  function ServeClosing(n: nat, r: Resource, f: Finish, writes: seq<WriterCall>): seq<Event> {
    [UserEnd(n, ServeEnding(f, writes))]
    + (if !f.Panic? && RecordedStatus(writes) >= STATUS_INTERNAL_SERVER_ERROR then [Traced(n)] else [])
    + [Exited(n, r)]
  }

  function FinishResult(f: Finish): Result {
    match f case Ok => Returned(NoError) case Err => Returned(UserError) case Panic => Panicking
  }

  // An HTTP handler has no error result.
  function ServeResult(f: Finish): Result {
    if f.Panic? then Panicking else Returned(NoError)
  }

  function CallTrace(c: Call, mc: bool, n: nat): Trace
    decreases c
  {
    match c
    case Execute(r, ended, gate, body, ns) =>
      if ended then Trace([], n, Returned(ContextEnded))
      else if gate.Uninitialised? then Trace([], n, Returned(NotInitialised))
      else if gate.Refuses? then RefusedTrace(r, mc, n)
      else
        var b := CodeTrace(body, mc, n + 1);
        Trace(Opening(n, r, mc) + b.events + ExecuteClosing(n, r, mc, b.finish, ns), b.next, FinishResult(b.finish))
    case CheckFlow(r, gate) =>
      if gate.Uninitialised? then Trace([], n, Returned(NotInitialised))
      else if gate.Refuses? then RefusedTrace(r, mc, n)
      else
        Trace(Admission(n, r, true, mc) + [Exited(n, r)], n + 1, Returned(NoError))
    case Serve(r, gate, handler, writes) =>
      if gate.Uninitialised? then Trace([], n, Returned(NotInitialised))
      else if gate.Refuses? then RefusedTrace(r, mc, n)
      else
        var b := CodeTrace(handler, mc, n + 1);
        Trace(Opening(n, r, mc) + b.events + ServeClosing(n, r, b.finish, writes), b.next, ServeResult(b.finish))
    case Unprotected(body) =>
      var b := CodeTrace(body, mc, n);
      Trace(b.events, b.next, FinishResult(b.finish))
  }

  function CodeTrace(k: Code, mc: bool, n: nat): Inner
    decreases k
  {
    match k
    case End(f) => Inner([], n, f)
    case Invoke(call, recovers, rest) =>
      var t := CallTrace(call, mc, n);
      if t.result.Panicking? && !recovers then Inner(t.events, t.next, Panic)
      else
        var b := CodeTrace(rest, mc, t.next);
        Inner(t.events + b.events, b.next, b.finish)
  }

  // What the collector is told, in order.
  function Updates(es: seq<Event>): seq<Update> {
    if es == [] then []
    else if es[0].Metric? then [es[0].update] + Updates(es[1..])
    else Updates(es[1..])
  }

  function RecordAll(v: View, us: seq<Update>): View
    decreases us
  {
    if us == [] then v else RecordAll(Record(v, us[0]), us[1..])
  }

  function Told(v: View, es: seq<Event>): View {
    RecordAll(v, Updates(es))
  }

  lemma {:induction false} UpdatesConcat(a: seq<Event>, b: seq<Event>)
    ensures Updates(a + b) == Updates(a) + Updates(b)
  {
    if a == [] {
      assert a + b == b;
    } else {
      assert (a + b)[1..] == a[1..] + b;
      UpdatesConcat(a[1..], b);
    }
  }

  lemma {:induction false} RecordAllConcat(v: View, a: seq<Update>, b: seq<Update>)
    ensures RecordAll(v, a + b) == RecordAll(RecordAll(v, a), b)
    decreases a
  {
    if a == [] {
      assert a + b == b;
    } else {
      assert (a + b)[1..] == a[1..] + b;
      RecordAllConcat(Record(v, a[0]), a[1..], b);
    }
  }

  lemma {:induction false} ToldConcat(v: View, a: seq<Event>, b: seq<Event>)
    ensures Told(v, a + b) == Told(Told(v, a), b)
  {
    UpdatesConcat(a, b);
    RecordAllConcat(v, Updates(a), Updates(b));
  }

  lemma {:induction false} ToldNext(v: View, es: seq<Event>, e: Event)
    ensures Told(v, es + [e]) == if e.Metric? then Record(Told(v, es), e.update) else Told(v, es)
  {
    ToldConcat(v, es, [e]);
    assert Updates([e]) == if e.Metric? then [e.update] else [];
    assert forall x: View, u: Update :: RecordAll(x, [u]) == Record(x, u);
  }

  // A moment in the past: the events up to then and the collector's contents.
  datatype Moment = Moment(log: seq<Event>, view: View)

  /** The plugin as the callers of protected functions see it. `log` records what happens, `nextId` numbers entry objects. */
  class Guard {
    const collector: MetricsCollector?
    var log: seq<Event>
    var nextId: nat

    constructor (collector: MetricsCollector?)
      ensures this.collector == collector && log == [] && nextId == 0
    {
      this.collector := collector;
      log := [];
      nextId := 0;
    }

    ghost function Footprint(): set<object> {
      if collector == null then {this} else {this, collector}
    }

    ghost function Now(): Moment
      reads Footprint()
    {
      Moment(log, if collector == null then Fresh(0) else collector.Contents())
    }

    // Since `m`, exactly `es` has happened, and the collector, if any, was told exactly that. The
    // methods below extend such a record; it holds at the start with Now() and no events.
    ghost predicate Since(m: Moment, es: seq<Event>)
      reads Footprint()
    {
      log == m.log + es && (collector != null ==> collector.Contents() == Told(m.view, es))
    }

    method Emit(e: Event, ghost m: Moment, ghost es: seq<Event>)
      requires !e.Metric? && Since(m, es)
      modifies this`log
      ensures Since(m, es + [e])
    {
      log := log + [e];
      ToldNext(m.view, es, e);
    }

    // `if collector != nil { collector.RecordX(...) }`
    method Tell(u: Update, ghost m: Moment, ghost es: seq<Event>)
      requires u.Recorded() && Since(m, es)
      modifies Footprint()
      ensures nextId == old(nextId)
      ensures Since(m, es + Note(collector != null, u))
    {
      if collector != null {
        match u {
          case Passed(r) => collector.RecordPassed(r);
          case Blocked(r) => collector.RecordBlocked(r);
          case ResponseTime(r, ns) => collector.RecordRT(r, ns);
        }
        log := log + [Metric(u)];
        ToldNext(m.view, es, Metric(u));
      } else {
        assert es + [] == es;
      }
    }

    function EntryTrace(resource: Resource, gate: Gate, probe: bool, id: nat): seq<Event> {
      match gate
      case Uninitialised => []
      case Refuses => RefusedTrace(resource, collector != null, id).events
      case Admits => Admission(id, resource, probe, collector != null)
    }

    method Entry(resource: Resource, gate: Gate, probe: bool, ghost m: Moment, ghost es: seq<Event>)
      returns (error: Error, id: nat)
      requires Since(m, es)
      modifies Footprint()
      ensures id == old(nextId) && nextId == (if gate.Admits? then id + 1 else id)
      ensures error == match gate
                       case Uninitialised => NotInitialised
                       case Refuses => BlockedBySentinel
                       case Admits => NoError
      ensures Since(m, es + EntryTrace(resource, gate, probe, id))
    {
      id := nextId;
      if gate.Uninitialised? {
        assert es + [] == es;
        return NotInitialised, id;
      }
      if gate.Refuses? {
        Emit(Refused(resource), m, es);
        Tell(Update.Blocked(resource), m, es + [Refused(resource)]);
        Regroup(es, [Refused(resource)], Note(collector != null, Update.Blocked(resource)));
        return BlockedBySentinel, id;
      }
      nextId := nextId + 1;
      Emit(Entered(id, resource, probe), m, es);
      Tell(Update.Passed(resource), m, es + [Entered(id, resource, probe)]);
      Regroup(es, [Entered(id, resource, probe)], Note(collector != null, Update.Passed(resource)));
      return NoError, id;
    }

    // Execute after the user code: response time, error report, deferred Exit.
    method CloseExecute(id: nat, resource: Resource, finish: Finish, ns: int, ghost m: Moment, ghost es: seq<Event>)
      requires Since(m, es)
      modifies Footprint()
      ensures nextId == old(nextId)
      ensures Since(m, es + ExecuteClosing(id, resource, collector != null, finish, ns))
    {
      ghost var closing := [UserEnd(id, ExecuteEnding(finish, ns))];
      Emit(UserEnd(id, ExecuteEnding(finish, ns)), m, es);
      if finish != Panic {
        Tell(ResponseTime(resource, ns), m, es + closing);
        Regroup(es, closing, Note(collector != null, ResponseTime(resource, ns)));
        closing := closing + Note(collector != null, ResponseTime(resource, ns));
      }
      if finish == Err {
        Emit(Traced(id), m, es + closing);
        Regroup(es, closing, [Traced(id)]);
        closing := closing + [Traced(id)];
      }
      Emit(Exited(id, resource), m, es + closing);
      Regroup(es, closing, [Exited(id, resource)]);
      assert closing + [Exited(id, resource)] == ExecuteClosing(id, resource, collector != null, finish, ns);
    }

    // The HTTP middleware after the handler: error report by status, deferred Exit.
    method CloseServe(id: nat, resource: Resource, finish: Finish, writes: seq<WriterCall>,
                      ghost m: Moment, ghost es: seq<Event>)
      requires Since(m, es)
      modifies Footprint()
      ensures nextId == old(nextId)
      ensures Since(m, es + ServeClosing(id, resource, finish, writes))
    {
      var status := Respond(writes);
      var ending := if finish == Panic then Panicked else Served(status);
      ghost var closing := [UserEnd(id, ending)];
      Emit(UserEnd(id, ending), m, es);
      if finish != Panic && status >= STATUS_INTERNAL_SERVER_ERROR {
        Emit(Traced(id), m, es + closing);
        Regroup(es, closing, [Traced(id)]);
        closing := closing + [Traced(id)];
      }
      Emit(Exited(id, resource), m, es + closing);
      Regroup(es, closing, [Exited(id, resource)]);
      assert closing + [Exited(id, resource)] == ServeClosing(id, resource, finish, writes);
    }

    // Entry succeeded: run the user code inside the open entry.
    method RunUserCode(id: nat, resource: Resource, body: Code, ghost m: Moment, ghost es: seq<Event>)
      returns (finish: Finish)
      requires Since(m, es + EntryTrace(resource, Admits, false, id))
      modifies Footprint()
      ensures var b := CodeTrace(body, collector != null, old(nextId));
              && finish == b.finish && nextId == b.next
              && Since(m, es + Opening(id, resource, collector != null) + b.events)
      decreases body, 1
    {
      ghost var entered := EntryTrace(resource, Admits, false, id);
      Emit(UserStart(id), m, es + entered);
      Regroup(es, entered, [UserStart(id)]);
      finish := RunCode(body, m, es + Opening(id, resource, collector != null));
    }

    method RunExecute(resource: Resource, ended: bool, gate: Gate, body: Code, ns: int,
                      ghost m: Moment, ghost es: seq<Event>)
      returns (r: Result)
      requires Since(m, es)
      modifies Footprint()
      ensures var t := CallTrace(Execute(resource, ended, gate, body, ns), collector != null, old(nextId));
              r == t.result && nextId == t.next && Since(m, es + t.events)
      decreases body, 2
    {
      if ended {
        assert es + [] == es;
        return Returned(ContextEnded);
      }
      var error, id := Entry(resource, gate, false, m, es);
      if error != NoError {
        return Returned(error);
      }
      var finish := RunUserCode(id, resource, body, m, es);
      ghost var opening := Opening(id, resource, collector != null);
      ghost var inner := CodeTrace(body, collector != null, id + 1).events;
      CloseExecute(id, resource, finish, ns, m, es + opening + inner);
      Regroup(es, opening, inner);
      Regroup(es, opening + inner, ExecuteClosing(id, resource, collector != null, finish, ns));
      r := FinishResult(finish);
    }

    method RunCheckFlow(resource: Resource, gate: Gate, ghost m: Moment, ghost es: seq<Event>)
      returns (r: Result)
      requires Since(m, es)
      modifies Footprint()
      ensures var t := CallTrace(CheckFlow(resource, gate), collector != null, old(nextId));
              r == t.result && nextId == t.next && Since(m, es + t.events)
    {
      var error, id := Entry(resource, gate, true, m, es);
      if error != NoError {
        return Returned(error);
      }
      ghost var entered := EntryTrace(resource, gate, true, id);
      Emit(Exited(id, resource), m, es + entered);
      Regroup(es, entered, [Exited(id, resource)]);
      r := Returned(NoError);
    }

    method RunServe(resource: Resource, gate: Gate, handler: Code, writes: seq<WriterCall>,
                    ghost m: Moment, ghost es: seq<Event>)
      returns (r: Result)
      requires Since(m, es)
      modifies Footprint()
      ensures var t := CallTrace(Serve(resource, gate, handler, writes), collector != null, old(nextId));
              r == t.result && nextId == t.next && Since(m, es + t.events)
      decreases handler, 2
    {
      var error, id := Entry(resource, gate, false, m, es);
      if error != NoError {
        return Returned(error);
      }
      var finish := RunUserCode(id, resource, handler, m, es);
      ghost var opening := Opening(id, resource, collector != null);
      ghost var inner := CodeTrace(handler, collector != null, id + 1).events;
      CloseServe(id, resource, finish, writes, m, es + opening + inner);
      Regroup(es, opening, inner);
      Regroup(es, opening + inner, ServeClosing(id, resource, finish, writes));
      r := ServeResult(finish);
    }

    method RunCall(c: Call, ghost m: Moment, ghost es: seq<Event>) returns (r: Result)
      requires Since(m, es)
      modifies Footprint()
      ensures var t := CallTrace(c, collector != null, old(nextId));
              r == t.result && nextId == t.next && Since(m, es + t.events)
      decreases c, 3
    {
      match c {
        case Execute(resource, ended, gate, body, ns) =>
          r := RunExecute(resource, ended, gate, body, ns, m, es);
        case CheckFlow(resource, gate) =>
          r := RunCheckFlow(resource, gate, m, es);
        case Serve(resource, gate, handler, writes) =>
          r := RunServe(resource, gate, handler, writes, m, es);
        case Unprotected(body) =>
          var finish := RunCode(body, m, es);
          r := FinishResult(finish);
      }
    }

    // User code: its protected calls in order; a panic it does not recover ends it.
    method RunCode(k: Code, ghost m: Moment, ghost es: seq<Event>) returns (finish: Finish)
      requires Since(m, es)
      modifies Footprint()
      ensures var b := CodeTrace(k, collector != null, old(nextId));
              finish == b.finish && nextId == b.next && Since(m, es + b.events)
      decreases k, 0
    {
      match k {
        case End(f) =>
          assert es + [] == es;
          finish := f;
        case Invoke(call, recovers, rest) =>
          ghost var t := CallTrace(call, collector != null, nextId);
          var r := RunCall(call, m, es);
          if r == Panicking && !recovers {
            finish := Panic;
          } else {
            finish := RunCode(rest, m, es + t.events);
            Regroup(es, t.events, CodeTrace(rest, collector != null, t.next).events);
          }
      }
    }

    // One top-level protected call, from whatever state the plugin and the collector are in.
    method Protect(c: Call) returns (r: Result)
      modifies Footprint()
      ensures var t := CallTrace(c, collector != null, old(nextId));
              && r == t.result
              && nextId == t.next
              && log == old(log) + t.events
              && (collector != null ==> collector.Contents() == Told(old(Now().view), t.events))
    {
      ghost var m := Now();
      assert log == m.log + [];
      r := RunCall(c, m, []);
      assert forall es: seq<Event> :: [] + es == es;
    }
  }

  lemma {:induction false} Regroup(a: seq<Event>, b: seq<Event>, c: seq<Event>)
    ensures a + b + c == a + (b + c)
  {
  }
}
