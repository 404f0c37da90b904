/**
 * From indications to emissions: what the fan-out over the connected handlers queues for the
 * user, for the accelerometer and the proximity sensor.
 */
module Delivery {
  import opened Common
  import opened Matrix
  import opened Attributes
  import opened Protocol
  import opened SensorModel
  import opened Discovery

  // ---------------------------------------------------------------------
  // The signal table
  // ---------------------------------------------------------------------

  /** Handlers stand in the order they were connected, which is the order of their ids. */
  predicate Ordered(hs: seq<Handler>, low: nat) {
    hs == [] || (hs[0].id > low && Ordered(hs[1..], hs[0].id))
  }

  /** The ids of the connected subclass handlers. */
  function DriverIds(hs: seq<Handler>): seq<nat> {
    if hs == [] then []
    else (if hs[0].DriverHandler? then [hs[0].id] else []) + DriverIds(hs[1..])
  }

  predicate Below(hs: seq<Handler>, top: nat) {
    forall h <- hs :: h.id < top
  }

  /** Ids are never reused, and neither stored id names a handler of the other class. */
  predicate Wired(s: State) {
    && Ordered(s.client.handlers, 0) && Below(s.client.handlers, s.client.nextId)
    && s.reportId < s.client.nextId && s.driver.reportId < s.client.nextId
    && s.reportId !in DriverIds(s.client.handlers)
    && forall h <- s.client.handlers :: h.BaseHandler? ==> h.id != s.driver.reportId
  }

  lemma {:induction false} OrderedWeaker(hs: seq<Handler>, low: nat, lower: nat)
    requires Ordered(hs, low) && lower <= low
    ensures Ordered(hs, lower)
  {
  }

  lemma {:induction false} OrderedAbove(hs: seq<Handler>, low: nat)
    requires Ordered(hs, low)
    ensures forall h <- hs :: h.id > low
  {
    if hs != [] { OrderedAbove(hs[1..], hs[0].id); }
  }

  lemma {:induction false} WithoutFacts(hs: seq<Handler>, low: nat, id: nat)
    requires Ordered(hs, low)
    ensures Ordered(Without(hs, id), low)
    ensures forall h :: h in Without(hs, id) <==> h in hs && h.id != id
  {
    if hs != [] {
      WithoutFacts(hs[1..], hs[0].id, id);
      OrderedWeaker(Without(hs[1..], id), hs[0].id, low);
    }
  }

  lemma {:induction false} WithoutDrivers(hs: seq<Handler>, id: nat)
    requires id !in DriverIds(hs)
    ensures DriverIds(Without(hs, id)) == DriverIds(hs)
  {
    if hs != [] {
      WithoutDrivers(hs[1..], id);
      if hs[0].id != id {
        assert ([hs[0]] + Without(hs[1..], id))[1..] == Without(hs[1..], id);
      }
    }
  }

  lemma {:induction false} FreedFacts(hs: seq<Handler>, low: nat, id: nat)
    requires Ordered(hs, low)
    ensures Ordered(Freed(hs, id), low)
    ensures DriverIds(Freed(hs, id)) == DriverIds(hs)
    ensures forall h <- Freed(hs, id) :: exists g <- hs :: g.id == h.id && g.BaseHandler? == h.BaseHandler?
  {
    if hs != [] {
      FreedFacts(hs[1..], hs[0].id, id);
      var g := if hs[0].BaseHandler? && hs[0].id == id then hs[0].(live := false) else hs[0];
      assert Freed(hs, id) == [g] + Freed(hs[1..], id);
      assert ([g] + Freed(hs[1..], id))[1..] == Freed(hs[1..], id);
      forall h <- Freed(hs, id) ensures exists k <- hs :: k.id == h.id && k.BaseHandler? == h.BaseHandler? {
        if h == g { assert hs[0] in hs; } else { assert h in Freed(hs[1..], id); }
      }
    }
  }

  lemma {:induction false} AppendFacts(hs: seq<Handler>, low: nat, h: Handler)
    requires Ordered(hs, low) && h.id > low && forall g <- hs :: g.id < h.id
    ensures Ordered(hs + [h], low)
    ensures DriverIds(hs + [h]) == DriverIds(hs) + if h.DriverHandler? then [h.id] else []
  {
    if hs == [] {
      assert [] + [h] == [h] && [h][1..] == [];
    } else {
      assert (hs + [h])[1..] == hs[1..] + [h];
      AppendFacts(hs[1..], hs[0].id, h);
    }
  }

  lemma {:induction false} FindFacts(hs: seq<Handler>, low: nat, id: nat)
    requires Ordered(hs, low)
    ensures match Find(hs, id)
            case Some(h) => h in hs && h.id == id
            case None => forall h <- hs :: h.id != id
    ensures (Find(hs, id).Some? && Find(hs, id).value.DriverHandler?) <==> id in DriverIds(hs)
  {
    if hs != [] {
      OrderedAbove(hs[1..], hs[0].id);
      FindFacts(hs[1..], hs[0].id, id);
      if hs[0].id == id {
        DriverIdsAreIds(hs[1..], id);
      }
    }
  }

  lemma {:induction false} DriverIdsAreIds(hs: seq<Handler>, id: nat)
    ensures id in DriverIds(hs) ==> exists h <- hs :: h.id == id
  {
    if hs != [] { DriverIdsAreIds(hs[1..], id); }
  }

  lemma FinishFacts(s: State, h: Handler, o: Outcome)
    requires h.BaseHandler? && Wired(s)
    ensures Wired(Finish(s, h, o))
    ensures DriverIds(Finish(s, h, o).client.handlers) == DriverIds(s.client.handlers)
  {
    var hs := s.client.handlers;
    WithoutFacts(hs, 0, s.reportId);
    WithoutDrivers(hs, s.reportId);
    var ws := Without(hs, s.reportId);
    FreedFacts(ws, 0, h.id);
    assert 0 !in DriverIds(hs) by { DriverIdsAreIds(hs, 0); OrderedAbove(hs, 0); }
  }

  /** What a report can change: everything the drivers depend on stays, unless it is about discovery or attributes. */
  predicate Undisturbed(s: State, t: State) {
    && Wired(t) && t.kind == s.kind
    && DriverIds(t.client.handlers) == DriverIds(s.client.handlers)
    && t.driver.reportId == s.driver.reportId
  }

  predicate Quiet(m: Report) {
    m.id != RESPONSE_GET_ATTRIBUTES && !(m.uid == SUID && m.id == RESPONSE_SUID)
  }

  predicate SameTable(s: State, u: State) {
    && u.client.handlers == s.client.handlers && u.client.nextId == s.client.nextId
    && u.reportId == s.reportId && u.driver.reportId == s.driver.reportId && u.kind == s.kind
  }

  /** The request log, the tasks and the knowledge about the sensor do not matter to the signal table. */
  lemma SameTableWired(s: State, u: State)
    requires Wired(s) && SameTable(s, u)
    ensures Undisturbed(s, u)
  {
  }

  lemma FinishUndisturbed(s: State, u: State, h: Handler, o: Outcome)
    requires h.BaseHandler? && Wired(s) && SameTable(s, u)
    ensures Undisturbed(s, Finish(u, h, o)) && Finish(u, h, o).driver == u.driver
  {
    SameTableWired(s, u);
    FinishFacts(u, h, o);
  }

  lemma ReportFacts(s: State, h: Handler, m: Report)
    requires h.BaseHandler? && Wired(s)
    ensures Undisturbed(s, ReportReceived(s, h, m))
    ensures ReportReceived(s, h, m).driver == s.driver
    ensures Quiet(m) ==> ReportReceived(s, h, m).uid == s.uid && ReportReceived(s, h, m).attrs == s.attrs
  {
    if !h.live {
      SameTableWired(s, ReportReceived(s, h, m));
    } else if m.uid == SUID && m.id == RESPONSE_SUID {
      if m.payload.suid.Some? { SuidFacts(s, h, m.payload.suid.value); }
    } else if m.uid == s.uid && m.id == RESPONSE_GET_ATTRIBUTES {
      if m.payload.attributes.Some? {
        var attrs := m.payload.attributes.value;
        FinishUndisturbed(s, s.(attrs := ApplyAll(s.attrs, attrs), accepted := s.accepted + attrs), h, Success);
      }
    } else {
      FinishUndisturbed(s, s, h, Success);
    }
  }

  lemma SuidFacts(s: State, h: Handler, r: SuidResponse)
    requires h.BaseHandler? && Wired(s)
    ensures Undisturbed(s, SuidReceived(s, h, r)) && SuidReceived(s, h, r).driver == s.driver
  {
    var s1 := s.(heard := s.heard + [r]);
    if r.uids != [] && r.dataType == REGISTRY {
      SameTableWired(s, SuidReceived(s, h, r));
    } else if !s.serviceAvailable {
      if s.retries + 1 >= MAX_RETRIES {
        FinishUndisturbed(s, s1.(retries := s1.retries + 1), h, NoService);
      } else {
        SameTableWired(s, SuidReceived(s, h, r));
      }
    } else if r.dataType != s.dataType || r.uids != [] {
      SameTableWired(s, SuidReceived(s, h, r));
    } else {
      FinishUndisturbed(s, s1, h, NotFound);
    }
  }

  lemma CallFacts(s: State, id: nat, m: Report)
    requires Wired(s)
    ensures Undisturbed(s, Call(s, id, m))
    ensures Quiet(m) ==> Call(s, id, m).uid == s.uid && Call(s, id, m).attrs == s.attrs
    ensures Call(s, id, m).driver ==
            if s.halt == Running && id in DriverIds(s.client.handlers) then DriverReport(s, m).driver else s.driver
  {
    FindFacts(s.client.handlers, 0, id);
    var f := Find(s.client.handlers, id);
    if s.halt == Running && f.Some? && f.value.BaseHandler? {
      ReportFacts(s, f.value, m);
    }
  }

  lemma {:induction false} EmitFacts(s: State, ids: seq<nat>, m: Report)
    requires Wired(s)
    ensures Undisturbed(s, Emit(s, ids, m))
    ensures Quiet(m) ==> Emit(s, ids, m).uid == s.uid && Emit(s, ids, m).attrs == s.attrs
    ensures s.halt != Running ==> Emit(s, ids, m) == s
    decreases |ids|
  {
    if ids != [] {
      CallFacts(s, ids[0], m);
      EmitFacts(Call(s, ids[0], m), ids[1..], m);
    }
  }

  lemma DeliverFacts(s: State, m: Report)
    requires Wired(s)
    ensures Undisturbed(s, Deliver(s, m))
    ensures Quiet(m) ==> Deliver(s, m).uid == s.uid && Deliver(s, m).attrs == s.attrs
    ensures s.halt != Running ==> Deliver(s, m) == s
  {
    EmitFacts(s, Ids(s.client.handlers), m);
  }

  lemma {:induction false} HandleFacts(s: State, uid: Uid, bodies: seq<Body>)
    requires Wired(s)
    ensures Undisturbed(s, HandleReport(s, uid, bodies))
    ensures s.halt != Running ==> HandleReport(s, uid, bodies) == s
    decreases |bodies|
  {
    if bodies != [] {
      var m := Report(bodies[0].id, uid, bodies[0].payload);
      DeliverFacts(s, m);
      HandleFacts(Deliver(s, m), uid, bodies[1..]);
    }
  }

  lemma ConnectFacts(s: State, h: Handler)
    requires Wired(s) && h.id == s.client.nextId
    ensures Ordered(Connect(s.client, h).handlers, 0)
    ensures Below(Connect(s.client, h).handlers, Connect(s.client, h).nextId)
    ensures DriverIds(Connect(s.client, h).handlers) ==
            DriverIds(s.client.handlers) + if h.DriverHandler? then [h.id] else []
    ensures forall id <- DriverIds(s.client.handlers) :: id < s.client.nextId
  {
    AppendFacts(s.client.handlers, 0, h);
    forall id <- DriverIds(s.client.handlers) ensures id < s.client.nextId {
      DriverIdsAreIds(s.client.handlers, id);
    }
  }

  lemma WiredBase(s: State, h: Handler)
    requires Wired(s) && h.BaseHandler? && h.id == s.client.nextId
    ensures var u := s.(client := Connect(s.client, h), reportId := h.id);
            Wired(u) && DriverIds(u.client.handlers) == DriverIds(s.client.handlers)
  {
    ConnectFacts(s, h);
    assert DriverIds(s.client.handlers) + [] == DriverIds(s.client.handlers);
  }

  predicate SameDevice(s: State, t: State) {
    t.uid == s.uid && t.attrs == s.attrs && t.driver == s.driver && t.kind == s.kind
  }

  lemma EnableFacts(s: State, id: nat, body: RequestBody, task: nat)
    requires Wired(s)
    ensures Undisturbed(s, Enable(s, id, body, task)) && SameDevice(s, Enable(s, id, body, task))
  {
    var h := BaseHandler(s.client.nextId, task, true);
    WiredBase(s, h);
    SameTableWired(s.(client := Connect(s.client, h), reportId := h.id), Enable(s, id, body, task));
  }

  lemma SensorOpenFacts(s: State)
    requires Wired(s)
    ensures Undisturbed(s, SensorOpen(s)) && SameDevice(s, SensorOpen(s))
  {
    var n := s.(nextTask := s.nextTask + 1);
    SameTableWired(s, n);
    if !s.attrs.available || (s.attrs.streamType == CONTINUOUS && s.attrs.sampleRate <= 0.0) {
      SameTableWired(s, SensorOpen(s));
    } else if s.attrs.streamType == CONTINUOUS {
      EnableFacts(n, REQUEST_ENABLE_CONTINUOUS, Rate(s.attrs.sampleRate), s.nextTask);
    } else if s.attrs.streamType == ON_CHANGE {
      EnableFacts(n, REQUEST_ENABLE_ON_CHANGE, Empty, s.nextTask);
    } else {
      SameTableWired(s, SensorOpen(s));
    }
  }

  /** An open adds one subclass handler, under the id it stores, and keeps uid, attributes and queue. */
  lemma OpenFacts(s: State)
    requires Wired(s)
    ensures var t := Open(s);
            && Wired(t) && t.kind == s.kind && t.uid == s.uid && t.attrs == s.attrs
            && t.driver.queue == s.driver.queue
            && (s.kind.Plain? ==> t.driver == s.driver && DriverIds(t.client.handlers) == DriverIds(s.client.handlers))
            && (!s.kind.Plain? ==> DriverIds(t.client.handlers) == DriverIds(s.client.handlers) + [t.driver.reportId])
            && (s.kind.Proximity? ==> !t.driver.reportedOnce)
  {
    ConnectFacts(s, DriverHandler(s.client.nextId));
    match s.kind
    case Plain => SensorOpenFacts(s);
    case Accelerometer => SensorOpenFacts(ConnectDriver(s));
    case Proximity => SensorOpenFacts(ConnectDriver(s.(driver := s.driver.(reportedOnce := false))));
  }

  lemma {:induction false} WithoutLast(hs: seq<Handler>, low: nat, id: nat)
    requires Ordered(hs, low) && DriverIds(hs) == [id]
    ensures DriverIds(Without(hs, id)) == []
  {
    if hs[0].DriverHandler? {
      assert DriverIds(hs)[0] == hs[0].id;
      assert DriverIds(hs[1..]) == DriverIds(hs)[1..] == [];
      WithoutDrivers(hs[1..], id);
    } else {
      WithoutLast(hs[1..], hs[0].id, id);
      if hs[0].id != id {
        assert ([hs[0]] + Without(hs[1..], id))[1..] == Without(hs[1..], id);
      }
    }
  }

  lemma {:induction false} WithoutSublist(hs: seq<Handler>, id: nat)
    ensures forall d <- DriverIds(Without(hs, id)) :: d in DriverIds(hs)
  {
    if hs != [] {
      WithoutSublist(hs[1..], id);
      if hs[0].id != id {
        assert ([hs[0]] + Without(hs[1..], id))[1..] == Without(hs[1..], id);
      }
    }
  }

  /** A close disconnects at most the subclass handler stored last. */
  lemma CloseFacts(s: State)
    requires Wired(s)
    ensures var t := Close(s);
            && Wired(t) && t.kind == s.kind && t.uid == s.uid && t.attrs == s.attrs && t.driver == s.driver
            && (DriverIds(s.client.handlers) == [] ==> DriverIds(t.client.handlers) == [])
            && (!s.kind.Plain? && DriverIds(s.client.handlers) == [s.driver.reportId] ==>
                  DriverIds(t.client.handlers) == [])
  {
    var hs := s.client.handlers;
    WithoutFacts(hs, 0, s.driver.reportId);
    WithoutSublist(hs, s.driver.reportId);
    var ds := DriverIds(Without(hs, s.driver.reportId));
    if ds != [] { assert ds[0] in ds && ds[0] in DriverIds(hs); }
    if DriverIds(hs) == [s.driver.reportId] {
      WithoutLast(hs, 0, s.driver.reportId);
      DriverIdsAreIds(hs, s.driver.reportId);
      OrderedAbove(hs, 0);
    }
  }

  lemma SendReadyTable(s: State, k: nat, ok: bool)
    requires Wired(s)
    ensures Undisturbed(s, SendReady(s, k, ok)) && SameDevice(s, SendReady(s, k, ok))
  {
    SameTableWired(s, SendReady(s, k, ok));
  }

  lemma StepFacts(s: State, e: Event)
    requires Wired(s)
    ensures Wired(Step(s, e)) && Step(s, e).kind == s.kind
    ensures s.halt != Running ==> Step(s, e) == s
    ensures !e.UserOpen? && !e.UserClose? ==> Undisturbed(s, Step(s, e))
    ensures !e.UserOpen? && !e.UserClose? && !e.Indication? ==>
              Step(s, e).driver == s.driver && Step(s, e).uid == s.uid && Step(s, e).attrs == s.attrs
  {
    if s.halt == Running {
      match e
      case UserOpen => OpenFacts(s);
      case UserClose => CloseFacts(s);
      case Indication(uid, bodies) => HandleFacts(s, uid, bodies);
      case SendResult(k, ok) => SendReadyTable(s, k, ok);
    }
  }

  lemma {:induction false} HaltedRun(s: State, es: seq<Event>)
    requires s.halt != Running
    ensures Run(s, es) == s
    decreases |es|
  {
    if es != [] { HaltedRun(s, es[1..]); }
  }

  // ---------------------------------------------------------------------
  // Accelerometer
  // ---------------------------------------------------------------------

  /** A reading turned by a mount matrix, number by number. */
  function Turned(m: Matrix, a: seq<real>): Sample
    requires |a| >= 3
  {
    Acceleration(Vec3(m[0] * a[0] + m[1] * a[1] + m[2] * a[2],
                      m[3] * a[0] + m[4] * a[1] + m[5] * a[2],
                      m[6] * a[0] + m[7] * a[1] + m[8] * a[2]))
  }

  /**
   * The emission a report is worth to somebody who holds a UID and a mount matrix: measurements
   * (1025) of the own sensor with three numbers or more count, nothing else does.
   */
  function Worth(uid: Uid, mount: Matrix, m: Report): seq<Sample> {
    var a := m.payload.acceleration;
    if m.uid == uid && m.id == 1025 && a.Some? && |a.value| >= 3 then [Turned(mount, a.value)] else []
  }

  function AccelerationSample(s: State, m: Report): seq<Sample> {
    Worth(s.uid, s.attrs.mount, m)
  }

  function Repeat(n: nat, xs: seq<Sample>): seq<Sample> {
    if n == 0 then [] else Repeat(n - 1, xs) + xs
  }

  function Hits(ids: seq<nat>, drivers: seq<nat>): nat {
    if ids == [] then 0 else (if ids[0] in drivers then 1 else 0) + Hits(ids[1..], drivers)
  }

  lemma {:induction false} RepeatFront(n: nat, xs: seq<Sample>)
    ensures Repeat(n + 1, xs) == xs + Repeat(n, xs)
  {
    if n > 0 {
      RepeatFront(n - 1, xs);
      assert xs + Repeat(n - 1, xs) + xs == xs + (Repeat(n - 1, xs) + xs);
    } else {
      assert Repeat(0, xs) + xs == xs + Repeat(0, xs);
    }
  }

  lemma ReportIsWorth(s: State, m: Report)
    ensures AccelerometerReport(s, m).driver.queue == s.driver.queue + AccelerationSample(s, m)
  {
    assert s.driver.queue + [] == s.driver.queue;
    if AccelerationIn(s.uid, m).Some? {
      assert Acceleration(Apply(s.attrs.mount, AccelerationIn(s.uid, m).value)) ==
             Turned(s.attrs.mount, m.payload.acceleration.value);
    }
  }

  lemma CallAcceleration(s: State, id: nat, m: Report)
    requires Wired(s) && s.kind.Accelerometer? && Call(s, id, m).halt == Running
    ensures s.halt == Running
    ensures Call(s, id, m).driver.queue ==
            s.driver.queue + if id in DriverIds(s.client.handlers) then AccelerationSample(s, m) else []
    ensures AccelerationSample(Call(s, id, m), m) == AccelerationSample(s, m)
  {
    CallFacts(s, id, m);
    ReportIsWorth(s, m);
    assert s.driver.queue + [] == s.driver.queue;
    SampleKept(s, Call(s, id, m), m);
  }

  lemma {:induction false} EmitAcceleration(s: State, ids: seq<nat>, m: Report)
    requires Wired(s) && s.kind.Accelerometer? && Emit(s, ids, m).halt == Running
    ensures Emit(s, ids, m).driver.queue ==
            s.driver.queue + Repeat(Hits(ids, DriverIds(s.client.handlers)), AccelerationSample(s, m))
    decreases |ids|
  {
    if ids == [] {
      assert s.driver.queue + [] == s.driver.queue;
    } else {
      var t := Call(s, ids[0], m);
      CallFacts(s, ids[0], m);
      EmitFacts(t, ids[1..], m);
      CallAcceleration(s, ids[0], m);
      EmitAcceleration(t, ids[1..], m);
      RepeatHits(s.driver.queue, ids, DriverIds(s.client.handlers), AccelerationSample(s, m));
    }
  }

  lemma SampleAssoc(a: seq<Sample>, b: seq<Sample>, c: seq<Sample>)
    ensures (a + b) + c == a + (b + c)
  {
  }

  lemma RepeatHits(q: seq<Sample>, ids: seq<nat>, drivers: seq<nat>, xs: seq<Sample>)
    requires ids != []
    ensures (q + if ids[0] in drivers then xs else []) + Repeat(Hits(ids[1..], drivers), xs) ==
            q + Repeat(Hits(ids, drivers), xs)
  {
    var n := Hits(ids[1..], drivers);
    if ids[0] in drivers {
      assert Hits(ids, drivers) == n + 1;
      RepeatFront(n, xs);
      SampleAssoc(q, xs, Repeat(n, xs));
    } else {
      assert Hits(ids, drivers) == n;
      assert q + [] == q;
    }
  }

  /** A report carrying a reading changes neither UID nor mount matrix, so later handlers see the same. */
  lemma SampleKept(s: State, t: State, m: Report)
    requires Quiet(m) ==> t.uid == s.uid && t.attrs == s.attrs
    ensures AccelerationSample(t, m) == AccelerationSample(s, m)
  {
  }

  lemma {:induction false} HitsAll(hs: seq<Handler>, low: nat)
    requires Ordered(hs, low)
    ensures Hits(Ids(hs), DriverIds(hs)) == |DriverIds(hs)|
  {
    if hs != [] {
      HitsAll(hs[1..], hs[0].id);
      assert Ids(hs)[1..] == Ids(hs[1..]);
      OrderedAbove(hs[1..], hs[0].id);
      if hs[0].DriverHandler? {
        HitsSkip(Ids(hs[1..]), hs[0].id, DriverIds(hs[1..]));
      } else {
        DriverIdsAreIds(hs[1..], hs[0].id);
        assert DriverIds(hs) == DriverIds(hs[1..]);
      }
    }
  }

  lemma {:induction false} HitsSkip(ids: seq<nat>, d: nat, drivers: seq<nat>)
    requires d !in ids
    ensures Hits(ids, [d] + drivers) == Hits(ids, drivers)
  {
    if ids != [] { HitsSkip(ids[1..], d, drivers); }
  }

  lemma DeliverAcceleration(s: State, m: Report)
    requires Wired(s) && s.kind.Accelerometer? && Deliver(s, m).halt == Running
    ensures Deliver(s, m).driver.queue ==
            s.driver.queue + Repeat(|DriverIds(s.client.handlers)|, AccelerationSample(s, m))
  {
    EmitAcceleration(s, Ids(s.client.handlers), m);
    HitsAll(s.client.handlers, 0);
  }

  /** Per body, in arrival order: one emission per connected handler, from the state at its delivery. */
  function BatchEmissions(s: State, uid: Uid, bodies: seq<Body>): seq<Sample>
    decreases |bodies|
  {
    if bodies == [] then []
    else
      var m := Report(bodies[0].id, uid, bodies[0].payload);
      Repeat(|DriverIds(s.client.handlers)|, AccelerationSample(s, m)) + BatchEmissions(Deliver(s, m), uid, bodies[1..])
  }

  lemma BatchStep(s: State, uid: Uid, bodies: seq<Body>)
    requires Wired(s) && s.kind.Accelerometer? && bodies != []
    requires HandleReport(s, uid, bodies).halt == Running
    ensures var t := Deliver(s, Report(bodies[0].id, uid, bodies[0].payload));
            && Wired(t) && t.kind.Accelerometer?
            && HandleReport(t, uid, bodies[1..]) == HandleReport(s, uid, bodies)
            && t.driver.queue + BatchEmissions(t, uid, bodies[1..]) == s.driver.queue + BatchEmissions(s, uid, bodies)
  {
    var m := Report(bodies[0].id, uid, bodies[0].payload);
    var t := Deliver(s, m);
    DeliverFacts(s, m);
    HandleFacts(t, uid, bodies[1..]);
    DeliverAcceleration(s, m);
    SampleAssoc(s.driver.queue, Repeat(|DriverIds(s.client.handlers)|, AccelerationSample(s, m)),
                BatchEmissions(t, uid, bodies[1..]));
  }

  lemma {:induction false} HandleAcceleration(s: State, uid: Uid, bodies: seq<Body>)
    requires Wired(s) && s.kind.Accelerometer? && HandleReport(s, uid, bodies).halt == Running
    ensures HandleReport(s, uid, bodies).driver.queue == s.driver.queue + BatchEmissions(s, uid, bodies)
    decreases |bodies|
  {
    if bodies == [] {
      assert s.driver.queue + [] == s.driver.queue;
    } else {
      BatchStep(s, uid, bodies);
      HandleAcceleration(Deliver(s, Report(bodies[0].id, uid, bodies[0].payload)), uid, bodies[1..]);
    }
  }

  /** The emissions of a run: those of its indications, each from the state it met. */
  function RunEmissions(s: State, es: seq<Event>): seq<Sample>
    decreases |es|
  {
    if es == [] then []
    else StepEmissions(s, es[0]) + RunEmissions(Step(s, es[0]), es[1..])
  }

  function StepEmissions(s: State, e: Event): seq<Sample> {
    if e.Indication? && s.halt == Running then BatchEmissions(s, e.uid, e.bodies) else []
  }

  lemma StepAcceleration(s: State, e: Event)
    requires Wired(s) && s.kind.Accelerometer? && Step(s, e).halt == Running
    ensures s.halt == Running && Step(s, e).driver.queue == s.driver.queue + StepEmissions(s, e)
  {
    assert s.driver.queue + [] == s.driver.queue;
    match e
    case UserOpen => OpenFacts(s);
    case UserClose => CloseFacts(s);
    case Indication(uid, bodies) => HandleAcceleration(s, uid, bodies);
    case SendResult(_, _) =>
  }

  /**
   * Stream fidelity over any run, overlapping opens included: the queue receives, in arrival
   * order, for every own measurement with at least three values the mount matrix held at its
   * delivery times those values, once for each connected handler and nothing else.
   */
  lemma {:induction false} AccelerometerStream(s: State, es: seq<Event>)
    requires Wired(s) && s.kind.Accelerometer? && Run(s, es).halt == Running
    ensures Run(s, es).driver.queue == s.driver.queue + RunEmissions(s, es)
    decreases |es|
  {
    if es == [] {
      assert s.driver.queue + [] == s.driver.queue;
    } else {
      var t := Step(s, es[0]);
      StepFacts(s, es[0]);
      if t.halt != Running { HaltedRun(t, es[1..]); }
      StepAcceleration(s, es[0]);
      SampleAssoc(s.driver.queue, StepEmissions(s, es[0]), RunEmissions(t, es[1..]));
      AccelerometerStream(t, es[1..]);
    }
  }

  /** Opens and closes alternate; `open` says which of them came last. */
  predicate Alternates(es: seq<Event>, open: bool) {
    es == [] ||
    match es[0]
    case UserOpen => !open && Alternates(es[1..], true)
    case UserClose => open && Alternates(es[1..], false)
    case _ => Alternates(es[1..], open)
  }

  function OpenAfter(es: seq<Event>, open: bool): bool {
    if es == [] then open
    else OpenAfter(es[1..], if es[0].UserOpen? then true else if es[0].UserClose? then false else open)
  }

  /** Exactly one handler listens from an open to the close that follows it, and none otherwise. */
  predicate Listening(s: State, open: bool) {
    DriverIds(s.client.handlers) == if open then [s.driver.reportId] else []
  }

  lemma {:induction false} AlternatingListens(s: State, es: seq<Event>, open: bool)
    requires Wired(s) && !s.kind.Plain? && Alternates(es, open) && Listening(s, open) && Run(s, es).halt == Running
    ensures Wired(Run(s, es)) && Listening(Run(s, es), OpenAfter(es, open))
    decreases |es|
  {
    if es != [] {
      var t := Step(s, es[0]);
      StepFacts(s, es[0]);
      if t.halt != Running { HaltedRun(t, es[1..]); }
      assert s.halt == Running;
      match es[0] {
        case UserOpen =>
          OpenFacts(s);
          assert Listening(t, true);
          AlternatingListens(t, es[1..], true);
        case UserClose =>
          CloseFacts(s);
          AlternatingListens(t, es[1..], false);
        case _ => AlternatingListens(t, es[1..], open);
      }
    }
  }

  predicate QuietRun(es: seq<Event>) {
    forall m <- Delivered(es) :: Quiet(m)
  }

  predicate NoUserAction(es: seq<Event>) {
    forall e <- es :: !e.UserOpen? && !e.UserClose?
  }

  lemma {:induction false} RunKind(s: State, es: seq<Event>)
    requires Wired(s)
    ensures Run(s, es).kind == s.kind && Wired(Run(s, es))
    decreases |es|
  {
    if es != [] {
      StepFacts(s, es[0]);
      RunKind(Step(s, es[0]), es[1..]);
    }
  }
}
