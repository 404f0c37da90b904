/**
 * What a sensor knows and shows as a function of the events alone: a small machine that keeps
 * the UID, the attributes, the discovery state and two flags, and no handlers, requests or tasks.
 * In every polite run the sensor's state and emissions are exactly this machine's.
 */
module Observer {
  import opened Common
  import opened Matrix
  import opened Attributes
  import opened Protocol
  import opened SensorModel
  import opened Discovery
  import opened Delivery
  import opened TaskLedger
  import opened ProximityStream

  /** `pending`: an initialisation or open is waiting for its report; `listening`: between open and close. */
  datatype Watch = Watch(dataType: string, uid: Uid, attrs: Attrs, available: bool, retries: nat,
                         pending: bool, listening: bool)

  function HearResponse(w: Watch, r: SuidResponse): Watch {
    if IsUp(r) then w.(available := true)
    else if !w.available then w.(retries := w.retries + 1, pending := w.retries + 1 < MAX_RETRIES)
    else if r.dataType != w.dataType then w
    else if r.uids != [] then w.(uid := r.uids[0])
    else w.(pending := false)
  }

  /**
   * One delivered report: only a pending watch learns from it. The reports are discovery (768 from
   * SUID), attributes (128), configuration updates (768) and measurements (1025, 769).
   */
  function Hear(w: Watch, m: Report): Watch {
    if !w.pending then w
    else if m.uid == SUID && m.id == 768 then
      match m.payload.suid case None => w case Some(r) => HearResponse(w, r)
    else if m.uid != w.uid then w
    else if m.id == 128 then
      match m.payload.attributes
      case None => w
      case Some(attrs) => w.(attrs := ApplyAll(w.attrs, attrs), pending := false)
    else if m.id == 768 then w.(pending := w.pending && !m.payload.config)
    else if m.id == 1025 || m.id == 769 then w.(pending := false)
    else w
  }

  function HearAll(w: Watch, ms: seq<Report>): Watch
    decreases |ms|
  {
    if ms == [] then w else HearAll(Hear(w, ms[0]), ms[1..])
  }

  function Observe(w: Watch, e: Event): Watch {
    match e
    case UserOpen => w.(listening := true, pending := w.pending || Openable(w.attrs))
    case UserClose => w.(listening := false)
    case Indication(_, _) => HearAll(w, ReportsIn(e))
    case SendResult(_, _) => w
  }

  function ObserveAll(w: Watch, es: seq<Event>): Watch
    decreases |es|
  {
    if es == [] then w else ObserveAll(Observe(w, es[0]), es[1..])
  }

  predicate PoliteStep(w: Watch, e: Event) {
    match e
    case UserOpen => !w.listening && (!w.pending || !Openable(w.attrs))
    case UserClose => w.listening
    case SendResult(_, ok) => ok
    case Indication(_, _) => true
  }

  /** Polite users let sends succeed, alternate open and close, and do not open over a pending task. */
  predicate Polite(w: Watch, es: seq<Event>)
    decreases |es|
  {
    es == [] || (PoliteStep(w, es[0]) && Polite(Observe(w, es[0]), es[1..]))
  }

  /** No open meets an unknown stream type. */
  predicate Survives(w: Watch, es: seq<Event>)
    decreases |es|
  {
    es == [] || ((es[0].UserOpen? ==> !UnknownStream(w.attrs)) && Survives(Observe(w, es[0]), es[1..]))
  }

  // ---------------------------------------------------------------------
  // What the user sees
  // ---------------------------------------------------------------------

  function Accelerations(w: Watch, m: Report): seq<Sample> {
    if w.listening then Worth(w.uid, w.attrs.mount, m) else []
  }

  function AllAccelerations(w: Watch, ms: seq<Report>): seq<Sample>
    decreases |ms|
  {
    if ms == [] then [] else Accelerations(w, ms[0]) + AllAccelerations(Hear(w, ms[0]), ms[1..])
  }

  function Shown(w: Watch, es: seq<Event>): seq<Sample>
    decreases |es|
  {
    if es == [] then [] else AllAccelerations(w, ReportsIn(es[0])) + Shown(Observe(w, es[0]), es[1..])
  }

  // ---------------------------------------------------------------------
  // The sensor as seen by the machine
  // ---------------------------------------------------------------------

  function WatchOf(s: State): Watch {
    Watch(s.dataType, s.uid, s.attrs, s.serviceAvailable, s.retries,
          s.reportId != 0, DriverIds(s.client.handlers) != [])
  }

  lemma ReportWatched(s: State, h: Handler, m: Report)
    requires Wired(s) && h.BaseHandler? && h.live && s.reportId != 0
    ensures var t := ReportReceived(s, h, m);
            WatchOf(t) == Hear(WatchOf(s), m) && t.reportId in {0, s.reportId} && t.halt == s.halt
  {
    if m.uid == SUID && m.id == RESPONSE_SUID {
      if m.payload.suid.Some? {
        ResponseWatched(s, h, m.payload.suid.value);
        SuidFacts(s, h, m.payload.suid.value);
      }
    } else if m.uid == s.uid && m.id == RESPONSE_GET_ATTRIBUTES {
      if m.payload.attributes.Some? {
        var attrs := m.payload.attributes.value;
        FinishWatched(s, s.(attrs := ApplyAll(s.attrs, attrs), accepted := s.accepted + attrs), h);
      }
    } else {
      FinishWatched(s, s, h);
    }
  }

  lemma FinishWatched(s: State, u: State, h: Handler)
    requires Wired(s) && h.BaseHandler? && SameTable(s, u)
    ensures var t := Finish(u, h, Success);
            WatchOf(t) == WatchOf(u).(pending := false) && t.reportId == 0 && t.halt == u.halt
  {
    FinishUndisturbed(s, u, h, Success);
  }

  /** The discovery part of the machine. */
  predicate SameDiscovery(s: State, w: Watch) {
    && s.dataType == w.dataType && s.uid == w.uid && s.attrs == w.attrs
    && s.serviceAvailable == w.available && s.retries == w.retries
  }

  lemma ResponseWatched(s: State, h: Handler, r: SuidResponse)
    requires h.BaseHandler? && s.reportId != 0
    ensures var t := SuidReceived(s, h, r);
            && SameDiscovery(t, HearResponse(WatchOf(s), r))
            && t.reportId == (if HearResponse(WatchOf(s), r).pending then s.reportId else 0) && t.halt == s.halt
  {
  }

  /** The one base handler is called ... */
  lemma CallBase(s: State, m: Report)
    requires Balanced(s, 0) && s.halt == Running && s.reportId != 0
    ensures var t := Call(s, s.reportId, m);
            && Balanced(t, 0) && t.halt == Running
            && WatchOf(t) == Hear(WatchOf(s), m) && t.reportId in {0, s.reportId}
  {
    CallBalanced(s, s.reportId, m, 0);
    BasesMembers(s.client.handlers);
    var b := Bases(s.client.handlers)[0];
    assert b in Bases(s.client.handlers);
    FindMember(s.client.handlers, 0, b);
    assert Call(s, s.reportId, m) == ReportReceived(s, b, m);
    ReportWatched(s, b, m);
  }

  /** ... or any other handler, which changes nothing the machine looks at. */
  lemma CallOther(s: State, id: nat, m: Report)
    requires Balanced(s, 0) && s.halt == Running && (s.reportId == 0 || id != s.reportId)
    ensures var t := Call(s, id, m);
            && Balanced(t, 0) && t.halt == Running
            && WatchOf(t) == WatchOf(s) && t.reportId == s.reportId
  {
    CallBalanced(s, id, m, 0);
    FindFacts(s.client.handlers, 0, id);
    NotBase(s, id);
    DriverWatched(s, m);
  }

  lemma NotBase(s: State, id: nat)
    requires OneBase(s) && (s.reportId == 0 || id != s.reportId)
    ensures forall h <- s.client.handlers :: h.id == id ==> !h.BaseHandler?
  {
    BasesMembers(s.client.handlers);
    forall h <- s.client.handlers | h.id == id ensures !h.BaseHandler? {
      assert h.BaseHandler? ==> h in Bases(s.client.handlers);
    }
  }

  lemma DriverWatched(s: State, m: Report)
    ensures var t := DriverReport(s, m);
            WatchOf(t) == WatchOf(s) && t.reportId == s.reportId && t.halt == s.halt
  {
  }

  lemma {:induction false} EmitWatched(s: State, ids: seq<nat>, m: Report)
    requires Balanced(s, 0) && s.halt == Running
    requires forall i, j :: 0 <= i < j < |ids| ==> ids[i] < ids[j]
    ensures var t := Emit(s, ids, m);
            && Balanced(t, 0) && t.halt == Running
            && WatchOf(t) == if s.reportId != 0 && s.reportId in ids then Hear(WatchOf(s), m) else WatchOf(s)
    decreases |ids|
  {
    if ids != [] {
      var t := Call(s, ids[0], m);
      if s.reportId != 0 && s.reportId == ids[0] { CallBase(s, m); } else { CallOther(s, ids[0], m); }
      EmitWatched(t, ids[1..], m);
      assert s.reportId in ids <==> s.reportId == ids[0] || s.reportId in ids[1..];
      assert ids[0] !in ids[1..];
    }
  }

  /** A connected base handler is among those an emission visits. */
  lemma BaseVisited(s: State)
    requires Wired(s) && OneBase(s) && s.reportId != 0
    ensures s.reportId in Ids(s.client.handlers)
  {
    BasesMembers(s.client.handlers);
    var b := Bases(s.client.handlers)[0];
    assert b in Bases(s.client.handlers);
    var i :| 0 <= i < |s.client.handlers| && s.client.handlers[i] == b;
    assert Ids(s.client.handlers)[i] == s.reportId;
  }

  lemma DeliverWatched(s: State, m: Report)
    requires Balanced(s, 0) && s.halt == Running
    ensures Balanced(Deliver(s, m), 0) && Deliver(s, m).halt == Running
    ensures WatchOf(Deliver(s, m)) == Hear(WatchOf(s), m)
  {
    IdsOrdered(s.client.handlers, 0);
    EmitWatched(s, Ids(s.client.handlers), m);
    if s.reportId != 0 { BaseVisited(s); }
  }

  lemma ReportsCons(uid: Uid, bodies: seq<Body>)
    requires bodies != []
    ensures ReportsOf(uid, bodies)[0] == Report(bodies[0].id, uid, bodies[0].payload)
    ensures ReportsOf(uid, bodies)[1..] == ReportsOf(uid, bodies[1..])
  {
  }

  lemma {:induction false} HandleWatched(s: State, uid: Uid, bodies: seq<Body>)
    requires Balanced(s, 0) && s.halt == Running
    ensures var t := HandleReport(s, uid, bodies);
            Balanced(t, 0) && t.halt == Running && WatchOf(t) == HearAll(WatchOf(s), ReportsOf(uid, bodies))
    decreases |bodies|
  {
    if bodies != [] {
      var m := Report(bodies[0].id, uid, bodies[0].payload);
      ReportsCons(uid, bodies);
      DeliverWatched(s, m);
      HandleWatched(Deliver(s, m), uid, bodies[1..]);
    }
  }

  lemma SampleWatched(s: State, m: Report)
    requires |DriverIds(s.client.handlers)| <= 1
    ensures Repeat(|DriverIds(s.client.handlers)|, AccelerationSample(s, m)) == Accelerations(WatchOf(s), m)
  {
    var xs := AccelerationSample(s, m);
    assert Repeat(1, xs) == Repeat(0, xs) + xs == xs;
  }

  lemma {:induction false} BatchWatched(s: State, uid: Uid, bodies: seq<Body>)
    requires Balanced(s, 0) && s.halt == Running && |DriverIds(s.client.handlers)| <= 1
    ensures BatchEmissions(s, uid, bodies) == AllAccelerations(WatchOf(s), ReportsOf(uid, bodies))
    decreases |bodies|
  {
    if bodies != [] {
      var m := Report(bodies[0].id, uid, bodies[0].payload);
      ReportsCons(uid, bodies);
      SampleWatched(s, m);
      DeliverWatched(s, m);
      DeliverFacts(s, m);
      BatchWatched(Deliver(s, m), uid, bodies[1..]);
    }
  }

  /** The states a polite run goes through. */
  predicate Usual(s: State) {
    Balanced(s, 0) && !s.kind.Plain? && Listening(s, DriverIds(s.client.handlers) != [])
  }

  lemma OpenWatched(s: State)
    requires Usual(s) && s.halt == Running && DriverIds(s.client.handlers) == []
    requires s.reportId == 0 || !Openable(s.attrs)
    ensures Usual(Open(s)) && WatchOf(Open(s)) == Observe(WatchOf(s), UserOpen)
  {
    OpenBalanced(s, 0);
    OpenFacts(s);
    var c := ConnectDriver(if s.kind.Proximity? then s.(driver := s.driver.(reportedOnce := false)) else s);
    assert Open(s) == SensorOpen(c) && c.reportId == s.reportId && c.attrs == s.attrs;
    OpenPending(c);
  }

  lemma OpenPending(s: State)
    requires 0 < s.client.nextId
    ensures var t := SensorOpen(s);
            && (t.reportId != 0 <==> s.reportId != 0 || Openable(s.attrs))
            && t.dataType == s.dataType && t.serviceAvailable == s.serviceAvailable && t.retries == s.retries
  {
  }

  lemma CloseWatched(s: State)
    requires Usual(s) && s.halt == Running && DriverIds(s.client.handlers) != []
    ensures Usual(Close(s)) && WatchOf(Close(s)) == Observe(WatchOf(s), UserClose)
  {
    CloseBalanced(s, 0);
    CloseFacts(s);
  }

  lemma SendWatched(s: State, k: nat)
    requires Usual(s) && s.halt == Running
    ensures Usual(SendReady(s, k, true)) && WatchOf(SendReady(s, k, true)) == WatchOf(s)
  {
    SendReadyBalanced(s, k, true, 0);
    SendKeepsView(s, k);
  }

  lemma SendKeepsView(s: State, k: nat)
    ensures var t := SendReady(s, k, true);
            && WatchOf(t) == WatchOf(s) && t.kind == s.kind && t.driver == s.driver
            && t.client.handlers == s.client.handlers
  {
  }

  lemma IndicationWatched(s: State, uid: Uid, bodies: seq<Body>)
    requires Usual(s) && s.halt == Running
    ensures var t := HandleReport(s, uid, bodies);
            && Usual(t) && t.halt == Running
            && WatchOf(t) == HearAll(WatchOf(s), ReportsOf(uid, bodies))
            && (s.kind.Accelerometer? ==>
                  t.driver.queue == s.driver.queue + AllAccelerations(WatchOf(s), ReportsOf(uid, bodies)))
  {
    HandleWatched(s, uid, bodies);
    HandleFacts(s, uid, bodies);
    BatchWatched(s, uid, bodies);
    if s.kind.Accelerometer? { HandleAcceleration(s, uid, bodies); }
  }

  lemma StepWatched(s: State, e: Event)
    requires Usual(s) && Step(s, e).halt == Running && PoliteStep(WatchOf(s), e)
    ensures Usual(Step(s, e)) && WatchOf(Step(s, e)) == Observe(WatchOf(s), e)
    ensures Step(s, e).kind == s.kind
    ensures s.kind.Accelerometer? ==>
              Step(s, e).driver.queue == s.driver.queue + AllAccelerations(WatchOf(s), ReportsIn(e))
  {
    assert s.driver.queue + [] == s.driver.queue;
    StepFacts(s, e);
    match e
    case UserOpen => OpenFacts(s); OpenWatched(s);
    case UserClose => CloseFacts(s); CloseWatched(s);
    case Indication(uid, bodies) => IndicationWatched(s, uid, bodies);
    case SendResult(k, _) => SendWatched(s, k);
  }

  lemma {:induction false} RunWatched(s: State, es: seq<Event>)
    requires Usual(s) && Polite(WatchOf(s), es) && Run(s, es).halt == Running
    ensures Usual(Run(s, es)) && WatchOf(Run(s, es)) == ObserveAll(WatchOf(s), es)
    ensures s.kind.Accelerometer? ==> Run(s, es).driver.queue == s.driver.queue + Shown(WatchOf(s), es)
    decreases |es|
  {
    if es == [] {
      assert s.driver.queue + [] == s.driver.queue;
    } else {
      var t := Step(s, es[0]);
      if t.halt != Running { HaltedRun(t, es[1..]); }
      StepWatched(s, es[0]);
      RunWatched(t, es[1..]);
      SampleAssoc(s.driver.queue, AllAccelerations(WatchOf(s), ReportsIn(es[0])), Shown(WatchOf(t), es[1..]));
    }
  }

  lemma StepSurvives(s: State, e: Event)
    requires Usual(s) && s.halt == Running && PoliteStep(WatchOf(s), e)
    ensures Step(s, e).halt == Running <==> (e.UserOpen? ==> !UnknownStream(s.attrs))
  {
    StepBalanced(s, e, 0);
    if e.UserOpen? {
      OpenHalts(s);
    } else if Step(s, e).halt == Aborted {
      AbortingStep(s, e);
    }
  }

  lemma OpenHalts(s: State)
    requires s.halt == Running
    ensures Open(s).halt == if UnknownStream(s.attrs) then Aborted else Running
  {
  }

  /** A polite run keeps running exactly when no open meets an unknown stream type. */
  lemma {:induction false} RunSurvives(s: State, es: seq<Event>)
    requires Usual(s) && s.halt == Running && Polite(WatchOf(s), es)
    ensures Run(s, es).halt == Running <==> Survives(WatchOf(s), es)
    decreases |es|
  {
    if es != [] {
      var t := Step(s, es[0]);
      StepSurvives(s, es[0]);
      if t.halt == Running {
        StepWatched(s, es[0]);
        RunSurvives(t, es[1..]);
      } else {
        HaltedRun(t, es[1..]);
      }
    }
  }

  function Initially(dataType: string, uid: Uid): Watch {
    Watch(dataType, uid, INITIAL, false, 0, true, false)
  }

  /**
   * From its creation on, through any polite run: the process goes on exactly when no open meets
   * an unknown stream type, and then what an accelerometer knows and what it has queued for the
   * user are functions of the events alone, computed by the machine.
   */
  lemma AccelerometerObserved(dataType: string, uid: Uid, es: seq<Event>)
    requires Polite(Initially(dataType, uid), es)
    ensures var s := Run(Boot(Accelerometer, dataType, uid), es);
            && (s.halt == Running <==> Survives(Initially(dataType, uid), es))
            && (s.halt == Running ==>
                  && WatchOf(s) == ObserveAll(Initially(dataType, uid), es)
                  && s.driver.queue == Shown(Initially(dataType, uid), es))
  {
    var b := Boot(Accelerometer, dataType, uid);
    BootUsual(Accelerometer, dataType, uid);
    RunSurvives(b, es);
    if Run(b, es).halt == Running {
      RunWatched(b, es);
      assert [] + Shown(Initially(dataType, uid), es) == Shown(Initially(dataType, uid), es);
    }
  }

  lemma BootUsual(kind: Kind, dataType: string, uid: Uid)
    requires !kind.Plain?
    ensures Usual(Boot(kind, dataType, uid)) && WatchOf(Boot(kind, dataType, uid)) == Initially(dataType, uid)
  {
    BootBalanced(kind, dataType, uid, 0);
    var h := BaseHandler(1, 0, true);
    assert Boot(kind, dataType, uid).client.handlers == [] + [h] == [h];
    assert DriverIds([h]) == [] by { assert [h][1..] == []; }
  }

  // ---------------------------------------------------------------------
  // Proximity
  // ---------------------------------------------------------------------

  function NearHeard(w: Watch, m: Report): seq<bool> {
    if w.listening then Reading(w.uid, m) else []
  }

  function AllNear(w: Watch, ms: seq<Report>): seq<bool>
    decreases |ms|
  {
    if ms == [] then [] else NearHeard(w, ms[0]) + AllNear(Hear(w, ms[0]), ms[1..])
  }

  function NearShown(w: Watch, es: seq<Event>): seq<bool>
    decreases |es|
  {
    if es == [] then [] else AllNear(w, ReportsIn(es[0])) + NearShown(Observe(w, es[0]), es[1..])
  }

  lemma {:induction false} BatchReadingsWatched(s: State, uid: Uid, bodies: seq<Body>)
    requires Balanced(s, 0) && s.halt == Running
    ensures BatchReadings(s, uid, bodies) == AllNear(WatchOf(s), ReportsOf(uid, bodies))
    decreases |bodies|
  {
    if bodies != [] {
      var m := Report(bodies[0].id, uid, bodies[0].payload);
      ReportsCons(uid, bodies);
      DeliverWatched(s, m);
      BatchReadingsWatched(Deliver(s, m), uid, bodies[1..]);
    }
  }

  lemma {:induction false} RunReadingsWatched(s: State, es: seq<Event>)
    requires Usual(s) && Polite(WatchOf(s), es) && Run(s, es).halt == Running
    ensures RunReadings(s, es) == NearShown(WatchOf(s), es)
    decreases |es|
  {
    if es != [] {
      var t := Step(s, es[0]);
      if t.halt != Running { HaltedRun(t, es[1..]); }
      StepWatched(s, es[0]);
      if es[0].Indication? { BatchReadingsWatched(s, es[0].uid, es[0].bodies); }
      RunReadingsWatched(t, es[1..]);
    }
  }

  lemma {:induction false} PoliteConcat(w: Watch, xs: seq<Event>, ys: seq<Event>)
    requires Polite(w, xs + ys)
    ensures Polite(w, xs) && Polite(ObserveAll(w, xs), ys)
    decreases |xs|
  {
    if xs == [] {
      assert xs + ys == ys;
    } else {
      assert (xs + ys)[1..] == xs[1..] + ys;
      PoliteConcat(Observe(w, xs[0]), xs[1..], ys);
    }
  }

  lemma SinceOpenWatched(s: State, later: seq<Event>)
    requires Usual(s) && s.kind.Proximity? && s.halt == Running
    requires Polite(WatchOf(s), [UserOpen] + later) && forall e <- later :: !e.UserOpen?
    requires Run(s, [UserOpen] + later).halt == Running
    ensures Run(s, [UserOpen] + later).driver.queue ==
            s.driver.queue + Samples(Dedup(NearShown(Observe(WatchOf(s), UserOpen), later)))
  {
    assert ([UserOpen] + later)[1..] == later;
    var o := Step(s, UserOpen);
    ProximityReportsChanges(s, later);
    if o.halt != Running { HaltedRun(o, later); }
    StepWatched(s, UserOpen);
    RunReadingsWatched(o, later);
  }

  /**
   * A proximity sensor, from its creation on through any polite run: unless an open meets an
   * unknown stream type, what it has queued since the latest open are the readings the machine
   * hears since then, consecutive repeats removed.
   */
  lemma ProximityObserved(dataType: string, uid: Uid, es: seq<Event>, later: seq<Event>)
    requires Polite(Initially(dataType, uid), es + ([UserOpen] + later)) && forall e <- later :: !e.UserOpen?
    ensures var s := Run(Boot(Proximity, dataType, uid), es);
            var t := Run(Boot(Proximity, dataType, uid), es + ([UserOpen] + later));
            var w := Observe(ObserveAll(Initially(dataType, uid), es), UserOpen);
            && (t.halt == Running <==> Survives(Initially(dataType, uid), es + ([UserOpen] + later)))
            && (t.halt == Running ==> t.driver.queue == s.driver.queue + Samples(Dedup(NearShown(w, later))))
  {
    var b := Boot(Proximity, dataType, uid);
    BootUsual(Proximity, dataType, uid);
    RunSurvives(b, es + ([UserOpen] + later));
    if Run(b, es + ([UserOpen] + later)).halt == Running {
      ProximityRun(b, es, later);
    }
  }

  lemma ProximityRun(b: State, es: seq<Event>, later: seq<Event>)
    requires Usual(b) && b.kind.Proximity? && Polite(WatchOf(b), es + ([UserOpen] + later))
    requires (forall e <- later :: !e.UserOpen?) && Run(b, es + ([UserOpen] + later)).halt == Running
    ensures Run(b, es + ([UserOpen] + later)).driver.queue ==
            Run(b, es).driver.queue + Samples(Dedup(NearShown(Observe(ObserveAll(WatchOf(b), es), UserOpen), later)))
  {
    var s := Run(b, es);
    RunConcat(b, es, [UserOpen] + later);
    PoliteConcat(WatchOf(b), es, [UserOpen] + later);
    if s.halt != Running { HaltedRun(s, [UserOpen] + later); }
    RunWatched(b, es);
    RunKind(b, es);
    SinceOpenWatched(s, later);
  }

  // ---------------------------------------------------------------------
  // A single report
  // ---------------------------------------------------------------------

  /** What one report adds to the queue of an accelerometer. */
  lemma OneAcceleration(s: State, m: Report)
    requires Usual(s) && s.kind.Accelerometer? && s.halt == Running
    ensures Deliver(s, m).driver.queue == s.driver.queue + Accelerations(WatchOf(s), m)
  {
    DeliverWatched(s, m);
    DeliverAcceleration(s, m);
    SampleWatched(s, m);
  }

  /** The filter: a reading is shown unless it repeats the one reported last since the open. */
  function Filter(d: Driver, near: seq<bool>): seq<Sample> {
    if near == [] || (d.reportedOnce && d.near == near[0]) then [] else [Near(near[0])]
  }

  lemma CallNear(s: State, id: nat, m: Report)
    requires Wired(s) && s.kind.Proximity? && s.halt == Running
    ensures var t := Call(s, id, m);
            && t.driver.queue == s.driver.queue +
                 (if id in DriverIds(s.client.handlers) then Filter(s.driver, Reading(s.uid, m)) else [])
            && (id !in DriverIds(s.client.handlers) ==> t.driver == s.driver)
            && DriverIds(t.client.handlers) == DriverIds(s.client.handlers)
            && Wired(t) && t.kind == s.kind
            && Reading(t.uid, m) == Reading(s.uid, m)
  {
    CallFacts(s, id, m);
    ReadingIsNear(s.uid, m);
    assert s.driver.queue + [] == s.driver.queue;
  }

  lemma {:induction false} EmitNear(s: State, ids: seq<nat>, m: Report)
    requires Balanced(s, 0) && s.kind.Proximity? && s.halt == Running && |DriverIds(s.client.handlers)| <= 1
    requires forall i, j :: 0 <= i < j < |ids| ==> ids[i] < ids[j]
    ensures Emit(s, ids, m).driver.queue == s.driver.queue +
            if exists id <- ids :: id in DriverIds(s.client.handlers) then Filter(s.driver, Reading(s.uid, m)) else []
    decreases |ids|
  {
    assert s.driver.queue + [] == s.driver.queue;
    if ids != [] {
      var t := Call(s, ids[0], m);
      CallNear(s, ids[0], m);
      if s.reportId != 0 && s.reportId == ids[0] { CallBase(s, m); } else { CallOther(s, ids[0], m); }
      EmitNear(t, ids[1..], m);
      if ids[0] in DriverIds(s.client.handlers) {
        assert DriverIds(s.client.handlers) == [ids[0]];
        assert t.driver.queue + [] == t.driver.queue;
        assert forall id <- ids[1..] :: id != ids[0];
      }
    }
  }

  /** What one report adds to the queue of a proximity sensor. */
  lemma OneNear(s: State, m: Report)
    requires Usual(s) && s.kind.Proximity? && s.halt == Running
    ensures Deliver(s, m).driver.queue == s.driver.queue + Filter(s.driver, NearHeard(WatchOf(s), m))
  {
    IdsOrdered(s.client.handlers, 0);
    SomeDriverIsListed(s.client.handlers);
    EmitNear(s, Ids(s.client.handlers), m);
  }
}
