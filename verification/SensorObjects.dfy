/**
 * The objects of the library as they are updated in place: the client with its signal table
 * and request log, and the sensor with its private fields, subclass data included. Every
 * method is proved to do exactly what SensorModel says about the object's value.
 */
module SensorObjects {
  import opened Common
  import opened Matrix
  import opened Attributes
  import opened Protocol
  import opened SensorModel

  class ClientObject {
    var handlers: seq<Handler>
    var nextId: nat
    var sent: seq<Request>
    var answered: set<nat>

    ghost function View(): Client
      reads this
    {
      Client(handlers, nextId, sent, answered)
    }

    constructor ()
      ensures View() == Client([], 1, [], {})
    {
      handlers, nextId, sent, answered := [], 1, [], {};
    }

    method ConnectHandler(h: Handler)
      modifies this
      ensures View() == Connect(old(View()), h)
    {
      handlers := handlers + [h];
      nextId := nextId + 1;
    }

    method DisconnectHandler(id: nat)
      modifies this
      ensures View() == Disconnect(old(View()), id)
    {
      handlers := Without(handlers, id);
    }

    method SendRequest(uid: Uid, id: nat, body: RequestBody, task: Option<nat>)
      modifies this
      ensures View() == old(View()).(sent := old(View()).sent + [Request(uid, id, body, task)])
    {
      sent := sent + [Request(uid, id, body, task)];
    }
  }

  // ---------------------------------------------------------------------
  // The mount matrix, a 3x3 array addressed by j/3 and j%3
  // ---------------------------------------------------------------------

  predicate Square(m: array2<real>) {
    m.Length0 == 3 && m.Length1 == 3
  }

  function Flat(m: array2<real>): Matrix
    requires Square(m)
    reads m
  {
    [m[0, 0], m[0, 1], m[0, 2], m[1, 0], m[1, 1], m[1, 2], m[2, 0], m[2, 1], m[2, 2]]
  }

  method SetEntry(m: array2<real>, j: nat, v: real)
    requires Square(m) && j < 9
    modifies m
    ensures Flat(m) == old(Flat(m))[j := v]
  {
    m[j / 3, j % 3] := v;
    assert j == 0 || j == 1 || j == 2 || j == 3 || j == 4 || j == 5 || j == 6 || j == 7 || j == 8;
  }

  method GetEntry(m: array2<real>, k: nat) returns (v: real)
    requires Square(m) && k < 9
    ensures v == Flat(m)[k]
  {
    v := m[k / 3, k % 3];
    assert k == 0 || k == 1 || k == 2 || k == 3 || k == 4 || k == 5 || k == 6 || k == 7 || k == 8;
  }

  /** Overlay the given numbers on the matrix, then fall back to ones on the diagonal if the truncated sum is zero. */
  method FillMount(m: array2<real>, vs: seq<AttrValue>)
    requires Square(m)
    modifies m
    ensures Flat(m) == MountFrom(old(Flat(m)), vs)
  {
    ghost var before := Flat(m);
    var n := if |vs| < 9 then |vs| else 9;
    assert Overlay(before, vs, 0) == before;
    for j := 0 to n
      invariant Flat(m) == Overlay(before, vs, j)
    {
      assert Overlay(before, vs, j + 1) ==
             if vs[j].f.Some? then Overlay(before, vs, j)[j := vs[j].f.value] else Overlay(before, vs, j);
      if vs[j].f.Some? {
        SetEntry(m, j, vs[j].f.value);
      }
    }
    var sum := 0;
    for k := 0 to 9
      invariant Flat(m) == Overlay(before, vs, n)
      invariant sum == TruncatedSum(Flat(m), k)
    {
      var v := GetEntry(m, k);
      sum := Truncate(sum as real + v);
    }
    if sum == 0 {
      SetEntry(m, 0, 1.0);
      SetEntry(m, 4, 1.0);
      SetEntry(m, 8, 1.0);
    }
  }

  /** The loop over the offered sample rates stops at the first positive one. */
  method FindRate(vs: seq<AttrValue>) returns (r: Option<real>)
    ensures r == FirstPositive(vs)
  {
    for j := 0 to |vs|
      invariant FirstPositive(vs) == FirstPositive(vs[j..])
    {
      assert vs[j..][0] == vs[j] && vs[j..][1..] == vs[j + 1..];
      if vs[j].f.Some? && vs[j].f.value > 0.0 {
        return vs[j].f;
      }
    }
    return None;
  }

  class SensorObject {
    const kind: Kind
    const dataType: string
    const client: ClientObject
    const mount: array2<real>

    var uid: Uid
    var name: Option<string>
    var vendor: Option<string>
    var available: bool
    var sampleRate: real
    var streamType: nat
    var reportId: nat
    var serviceAvailable: bool
    var retries: nat

    var done: seq<Completion>
    var nextTask: nat
    var halt: Halt

    var driverReportId: nat
    var near: bool
    var reportedOnce: bool
    var queue: seq<Sample>

    ghost var heard: seq<SuidResponse>
    ghost var accepted: seq<Attr>

    predicate Shape() { Square(mount) }

    ghost function Attributes(): Attrs
      requires Shape()
      reads this, mount
    {
      Attrs(name, vendor, available, sampleRate, streamType, Flat(mount))
    }

    ghost function View(): State
      requires Shape()
      reads this, client, mount
    {
      State(kind, dataType, uid, Attributes(), reportId, serviceAvailable, retries, done, nextTask, halt,
            client.View(), SensorModel.Driver(driverReportId, near, reportedOnce, queue), heard, accepted)
    }

    constructor (kind: Kind, dataType: string, uid: Uid)
      ensures Shape() && fresh(client) && fresh(mount)
      ensures View() == New(kind, dataType, uid)
    {
      this.kind, this.dataType, this.uid := kind, dataType, uid;
      client := new ClientObject();
      mount := new real[3, 3]((i, j) => if i == j then 1.0 else 0.0);
      name, vendor, available, sampleRate, streamType := None, None, false, 0.0, 0;
      reportId, serviceAvailable, retries := 0, false, 0;
      done, nextTask, halt := [], 1, Running;
      driverReportId, near, reportedOnce, queue := 0, false, kind.Proximity?, [];
      heard, accepted := [], [];
    }

    /** The attribute loop: one switch per attribute, a loop per list-valued one. */
    method PopulateAttributes(attrs: seq<Attr>)
      requires Shape()
      modifies this`name, this`vendor, this`available, this`sampleRate, this`streamType, mount
      ensures Attributes() == ApplyAll(old(Attributes()), attrs)
    {
      ghost var before := Attributes();
      for i := 0 to |attrs|
        invariant Attributes() == ApplyAll(before, attrs[..i])
      {
        assert attrs[..i + 1][..i] == attrs[..i];
        PopulateAttribute(attrs[i]);
      }
      assert attrs[..|attrs|] == attrs;
    }

    method PopulateAttribute(a: Attr)
      requires Shape()
      modifies this`name, this`vendor, this`available, this`sampleRate, this`streamType, mount
      ensures Attributes() == ApplyAttr(old(Attributes()), a)
    {
      var vs := a.values;
      match a.id {
        case 0 =>
          if |vs| == 1 && vs[0].s.Some? { name := vs[0].s; }
        case 1 =>
          if |vs| == 1 && vs[0].s.Some? { vendor := vs[0].s; }
        case 3 =>
          if |vs| == 1 && vs[0].b.Some? { available := vs[0].b.value; }
        case 6 =>
          var r := FindRate(vs);
          if r.Some? { sampleRate := r.value; }
        case 16 =>
          if |vs| == 1 && vs[0].i.Some? { streamType := vs[0].i.value % 0x1_0000_0000; }
        case 20 =>
          FillMount(mount, vs);
        case _ =>
      }
    }

    method PollService(task: nat)
      requires Shape()
      modifies client
      ensures View() == WaitForSensorService(old(View()), task)
    {
      client.SendRequest(SUID, REQUEST_SUID, FindType(REGISTRY), Some(task));
    }

    method DiscoverSensor(task: nat)
      requires Shape()
      modifies client
      ensures View() == Discover(old(View()), task)
    {
      client.SendRequest(SUID, REQUEST_SUID, FindType(dataType), Some(task));
    }

    method RequestAttributes()
      requires Shape()
      modifies client
      ensures View() == Attribute(old(View()))
    {
      client.SendRequest(uid, REQUEST_GET_ATTRIBUTES, NoUpdates, None);
    }

    /** Stop listening, complete the context's task, free the context. */
    method FinishTask(h: Handler, o: Outcome)
      requires Shape() && h.BaseHandler?
      modifies this`reportId, this`done, client
      ensures View() == Finish(old(View()), h, o)
    {
      client.DisconnectHandler(reportId);
      reportId := 0;
      done := done + [Completion(h.task, o)];
      client.handlers := Freed(client.handlers, h.id);
    }

    /** The big report handler of the base class. */
    method OnReport(h: Handler, m: Report)
      requires Shape() && h.BaseHandler?
      modifies this, client, mount
      ensures View() == ReportReceived(old(View()), h, m)
    {
      if !h.live {
        halt := StaleContext;
        return;
      }
      if m.uid == SUID && m.id == RESPONSE_SUID {
        if m.payload.suid.None? {
          return;
        }
        OnDiscovery(h, m.payload.suid.value);
      } else if m.uid == uid && m.id == RESPONSE_GET_ATTRIBUTES {
        if m.payload.attributes.None? {
          return;
        }
        OnAttributes(h, m.payload.attributes.value);
      } else if m.uid == uid && m.id == RESPONSE_ENABLE {
        if m.payload.config {
          FinishTask(h, Success);
        }
      } else if m.uid == uid && (m.id == REPORT_MEASUREMENT || m.id == REPORT_PROXIMITY) {
        FinishTask(h, Success);
      }
    }

    method OnAttributes(h: Handler, attrs: seq<Attr>)
      requires Shape() && h.BaseHandler?
      modifies this, client, mount
      ensures var s := old(View());
              View() == Finish(s.(attrs := ApplyAll(s.attrs, attrs), accepted := s.accepted + attrs), h, Success)
    {
      PopulateAttributes(attrs);
      accepted := accepted + attrs;
      FinishTask(h, Success);
    }

    /** A response while the service is down: poll again until the budget is used up. */
    method OnServiceDown(h: Handler)
      requires Shape() && h.BaseHandler?
      modifies this, client
      ensures var s := old(View()).(retries := old(View()).retries + 1);
              View() == if s.retries >= MAX_RETRIES then Finish(s, h, NoService) else WaitForSensorService(s, h.task)
    {
      retries := retries + 1;
      if retries >= MAX_RETRIES {
        FinishTask(h, NoService);
        return;
      }
      PollService(h.task);
    }

    method OnDiscovery(h: Handler, r: SuidResponse)
      requires Shape() && h.BaseHandler?
      modifies this, client
      ensures View() == SuidReceived(old(View()), h, r)
    {
      heard := heard + [r];
      if r.uids != [] && r.dataType == REGISTRY {
        serviceAvailable := true;
        DiscoverSensor(h.task);
        return;
      }
      if !serviceAvailable {
        OnServiceDown(h);
        return;
      }
      if r.dataType != dataType {
        return;
      }
      OnOwnType(h, r.uids);
    }

    /** The sensors of the own data type are known: take the first, or give up. */
    method OnOwnType(h: Handler, uids: seq<Uid>)
      requires Shape() && h.BaseHandler?
      modifies this, client
      ensures var s := old(View());
              View() == if uids != [] then Attribute(s.(uid := uids[0])) else Finish(s, h, NotFound)
    {
      if uids != [] {
        uid := uids[0];
        RequestAttributes();
      } else {
        FinishTask(h, NotFound);
      }
    }

    /** Connect the base handler for a task and remember its id. */
    method Listen(task: nat)
      requires Shape()
      modifies this`reportId, client
      ensures var s := old(View());
              View() == s.(client := Connect(s.client, BaseHandler(s.client.nextId, task, true)),
                           reportId := s.client.nextId)
    {
      reportId := client.nextId;
      client.ConnectHandler(BaseHandler(reportId, task, true));
    }

    method OnClientReady(ok: bool)
      requires Shape()
      modifies this, client
      ensures View() == ClientReady(old(View()), ok)
    {
      if !ok {
        done := done + [Completion(0, ClientFailed)];
        return;
      }
      Listen(0);
      serviceAvailable := false;
      retries := 0;
      PollService(0);
    }

    /** The base class's open. */
    method OpenBase()
      requires Shape()
      modifies this, client
      ensures View() == SensorOpen(old(View()))
    {
      var task := nextTask;
      nextTask := nextTask + 1;
      if !available {
        done := done + [Completion(task, Unavailable)];
        return;
      }
      var id := REQUEST_ENABLE_ON_CHANGE;
      var body := Empty;
      if streamType == CONTINUOUS {
        if sampleRate <= 0.0 {
          done := done + [Completion(task, NoSampleRate)];
          return;
        }
        body := Rate(sampleRate);
        id := REQUEST_ENABLE_CONTINUOUS;
      } else if streamType != ON_CHANGE {
        halt := Aborted;
        return;
      }
      Listen(task);
      client.SendRequest(uid, id, body, Some(task));
    }

    method CloseBase()
      requires Shape()
      modifies this, client
      ensures View() == SensorClose(old(View()))
    {
      var task := nextTask;
      nextTask := nextTask + 1;
      client.SendRequest(uid, REQUEST_DISABLE, Empty, Some(task));
    }

    /** The callback that ends a request, by the kind of the request. */
    method OnSendReady(k: nat, ok: bool)
      requires Shape()
      modifies this, client
      ensures View() == SendReady(old(View()), k, ok)
    {
      if k >= |client.sent| || k in client.answered {
        return;
      }
      var r := client.sent[k];
      client.answered := client.answered + {k};
      if r.task.None? {
        return;
      }
      if !ok {
        done := done + [Completion(r.task.value, SendFailed)];
      } else if r.id == REQUEST_DISABLE {
        done := done + [Completion(r.task.value, Success)];
      }
    }

    // -------------------------------------------------------------------
    // Subclasses
    // -------------------------------------------------------------------

    method OpenSensor()
      requires Shape()
      modifies this, client
      ensures View() == Open(old(View()))
    {
      if kind.Proximity? {
        reportedOnce := false;
      }
      if !kind.Plain? {
        driverReportId := client.nextId;
        client.ConnectHandler(DriverHandler(driverReportId));
      }
      OpenBase();
    }

    method CloseSensor()
      requires Shape()
      modifies this, client
      ensures View() == Close(old(View()))
    {
      if !kind.Plain? && driverReportId != 0 {
        client.DisconnectHandler(driverReportId);
      }
      CloseBase();
    }

    method OnAcceleration(m: Report)
      requires Shape()
      modifies this`queue
      ensures View() == AccelerometerReport(old(View()), m)
    {
      if m.uid == uid && m.id == REPORT_MEASUREMENT {
        if m.payload.acceleration.None? {
          return;
        }
        var a := m.payload.acceleration.value;
        if |a| >= 3 {
          var x, y, z := a[0], a[1], a[2];
          var v := Vec3(mount[0, 0] * x + mount[0, 1] * y + mount[0, 2] * z,
                        mount[1, 0] * x + mount[1, 1] * y + mount[1, 2] * z,
                        mount[2, 0] * x + mount[2, 1] * y + mount[2, 2] * z);
          assert v.x == Dot(mount[0, 0], mount[0, 1], mount[0, 2], Vec3(x, y, z));
          assert v.y == Dot(mount[1, 0], mount[1, 1], mount[1, 2], Vec3(x, y, z));
          assert v.z == Dot(mount[2, 0], mount[2, 1], mount[2, 2], Vec3(x, y, z));
          assert v == Apply(Flat(mount), Vec3(x, y, z));
          queue := queue + [Acceleration(v)];
        }
      }
    }

    method OnProximity(m: Report)
      requires Shape()
      modifies this`queue, this`near, this`reportedOnce
      ensures View() == ProximityReport(old(View()), m)
    {
      if m.uid != uid {
        return;
      }
      var isNear: bool;
      if m.id == REPORT_PROXIMITY {
        if m.payload.near.None? {
          return;
        }
        isNear := m.payload.near.value;
      } else if m.id == REPORT_MEASUREMENT {
        if m.payload.davinci.None? || !m.payload.davinci.value.sized {
          return;
        }
        isNear := m.payload.davinci.value.near;
      } else {
        return;
      }
      if near != isNear || !reportedOnce {
        near := isNear;
        reportedOnce := true;
        queue := queue + [Near(isNear)];
      }
    }

    // -------------------------------------------------------------------
    // Fan-out
    // -------------------------------------------------------------------

    method CallHandler(id: nat, m: Report)
      requires Shape()
      modifies this, client, mount
      ensures View() == Call(old(View()), id, m)
    {
      if halt != Running {
        return;
      }
      var h := Find(client.handlers, id);
      if h.None? {
        return;
      }
      if h.value.BaseHandler? {
        OnReport(h.value, m);
      } else {
        match kind
        case Plain =>
        case Accelerometer => OnAcceleration(m);
        case Proximity => OnProximity(m);
      }
    }

    /** Emit the "report" signal to the handlers connected when the emission starts. */
    method EmitReport(m: Report)
      requires Shape()
      modifies this, client, mount
      ensures View() == Deliver(old(View()), m)
    {
      var ids := Ids(client.handlers);
      ghost var before := View();
      for i := 0 to |ids|
        invariant Emit(before, ids, m) == Emit(View(), ids[i..], m)
      {
        assert ids[i..][0] == ids[i] && ids[i..][1..] == ids[i + 1..];
        CallHandler(ids[i], m);
      }
      assert Emit(View(), [], m) == View();
    }

    /** The client's loop over the bodies of one indication. */
    method OnIndication(from: Uid, bodies: seq<Body>)
      requires Shape()
      modifies this, client, mount
      ensures View() == HandleReport(old(View()), from, bodies)
    {
      ghost var before := View();
      for i := 0 to |bodies|
        invariant HandleReport(before, from, bodies) == HandleReport(View(), from, bodies[i..])
      {
        assert bodies[i..][0] == bodies[i] && bodies[i..][1..] == bodies[i + 1..];
        EmitReport(Report(bodies[i].id, from, bodies[i].payload));
      }
      assert HandleReport(View(), from, []) == View();
    }

    method OnEvent(e: Event)
      requires Shape()
      modifies this, client, mount
      ensures View() == Step(old(View()), e)
    {
      if halt != Running {
        return;
      }
      match e
      case UserOpen => OpenSensor();
      case UserClose => CloseSensor();
      case Indication(from, bodies) => OnIndication(from, bodies);
      case SendResult(k, ok) => OnSendReady(k, ok);
    }

    /** The main loop feeds the object one event after the other. */
    method Play(es: seq<Event>)
      requires Shape()
      modifies this, client, mount
      ensures View() == Run(old(View()), es)
    {
      ghost var before := View();
      for i := 0 to |es|
        invariant Run(before, es) == Run(View(), es[i..])
      {
        assert es[i..][0] == es[i] && es[i..][1..] == es[i + 1..];
        OnEvent(es[i]);
      }
      assert Run(View(), []) == View();
    }
  }
}
