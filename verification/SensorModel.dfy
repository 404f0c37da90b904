/**
 * A sensor object and its client as values: what every entry point and callback of the
 * library does to them. One value covers the base class and the private data of the
 * accelerometer or proximity subclass, which live in the same object.
 *
 * `heard` and `accepted` are history: the discovery responses and the attributes the base
 * handler has decoded so far. No operation looks at them.
 */
module SensorModel {
  import opened Common
  import opened Matrix
  import opened Attributes
  import opened Protocol

  datatype Kind = Plain | Accelerometer | Proximity

  /**
   * A handler connected to the client's "report" signal. The base handler owns a context
   * with the task to complete; `live` is false once that context has been freed.
   */
  datatype Handler = BaseHandler(id: nat, task: nat, live: bool) | DriverHandler(id: nat)

  /** Signal table (in connection order) and request log of a client. */
  datatype Client = Client(handlers: seq<Handler>, nextId: nat, sent: seq<Request>, answered: set<nat>)

  datatype Outcome = Success | NotFound | NoService | Unavailable | NoSampleRate | SendFailed | ClientFailed

  datatype Completion = Completion(task: nat, outcome: Outcome)

  /** Why the process stopped making sense: a failed assertion, or a freed context being used. */
  datatype Halt = Running | Aborted | StaleContext

  datatype Sample = Acceleration(v: Vec3) | Near(near: bool)

  /** Private data of the subclass, and the measurement emissions queued on the main loop. */
  datatype Driver = Driver(reportId: nat, near: bool, reportedOnce: bool, queue: seq<Sample>)

  datatype State = State(
    kind: Kind, dataType: string, uid: Uid, attrs: Attrs, reportId: nat,
    serviceAvailable: bool, retries: nat,
    done: seq<Completion>, nextTask: nat, halt: Halt,
    client: Client, driver: Driver,
    heard: seq<SuidResponse>, accepted: seq<Attr>)

  // ---------------------------------------------------------------------
  // The client
  // ---------------------------------------------------------------------

  function Connect(c: Client, h: Handler): Client {
    c.(handlers := c.handlers + [h], nextId := c.nextId + 1)
  }

  /** Disconnecting an id that is not connected changes nothing. */
  function Without(hs: seq<Handler>, id: nat): seq<Handler> {
    if hs == [] then []
    else if hs[0].id == id then Without(hs[1..], id)
    else [hs[0]] + Without(hs[1..], id)
  }

  function Disconnect(c: Client, id: nat): Client {
    c.(handlers := Without(c.handlers, id))
  }

  function Freed(hs: seq<Handler>, id: nat): seq<Handler> {
    if hs == [] then []
    else [if hs[0].BaseHandler? && hs[0].id == id then hs[0].(live := false) else hs[0]] + Freed(hs[1..], id)
  }

  function Find(hs: seq<Handler>, id: nat): Option<Handler> {
    if hs == [] then None else if hs[0].id == id then Some(hs[0]) else Find(hs[1..], id)
  }

  function Ids(hs: seq<Handler>): seq<nat> {
    seq(|hs|, i requires 0 <= i < |hs| => hs[i].id)
  }

  function Send(s: State, uid: Uid, id: nat, body: RequestBody, task: Option<nat>): State {
    s.(client := s.client.(sent := s.client.sent + [Request(uid, id, body, task)]))
  }

  // ---------------------------------------------------------------------
  // Base class: discovery, attributes, completion
  // ---------------------------------------------------------------------

  function WaitForSensorService(s: State, task: nat): State {
    Send(s, SUID, REQUEST_SUID, FindType(REGISTRY), Some(task))
  }

  function Discover(s: State, task: nat): State {
    Send(s, SUID, REQUEST_SUID, FindType(s.dataType), Some(task))
  }

  function Attribute(s: State): State {
    Send(s, s.uid, REQUEST_GET_ATTRIBUTES, NoUpdates, None)
  }

  function Complete(s: State, task: nat, o: Outcome): State {
    s.(done := s.done + [Completion(task, o)])
  }

  /** Disconnect the handler stored in the object, complete the context's task and free the context. */
  function Finish(s: State, h: Handler, o: Outcome): State
    requires h.BaseHandler?
  {
    Complete(s.(client := s.client.(handlers := Freed(Without(s.client.handlers, s.reportId), h.id)),
                reportId := 0),
             h.task, o)
  }

  function SuidReceived(s: State, h: Handler, r: SuidResponse): State
    requires h.BaseHandler?
  {
    var s := s.(heard := s.heard + [r]);
    if r.uids != [] && r.dataType == REGISTRY then
      Discover(s.(serviceAvailable := true), h.task)
    else if !s.serviceAvailable then
      var s := s.(retries := s.retries + 1);
      if s.retries >= MAX_RETRIES then Finish(s, h, NoService) else WaitForSensorService(s, h.task)
    else if r.dataType != s.dataType then s
    else if r.uids != [] then Attribute(s.(uid := r.uids[0]))
    else Finish(s, h, NotFound)
  }

  function ReportReceived(s: State, h: Handler, m: Report): State
    requires h.BaseHandler?
  {
    if !h.live then s.(halt := StaleContext)
    else if m.uid == SUID && m.id == RESPONSE_SUID then
      match m.payload.suid case None => s case Some(r) => SuidReceived(s, h, r)
    else if m.uid == s.uid && m.id == RESPONSE_GET_ATTRIBUTES then
      match m.payload.attributes
      case None => s
      case Some(attrs) =>
        Finish(s.(attrs := ApplyAll(s.attrs, attrs), accepted := s.accepted + attrs), h, Success)
    else if m.uid == s.uid && m.id == RESPONSE_ENABLE then
      if m.payload.config then Finish(s, h, Success) else s
    else if m.uid == s.uid && (m.id == REPORT_MEASUREMENT || m.id == REPORT_PROXIMITY) then
      Finish(s, h, Success)
    else s
  }

  /** A sensor before its initialisation ran; task 0 is the initialisation. */
  function New(kind: Kind, dataType: string, uid: Uid): State {
    State(kind, dataType, uid, INITIAL, 0, false, 0, [], 1, Running,
          Client([], 1, [], {}), Driver(0, false, kind.Proximity?, []), [], [])
  }

  /** The client is there: start listening and poll for the sensor service. */
  function ClientReady(s: State, ok: bool): State {
    if !ok then Complete(s, 0, ClientFailed)
    else
      var id := s.client.nextId;
      WaitForSensorService(
        s.(client := Connect(s.client, BaseHandler(id, 0, true)), reportId := id,
           serviceAvailable := false, retries := 0),
        0)
  }

  function Boot(kind: Kind, dataType: string, uid: Uid): State {
    ClientReady(New(kind, dataType, uid), true)
  }

  function SensorOpen(s: State): State {
    var task := s.nextTask;
    var s := s.(nextTask := task + 1);
    if !s.attrs.available then Complete(s, task, Unavailable)
    else if s.attrs.streamType == CONTINUOUS then
      if s.attrs.sampleRate <= 0.0 then Complete(s, task, NoSampleRate)
      else Enable(s, REQUEST_ENABLE_CONTINUOUS, Rate(s.attrs.sampleRate), task)
    else if s.attrs.streamType == ON_CHANGE then Enable(s, REQUEST_ENABLE_ON_CHANGE, Empty, task)
    else s.(halt := Aborted)
  }

  function Enable(s: State, id: nat, body: RequestBody, task: nat): State {
    var h := s.client.nextId;
    Send(s.(client := Connect(s.client, BaseHandler(h, task, true)), reportId := h), s.uid, id, body, Some(task))
  }

  function SensorClose(s: State): State {
    Send(s.(nextTask := s.nextTask + 1), s.uid, REQUEST_DISABLE, Empty, Some(s.nextTask))
  }

  /** The callback of the k-th request: whether the sensor core accepted it. Each request is answered once. */
  function SendReady(s: State, k: nat, ok: bool): State {
    if k >= |s.client.sent| || k in s.client.answered then s
    else
      var r := s.client.sent[k];
      var s := s.(client := s.client.(answered := s.client.answered + {k}));
      if r.task.None? then s
      else if !ok then Complete(s, r.task.value, SendFailed)
      else if r.id == REQUEST_DISABLE then Complete(s, r.task.value, Success)
      else s
  }

  // ---------------------------------------------------------------------
  // Subclasses
  // ---------------------------------------------------------------------

  function ConnectDriver(s: State): State {
    var id := s.client.nextId;
    s.(client := Connect(s.client, DriverHandler(id)), driver := s.driver.(reportId := id))
  }

  function Open(s: State): State {
    match s.kind
    case Plain => SensorOpen(s)
    case Accelerometer => SensorOpen(ConnectDriver(s))
    case Proximity => SensorOpen(ConnectDriver(s.(driver := s.driver.(reportedOnce := false))))
  }

  /** The subclass stops listening; its stored handler id is kept. */
  function Close(s: State): State {
    if s.kind.Plain? || s.driver.reportId == 0 then SensorClose(s)
    else SensorClose(s.(client := Disconnect(s.client, s.driver.reportId)))
  }

  /** The reading in an accelerometer report: three or more values in an own measurement. */
  function AccelerationIn(uid: Uid, m: Report): Option<Vec3> {
    if m.uid == uid && m.id == REPORT_MEASUREMENT && m.payload.acceleration.Some? && |m.payload.acceleration.value| >= 3
    then Some(Vec3(m.payload.acceleration.value[0], m.payload.acceleration.value[1], m.payload.acceleration.value[2]))
    else None
  }

  function AccelerometerReport(s: State, m: Report): State {
    match AccelerationIn(s.uid, m)
    case None => s
    case Some(v) => s.(driver := s.driver.(queue := s.driver.queue + [Acceleration(Apply(s.attrs.mount, v))]))
  }

  /** The reading in a proximity report, in the common or in the vendor-specific form. */
  function NearIn(uid: Uid, m: Report): Option<bool> {
    if m.uid != uid then None
    else if m.id == REPORT_PROXIMITY then m.payload.near
    else if m.id == REPORT_MEASUREMENT && m.payload.davinci.Some? && m.payload.davinci.value.sized
    then Some(m.payload.davinci.value.near)
    else None
  }

  function ProximityReport(s: State, m: Report): State {
    match NearIn(s.uid, m)
    case None => s
    case Some(near) =>
      if s.driver.near != near || !s.driver.reportedOnce
      then s.(driver := s.driver.(near := near, reportedOnce := true, queue := s.driver.queue + [Near(near)]))
      else s
  }

  function DriverReport(s: State, m: Report): State {
    match s.kind
    case Plain => s
    case Accelerometer => AccelerometerReport(s, m)
    case Proximity => ProximityReport(s, m)
  }

  // ---------------------------------------------------------------------
  // Signal emission and fan-out
  // ---------------------------------------------------------------------

  /** Run one handler, if it is still connected. */
  function Call(s: State, id: nat, m: Report): State {
    if s.halt != Running then s
    else match Find(s.client.handlers, id)
      case None => s
      case Some(h) => if h.BaseHandler? then ReportReceived(s, h, m) else DriverReport(s, m)
  }

  /** The handlers connected when the emission started, in order. */
  function Emit(s: State, ids: seq<nat>, m: Report): State
    decreases |ids|
  {
    if ids == [] then s else Emit(Call(s, ids[0], m), ids[1..], m)
  }

  function Deliver(s: State, m: Report): State {
    Emit(s, Ids(s.client.handlers), m)
  }

  /** One indication: its bodies one after the other. */
  function HandleReport(s: State, uid: Uid, bodies: seq<Body>): State
    decreases |bodies|
  {
    if bodies == [] then s
    else HandleReport(Deliver(s, Report(bodies[0].id, uid, bodies[0].payload)), uid, bodies[1..])
  }

  // ---------------------------------------------------------------------
  // Runs
  // ---------------------------------------------------------------------

  /** What can happen to a sensor: the user opens or closes it, an indication or a send result arrives. */
  datatype Event =
    | UserOpen
    | UserClose
    | Indication(uid: Uid, bodies: seq<Body>)
    | SendResult(request: nat, ok: bool)

  function Step(s: State, e: Event): State {
    if s.halt != Running then s
    else match e
      case UserOpen => Open(s)
      case UserClose => Close(s)
      case Indication(uid, bodies) => HandleReport(s, uid, bodies)
      case SendResult(k, ok) => SendReady(s, k, ok)
  }

  function Run(s: State, es: seq<Event>): State
    decreases |es|
  {
    if es == [] then s else Run(Step(s, es[0]), es[1..])
  }

  lemma {:induction false} RunConcat(s: State, es: seq<Event>, fs: seq<Event>)
    ensures Run(s, es + fs) == Run(Run(s, es), fs)
    decreases |es|
  {
    if es == [] {
      assert es + fs == fs;
    } else {
      assert (es + fs)[1..] == es[1..] + fs;
      RunConcat(Step(s, es[0]), es[1..], fs);
    }
  }
}
