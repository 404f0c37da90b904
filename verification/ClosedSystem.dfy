/**
 * A sensor object talking to the sensor core over one request queue and one reply queue, both
 * FIFO, with every interleaving of the two sides, the workers and the user.
 *
 * Requests in flight are the part of the client's log the core has not taken yet. Whether the
 * registry is up is decided anew for every request the core serves.
 */
module ClosedSystem {
  import opened Common
  import opened Attributes
  import opened Protocol
  import opened SensorModel
  import opened TaskLedger
  import opened SensorCore

  /** What a reply can be: the acknowledgement of a request, or an indication. */
  datatype Reply = Ack(request: nat) | News(uid: Uid, bodies: seq<Body>)

  /** The core's configuration: the registry sensor, and all others. */
  datatype Config = Config(registry: Entry, db: seq<Entry>)

  /** `answers` is history: what the core said to each poll it served. */
  datatype System = System(s: State, taken: nat, replies: seq<Reply>, workers: map<Uid, nat>,
                           crashed: bool, open: bool, answers: seq<bool>)

  datatype Move = Serve(up: bool) | Receive | Work(uid: Uid) | PressOpen | PressClose

  function DbAt(c: Config, up: bool): seq<Entry> {
    if up then [c.registry] + c.db else c.db
  }

  /** Sensible configurations: types told apart, attributes for every sensor, measurements that are measurements. */
  predicate Sensible(c: Config, dataType: string) {
    && dataType != REGISTRY && c.registry.dataType == REGISTRY && c.registry.attributes != []
    && (forall e <- c.db :: e.dataType != REGISTRY && e.attributes != [])
    && (forall e <- [c.registry] + c.db :: forall b <- e.measurements :: IsMeasurement(b))
  }

  predicate IsMeasurement(b: Body) {
    b.id == REPORT_MEASUREMENT || b.id == REPORT_PROXIMITY
  }

  predicate IsPoll(r: Request) { r.body == FindType(REGISTRY) }

  function ServeOne(c: Config, y: System, up: bool): System
    requires y.taken < |y.s.client.sent|
  {
    var r := y.s.client.sent[y.taken];
    var y := y.(taken := y.taken + 1, workers := WorkersAfter(y.workers, r),
                answers := if IsPoll(r) then y.answers + [up] else y.answers);
    match AnswerTo(DbAt(c, up), r)
    case Silent => y.(replies := y.replies + [Ack(y.taken - 1)])
    case Indicate(uid, bodies) => y.(replies := y.replies + [Ack(y.taken - 1), News(uid, bodies)])
    case Raise => y.(replies := y.replies + [Ack(y.taken - 1)], crashed := true)
  }

  /** What a reply is to the sensor. */
  function ReplyEvent(r: Reply): Event {
    match r case Ack(k) => SendResult(k, true) case News(uid, bodies) => Indication(uid, bodies)
  }

  function ReceiveOne(y: System): System
    requires y.replies != []
  {
    y.(s := Step(y.s, ReplyEvent(y.replies[0])), replies := y.replies[1..])
  }

  function WorkOne(c: Config, y: System, uid: Uid): System {
    match ByUid(DbAt(c, true), uid)
    case None => y
    case Some(e) =>
      if uid in y.workers && e.measurements != []
      then y.(replies := y.replies + [News(uid, [Measurement(e, y.workers[uid])])],
              workers := y.workers[uid := y.workers[uid] + 1])
      else y
  }

  /** The user has a sensor once its initialisation succeeded, and opens it when nothing is pending. */
  predicate MayOpen(y: System) {
    !y.open && y.s.reportId == 0 && y.s.done != [] && y.s.done[0].outcome == Success
  }

  function Next(c: Config, y: System, m: Move): System {
    match m
    case Serve(up) => if !y.crashed && y.taken < |y.s.client.sent| then ServeOne(c, y, up) else y
    case Receive => if y.replies != [] then ReceiveOne(y) else y
    case Work(uid) => if !y.crashed then WorkOne(c, y, uid) else y
    case PressOpen => if MayOpen(y) then y.(s := Step(y.s, UserOpen), open := true) else y
    case PressClose => if y.open then y.(s := Step(y.s, UserClose), open := false) else y
  }

  function Moves(c: Config, y: System, ms: seq<Move>): System
    decreases |ms|
  {
    if ms == [] then y else Moves(c, Next(c, y, ms[0]), ms[1..])
  }

  function Start(kind: Kind, dataType: string, uid: Uid): System {
    System(Boot(kind, dataType, uid), 0, [], map[], false, false, [])
  }

  // ---------------------------------------------------------------------
  // While the initialisation is pending: one token
  // ---------------------------------------------------------------------

  const HANDLER := BaseHandler(1, 0, true)

  /** What the one request or reply in flight is about. */
  datatype Phase = Polling | Discovering | Describing

  function TokenRequest(y: System, p: Phase): Request {
    match p
    case Polling => Request(SUID, REQUEST_SUID, FindType(REGISTRY), Some(0))
    case Discovering => Request(SUID, REQUEST_SUID, FindType(y.s.dataType), Some(0))
    case Describing => Request(y.s.uid, REQUEST_GET_ATTRIBUTES, NoUpdates, None)
  }

  /** Replies that answer the request of a phase; `up` matters to a poll only. */
  predicate TokenReply(c: Config, y: System, p: Phase, r: Reply, up: bool) {
    r.News? && |r.bodies| == 1 &&
    match p
    case Polling => r.uid == SUID && r.bodies[0] == DiscoveryResponse(DbAt(c, up), REGISTRY)
    case Discovering => r.uid == SUID && r.bodies[0] == DiscoveryResponse(c.db, y.s.dataType)
    case Describing =>
      r.uid == y.s.uid && r.bodies[0].id == RESPONSE_GET_ATTRIBUTES && r.bodies[0].payload.attributes.Some?
  }

  predicate RequestInFlight(y: System, p: Phase) {
    && y.taken + 1 == |y.s.client.sent| && y.s.client.sent[y.taken] == TokenRequest(y, p)
    && y.replies == []
  }

  predicate ReplyInFlight(c: Config, y: System, p: Phase, up: bool) {
    && y.taken == |y.s.client.sent|
    && 1 <= |y.replies| <= 2
    && y.taken > 0 && y.s.client.sent[y.taken - 1] == TokenRequest(y, p)
    && (|y.replies| == 2 ==> y.replies[0] == Ack(y.taken - 1))
    && TokenReply(c, y, p, y.replies[|y.replies| - 1], up)
  }

  /** `n` negative answers to polls. */
  predicate Negatives(answers: seq<bool>, n: nat) {
    n <= |answers| && forall i :: 0 <= i < n ==> !answers[i]
  }

  function PhaseOf(y: System): Phase {
    if !y.s.serviceAvailable then Polling
    else if |y.s.heard| == y.s.retries + 1 then Discovering
    else Describing
  }

  /** The answers so far: one negative per retry, then the positive one that ended the polling. */
  predicate AnswersMatch(y: System, p: Phase) {
    && Negatives(y.answers, y.s.retries)
    && match p
       case Polling => |y.s.heard| == y.s.retries
       case Discovering => |y.s.heard| == y.s.retries + 1 && |y.answers| == y.s.retries + 1 && y.answers[y.s.retries]
       case Describing => |y.s.heard| == y.s.retries + 2 && |y.answers| == y.s.retries + 1 && y.answers[y.s.retries]
  }

  /** The single token: a request of the phase with nothing else in flight, or its reply. */
  predicate OneToken(c: Config, y: System, p: Phase) {
    || (RequestInFlight(y, p) && (p.Polling? ==> |y.answers| == y.s.retries))
    || ((p.Polling? ==> |y.answers| == y.s.retries + 1)
        && ReplyInFlight(c, y, p, y.answers != [] && y.answers[|y.answers| - 1]))
  }

  predicate Initialising(c: Config, y: System) {
    var p := PhaseOf(y);
    && y.s.done == [] && y.s.halt == Running
    && y.s.client.handlers == [HANDLER] && y.s.reportId == 1
    && !y.open && !y.crashed && y.workers == map[]
    && (forall r <- y.s.client.sent :: !Enables(r))
    && y.s.retries < MAX_RETRIES
    && AnswersMatch(y, p) && OneToken(c, y, p)
    && (p.Describing? ==> ByType(c.db, y.s.dataType).Some? && y.s.uid == ByType(c.db, y.s.dataType).value.uid)
  }

  // ---------------------------------------------------------------------
  // Afterwards: only sessions and measurements
  // ---------------------------------------------------------------------

  /** The result the polls' answers and the configuration call for. */
  function Verdict(c: Config, dataType: string, answers: seq<bool>): Outcome {
    if answers == [] || !answers[|answers| - 1] then NoService
    else if ByType(c.db, dataType).Some? then Success
    else NotFound
  }

  /** All polls but the last were answered negatively; the last one only after a hundred polls. */
  predicate Decided(answers: seq<bool>) {
    1 <= |answers| <= MAX_RETRIES && Negatives(answers, |answers| - 1)
    && (!answers[|answers| - 1] ==> |answers| == MAX_RETRIES)
  }

  predicate SessionRequest(r: Request) { (Enables(r) || Disables(r)) && !IsPoll(r) }

  predicate SessionReply(r: Reply) {
    r.News? ==> |r.bodies| == 1 && IsMeasurement(r.bodies[0])
  }

  /** The latest enable or disable of the sensor among some requests is an enable. */
  function Enabled(rs: seq<Request>, uid: Uid): bool {
    if rs == [] then false
    else
      var r := rs[|rs| - 1];
      if r.uid == uid && Enables(r) then true
      else if r.uid == uid && Disables(r) then false
      else Enabled(rs[..|rs| - 1], uid)
  }

  /** The sensor is open for the user, and the open is still pending. */
  predicate OpenWaits(y: System) {
    y.open && y.s.reportId != 0
  }

  ghost predicate Finished(c: Config, y: System) {
    && y.s.done != [] && y.s.done[0] == Completion(0, Verdict(c, y.s.dataType, y.answers))
    && Decided(y.answers)
    && |y.s.heard| == |y.answers| + (if y.answers[|y.answers| - 1] then 1 else 0)
    && y.taken <= |y.s.client.sent|
    && (forall k :: y.taken <= k < |y.s.client.sent| ==> SessionRequest(y.s.client.sent[k]))
    && (forall r <- y.replies :: SessionReply(r))
    && !y.crashed
    && (forall u :: u in y.workers <==> Enabled(y.s.client.sent[..y.taken], u))
    && (OpenWaits(y) ==> Enabled(y.s.client.sent, y.s.uid))
  }

  ghost predicate Inv(c: Config, y: System, dataType: string, t: nat) {
    && Sensible(c, dataType) && y.s.dataType == dataType
    && Balanced(y.s, t)
    && (Finished(c, y) || Initialising(c, y))
  }

  // ---------------------------------------------------------------------
  // Steps of the initialisation
  // ---------------------------------------------------------------------

  lemma {:induction false} ByTypeFacts(db: seq<Entry>, dataType: string)
    ensures ByType(db, dataType).Some? ==>
              ByType(db, dataType).value in db && ByType(db, dataType).value.dataType == dataType
    ensures ByType(db, dataType).None? ==> forall e <- db :: e.dataType != dataType
  {
    if db != [] { ByTypeFacts(db[1..], dataType); }
  }

  lemma {:induction false} ByUidFacts(db: seq<Entry>, uid: Uid)
    ensures ByUid(db, uid).Some? ==> ByUid(db, uid).value in db && ByUid(db, uid).value.uid == uid
    ensures ByUid(db, uid).None? ==> forall e <- db :: e.uid != uid
  {
    if db != [] { ByUidFacts(db[1..], uid); }
  }

  /** The registry answers its own polls only while it is up, and nobody else's discovery. */
  lemma RegistryVisibility(c: Config, dataType: string, up: bool)
    requires Sensible(c, dataType)
    ensures ByType(DbAt(c, up), REGISTRY).Some? <==> up
    ensures ByType(DbAt(c, up), dataType) == ByType(c.db, dataType)
  {
    ByTypeFacts(c.db, REGISTRY);
    assert ([c.registry] + c.db)[1..] == c.db;
  }

  /** Every sensor the core announces has attributes to report. */
  lemma AttributesKnown(c: Config, dataType: string, up: bool)
    requires Sensible(c, dataType) && ByType(c.db, dataType).Some?
    ensures AttributesResponse(DbAt(c, up), ByType(c.db, dataType).value.uid).Some?
  {
    var e := ByType(c.db, dataType).value;
    ByTypeFacts(c.db, dataType);
    ByUidFacts(DbAt(c, up), e.uid);
    assert e in DbAt(c, up);
  }

  /** Serving the token answers it: the acknowledgement, then the reply of the phase. */
  predicate Answered(c: Config, y: System, z: System, p: Phase, up: bool) {
    && z.s == y.s && z.taken == y.taken + 1 && z.workers == y.workers && !z.crashed && z.open == y.open
    && z.answers == (if p.Polling? then y.answers + [up] else y.answers)
    && |z.replies| == 2 && z.replies[0] == Ack(y.taken)
    && TokenReply(c, z, p, z.replies[1], up)
  }

  lemma ServePoll(c: Config, y: System, dataType: string, up: bool)
    requires Sensible(c, dataType) && !y.crashed && RequestInFlight(y, Polling)
    ensures Answered(c, y, ServeOne(c, y, up), Polling, up)
  {
    RegistryVisibility(c, dataType, up);
  }

  lemma ServeDiscovery(c: Config, y: System, dataType: string, up: bool)
    requires Sensible(c, dataType) && y.s.dataType == dataType && !y.crashed && RequestInFlight(y, Discovering)
    ensures Answered(c, y, ServeOne(c, y, up), Discovering, up)
  {
    RegistryVisibility(c, dataType, up);
  }

  lemma ServeDescription(c: Config, y: System, dataType: string, up: bool)
    requires Sensible(c, dataType) && !y.crashed && RequestInFlight(y, Describing)
    requires ByType(c.db, dataType).Some? && y.s.uid == ByType(c.db, dataType).value.uid
    ensures Answered(c, y, ServeOne(c, y, up), Describing, up)
    ensures ServeOne(c, y, up).replies[1].bodies == [AttributesResponse(DbAt(c, up), y.s.uid).value]
  {
    AttributesKnown(c, dataType, up);
  }

  lemma ServeToken(c: Config, y: System, dataType: string, up: bool)
    requires Sensible(c, dataType) && y.s.dataType == dataType
    requires Initialising(c, y) && RequestInFlight(y, PhaseOf(y))
    ensures Answered(c, y, ServeOne(c, y, up), PhaseOf(y), up)
    ensures Initialising(c, ServeOne(c, y, up)) && PhaseOf(ServeOne(c, y, up)) == PhaseOf(y)
  {
    match PhaseOf(y)
    case Polling => ServePoll(c, y, dataType, up);
    case Discovering => ServeDiscovery(c, y, dataType, up);
    case Describing => ServeDescription(c, y, dataType, up);
    AnsweredInitialising(c, y, ServeOne(c, y, up), up);
  }

  lemma AnsweredInitialising(c: Config, y: System, z: System, up: bool)
    requires Initialising(c, y) && RequestInFlight(y, PhaseOf(y)) && Answered(c, y, z, PhaseOf(y), up)
    ensures Initialising(c, z) && PhaseOf(z) == PhaseOf(y)
  {
    TokenAnswered(c, y, z, PhaseOf(y), up);
  }

  lemma TokenAnswered(c: Config, y: System, z: System, p: Phase, up: bool)
    requires RequestInFlight(y, p) && Answered(c, y, z, p, up) && AnswersMatch(y, p) && OneToken(c, y, p)
    ensures AnswersMatch(z, p) && OneToken(c, z, p)
  {
    assert TokenReply(c, z, p, z.replies[1], z.answers != [] && z.answers[|z.answers| - 1]);
  }

  lemma OneHandler(s: State, uid: Uid, b: Body)
    requires s.client.handlers == [HANDLER] && s.halt == Running
    ensures Step(s, Indication(uid, [b])) == ReportReceived(s, HANDLER, Protocol.Report(b.id, uid, b.payload))
  {
    var m := Protocol.Report(b.id, uid, b.payload);
    assert [b][1..] == [];
    assert Ids(s.client.handlers) == [1];
    CallOne(s, 1, m);
    assert HandleReport(Deliver(s, m), uid, []) == Deliver(s, m);
  }

  lemma FinishOnly(s: State, o: Outcome)
    requires s.client.handlers == [HANDLER] && s.reportId == 1
    ensures Finish(s, HANDLER, o).client == s.client.(handlers := [])
  {
    assert [HANDLER][1..] == [];
    assert Without([HANDLER], 1) == Without([], 1) == [];
  }

  predicate SameButAnswered(s: State, t: State) {
    t == s.(client := s.client.(answered := t.client.answered))
  }

  lemma AckNotDisable(s: State, k: nat)
    requires k < |s.client.sent| ==> s.client.sent[k].id != REQUEST_DISABLE
    ensures SameButAnswered(s, Step(s, SendResult(k, true)))
  {
  }

  lemma TokenAcknowledged(c: Config, y: System, z: System, p: Phase)
    requires OneToken(c, y, p) && |y.replies| == 2
    requires z == y.(s := z.s, replies := y.replies[1..]) && SameButAnswered(y.s, z.s)
    ensures OneToken(c, z, p)
  {
  }

  /** An acknowledgement does not concern the initialisation. */
  lemma ReceiveAck(c: Config, y: System)
    requires Initialising(c, y) && |y.replies| == 2
    ensures Initialising(c, ReceiveOne(y)) && PhaseOf(ReceiveOne(y)) == PhaseOf(y) && |ReceiveOne(y).replies| == 1
    ensures SameButAnswered(y.s, ReceiveOne(y).s)
  {
    assert y.replies[0] == Ack(y.taken - 1) && y.s.client.sent[y.taken - 1].id != REQUEST_DISABLE;
    AckNotDisable(y.s, y.taken - 1);
    TokenAcknowledged(c, y, ReceiveOne(y), PhaseOf(y));
  }

  lemma {:induction false} NothingEnabled(rs: seq<Request>)
    requires forall r <- rs :: !Enables(r)
    ensures forall u :: !Enabled(rs, u)
  {
    if rs != [] { NothingEnabled(rs[..|rs| - 1]); }
  }

  /** Completing the initialisation leaves a system with nothing in flight and nothing enabled. */
  lemma CompletedInit(c: Config, y: System, z: System, s: State, o: Outcome)
    requires Initialising(c, y) && y.taken == |y.s.client.sent|
    requires s.client == y.s.client && s.reportId == 1 && s.done == [] && s.dataType == y.s.dataType
    requires z == y.(s := Finish(s, HANDLER, o), replies := [])
    requires o == Verdict(c, y.s.dataType, y.answers) && Decided(y.answers)
    requires |s.heard| == |y.answers| + if y.answers[|y.answers| - 1] then 1 else 0
    ensures Finished(c, z)
  {
    FinishOnly(s, o);
    NothingEnabled(y.s.client.sent);
    assert y.s.client.sent[..y.taken] == y.s.client.sent;
  }

  /** The reply of the token reaches the handler; `m` is what the handler sees. */
  lemma ReceiveNews(c: Config, y: System) returns (m: Protocol.Report)
    requires Initialising(c, y) && |y.replies| == 1
    ensures ReceiveOne(y) == y.(s := ReportReceived(y.s, HANDLER, m), replies := [])
    ensures y.replies[0].News? && m.uid == y.replies[0].uid && m.id == y.replies[0].bodies[0].id
    ensures m.payload == y.replies[0].bodies[0].payload
  {
    var r := y.replies[0];
    var b := r.bodies[0];
    assert r.bodies == [b] && y.replies[1..] == [];
    OneHandler(y.s, r.uid, b);
    m := Protocol.Report(b.id, r.uid, b.payload);
  }

  /** The answer to a poll as the handler sees it. */
  lemma PollAnswer(c: Config, y: System, dataType: string)
    requires Sensible(c, dataType) && Initialising(c, y) && PhaseOf(y).Polling? && |y.replies| == 1
    ensures var r := SuidResponse(REGISTRY, if y.answers[y.s.retries] then [c.registry.uid] else []);
            ReceiveOne(y) == y.(s := SuidReceived(y.s, HANDLER, r), replies := [])
  {
    var m := ReceiveNews(c, y);
    RegistryVisibility(c, dataType, y.answers[y.s.retries]);
  }

  lemma PollPositive(c: Config, y: System, dataType: string)
    requires Sensible(c, dataType) && y.s.dataType == dataType
    requires Initialising(c, y) && PhaseOf(y).Polling? && |y.replies| == 1 && y.answers[y.s.retries]
    ensures var z := ReceiveOne(y);
            Initialising(c, z) && PhaseOf(z).Discovering? && RequestInFlight(z, Discovering)
  {
    PollAnswer(c, y, dataType);
    assert ReceiveOne(y).s.client.sent == y.s.client.sent + [TokenRequest(y, Discovering)];
  }

  lemma PollAgain(c: Config, y: System, dataType: string)
    requires Sensible(c, dataType) && y.s.dataType == dataType
    requires Initialising(c, y) && PhaseOf(y).Polling? && |y.replies| == 1 && !y.answers[y.s.retries]
    requires y.s.retries + 1 < MAX_RETRIES
    ensures var z := ReceiveOne(y);
            && Initialising(c, z) && PhaseOf(z).Polling? && RequestInFlight(z, Polling)
            && z.s.retries == y.s.retries + 1
  {
    PollAnswer(c, y, dataType);
    assert ReceiveOne(y).s.client.sent == y.s.client.sent + [TokenRequest(y, Polling)];
  }

  lemma PollGivesUp(c: Config, y: System, dataType: string)
    requires Sensible(c, dataType) && y.s.dataType == dataType
    requires Initialising(c, y) && PhaseOf(y).Polling? && |y.replies| == 1 && !y.answers[y.s.retries]
    requires y.s.retries + 1 == MAX_RETRIES
    ensures Finished(c, ReceiveOne(y))
  {
    PollAnswer(c, y, dataType);
    var s := y.s.(heard := y.s.heard + [SuidResponse(REGISTRY, [])], retries := y.s.retries + 1);
    CompletedInit(c, y, ReceiveOne(y), s, NoService);
  }

  lemma PollNegative(c: Config, y: System, dataType: string)
    requires Sensible(c, dataType) && y.s.dataType == dataType
    requires Initialising(c, y) && PhaseOf(y).Polling? && |y.replies| == 1 && !y.answers[y.s.retries]
    ensures var z := ReceiveOne(y);
            if y.s.retries + 1 < MAX_RETRIES
            then Initialising(c, z) && PhaseOf(z).Polling? && RequestInFlight(z, Polling)
                 && z.s.retries == y.s.retries + 1
            else Finished(c, z)
  {
    if y.s.retries + 1 < MAX_RETRIES { PollAgain(c, y, dataType); } else { PollGivesUp(c, y, dataType); }
  }

  lemma DiscoveryAnswered(c: Config, y: System, dataType: string)
    requires Sensible(c, dataType) && y.s.dataType == dataType
    requires Initialising(c, y) && PhaseOf(y).Discovering? && |y.replies| == 1
    ensures var z := ReceiveOne(y);
            if ByType(c.db, dataType).Some?
            then Initialising(c, z) && PhaseOf(z).Describing? && RequestInFlight(z, Describing)
            else Finished(c, z)
  {
    var m := ReceiveNews(c, y);
    var z := ReceiveOne(y);
    if ByType(c.db, dataType).Some? {
      assert z.s.client.sent == y.s.client.sent + [TokenRequest(z, Describing)];
    } else {
      CompletedInit(c, y, z, y.s.(heard := y.s.heard + [m.payload.suid.value]), NotFound);
    }
  }

  lemma AttributesAnswered(c: Config, y: System, dataType: string)
    requires Sensible(c, dataType) && y.s.dataType == dataType
    requires Initialising(c, y) && PhaseOf(y).Describing? && |y.replies| == 1
    ensures Finished(c, ReceiveOne(y))
  {
    var m := ReceiveNews(c, y);
    var attrs := m.payload.attributes.value;
    var s := y.s.(attrs := ApplyAll(y.s.attrs, attrs), accepted := y.s.accepted + attrs);
    CompletedInit(c, y, ReceiveOne(y), s, Success);
  }

  // ---------------------------------------------------------------------
  // Steps after the initialisation
  // ---------------------------------------------------------------------

  /** A measurement may complete an open, and nothing else the session invariant depends on changes. */
  predicate SameSession(s: State, t: State) {
    && t.client.sent == s.client.sent && t.heard == s.heard && t.uid == s.uid && t.dataType == s.dataType
    && s.done <= t.done && (t.reportId == s.reportId || t.reportId == 0)
  }

  lemma MeasurementCall(s: State, id: nat, m: Protocol.Report)
    requires m.id == REPORT_MEASUREMENT || m.id == REPORT_PROXIMITY
    ensures SameSession(s, Call(s, id, m))
  {
  }

  lemma {:induction false} MeasurementEmit(s: State, ids: seq<nat>, m: Protocol.Report)
    requires m.id == REPORT_MEASUREMENT || m.id == REPORT_PROXIMITY
    ensures SameSession(s, Emit(s, ids, m))
    decreases |ids|
  {
    if ids != [] {
      MeasurementCall(s, ids[0], m);
      MeasurementEmit(Call(s, ids[0], m), ids[1..], m);
    }
  }

  lemma MeasurementStep(s: State, uid: Uid, b: Body)
    requires IsMeasurement(b)
    ensures SameSession(s, Step(s, Indication(uid, [b])))
  {
    if s.halt == Running {
      var m := Protocol.Report(b.id, uid, b.payload);
      MeasurementEmit(s, Ids(s.client.handlers), m);
      assert [b][1..] == [];
      assert HandleReport(Deliver(s, m), uid, []) == Deliver(s, m);
    }
  }

  lemma AckStep(s: State, k: nat)
    ensures SameSession(s, Step(s, SendResult(k, true)))
  {
  }

  lemma SessionReceive(c: Config, y: System)
    requires Finished(c, y) && y.replies != []
    ensures Finished(c, ReceiveOne(y))
  {
    assert SessionReply(y.replies[0]);
    match y.replies[0]
    case Ack(k) => AckStep(y.s, k);
    case News(uid, bodies) =>
      assert bodies == [bodies[0]];
      MeasurementStep(y.s, uid, bodies[0]);
  }

  lemma EnabledAppend(rs: seq<Request>, r: Request, uid: Uid)
    ensures Enabled(rs + [r], uid) ==
            if r.uid == uid && Enables(r) then true else if r.uid == uid && Disables(r) then false else Enabled(rs, uid)
  {
  }

  lemma SessionServe(c: Config, y: System, up: bool)
    requires Finished(c, y) && y.taken < |y.s.client.sent|
    ensures Finished(c, ServeOne(c, y, up))
  {
    var sent := y.s.client.sent;
    var r := sent[y.taken];
    assert SessionRequest(r);
    assert sent[..y.taken + 1] == sent[..y.taken] + [r];
    var z := ServeOne(c, y, up);
    assert z == y.(taken := y.taken + 1, workers := WorkersAfter(y.workers, r), answers := z.answers,
                   replies := y.replies + [Ack(y.taken)]);
    forall u ensures u in z.workers <==> Enabled(sent[..y.taken + 1], u) {
      EnabledAppend(sent[..y.taken], r, u);
    }
  }

  lemma SessionWork(c: Config, y: System, dataType: string, uid: Uid)
    requires Sensible(c, dataType) && Finished(c, y)
    ensures Finished(c, WorkOne(c, y, uid))
  {
    var db := DbAt(c, true);
    ByUidFacts(db, uid);
    var e := ByUid(db, uid);
    if e.Some? && uid in y.workers && e.value.measurements != [] {
      var b := Measurement(e.value, y.workers[uid]);
      assert b in e.value.measurements;
    }
  }

  /** An open sends at most one request: an enable for the own UID. */
  predicate AtMostEnable(s: State, t: State) {
    && t.heard == s.heard && t.uid == s.uid && t.dataType == s.dataType && s.done <= t.done
    && ((t.client.sent == s.client.sent && t.reportId == s.reportId) ||
        (|t.client.sent| == |s.client.sent| + 1 && s.client.sent <= t.client.sent
         && Enables(t.client.sent[|s.client.sent|]) && !IsPoll(t.client.sent[|s.client.sent|])
         && t.client.sent[|s.client.sent|].uid == s.uid))
  }

  lemma SensorOpenSends(s: State)
    ensures AtMostEnable(s, SensorOpen(s))
  {
  }

  lemma OpenSends(s: State)
    ensures AtMostEnable(s, Open(s))
  {
    match s.kind
    case Plain => SensorOpenSends(s);
    case Accelerometer => SensorOpenSends(ConnectDriver(s));
    case Proximity => SensorOpenSends(ConnectDriver(s.(driver := s.driver.(reportedOnce := false))));
  }

  /** A longer log of session requests, nothing else new. */
  lemma SessionSend(c: Config, y: System, z: System, r: Request)
    requires Finished(c, y) && z == y.(s := z.s, open := z.open)
    requires z.s.heard == y.s.heard && z.s.uid == y.s.uid && z.s.dataType == y.s.dataType && y.s.done <= z.s.done
    requires z.s.client.sent == y.s.client.sent + [r] && SessionRequest(r)
    requires z.open ==> Enables(r) && r.uid == y.s.uid
    ensures Finished(c, z)
  {
    EnabledAppend(y.s.client.sent, r, y.s.uid);
    assert z.s.client.sent[..y.taken] == y.s.client.sent[..y.taken];
  }

  lemma SessionOpen(c: Config, y: System)
    requires Finished(c, y) && MayOpen(y)
    ensures Finished(c, Next(c, y, PressOpen))
  {
    var z := Next(c, y, PressOpen);
    if y.s.halt == Running {
      OpenSends(y.s);
      if z.s.client.sent != y.s.client.sent {
        var r := z.s.client.sent[|y.s.client.sent|];
        assert z.s.client.sent == y.s.client.sent + [r];
        SessionSend(c, y, z, r);
      }
    }
  }

  lemma SessionClose(c: Config, y: System)
    requires Finished(c, y) && y.open
    ensures Finished(c, Next(c, y, PressClose))
  {
    if y.s.halt == Running {
      SessionSend(c, y, Next(c, y, PressClose), Request(y.s.uid, REQUEST_DISABLE, Empty, Some(y.s.nextTask)));
    }
  }

  // ---------------------------------------------------------------------
  // The invariant over all runs
  // ---------------------------------------------------------------------

  lemma FinishedStays(c: Config, y: System, m: Move, dataType: string)
    requires Sensible(c, dataType) && Finished(c, y)
    ensures Finished(c, Next(c, y, m))
  {
    match m
    case Serve(up) => if y.taken < |y.s.client.sent| { SessionServe(c, y, up); }
    case Receive => if y.replies != [] { SessionReceive(c, y); }
    case Work(uid) => SessionWork(c, y, dataType, uid);
    case PressOpen => if MayOpen(y) { SessionOpen(c, y); }
    case PressClose => if y.open { SessionClose(c, y); }
  }

  /** A move that does something: a request is served or a reply received. */
  predicate Effective(y: System, m: Move) {
    (m.Serve? && !y.crashed && y.taken < |y.s.client.sent|) || (m.Receive? && y.replies != [])
  }

  /** Moves until the initialisation completes at the latest: three for each token still to come. */
  function Rank(y: System): nat {
    if y.s.done != [] then 0
    else
      var after := match PhaseOf(y)
        case Polling => (if y.s.retries < MAX_RETRIES - 1 then MAX_RETRIES - 1 - y.s.retries else 0) + 2
        case Discovering => 1
        case Describing => 0;
      3 * after + (if |y.replies| == 0 then 3 else |y.replies|)
  }

  lemma InitServe(c: Config, y: System, up: bool, dataType: string)
    requires Sensible(c, dataType) && y.s.dataType == dataType && Initialising(c, y) && y.taken < |y.s.client.sent|
    ensures var z := ServeOne(c, y, up);
            Initialising(c, z) && z.s.dataType == dataType && Rank(z) < Rank(y)
  {
    ServeToken(c, y, dataType, up);
    assert ServeOne(c, y, up).s == y.s;
  }

  lemma InitAck(c: Config, y: System, dataType: string)
    requires y.s.dataType == dataType && Initialising(c, y) && |y.replies| == 2
    ensures var z := ReceiveOne(y);
            Initialising(c, z) && z.s.dataType == dataType && Rank(z) < Rank(y)
  {
    ReceiveAck(c, y);
    AckStep(y.s, y.taken - 1);
    AckKeepsRetries(y.s, y.taken - 1);
  }

  lemma AckKeepsRetries(s: State, k: nat)
    ensures Step(s, SendResult(k, true)).retries == s.retries
  {
  }

  /** While the initialisation is pending every effective move brings its end nearer; the others do nothing. */
  lemma InitStep(c: Config, y: System, m: Move, dataType: string)
    requires Sensible(c, dataType) && y.s.dataType == dataType && Initialising(c, y)
    ensures var z := Next(c, y, m);
            && (Initialising(c, z) || Finished(c, z))
            && z.s.dataType == dataType
            && if Effective(y, m) then Rank(z) < Rank(y) else z == y
  {
    match m
    case Serve(up) =>
      if y.taken < |y.s.client.sent| {
        InitServe(c, y, up, dataType);
        assert Next(c, y, m) == ServeOne(c, y, up);
      }
    case Receive =>
      if |y.replies| == 2 {
        InitAck(c, y, dataType);
        assert Next(c, y, m) == ReceiveOne(y);
      } else if |y.replies| == 1 {
        InitReceive(c, y, dataType);
        assert Next(c, y, m) == ReceiveOne(y);
      }
    case Work(uid) => assert WorkOne(c, y, uid) == y;
    case PressOpen =>
    case PressClose =>
  }

  lemma InitReceive(c: Config, y: System, dataType: string)
    requires Sensible(c, dataType) && y.s.dataType == dataType && Initialising(c, y) && |y.replies| == 1
    ensures var z := ReceiveOne(y);
            (Initialising(c, z) || Finished(c, z)) && z.s.dataType == dataType && Rank(z) < Rank(y)
  {
    var m := ReceiveNews(c, y);
    match PhaseOf(y)
    case Polling =>
      if y.answers[y.s.retries] { PollPositive(c, y, dataType); } else { PollNegative(c, y, dataType); }
    case Discovering => DiscoveryAnswered(c, y, dataType);
    case Describing => AttributesAnswered(c, y, dataType);
  }

  lemma MoveBalanced(c: Config, y: System, m: Move, t: nat)
    requires Balanced(y.s, t)
    ensures Balanced(Next(c, y, m).s, t)
  {
    match m
    case Serve(up) =>
    case Receive =>
      if y.replies != [] {
        StepBalanced(y.s, ReplyEvent(y.replies[0]), t);
      }
    case Work(uid) =>
    case PressOpen => if MayOpen(y) { StepBalanced(y.s, UserOpen, t); }
    case PressClose => if y.open { StepBalanced(y.s, UserClose, t); }
  }

  lemma InvStep(c: Config, y: System, m: Move, dataType: string, t: nat)
    requires Inv(c, y, dataType, t)
    ensures Inv(c, Next(c, y, m), dataType, t)
  {
    MoveBalanced(c, y, m, t);
    if Initialising(c, y) {
      InitStep(c, y, m, dataType);
    } else {
      FinishedStays(c, y, m, dataType);
      TypeStays(c, y, m);
    }
  }

  lemma TypeStays(c: Config, y: System, m: Move)
    requires Finished(c, y)
    ensures Next(c, y, m).s.dataType == y.s.dataType
  {
    match m
    case Serve(up) =>
    case Receive =>
      if y.replies != [] {
        assert SessionReply(y.replies[0]);
        match y.replies[0] {
          case Ack(k) => AckStep(y.s, k);
          case News(uid, bodies) => assert bodies == [bodies[0]]; MeasurementStep(y.s, uid, bodies[0]);
        }
      }
    case Work(uid) =>
    case PressOpen => OpenSends(y.s);
    case PressClose =>
  }

  lemma {:induction false} InvMoves(c: Config, y: System, ms: seq<Move>, dataType: string, t: nat)
    requires Inv(c, y, dataType, t)
    ensures Inv(c, Moves(c, y, ms), dataType, t)
    decreases |ms|
  {
    if ms != [] {
      InvStep(c, y, ms[0], dataType, t);
      InvMoves(c, Next(c, y, ms[0]), ms[1..], dataType, t);
    }
  }

  lemma StartInv(c: Config, kind: Kind, dataType: string, uid: Uid, t: nat)
    requires Sensible(c, dataType)
    ensures Inv(c, Start(kind, dataType, uid), dataType, t) && Initialising(c, Start(kind, dataType, uid))
    ensures Rank(Start(kind, dataType, uid)) == 306
  {
  }

  // ---------------------------------------------------------------------
  // Main results
  // ---------------------------------------------------------------------

  /**
   * Token conservation: in every reachable state with the initialisation pending exactly one
   * request or reply is in flight, of the kind the phase calls for (a registry poll, the
   * discovery of the own type, the attributes of the stored UID); once it is complete no
   * discovery or attribute message is left in either direction.
   */
  lemma TokenConservation(c: Config, kind: Kind, dataType: string, uid: Uid, ms: seq<Move>)
    requires Sensible(c, dataType)
    ensures var y := Moves(c, Start(kind, dataType, uid), ms);
            if y.s.done == [] then
              OneToken(c, y, PhaseOf(y))
            else
              && (forall k :: y.taken <= k < |y.s.client.sent| ==> SessionRequest(y.s.client.sent[k]))
              && (forall r <- y.replies :: SessionReply(r))
  {
    StartInv(c, kind, dataType, uid, 0);
    InvMoves(c, Start(kind, dataType, uid), ms, dataType, 0);
  }

  /** A task completed twice would have been so while the process was still running. */
  lemma EventOnce(s: State, e: Event)
    requires Balanced(Step(s, e), 0) && TimesDone(s.done, 0) <= 1
    ensures TimesDone(Step(s, e).done, 0) <= 1
  {
    if s.halt == Running && Step(s, e).halt != Running { AbortingStep(s, e); }
  }

  lemma MoveOnce(c: Config, y: System, m: Move)
    requires Balanced(y.s, 0) && TimesDone(y.s.done, 0) <= 1
    ensures TimesDone(Next(c, y, m).s.done, 0) <= 1
  {
    MoveBalanced(c, y, m, 0);
    match m
    case Serve(up) =>
    case Receive => if y.replies != [] { EventOnce(y.s, ReplyEvent(y.replies[0])); }
    case Work(uid) =>
    case PressOpen => if MayOpen(y) { EventOnce(y.s, UserOpen); }
    case PressClose => if y.open { EventOnce(y.s, UserClose); }
  }

  lemma {:induction false} MovesOnce(c: Config, y: System, ms: seq<Move>, dataType: string)
    requires Inv(c, y, dataType, 0) && TimesDone(y.s.done, 0) <= 1
    ensures TimesDone(Moves(c, y, ms).s.done, 0) <= 1
    decreases |ms|
  {
    if ms != [] {
      MoveOnce(c, y, ms[0]);
      InvStep(c, y, ms[0], dataType, 0);
      MovesOnce(c, Next(c, y, ms[0]), ms[1..], dataType);
    }
  }

  /**
   * The initialisation completes at most once, and with the result the polls call for:
   * NO_SERVICE after exactly a hundred negative registry answers, otherwise FALSE or TRUE
   * depending on whether the core knows the data type; after at most 101 discovery replies.
   */
  lemma InitOutcome(c: Config, kind: Kind, dataType: string, uid: Uid, ms: seq<Move>)
    requires Sensible(c, dataType)
    ensures var y := Moves(c, Start(kind, dataType, uid), ms);
            y.s.done != [] ==>
              && y.s.done[0] == Completion(0, Verdict(c, dataType, y.answers))
              && TimesDone(y.s.done, 0) == 1
              && Decided(y.answers)
              && |y.s.heard| == |y.answers| + (if y.answers[|y.answers| - 1] then 1 else 0) <= MAX_RETRIES + 1
  {
    InitSingle(c, kind, dataType, uid, ms);
    StartInv(c, kind, dataType, uid, 0);
    InvMoves(c, Start(kind, dataType, uid), ms, dataType, 0);
  }

  lemma InitSingle(c: Config, kind: Kind, dataType: string, uid: Uid, ms: seq<Move>)
    requires Sensible(c, dataType)
    ensures var done := Moves(c, Start(kind, dataType, uid), ms).s.done;
            done != [] && done[0].task == 0 ==> TimesDone(done, 0) == 1
  {
    StartInv(c, kind, dataType, uid, 0);
    MovesOnce(c, Start(kind, dataType, uid), ms, dataType);
    var done := Moves(c, Start(kind, dataType, uid), ms).s.done;
    if done != [] && done[0].task == 0 { DoneOnce(done, 0); }
  }

  lemma {:induction false} DoneOnce(done: seq<Completion>, t: nat)
    requires done != [] && done[0].task == t
    ensures TimesDone(done, t) >= 1
  {
    if |done| > 1 {
      DoneOnce(done[..|done| - 1], t);
    }
  }

  function EffectiveMoves(c: Config, y: System, ms: seq<Move>): nat
    decreases |ms|
  {
    if ms == [] then 0
    else (if Effective(y, ms[0]) then 1 else 0) + EffectiveMoves(c, Next(c, y, ms[0]), ms[1..])
  }

  lemma {:induction false} FinishedForGood(c: Config, y: System, ms: seq<Move>, dataType: string)
    requires Sensible(c, dataType) && Finished(c, y)
    ensures Finished(c, Moves(c, y, ms))
    decreases |ms|
  {
    if ms != [] {
      FinishedStays(c, y, ms[0], dataType);
      FinishedForGood(c, Next(c, y, ms[0]), ms[1..], dataType);
    }
  }

  lemma {:induction false} RankBudget(c: Config, y: System, ms: seq<Move>, dataType: string)
    requires Sensible(c, dataType) && y.s.dataType == dataType && Initialising(c, y)
    requires Moves(c, y, ms).s.done == []
    ensures EffectiveMoves(c, y, ms) + Rank(Moves(c, y, ms)) <= Rank(y)
    decreases |ms|
  {
    if ms != [] {
      var z := Next(c, y, ms[0]);
      InitStep(c, y, ms[0], dataType);
      if Finished(c, z) {
        FinishedForGood(c, z, ms[1..], dataType);
        assert false;
      }
      RankBudget(c, z, ms[1..], dataType);
    }
  }

  /**
   * The initialisation terminates: in any run that leaves it pending fewer than 306 moves had an
   * effect (three for each of at most 102 replies), and the core can serve or the client can
   * receive. So every schedule that keeps both sides moving completes it.
   */
  lemma InitTerminates(c: Config, kind: Kind, dataType: string, uid: Uid, ms: seq<Move>)
    requires Sensible(c, dataType)
    requires Moves(c, Start(kind, dataType, uid), ms).s.done == []
    ensures EffectiveMoves(c, Start(kind, dataType, uid), ms) < 306
    ensures var y := Moves(c, Start(kind, dataType, uid), ms);
            Effective(y, Receive) || forall up :: Effective(y, Serve(up))
  {
    var y := Start(kind, dataType, uid);
    StartInv(c, kind, dataType, uid, 0);
    RankBudget(c, y, ms, dataType);
    InvMoves(c, y, ms, dataType, 0);
  }

  lemma {:induction false} EnabledSplit(rs: seq<Request>, n: nat, uid: Uid)
    requires n <= |rs| && Enabled(rs, uid)
    ensures Enabled(rs[..n], uid) || exists k :: n <= k < |rs| && Enables(rs[k]) && rs[k].uid == uid
    decreases |rs|
  {
    if n == |rs| {
      assert rs[..n] == rs;
    } else {
      var init := rs[..|rs| - 1];
      if !(rs[|rs| - 1].uid == uid && Enables(rs[|rs| - 1])) {
        EnabledSplit(init, n, uid);
        assert init[..n] == rs[..n];
      }
    }
  }

  /**
   * As long as an open waits (and was not closed again), its enable request is still on the way to
   * the core or a worker is running for the sensor.
   */
  lemma WaitingOpenHasWorker(c: Config, kind: Kind, dataType: string, uid: Uid, ms: seq<Move>)
    requires Sensible(c, dataType) && OpenWaits(Moves(c, Start(kind, dataType, uid), ms))
    ensures var y := Moves(c, Start(kind, dataType, uid), ms);
            || y.s.uid in y.workers
            || exists k :: y.taken <= k < |y.s.client.sent|
                           && Enables(y.s.client.sent[k]) && y.s.client.sent[k].uid == y.s.uid
  {
    StartInv(c, kind, dataType, uid, 0);
    InvMoves(c, Start(kind, dataType, uid), ms, dataType, 0);
    var y := Moves(c, Start(kind, dataType, uid), ms);
    EnabledSplit(y.s.client.sent, y.taken, y.s.uid);
  }

  /** Seen from the sensor, every run of the closed system is a disciplined run, so all results about those apply. */
  lemma {:induction false} MovesAreDisciplined(c: Config, y: System, ms: seq<Move>) returns (es: seq<Event>)
    ensures Moves(c, y, ms).s == Run(y.s, es) && Disciplined(y.s, es)
    decreases |ms|
  {
    if ms == [] {
      es := [];
    } else {
      var z := Next(c, y, ms[0]);
      var rest := MovesAreDisciplined(c, z, ms[1..]);
      if ms[0].Receive? && y.replies != [] {
        es := [ReplyEvent(y.replies[0])] + rest;
        assert es[1..] == rest;
      } else if ms[0].PressOpen? && MayOpen(y) {
        es := [UserOpen] + rest;
        assert es[1..] == rest;
      } else if ms[0].PressClose? && y.open {
        es := [UserClose] + rest;
        assert es[1..] == rest;
      } else {
        assert z.s == y.s;
        es := rest;
      }
    }
  }
}
