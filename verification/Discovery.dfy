/**
 * What holds in any environment: over arbitrary sequences of reports, opens, closes and send
 * results, with failed sends and overlapping opens included.
 *
 * The discovery state of a sensor is a function of the discovery responses it has decoded,
 * its attributes are a function of the attributes it has accepted, and every enable request
 * can be traced back to those attributes.
 */
module Discovery {
  import opened Common
  import opened Attributes
  import opened Protocol
  import opened SensorModel

  // ---------------------------------------------------------------------
  // Reference definitions over the decoded responses
  // ---------------------------------------------------------------------

  /** The sensor service shows itself by having a registry sensor. */
  predicate IsUp(r: SuidResponse) {
    r.uids != [] && r.dataType == REGISTRY
  }

  /** Index of the first response showing the service, or the number of responses if none did. */
  function FirstUp(heard: seq<SuidResponse>): (n: nat)
    ensures n <= |heard|
    ensures n < |heard| ==> IsUp(heard[n])
    ensures forall i :: 0 <= i < n ==> !IsUp(heard[i])
  {
    if heard == [] then 0
    else
      var n := FirstUp(heard[..|heard| - 1]);
      if n < |heard| - 1 then n else if IsUp(heard[|heard| - 1]) then |heard| - 1 else |heard|
  }

  /** The UID in the last response naming a sensor of the given type after the service came up. */
  function LastOwn(heard: seq<SuidResponse>, dataType: string): Option<Uid> {
    if heard == [] then None
    else
      var n := |heard| - 1;
      var r := heard[n];
      if FirstUp(heard[..n]) < n && r.dataType == dataType && r.uids != [] then Some(r.uids[0])
      else LastOwn(heard[..n], dataType)
  }

  function Polls(sent: seq<Request>): nat {
    if sent == [] then 0
    else Polls(sent[..|sent| - 1]) + if sent[|sent| - 1].body == FindType(REGISTRY) then 1 else 0
  }

  predicate IsEnable(r: Request) {
    r.id == REQUEST_ENABLE_CONTINUOUS || r.id == REQUEST_ENABLE_ON_CHANGE
  }

  /** A continuous enable asks for a rate the sensor offered; an on-change enable carries nothing. */
  predicate Justified(r: Request, accepted: seq<Attr>) {
    && (r.id == REQUEST_ENABLE_CONTINUOUS ==> r.body.Rate? && RateOffered(accepted, r.body.hz))
    && (r.id == REQUEST_ENABLE_ON_CHANGE ==> r.body == Empty)
  }

  // ---------------------------------------------------------------------
  // The invariants
  // ---------------------------------------------------------------------

  predicate DiscoveryInv(s: State, dataType: string, uid: Uid) {
    && s.dataType == dataType != REGISTRY
    && (s.serviceAvailable <==> FirstUp(s.heard) < |s.heard|)
    && s.retries == FirstUp(s.heard)
    && s.uid == OrElse(LastOwn(s.heard, dataType), uid)
    && Polls(s.client.sent) == if s.retries < MAX_RETRIES then 1 + s.retries else MAX_RETRIES
  }

  predicate AttributeInv(s: State) {
    && s.attrs == ApplyAll(INITIAL, s.accepted)
    && forall r <- s.client.sent :: Justified(r, s.accepted)
  }

  predicate Inv(s: State, dataType: string, uid: Uid) {
    DiscoveryInv(s, dataType, uid) && AttributeInv(s)
  }

  /** Nothing the invariants speak about differs. */
  predicate SameFacts(s: State, t: State) {
    && t.dataType == s.dataType && t.uid == s.uid && t.attrs == s.attrs
    && t.serviceAvailable == s.serviceAvailable && t.retries == s.retries
    && t.heard == s.heard && t.accepted == s.accepted
  }

  lemma HeardAppend(heard: seq<SuidResponse>, r: SuidResponse, dataType: string)
    ensures FirstUp(heard + [r]) ==
            if FirstUp(heard) < |heard| then FirstUp(heard) else if IsUp(r) then |heard| else |heard| + 1
    ensures LastOwn(heard + [r], dataType) ==
            if FirstUp(heard) < |heard| && r.dataType == dataType && r.uids != [] then Some(r.uids[0])
            else LastOwn(heard, dataType)
  {
  }

  lemma SuidPolls(s: State, h: Handler, r: SuidResponse)
    requires h.BaseHandler? && s.dataType != REGISTRY
    ensures Polls(SuidReceived(s, h, r).client.sent) == Polls(s.client.sent) +
            if !IsUp(r) && !s.serviceAvailable && s.retries + 1 < MAX_RETRIES then 1 else 0
  {
  }

  lemma SuidKeepsDiscovery(s: State, h: Handler, r: SuidResponse, dataType: string, uid: Uid)
    requires h.BaseHandler? && DiscoveryInv(s, dataType, uid)
    ensures DiscoveryInv(SuidReceived(s, h, r), dataType, uid)
  {
    HeardAppend(s.heard, r, dataType);
    SuidPolls(s, h, r);
    var t := SuidReceived(s, h, r);
    assert t.heard == s.heard + [r];
  }

  lemma RateOfferedGrows(accepted: seq<Attr>, more: seq<Attr>, hz: real)
    requires RateOffered(accepted, hz)
    ensures RateOffered(accepted + more, hz)
  {
  }

  lemma AttributesKeepAttributeInv(s: State, attrs: seq<Attr>)
    requires AttributeInv(s)
    ensures AttributeInv(s.(attrs := ApplyAll(s.attrs, attrs), accepted := s.accepted + attrs))
  {
    ApplyConcat(INITIAL, s.accepted, attrs);
    forall r <- s.client.sent ensures Justified(r, s.accepted + attrs) {
      if r.id == REQUEST_ENABLE_CONTINUOUS {
        RateOfferedGrows(s.accepted, attrs, r.body.hz);
      }
    }
  }

  /** The invariants do not look at handlers, completions or the subclass. */
  lemma SameFactsKeep(s: State, t: State, dataType: string, uid: Uid)
    requires Inv(s, dataType, uid) && SameFacts(s, t) && t.client.sent == s.client.sent
    ensures Inv(t, dataType, uid)
  {
  }

  lemma SuidKeeps(s: State, h: Handler, r: SuidResponse, dataType: string, uid: Uid)
    requires h.BaseHandler? && Inv(s, dataType, uid)
    ensures Inv(SuidReceived(s, h, r), dataType, uid)
  {
    SuidKeepsDiscovery(s, h, r, dataType, uid);
    SuidRequests(s, h, r);
  }

  /** A response leads to at most one more request, never an enable, and leaves the attributes alone. */
  lemma SuidRequests(s: State, h: Handler, r: SuidResponse)
    requires h.BaseHandler?
    ensures var t := SuidReceived(s, h, r);
            && t.heard == s.heard + [r] && t.accepted == s.accepted && t.attrs == s.attrs
            && (t.client.sent == s.client.sent ||
                (|t.client.sent| == |s.client.sent| + 1 && s.client.sent <= t.client.sent
                 && !IsEnable(t.client.sent[|s.client.sent|])))
  {
  }

  lemma AttributesKeep(s: State, attrs: seq<Attr>, dataType: string, uid: Uid)
    requires Inv(s, dataType, uid)
    ensures Inv(s.(attrs := ApplyAll(s.attrs, attrs), accepted := s.accepted + attrs), dataType, uid)
  {
    AttributesKeepAttributeInv(s, attrs);
  }

  lemma ReportKeeps(s: State, h: Handler, m: Report, dataType: string, uid: Uid)
    requires h.BaseHandler? && Inv(s, dataType, uid)
    ensures Inv(ReportReceived(s, h, m), dataType, uid)
  {
    var t := ReportReceived(s, h, m);
    if h.live && m.uid == SUID && m.id == RESPONSE_SUID {
      if m.payload.suid.Some? {
        SuidKeeps(s, h, m.payload.suid.value, dataType, uid);
      }
    } else if h.live && m.uid == s.uid && m.id == RESPONSE_GET_ATTRIBUTES {
      if m.payload.attributes.Some? {
        var attrs := m.payload.attributes.value;
        AttributesKeep(s, attrs, dataType, uid);
        SameFactsKeep(s.(attrs := ApplyAll(s.attrs, attrs), accepted := s.accepted + attrs), t, dataType, uid);
      }
    } else {
      SameFactsKeep(s, t, dataType, uid);
    }
  }

  lemma CallKeeps(s: State, id: nat, m: Report, dataType: string, uid: Uid)
    requires Inv(s, dataType, uid)
    ensures Inv(Call(s, id, m), dataType, uid)
  {
    var f := Find(s.client.handlers, id);
    if s.halt == Running && f.Some? && f.value.BaseHandler? {
      ReportKeeps(s, f.value, m, dataType, uid);
    }
  }

  lemma {:induction false} EmitKeeps(s: State, ids: seq<nat>, m: Report, dataType: string, uid: Uid)
    requires Inv(s, dataType, uid)
    ensures Inv(Emit(s, ids, m), dataType, uid)
    decreases |ids|
  {
    if ids != [] {
      CallKeeps(s, ids[0], m, dataType, uid);
      EmitKeeps(Call(s, ids[0], m), ids[1..], m, dataType, uid);
    }
  }

  function ReportsOf(uid: Uid, bodies: seq<Body>): seq<Report> {
    seq(|bodies|, i requires 0 <= i < |bodies| => Report(bodies[i].id, uid, bodies[i].payload))
  }

  function ReportsIn(e: Event): seq<Report> {
    if e.Indication? then ReportsOf(e.uid, e.bodies) else []
  }

  /** All reports delivered by a run, in order. */
  function Delivered(es: seq<Event>): seq<Report> {
    if es == [] then [] else ReportsIn(es[0]) + Delivered(es[1..])
  }

  lemma {:induction false} HandleKeeps(s: State, from: Uid, bodies: seq<Body>, dataType: string, uid: Uid)
    requires Inv(s, dataType, uid)
    ensures Inv(HandleReport(s, from, bodies), dataType, uid)
    decreases |bodies|
  {
    if bodies != [] {
      var m := Report(bodies[0].id, from, bodies[0].payload);
      EmitKeeps(s, Ids(s.client.handlers), m, dataType, uid);
      HandleKeeps(Deliver(s, m), from, bodies[1..], dataType, uid);
    }
  }

  lemma SentKeeps(s: State, t: State, r: Request, dataType: string, uid: Uid)
    requires Inv(s, dataType, uid) && SameFacts(s, t)
    requires t.client.sent == s.client.sent + [r] && r.body != FindType(REGISTRY) && Justified(r, s.accepted)
    ensures Inv(t, dataType, uid)
  {
  }

  lemma SensorOpenKeeps(s: State, dataType: string, uid: Uid)
    requires Inv(s, dataType, uid)
    ensures Inv(SensorOpen(s), dataType, uid)
  {
    var t := SensorOpen(s);
    LastOfferWins(INITIAL, s.accepted);
    RateProvenance(s.accepted);
    if t.client.sent == s.client.sent {
      SameFactsKeep(s, t, dataType, uid);
    } else {
      SentKeeps(s, t, t.client.sent[|s.client.sent|], dataType, uid);
    }
  }

  lemma OpenKeeps(s: State, dataType: string, uid: Uid)
    requires Inv(s, dataType, uid)
    ensures Inv(Open(s), dataType, uid)
  {
    var s' := match s.kind
      case Plain => s
      case Accelerometer => ConnectDriver(s)
      case Proximity => ConnectDriver(s.(driver := s.driver.(reportedOnce := false)));
    SameFactsKeep(s, s', dataType, uid);
    SensorOpenKeeps(s', dataType, uid);
  }

  lemma CloseKeeps(s: State, dataType: string, uid: Uid)
    requires Inv(s, dataType, uid)
    ensures Inv(Close(s), dataType, uid)
  {
    SentKeeps(s, Close(s), Request(s.uid, REQUEST_DISABLE, Empty, Some(s.nextTask)), dataType, uid);
  }

  lemma SendReadyFacts(s: State, k: nat, ok: bool)
    ensures SameFacts(s, SendReady(s, k, ok)) && SendReady(s, k, ok).client.sent == s.client.sent
  {
  }

  lemma StepKeeps(s: State, e: Event, dataType: string, uid: Uid)
    requires Inv(s, dataType, uid)
    ensures Inv(Step(s, e), dataType, uid)
  {
    if s.halt == Running {
      match e
      case UserOpen => OpenKeeps(s, dataType, uid);
      case UserClose => CloseKeeps(s, dataType, uid);
      case Indication(from, bodies) => HandleKeeps(s, from, bodies, dataType, uid);
      case SendResult(k, ok) =>
        SendReadyFacts(s, k, ok);
        SameFactsKeep(s, SendReady(s, k, ok), dataType, uid);
    }
  }

  lemma {:induction false} RunKeeps(s: State, es: seq<Event>, dataType: string, uid: Uid)
    requires Inv(s, dataType, uid)
    ensures Inv(Run(s, es), dataType, uid)
    decreases |es|
  {
    if es != [] {
      StepKeeps(s, es[0], dataType, uid);
      RunKeeps(Step(s, es[0]), es[1..], dataType, uid);
    }
  }

  lemma BootInv(kind: Kind, dataType: string, uid: Uid)
    requires dataType != REGISTRY
    ensures Inv(Boot(kind, dataType, uid), dataType, uid)
  {
  }

  lemma RunInv(kind: Kind, dataType: string, uid: Uid, es: seq<Event>)
    requires dataType != REGISTRY
    ensures Inv(Run(Boot(kind, dataType, uid), es), dataType, uid)
  {
    BootInv(kind, dataType, uid);
    RunKeeps(Boot(kind, dataType, uid), es, dataType, uid);
  }

  // ---------------------------------------------------------------------
  // Main results
  // ---------------------------------------------------------------------

  /**
   * Poll budget: after any run one poll was sent plus one for each response counted against the
   * service, never more than 100.
   */
  lemma PollBudget(kind: Kind, dataType: string, uid: Uid, es: seq<Event>)
    requires dataType != REGISTRY
    ensures var s := Run(Boot(kind, dataType, uid), es);
            && Polls(s.client.sent) <= 100
            && Polls(s.client.sent) == (if s.retries < 100 then 1 + s.retries else 100)
  {
    RunInv(kind, dataType, uid, es);
  }

  /**
   * Once the service is available or the budget is used up, no run that follows sends another
   * poll, and availability is never lost again.
   */
  lemma PollingStops(kind: Kind, dataType: string, uid: Uid, es: seq<Event>, more: seq<Event>)
    requires dataType != REGISTRY
    ensures var s := Run(Boot(kind, dataType, uid), es);
            var t := Run(s, more);
            && (s.serviceAvailable ==> t.serviceAvailable)
            && (s.serviceAvailable || s.retries >= MAX_RETRIES ==> Polls(t.client.sent) == Polls(s.client.sent))
  {
    var s := Run(Boot(kind, dataType, uid), es);
    RunInv(kind, dataType, uid, es);
    RunInv(kind, dataType, uid, es + more);
    RunConcat(Boot(kind, dataType, uid), es, more);
    RunGrows(s, more);
    PollsSettled(s, Run(s, more), dataType, uid);
  }

  /** Between two states of one run. */
  lemma PollsSettled(s: State, t: State, dataType: string, uid: Uid)
    requires DiscoveryInv(s, dataType, uid) && DiscoveryInv(t, dataType, uid) && s.heard <= t.heard
    ensures s.serviceAvailable ==> t.serviceAvailable
    ensures s.serviceAvailable || s.retries >= MAX_RETRIES ==> Polls(t.client.sent) == Polls(s.client.sent)
  {
  }

  /** The logs of a sensor only grow. */
  predicate Grows(s: State, t: State) {
    s.heard <= t.heard && s.client.sent <= t.client.sent && s.done <= t.done
  }

  lemma CallGrows(s: State, id: nat, m: Report)
    ensures Grows(s, Call(s, id, m))
  {
    var f := Find(s.client.handlers, id);
    if s.halt == Running && f.Some? && f.value.BaseHandler? && m.payload.suid.Some? {
      SuidRequests(s, f.value, m.payload.suid.value);
      assert Grows(s, SuidReceived(s, f.value, m.payload.suid.value));
    }
  }

  lemma {:induction false} EmitGrows(s: State, ids: seq<nat>, m: Report)
    ensures Grows(s, Emit(s, ids, m))
    decreases |ids|
  {
    if ids != [] {
      CallGrows(s, ids[0], m);
      EmitGrows(Call(s, ids[0], m), ids[1..], m);
    }
  }

  lemma {:induction false} HandleGrows(s: State, uid: Uid, bodies: seq<Body>)
    ensures Grows(s, HandleReport(s, uid, bodies))
    decreases |bodies|
  {
    if bodies != [] {
      var m := Report(bodies[0].id, uid, bodies[0].payload);
      EmitGrows(s, Ids(s.client.handlers), m);
      HandleGrows(Deliver(s, m), uid, bodies[1..]);
    }
  }

  lemma SensorOpenGrows(s: State)
    ensures Grows(s, SensorOpen(s))
  {
  }

  lemma OpenGrows(s: State)
    ensures Grows(s, Open(s))
  {
    match s.kind
    case Plain => SensorOpenGrows(s);
    case Accelerometer => SensorOpenGrows(ConnectDriver(s));
    case Proximity => SensorOpenGrows(ConnectDriver(s.(driver := s.driver.(reportedOnce := false))));
  }

  lemma StepGrows(s: State, e: Event)
    ensures Grows(s, Step(s, e))
  {
    if s.halt == Running {
      match e
      case UserOpen => OpenGrows(s);
      case UserClose =>
      case Indication(uid, bodies) => HandleGrows(s, uid, bodies);
      case SendResult(_, _) =>
    }
  }

  lemma {:induction false} RunGrows(s: State, es: seq<Event>)
    ensures Grows(s, Run(s, es))
    decreases |es|
  {
    if es != [] {
      StepGrows(s, es[0]);
      RunGrows(Step(s, es[0]), es[1..]);
    }
  }

  // ---------------------------------------------------------------------
  // Who sends enables
  // ---------------------------------------------------------------------

  lemma OnlyOpenEnables(s: State, e: Event, k: nat)
    requires |s.client.sent| <= k < |Step(s, e).client.sent| && IsEnable(Step(s, e).client.sent[k])
    ensures e == UserOpen && s.attrs.available
  {
    match e
    case UserOpen => UnavailableSendsNothing(s);
    case UserClose =>
    case Indication(uid, bodies) => HandleSendsNoEnable(s, uid, bodies, s.client.sent);
    case SendResult(_, _) =>
  }

  lemma UnavailableSendsNothing(s: State)
    ensures !s.attrs.available ==> Open(s).client.sent == s.client.sent
  {
  }

  /** Beyond a given prefix the log holds no enable request. */
  predicate NoEnableSince(base: seq<Request>, sent: seq<Request>) {
    base <= sent && forall k :: |base| <= k < |sent| ==> !IsEnable(sent[k])
  }

  lemma {:induction false} EmitSendsNoEnable(s: State, ids: seq<nat>, m: Report, base: seq<Request>)
    requires NoEnableSince(base, s.client.sent)
    ensures NoEnableSince(base, Emit(s, ids, m).client.sent)
    decreases |ids|
  {
    if ids != [] {
      EmitSendsNoEnable(Call(s, ids[0], m), ids[1..], m, base);
    }
  }

  lemma {:induction false} HandleSendsNoEnable(s: State, uid: Uid, bodies: seq<Body>, base: seq<Request>)
    requires NoEnableSince(base, s.client.sent)
    ensures NoEnableSince(base, HandleReport(s, uid, bodies).client.sent)
    decreases |bodies|
  {
    if bodies != [] {
      var m := Report(bodies[0].id, uid, bodies[0].payload);
      EmitSendsNoEnable(s, Ids(s.client.handlers), m, base);
      HandleSendsNoEnable(Deliver(s, m), uid, bodies[1..], base);
    }
  }
}
