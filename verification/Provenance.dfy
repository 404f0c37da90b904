/**
 * Where a sensor's knowledge comes from, in any environment: the history it keeps is explained,
 * in order, by the reports delivered to it, and its UID, its attributes and every enable request
 * follow from that history.
 */
module Provenance {
  import opened Common
  import opened Attributes
  import opened Protocol
  import opened SensorModel
  import opened Discovery

  // ---------------------------------------------------------------------
  // Reports and what they carry
  // ---------------------------------------------------------------------

  predicate CarriesResponse(m: Report, r: SuidResponse) {
    m.uid == SUID && m.id == RESPONSE_SUID && m.payload.suid == Some(r)
  }

  function AttributesIn(m: Report): seq<Attr> {
    if m.id == RESPONSE_GET_ATTRIBUTES && m.payload.attributes.Some? then m.payload.attributes.value else []
  }

  /** The UID a sensor holds after some responses. */
  function UidAfter(heard: seq<SuidResponse>, dataType: string, uid: Uid): Uid {
    OrElse(LastOwn(heard, dataType), uid)
  }

  predicate EndsWith(xs: seq<Attr>, ys: seq<Attr>) {
    |ys| <= |xs| && xs[|xs| - |ys|..] == ys
  }

  /**
   * The delivered reports account for what was heard and accepted: both are read off the reports
   * in the order of delivery (a report may be read by several handlers, or by none), and
   * attributes only from reports of the UID held at that moment.
   */
  predicate Explains(seen: seq<Report>, heard: seq<SuidResponse>, accepted: seq<Attr>, dataType: string, uid: Uid)
    decreases |seen| + |heard| + |accepted|
  {
    if seen == [] then heard == [] && accepted == []
    else
      var n := |seen| - 1;
      var attrs := AttributesIn(seen[n]);
      || Explains(seen[..n], heard, accepted, dataType, uid)
      || (heard != [] && CarriesResponse(seen[n], heard[|heard| - 1])
          && Explains(seen, heard[..|heard| - 1], accepted, dataType, uid))
      || (attrs != [] && EndsWith(accepted, attrs) && seen[n].uid == UidAfter(heard, dataType, uid)
          && Explains(seen, heard, accepted[..|accepted| - |attrs|], dataType, uid))
  }

  lemma ExplainsMore(seen: seq<Report>, m: Report, heard: seq<SuidResponse>, accepted: seq<Attr>, dataType: string,
                     uid: Uid)
    requires Explains(seen, heard, accepted, dataType, uid)
    ensures Explains(seen + [m], heard, accepted, dataType, uid)
  {
    assert (seen + [m])[..|seen|] == seen;
  }

  lemma ExplainsHeard(seen: seq<Report>, heard: seq<SuidResponse>, r: SuidResponse, accepted: seq<Attr>,
                      dataType: string, uid: Uid)
    requires Explains(seen, heard, accepted, dataType, uid) && seen != [] && CarriesResponse(seen[|seen| - 1], r)
    ensures Explains(seen, heard + [r], accepted, dataType, uid)
  {
    assert (heard + [r])[..|heard|] == heard;
  }

  lemma ExplainsAccepted(seen: seq<Report>, heard: seq<SuidResponse>, accepted: seq<Attr>, attrs: seq<Attr>,
                         dataType: string, uid: Uid)
    requires Explains(seen, heard, accepted, dataType, uid) && seen != []
    requires attrs == AttributesIn(seen[|seen| - 1]) && seen[|seen| - 1].uid == UidAfter(heard, dataType, uid)
    ensures Explains(seen, heard, accepted + attrs, dataType, uid)
  {
    if attrs == [] {
      assert accepted + attrs == accepted;
    } else {
      assert (accepted + attrs)[..|accepted|] == accepted;
    }
  }

  // ---------------------------------------------------------------------
  // Every run keeps an explained history
  // ---------------------------------------------------------------------

  predicate Traced(s: State, seen: seq<Report>, dataType: string, uid: Uid) {
    Inv(s, dataType, uid) && Explains(seen, s.heard, s.accepted, dataType, uid)
  }

  /** What one handler call adds to the history. */
  lemma CallHistory(s: State, id: nat, m: Report)
    ensures var t := Call(s, id, m);
            || (t.heard == s.heard && t.accepted == s.accepted)
            || (t.accepted == s.accepted && m.payload.suid.Some? && CarriesResponse(m, m.payload.suid.value)
                && t.heard == s.heard + [m.payload.suid.value])
            || (t.heard == s.heard && m.uid == s.uid && t.accepted == s.accepted + AttributesIn(m))
  {
    var f := Find(s.client.handlers, id);
    if s.halt == Running && f.Some? && f.value.BaseHandler? && m.payload.suid.Some? {
      SuidRequests(s, f.value, m.payload.suid.value);
    }
  }

  lemma CallTraced(s: State, id: nat, m: Report, seen: seq<Report>, dataType: string, uid: Uid)
    requires Traced(s, seen, dataType, uid) && seen != [] && seen[|seen| - 1] == m
    ensures Traced(Call(s, id, m), seen, dataType, uid)
  {
    CallKeeps(s, id, m, dataType, uid);
    CallHistory(s, id, m);
    if m.payload.suid.Some? && CarriesResponse(m, m.payload.suid.value) {
      ExplainsHeard(seen, s.heard, m.payload.suid.value, s.accepted, dataType, uid);
    }
    if m.uid == s.uid {
      ExplainsAccepted(seen, s.heard, s.accepted, AttributesIn(m), dataType, uid);
    }
  }

  lemma {:induction false} EmitTraced(s: State, ids: seq<nat>, m: Report, seen: seq<Report>, dataType: string, uid: Uid)
    requires Traced(s, seen, dataType, uid) && seen != [] && seen[|seen| - 1] == m
    ensures Traced(Emit(s, ids, m), seen, dataType, uid)
    decreases |ids|
  {
    if ids != [] {
      CallTraced(s, ids[0], m, seen, dataType, uid);
      EmitTraced(Call(s, ids[0], m), ids[1..], m, seen, dataType, uid);
    }
  }

  lemma {:induction false} HandleTraced(s: State, from: Uid, bodies: seq<Body>, seen: seq<Report>, dataType: string,
                                        uid: Uid)
    requires Traced(s, seen, dataType, uid)
    ensures Traced(HandleReport(s, from, bodies), seen + ReportsOf(from, bodies), dataType, uid)
    decreases |bodies|
  {
    if bodies == [] {
      assert seen + ReportsOf(from, bodies) == seen;
    } else {
      var m := Report(bodies[0].id, from, bodies[0].payload);
      ExplainsMore(seen, m, s.heard, s.accepted, dataType, uid);
      EmitTraced(s, Ids(s.client.handlers), m, seen + [m], dataType, uid);
      HandleTraced(Deliver(s, m), from, bodies[1..], seen + [m], dataType, uid);
      assert seen + [m] + ReportsOf(from, bodies[1..]) == seen + ReportsOf(from, bodies);
    }
  }

  lemma QuietHistory(s: State, e: Event)
    ensures !e.Indication? ==> Step(s, e).heard == s.heard && Step(s, e).accepted == s.accepted
  {
  }

  lemma StepTraced(s: State, e: Event, seen: seq<Report>, dataType: string, uid: Uid)
    requires Traced(s, seen, dataType, uid)
    ensures Traced(Step(s, e), seen + ReportsIn(e), dataType, uid)
  {
    if e.Indication? && s.halt == Running {
      HandleTraced(s, e.uid, e.bodies, seen, dataType, uid);
    } else {
      StepKeeps(s, e, dataType, uid);
      QuietHistory(s, e);
      ExplainsAll(seen, ReportsIn(e), s.heard, s.accepted, dataType, uid);
    }
  }

  lemma {:induction false} RunTraced(s: State, es: seq<Event>, seen: seq<Report>, dataType: string, uid: Uid)
    requires Traced(s, seen, dataType, uid)
    ensures Traced(Run(s, es), seen + Delivered(es), dataType, uid)
    decreases |es|
  {
    if es == [] {
      assert seen + Delivered(es) == seen;
    } else {
      StepTraced(s, es[0], seen, dataType, uid);
      RunTraced(Step(s, es[0]), es[1..], seen + ReportsIn(es[0]), dataType, uid);
      ReportAssoc(seen, ReportsIn(es[0]), Delivered(es[1..]));
    }
  }

  lemma ReportAssoc(xs: seq<Report>, ys: seq<Report>, zs: seq<Report>)
    ensures xs + ys + zs == xs + (ys + zs)
  {
  }

  lemma {:induction false} ExplainsAll(seen: seq<Report>, more: seq<Report>, heard: seq<SuidResponse>,
                                       accepted: seq<Attr>, dataType: string, uid: Uid)
    requires Explains(seen, heard, accepted, dataType, uid)
    ensures Explains(seen + more, heard, accepted, dataType, uid)
    decreases |more|
  {
    if more == [] {
      assert seen + more == seen;
    } else {
      ExplainsMore(seen, more[0], heard, accepted, dataType, uid);
      ExplainsAll(seen + [more[0]], more[1..], heard, accepted, dataType, uid);
      assert seen + [more[0]] + more[1..] == seen + more;
    }
  }

  lemma BootTraced(kind: Kind, dataType: string, uid: Uid, es: seq<Event>)
    requires dataType != REGISTRY
    ensures Traced(Run(Boot(kind, dataType, uid), es), Delivered(es), dataType, uid)
  {
    BootInv(kind, dataType, uid);
    RunTraced(Boot(kind, dataType, uid), es, [], dataType, uid);
    assert [] + Delivered(es) == Delivered(es);
  }

  // ---------------------------------------------------------------------
  // Reading an explained history
  // ---------------------------------------------------------------------

  /** The reports of two responses stand in the order of the responses. */
  lemma {:induction false} ResponsesInOrder(seen: seq<Report>, heard: seq<SuidResponse>, accepted: seq<Attr>,
                                            dataType: string, uid: Uid, i: nat, j: nat)
    returns (p: nat, q: nat)
    requires Explains(seen, heard, accepted, dataType, uid) && i <= j < |heard|
    ensures p <= q < |seen| && CarriesResponse(seen[p], heard[i]) && CarriesResponse(seen[q], heard[j])
    decreases |seen| + |heard| + |accepted|
  {
    var n := |seen| - 1;
    var attrs := AttributesIn(seen[n]);
    if Explains(seen[..n], heard, accepted, dataType, uid) {
      p, q := ResponsesInOrder(seen[..n], heard, accepted, dataType, uid, i, j);
    } else if attrs != [] && EndsWith(accepted, attrs)
              && Explains(seen, heard, accepted[..|accepted| - |attrs|], dataType, uid) {
      p, q := ResponsesInOrder(seen, heard, accepted[..|accepted| - |attrs|], dataType, uid, i, j);
    } else {
      var k := |heard| - 1;
      if j < k {
        p, q := ResponsesInOrder(seen, heard[..k], accepted, dataType, uid, i, j);
      } else if i < k {
        p, q := ResponsesInOrder(seen, heard[..k], accepted, dataType, uid, i, i);
        q := n;
      } else {
        p, q := n, n;
      }
    }
  }

  predicate Names(r: SuidResponse, dataType: string, uid: Uid) {
    r.dataType == dataType && r.uids != [] && r.uids[0] == uid
  }

  predicate ShowsService(m: Report) {
    m.payload.suid.Some? && CarriesResponse(m, m.payload.suid.value) && IsUp(m.payload.suid.value)
  }

  predicate NamesSensor(m: Report, dataType: string, uid: Uid) {
    m.payload.suid.Some? && CarriesResponse(m, m.payload.suid.value) && Names(m.payload.suid.value, dataType, uid)
  }

  /** A UID is the initial one, or was announced for the data type after the service had shown itself. */
  predicate Announced(seen: seq<Report>, dataType: string, initial: Uid, uid: Uid) {
    uid == initial || exists p, q :: 0 <= p < q < |seen| && ShowsService(seen[p]) && NamesSensor(seen[q], dataType, uid)
  }

  lemma {:induction false} OwnUidProvenance(heard: seq<SuidResponse>, dataType: string) returns (i: nat, j: nat)
    requires LastOwn(heard, dataType).Some?
    ensures i < j < |heard| && IsUp(heard[i]) && Names(heard[j], dataType, LastOwn(heard, dataType).value)
  {
    var n := |heard| - 1;
    if FirstUp(heard[..n]) < n && heard[n].dataType == dataType && heard[n].uids != [] {
      i, j := FirstUp(heard[..n]), n;
    } else {
      i, j := OwnUidProvenance(heard[..n], dataType);
    }
  }

  lemma HeldUidAnnounced(seen: seq<Report>, heard: seq<SuidResponse>, accepted: seq<Attr>, dataType: string, uid: Uid)
    requires Explains(seen, heard, accepted, dataType, uid) && dataType != REGISTRY
    ensures Announced(seen, dataType, uid, UidAfter(heard, dataType, uid))
  {
    if LastOwn(heard, dataType).Some? {
      var i, j := OwnUidProvenance(heard, dataType);
      var p, q := ResponsesInOrder(seen, heard, accepted, dataType, uid, i, j);
      assert ShowsService(seen[p]) && NamesSensor(seen[q], dataType, UidAfter(heard, dataType, uid));
    }
  }

  /** A delivered attribute report of the sensor whose UID was held when it arrived. */
  predicate OwnAttributes(seen: seq<Report>, q: nat, dataType: string, initial: Uid) {
    q < |seen| && AttributesIn(seen[q]) != [] && Announced(seen[..q], dataType, initial, seen[q].uid)
  }

  lemma {:induction false} AcceptedProvenance(seen: seq<Report>, heard: seq<SuidResponse>, accepted: seq<Attr>,
                                              dataType: string, uid: Uid, a: Attr)
    returns (q: nat)
    requires Explains(seen, heard, accepted, dataType, uid) && dataType != REGISTRY && a in accepted
    ensures OwnAttributes(seen, q, dataType, uid) && a in AttributesIn(seen[q])
    decreases |seen| + |heard| + |accepted|
  {
    var n := |seen| - 1;
    var attrs := AttributesIn(seen[n]);
    if Explains(seen[..n], heard, accepted, dataType, uid) {
      q := AcceptedProvenance(seen[..n], heard, accepted, dataType, uid, a);
      assert seen[..n][..q] == seen[..q];
    } else if heard != [] && CarriesResponse(seen[n], heard[|heard| - 1])
              && Explains(seen, heard[..|heard| - 1], accepted, dataType, uid) {
      q := AcceptedProvenance(seen, heard[..|heard| - 1], accepted, dataType, uid, a);
    } else {
      var rest := accepted[..|accepted| - |attrs|];
      assert accepted == rest + attrs;
      if a in attrs {
        q := n;
        HeldUidAnnounced(seen, heard, rest, dataType, uid);
        NotItself(seen, dataType, uid);
      } else {
        q := AcceptedProvenance(seen, heard, rest, dataType, uid, a);
      }
    }
  }

  /** An attribute report announces nothing, so its UID was announced before it. */
  lemma NotItself(seen: seq<Report>, dataType: string, uid: Uid)
    requires seen != [] && AttributesIn(seen[|seen| - 1]) != []
    requires Announced(seen, dataType, uid, seen[|seen| - 1].uid)
    ensures Announced(seen[..|seen| - 1], dataType, uid, seen[|seen| - 1].uid)
  {
    var n := |seen| - 1;
    if seen[n].uid != uid {
      var p, q :| 0 <= p < q < |seen| && ShowsService(seen[p]) && NamesSensor(seen[q], dataType, seen[n].uid);
      assert q != n;
      assert seen[..n][p] == seen[p] && seen[..n][q] == seen[q];
    }
  }

  /** An attribute that a report from position `q` on carried, being the sensor's own when it arrived. */
  predicate ReportedSince(seen: seq<Report>, q: nat, dataType: string, initial: Uid, a: Attr) {
    exists k: nat :: q <= k < |seen| && OwnAttributes(seen, k, dataType, initial) && a in AttributesIn(seen[k])
  }

  lemma ReportedSinceMore(seen: seq<Report>, n: nat, q: nat, dataType: string, initial: Uid, a: Attr)
    requires n <= |seen| && ReportedSince(seen[..n], q, dataType, initial, a)
    ensures ReportedSince(seen, q, dataType, initial, a)
  {
    var early := seen[..n];
    var k: nat :| q <= k < |early| && OwnAttributes(early, k, dataType, initial) && a in AttributesIn(early[k]);
    assert seen[..n][..k] == seen[..k];
    assert OwnAttributes(seen, k, dataType, initial) && a in AttributesIn(seen[k]);
  }

  /**
   * The last word on availability was in one delivered report, accepted from the sensor whose UID
   * was held then. What was accepted afterwards says nothing about availability, and was in own
   * reports from that one on.
   */
  lemma {:induction false} LastOfferProvenance(seen: seq<Report>, heard: seq<SuidResponse>, accepted: seq<Attr>,
                                               dataType: string, uid: Uid)
    returns (q: nat, later: seq<Attr>)
    requires Explains(seen, heard, accepted, dataType, uid) && dataType != REGISTRY && LastAvailable(accepted).Some?
    ensures OwnAttributes(seen, q, dataType, uid)
    ensures LastAvailable(AttributesIn(seen[q])) == LastAvailable(accepted)
    ensures EndsWith(accepted, AttributesIn(seen[q]) + later) && LastAvailable(later) == None
    ensures forall a <- later :: ReportedSince(seen, q, dataType, uid, a)
    decreases |seen| + |heard| + |accepted|
  {
    var n := |seen| - 1;
    var attrs := AttributesIn(seen[n]);
    if Explains(seen[..n], heard, accepted, dataType, uid) {
      q, later := LastOfferProvenance(seen[..n], heard, accepted, dataType, uid);
      assert seen[..n][..q] == seen[..q];
      forall a <- later ensures ReportedSince(seen, q, dataType, uid, a) {
        ReportedSinceMore(seen, n, q, dataType, uid, a);
      }
    } else if heard != [] && CarriesResponse(seen[n], heard[|heard| - 1])
              && Explains(seen, heard[..|heard| - 1], accepted, dataType, uid) {
      q, later := LastOfferProvenance(seen, heard[..|heard| - 1], accepted, dataType, uid);
    } else {
      var rest := accepted[..|accepted| - |attrs|];
      assert accepted == rest + attrs;
      LastOfferConcat(rest, attrs);
      HeldUidAnnounced(seen, heard, rest, dataType, uid);
      NotItself(seen, dataType, uid);
      assert OwnAttributes(seen, n, dataType, uid);
      if LastAvailable(attrs).Some? {
        q, later := n, [];
        assert attrs + later == attrs;
      } else {
        var l;
        q, l := LastOfferProvenance(seen, heard, rest, dataType, uid);
        later := l + attrs;
        LastOfferConcat(l, attrs);
        SuffixGrows(rest, AttributesIn(seen[q]), l, attrs);
        forall a <- later ensures ReportedSince(seen, q, dataType, uid, a) {
          if a in attrs { assert q <= n && a in AttributesIn(seen[n]); }
        }
      }
    }
  }

  lemma SuffixGrows(xs: seq<Attr>, ys: seq<Attr>, zs: seq<Attr>, more: seq<Attr>)
    requires EndsWith(xs, ys + zs)
    ensures EndsWith(xs + more, ys + (zs + more))
  {
    var k := |xs| - |ys + zs|;
    assert (xs + more)[k..] == xs[k..] + more == ys + (zs + more);
  }

  lemma {:induction false} LastOfferConcat(xs: seq<Attr>, ys: seq<Attr>)
    ensures LastAvailable(xs + ys) == if LastAvailable(ys).Some? then LastAvailable(ys) else LastAvailable(xs)
  {
    if ys == [] {
      assert xs + ys == xs;
    } else {
      assert (xs + ys)[..|xs + ys| - 1] == xs + ys[..|ys| - 1];
      LastOfferConcat(xs, ys[..|ys| - 1]);
    }
  }

  // ---------------------------------------------------------------------
  // Main results
  // ---------------------------------------------------------------------

  /**
   * After any run the discovery state is exactly what the responses heard say: the service is
   * available when one of them showed the registry, the retry counter is the number of responses
   * before that, the UID is the one last announced for the own data type after that (or the
   * initial one); and history and delivered reports agree, order included.
   */
  lemma DiscoveryIsFunctionOfResponses(kind: Kind, dataType: string, uid: Uid, es: seq<Event>)
    requires dataType != REGISTRY
    ensures var s := Run(Boot(kind, dataType, uid), es);
            && (s.serviceAvailable <==> exists i :: 0 <= i < |s.heard| && IsUp(s.heard[i]))
            && s.retries == FirstUp(s.heard)
            && s.uid == UidAfter(s.heard, dataType, uid)
            && s.attrs == ApplyAll(INITIAL, s.accepted)
            && Explains(Delivered(es), s.heard, s.accepted, dataType, uid)
  {
    BootTraced(kind, dataType, uid, es);
  }

  /**
   * A stored UID other than the initial one is the first in a delivered response for the own data
   * type, and a response showing the registry was delivered before that one.
   */
  lemma UidProvenance(kind: Kind, dataType: string, uid: Uid, es: seq<Event>)
    requires dataType != REGISTRY
    ensures Announced(Delivered(es), dataType, uid, Run(Boot(kind, dataType, uid), es).uid)
  {
    BootTraced(kind, dataType, uid, es);
    var s := Run(Boot(kind, dataType, uid), es);
    HeldUidAnnounced(Delivered(es), s.heard, s.accepted, dataType, uid);
  }

  /** A positive rate that an own attribute report listed. */
  predicate RateDelivered(seen: seq<Report>, dataType: string, initial: Uid, hz: real) {
    hz > 0.0 &&
    exists q: nat :: q < |seen| && OwnAttributes(seen, q, dataType, initial) && RateOffered(AttributesIn(seen[q]), hz)
  }

  /**
   * Every continuous enable ever sent carries a positive rate that a delivered report of the own
   * sensor (whose UID had been announced by then) listed as a sample rate; on-change enables carry nothing.
   */
  lemma EnableProvenance(kind: Kind, dataType: string, uid: Uid, es: seq<Event>, r: Request)
    requires dataType != REGISTRY && r in Run(Boot(kind, dataType, uid), es).client.sent
    ensures r.id == REQUEST_ENABLE_ON_CHANGE ==> r.body == Empty
    ensures r.id == REQUEST_ENABLE_CONTINUOUS ==>
              r.body.Rate? && RateDelivered(Delivered(es), dataType, uid, r.body.hz)
  {
    BootTraced(kind, dataType, uid, es);
    var s := Run(Boot(kind, dataType, uid), es);
    assert Justified(r, s.accepted);
    if r.id == REQUEST_ENABLE_CONTINUOUS {
      var a :| a in s.accepted && a.id == SAMPLE_RATE && OffersRate(a, r.body.hz);
      var q := AcceptedProvenance(Delivered(es), s.heard, s.accepted, dataType, uid, a);
      assert RateOffered(AttributesIn(Delivered(es)[q]), r.body.hz);
    }
  }

  /**
   * An enable request is only ever sent by an open, and only after a delivered report of the own
   * sensor said the sensor is available; what was accepted since then came in own reports from
   * that one on and says nothing about availability.
   */
  lemma EnableNeedsAvailability(kind: Kind, dataType: string, uid: Uid, es: seq<Event>, e: Event, k: nat)
    returns (q: nat, later: seq<Attr>)
    requires dataType != REGISTRY
    requires var s := Run(Boot(kind, dataType, uid), es);
             |s.client.sent| <= k < |Step(s, e).client.sent| && IsEnable(Step(s, e).client.sent[k])
    ensures e == UserOpen
    ensures OwnAttributes(Delivered(es), q, dataType, uid)
    ensures LastAvailable(AttributesIn(Delivered(es)[q])) == Some(true)
    ensures EndsWith(Run(Boot(kind, dataType, uid), es).accepted, AttributesIn(Delivered(es)[q]) + later)
    ensures LastAvailable(later) == None
    ensures forall a <- later :: ReportedSince(Delivered(es), q, dataType, uid, a)
  {
    var s := Run(Boot(kind, dataType, uid), es);
    BootTraced(kind, dataType, uid, es);
    LastOfferWins(INITIAL, s.accepted);
    OnlyOpenEnables(s, e, k);
    q, later := LastOfferProvenance(Delivered(es), s.heard, s.accepted, dataType, uid);
  }
}
