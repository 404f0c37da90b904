/**
 * The sensor core as the mock server plays it: a table of sensors, the answers to discovery
 * and attribute requests, and one worker per enabled sensor producing its measurements in turn.
 */
module SensorCore {
  import opened Common
  import opened Attributes
  import opened Protocol

  /** One configured sensor: its type, UID, attributes and canned measurements. */
  datatype Entry = Entry(dataType: string, uid: Uid, attributes: seq<Attr>, measurements: seq<Body>)

  function ByType(db: seq<Entry>, dataType: string): Option<Entry> {
    if db == [] then None else if db[0].dataType == dataType then Some(db[0]) else ByType(db[1..], dataType)
  }

  function ByUid(db: seq<Entry>, uid: Uid): Option<Entry> {
    if db == [] then None else if db[0].uid == uid then Some(db[0]) else ByUid(db[1..], uid)
  }

  function DiscoveryResponse(db: seq<Entry>, dataType: string): Body {
    var uids := match ByType(db, dataType) case None => [] case Some(e) => [e.uid];
    Body(RESPONSE_SUID, GARBAGE.(suid := Some(SuidResponse(dataType, uids))))
  }

  /** None: the server raises, because it knows no attributes for the UID. */
  function AttributesResponse(db: seq<Entry>, uid: Uid): Option<Body> {
    match ByUid(db, uid)
    case None => None
    case Some(e) =>
      if e.attributes == [] then None
      else Some(Body(RESPONSE_GET_ATTRIBUTES, GARBAGE.(attributes := Some(e.attributes))))
  }

  /** The core knows several sensors of a type; the first configured is the one announced. */
  lemma {:induction false} FirstOfType(db: seq<Entry>, dataType: string, i: nat)
    requires i < |db| && db[i].dataType == dataType && forall j :: 0 <= j < i ==> db[j].dataType != dataType
    ensures DiscoveryResponse(db, dataType).id == 768
    ensures DiscoveryResponse(db, dataType).payload.suid == Some(SuidResponse(dataType, [db[i].uid]))
  {
    if i > 0 { FirstOfType(db[1..], dataType, i - 1); }
  }

  lemma {:induction false} NoneOfType(db: seq<Entry>, dataType: string)
    requires forall e <- db :: e.dataType != dataType
    ensures DiscoveryResponse(db, dataType).payload.suid == Some(SuidResponse(dataType, []))
  {
    if db != [] { NoneOfType(db[1..], dataType); }
  }

  /** Attributes are those of the first sensor with the UID; none configured makes the server raise. */
  lemma {:induction false} FirstWithUid(db: seq<Entry>, uid: Uid, i: nat)
    requires i < |db| && db[i].uid == uid && forall j :: 0 <= j < i ==> db[j].uid != uid
    ensures AttributesResponse(db, uid) ==
            if db[i].attributes == [] then None
            else Some(Body(128, GARBAGE.(attributes := Some(db[i].attributes))))
  {
    if i > 0 { FirstWithUid(db[1..], uid, i - 1); }
  }

  /** The requests the server answers or acts on, by message id. */
  lemma AnswersByNumber(db: seq<Entry>, r: Request)
    ensures AnswerTo(db, r).Silent? <==> (r.id != 512 || r.uid != SUID) && r.id != 1
    ensures AnswerTo(db, r).Raise? <==> r.id == 1 && AttributesResponse(db, r.uid) == None
    ensures AnswerTo(db, r).Indicate? ==>
              AnswerTo(db, r).bodies == [if r.id == 1 then AttributesResponse(db, r.uid).value
                                         else DiscoveryResponse(db, if r.body.FindType? then r.body.dataType else "")]
    ensures Enables(r) <==> r.id == 513 || r.id == 514
    ensures Disables(r) <==> r.id == 10
  {
  }

  /** What a request makes the server do next to its acknowledgement. */
  datatype Answer = Silent | Indicate(uid: Uid, bodies: seq<Body>) | Raise

  function Enables(r: Request): bool { r.id == REQUEST_ENABLE_ON_CHANGE || r.id == REQUEST_ENABLE_CONTINUOUS }
  function Disables(r: Request): bool { r.id == REQUEST_DISABLE }

  function AnswerTo(db: seq<Entry>, r: Request): Answer {
    if r.id == REQUEST_SUID && r.uid == SUID then
      Indicate(SUID, [DiscoveryResponse(db, if r.body.FindType? then r.body.dataType else "")])
    else if r.id == REQUEST_GET_ATTRIBUTES then
      match AttributesResponse(db, r.uid)
      case None => Raise
      case Some(b) => Indicate(r.uid, [b])
    else Silent
  }

  /** The worker table: the number of measurements each running worker has sent. */
  function WorkersAfter(workers: map<Uid, nat>, r: Request): map<Uid, nat> {
    if Enables(r) then (if r.uid in workers then workers else workers[r.uid := 0])
    else if Disables(r) then workers - {r.uid}
    else workers
  }

  /** The k-th measurement of a sensor. */
  function Measurement(e: Entry, k: nat): Body
    requires e.measurements != []
  {
    e.measurements[k % |e.measurements|]
  }

  /** The wrap-around by repeated subtraction finds the remainder. */
  method MeasurementIndex(n: nat, index: nat) returns (k: nat)
    requires n > 0
    ensures k == index % n
  {
    k := index;
    while n <= k
      invariant k % n == index % n
      decreases k
    {
      WrapOnce(k, n);
      k := k - n;
    }
  }

  lemma WrapOnce(k: nat, n: nat)
    requires 0 < n <= k
    ensures (k - n) % n == k % n
  {
    QuotientUnique(k / n, k % n, (k - n) / n + 1, (k - n) % n, n);
  }

  /** Quotient and remainder are determined by their sum. */
  lemma QuotientUnique(q: int, r: int, p: int, t: int, n: nat)
    requires 0 <= r < n && 0 <= t < n && q * n + r == p * n + t
    ensures r == t
  {
    assert (q - p) * n == q * n - p * n;
    assert (p - q) * n == p * n - q * n;
    if q > p {
      AtLeastOnce(q - p, n);
    } else if q < p {
      AtLeastOnce(p - q, n);
    }
  }

  lemma AtLeastOnce(d: int, n: nat)
    requires d >= 1
    ensures d * n >= n
  {
  }

  // ---------------------------------------------------------------------
  // The worker table over whole histories
  // ---------------------------------------------------------------------

  /** What happens to the table: a request is served, or a worker takes a turn. */
  datatype CoreEvent = Served(r: Request) | Turn(uid: Uid)

  function Table(es: seq<CoreEvent>): map<Uid, nat> {
    if es == [] then map[]
    else
      var w := Table(es[..|es| - 1]);
      match es[|es| - 1]
      case Served(r) => WorkersAfter(w, r)
      case Turn(uid) => if uid in w then w[uid := w[uid] + 1] else w
  }

  predicate Switches(e: CoreEvent, uid: Uid, on: bool) {
    e.Served? && e.r.uid == uid && if on then Enables(e.r) else Disables(e.r)
  }

  function Turns(es: seq<CoreEvent>, uid: Uid): nat {
    if es == [] then 0 else Turns(es[..|es| - 1], uid) + if es[|es| - 1] == Turn(uid) then 1 else 0
  }

  /** Position `j` holds the latest switch of the sensor, and it is an enable or a disable. */
  predicate LatestSwitch(es: seq<CoreEvent>, uid: Uid, j: nat, on: bool) {
    && j < |es| && Switches(es[j], uid, on)
    && forall i :: j < i < |es| ==> !Switches(es[i], uid, true) && !Switches(es[i], uid, false)
  }

  /**
   * After any history a sensor has a worker (and the table never more than one) exactly when
   * the latest enable or disable for its UID was an enable.
   */
  lemma {:induction false} WorkerIffLatestIsEnable(es: seq<CoreEvent>, uid: Uid)
    ensures uid in Table(es) <==> exists j: nat :: LatestSwitch(es, uid, j, true)
  {
    if es != [] {
      var n := |es| - 1;
      WorkerIffLatestIsEnable(es[..n], uid);
      var e := es[n];
      if Switches(e, uid, true) {
        assert LatestSwitch(es, uid, n, true);
      } else if Switches(e, uid, false) {
        if j: nat :| LatestSwitch(es, uid, j, true) {
          assert false;
        }
      } else {
        assert uid in Table(es) <==> uid in Table(es[..n]);
        if j: nat :| LatestSwitch(es[..n], uid, j, true) {
          assert LatestSwitch(es, uid, j, true);
        }
        if j: nat :| LatestSwitch(es, uid, j, true) {
          assert LatestSwitch(es[..n], uid, j, true);
        }
      }
    }
  }

  /**
   * A running worker's counter is the number of turns it took since the enable that started it;
   * enabling again while it runs does not restart it.
   */
  lemma {:induction false} WorkerCountsTurns(es: seq<CoreEvent>, uid: Uid) returns (j: nat)
    requires uid in Table(es)
    ensures j < |es| && Switches(es[j], uid, true) && uid !in Table(es[..j])
    ensures forall i :: j < i < |es| ==> !Switches(es[i], uid, false)
    ensures Table(es)[uid] == Turns(es[j + 1..], uid)
  {
    var n := |es| - 1;
    var e := es[n];
    if Switches(e, uid, true) && uid !in Table(es[..n]) {
      j := n;
      assert es[n + 1..] == [];
    } else {
      j := WorkerCountsTurns(es[..n], uid);
      assert es[..n][..j] == es[..j];
      assert es[j + 1..][..|es[j + 1..]| - 1] == es[..n][j + 1..];
      forall i | j < i < |es| ensures !Switches(es[i], uid, false) {
        if i < n { assert es[i] == es[..n][i]; }
      }
    }
  }

  // ---------------------------------------------------------------------
  // The server object
  // ---------------------------------------------------------------------

  class Server {
    var workers: map<Uid, nat>

    constructor ()
      ensures workers == map[]
    {
      workers := map[];
    }

    /** A request: it is acknowledged, and answered or acted upon according to its message id. */
    method ReplyMsg(db: seq<Entry>, r: Request) returns (a: Answer)
      modifies this
      ensures a == AnswerTo(db, r)
      ensures workers == WorkersAfter(old(workers), r)
    {
      a := Silent;
      if r.id == REQUEST_SUID && r.uid == SUID {
        var dataType := if r.body.FindType? then r.body.dataType else "";
        a := Indicate(SUID, [DiscoveryResponse(db, dataType)]);
      } else if r.id == REQUEST_GET_ATTRIBUTES {
        var b := AttributesResponse(db, r.uid);
        if b.None? {
          a := Raise;
        } else {
          a := Indicate(r.uid, [b.value]);
        }
      } else if r.id == REQUEST_ENABLE_ON_CHANGE || r.id == REQUEST_ENABLE_CONTINUOUS {
        if r.uid in workers {
          return;
        }
        workers := workers[r.uid := 0];
      } else if r.id == REQUEST_DISABLE {
        if r.uid !in workers {
          return;
        }
        workers := workers - {r.uid};
      }
    }

    /** One turn of a worker's loop: it sends its next measurement and counts it. */
    method SensorMeasurement(e: Entry) returns (b: Body)
      requires e.uid in workers && e.measurements != []
      modifies this
      ensures b == Measurement(e, old(workers)[e.uid])
      ensures workers == old(workers)[e.uid := old(workers)[e.uid] + 1]
    {
      var k := MeasurementIndex(|e.measurements|, workers[e.uid]);
      b := e.measurements[k];
      workers := workers[e.uid := workers[e.uid] + 1];
    }

    /**
     * The server's whole life, requests and worker turns in any order: afterwards a sensor has a
     * worker exactly when its latest enable or disable was an enable, with the number of turns it
     * took since then as its counter; and what was sent is entry by entry what each worker's
     * counter selected at its turn.
     */
    method Play(db: seq<Entry>, es: seq<CoreEvent>) returns (sent: seq<Turned>)
      requires workers == map[]
      modifies this
      ensures workers == Table(es) && sent == Sent(db, es)
      ensures forall uid :: uid in workers <==> exists j: nat :: LatestSwitch(es, uid, j, true)
    {
      sent := [];
      for i := 0 to |es|
        invariant workers == Table(es[..i]) && sent == Sent(db, es[..i])
      {
        assert es[..i + 1][..i] == es[..i];
        match es[i]
        case Served(r) => var a := ReplyMsg(db, r);
        case Turn(uid) =>
          if uid in workers {
            var e := ByUid(db, uid);
            ByUidOwn(db, uid);
            if e.Some? && e.value.measurements != [] {
              var b := SensorMeasurement(e.value);
              sent := sent + [Turned(uid, b)];
            } else {
              workers := workers[uid := workers[uid] + 1];
            }
          }
      }
      assert es[..|es|] == es;
      forall uid ensures uid in workers <==> exists j: nat :: LatestSwitch(es, uid, j, true) {
        WorkerIffLatestIsEnable(es, uid);
      }
    }
  }

  lemma {:induction false} ByUidOwn(db: seq<Entry>, uid: Uid)
    ensures ByUid(db, uid).Some? ==> ByUid(db, uid).value.uid == uid
  {
    if db != [] { ByUidOwn(db[1..], uid); }
  }

  /** A measurement a worker sent. */
  datatype Turned = Turned(uid: Uid, body: Body)

  /** The measurements of a history: each turn's entry is selected by the worker's counter. */
  function Sent(db: seq<Entry>, es: seq<CoreEvent>): seq<Turned> {
    if es == [] then []
    else
      var n := |es| - 1;
      var sent := Sent(db, es[..n]);
      match es[n]
      case Served(_) => sent
      case Turn(uid) =>
        match ByUid(db, uid)
        case None => sent
        case Some(e) =>
          if uid in Table(es[..n]) && e.measurements != []
          then sent + [Turned(uid, Measurement(e, Table(es[..n])[uid]))]
          else sent
  }

  /**
   * The measurement of a turn is number t of the sensor's list, modulo its length, where t counts
   * the turns since the enable that started the worker.
   */
  lemma TurnSends(db: seq<Entry>, es: seq<CoreEvent>, uid: Uid) returns (j: nat)
    requires uid in Table(es) && ByUid(db, uid).Some? && ByUid(db, uid).value.measurements != []
    ensures j < |es| && Switches(es[j], uid, true) && uid !in Table(es[..j])
    ensures forall i :: j < i < |es| ==> !Switches(es[i], uid, false)
    ensures var all := ByUid(db, uid).value.measurements;
            Sent(db, es + [Turn(uid)]) == Sent(db, es) + [Turned(uid, all[Turns(es[j + 1..], uid) % |all|])]
  {
    j := WorkerCountsTurns(es, uid);
    assert (es + [Turn(uid)])[..|es|] == es;
  }
}
