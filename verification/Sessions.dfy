/**
 * Sessions in the closed system: when a pending open completes, and exactly when closing a sensor
 * can leave it unable to open ever after.
 */
module Sessions {
  import opened Common
  import opened Attributes
  import opened Protocol
  import opened SensorModel
  import opened Discovery
  import opened TaskLedger
  import opened Observer
  import opened SensorCore
  import opened ClosedSystem

  function Times(n: nat, m: Move): (ms: seq<Move>)
    ensures |ms| == n
  {
    if n == 0 then [] else [m] + Times(n - 1, m)
  }

  lemma {:induction false} MovesConcat(c: Config, y: System, ms: seq<Move>, ns: seq<Move>)
    ensures Moves(c, y, ms + ns) == Moves(c, Moves(c, y, ms), ns)
    decreases |ms|
  {
    if ms == [] {
      assert ms + ns == ns;
    } else {
      assert (ms + ns)[1..] == ms[1..] + ns;
      MovesConcat(c, Next(c, y, ms[0]), ms[1..], ns);
    }
  }

  lemma TimesStep(c: Config, y: System, n: nat, m: Move)
    requires n > 0
    ensures Moves(c, y, Times(n, m)) == Moves(c, Next(c, y, m), Times(n - 1, m))
  {
    assert Times(n, m)[0] == m && Times(n, m)[1..] == Times(n - 1, m);
  }

  // ---------------------------------------------------------------------
  // What holds once the initialisation is complete
  // ---------------------------------------------------------------------

  /** An unknown stream type never leaves an open pending. */
  predicate Sane(s: State) {
    s.halt == Aborted ==> s.reportId == 0
  }

  predicate Succeeded(s: State) {
    s.done != [] && s.done[0].outcome == Success
  }

  ghost predicate Sound(c: Config, y: System) {
    Finished(c, y) && Balanced(y.s, 0) && Sane(y.s) && (y.open ==> Succeeded(y.s))
  }

  lemma StepSane(s: State, e: Event)
    requires Sane(s) && (e.UserOpen? ==> s.reportId == 0)
    ensures Sane(Step(s, e))
  {
    if s.halt == Running && Step(s, e).halt == Aborted { AbortingStep(s, e); }
  }

  /** Whatever a move does to the sensor is one event, or nothing. */
  lemma MoveSane(c: Config, y: System, m: Move)
    requires Sane(y.s) && (y.open ==> Succeeded(y.s))
    ensures var z := Next(c, y, m);
            Sane(z.s) && (Succeeded(y.s) ==> Succeeded(z.s)) && (z.open ==> Succeeded(z.s))
  {
    match m
    case Serve(up) =>
    case Receive =>
      if y.replies != [] {
        StepSane(y.s, ReplyEvent(y.replies[0]));
        StepGrows(y.s, ReplyEvent(y.replies[0]));
      }
    case Work(uid) =>
    case PressOpen => if MayOpen(y) { StepSane(y.s, UserOpen); StepGrows(y.s, UserOpen); }
    case PressClose => if y.open { StepSane(y.s, UserClose); StepGrows(y.s, UserClose); }
  }

  lemma SoundStays(c: Config, y: System, m: Move, dataType: string)
    requires Sensible(c, dataType) && Sound(c, y)
    ensures Sound(c, Next(c, y, m)) && (Succeeded(y.s) ==> Succeeded(Next(c, y, m).s))
  {
    FinishedStays(c, y, m, dataType);
    MoveBalanced(c, y, m, 0);
    MoveSane(c, y, m);
  }

  lemma {:induction false} SoundForGood(c: Config, y: System, ms: seq<Move>, dataType: string)
    requires Sensible(c, dataType) && Sound(c, y)
    ensures Sound(c, Moves(c, y, ms)) && (Succeeded(y.s) ==> Succeeded(Moves(c, y, ms).s))
    decreases |ms|
  {
    if ms != [] {
      SoundStays(c, y, ms[0], dataType);
      SoundForGood(c, Next(c, y, ms[0]), ms[1..], dataType);
    }
  }

  lemma {:induction false} MovesSane(c: Config, y: System, ms: seq<Move>)
    requires Sane(y.s) && (y.open ==> Succeeded(y.s))
    ensures var z := Moves(c, y, ms); Sane(z.s) && (z.open ==> Succeeded(z.s))
    decreases |ms|
  {
    if ms != [] {
      MoveSane(c, y, ms[0]);
      MovesSane(c, Next(c, y, ms[0]), ms[1..]);
    }
  }

  /** Every reachable state after the initialisation is sound. */
  lemma Reached(c: Config, kind: Kind, dataType: string, uid: Uid, ms: seq<Move>)
    requires Sensible(c, dataType) && Moves(c, Start(kind, dataType, uid), ms).s.done != []
    ensures Sound(c, Moves(c, Start(kind, dataType, uid), ms))
  {
    StartInv(c, kind, dataType, uid, 0);
    InvMoves(c, Start(kind, dataType, uid), ms, dataType, 0);
    MovesSane(c, Start(kind, dataType, uid), ms);
  }

  lemma OpenIsReached(c: Config, kind: Kind, dataType: string, uid: Uid, ms: seq<Move>)
    requires Sensible(c, dataType) && Moves(c, Start(kind, dataType, uid), ms).open
    ensures Sound(c, Moves(c, Start(kind, dataType, uid), ms))
  {
    MovesSane(c, Start(kind, dataType, uid), ms);
    Reached(c, kind, dataType, uid, ms);
  }

  // ---------------------------------------------------------------------
  // A pending open can be completed
  // ---------------------------------------------------------------------

  predicate OnlyAcksAdded(before: seq<Reply>, after: seq<Reply>) {
    forall r <- after :: r.Ack? || r in before
  }

  lemma AckAdded(before: seq<Reply>, k: nat, after: seq<Reply>)
    requires OnlyAcksAdded(before + [Ack(k)], after)
    ensures OnlyAcksAdded(before, after)
  {
  }

  /** The core takes every request there is. */
  lemma {:induction false} ServeAll(c: Config, y: System, n: nat)
    requires Finished(c, y) && n == |y.s.client.sent| - y.taken
    ensures var z := Moves(c, y, Times(n, Serve(true)));
            && Finished(c, z) && z.s == y.s && z.open == y.open && z.taken == |y.s.client.sent|
            && OnlyAcksAdded(y.replies, z.replies)
    decreases n
  {
    if n > 0 {
      var z := Next(c, y, Serve(true));
      SessionServe(c, y, true);
      ServeAcknowledges(c, y);
      TimesStep(c, y, n, Serve(true));
      ServeAll(c, z, n - 1);
      AckAdded(y.replies, y.taken, Moves(c, z, Times(n - 1, Serve(true))).replies);
    }
  }

  /** Serving a session request only acknowledges it. */
  lemma ServeAcknowledges(c: Config, y: System)
    requires Finished(c, y) && y.taken < |y.s.client.sent|
    ensures var z := ServeOne(c, y, true);
            z.replies == y.replies + [Ack(y.taken)] && z.s == y.s && z.open == y.open && z.taken == y.taken + 1
  {
    assert SessionRequest(y.s.client.sent[y.taken]);
  }

  /** A measurement of the own sensor completes whatever is pending. */
  lemma OwnMeasurementCompletes(s: State, b: Body)
    requires Balanced(s, 0) && s.halt == Running && IsMeasurement(b)
    ensures Step(s, Indication(s.uid, [b])).reportId == 0
  {
    var m := Protocol.Report(b.id, s.uid, b.payload);
    assert [b][1..] == [];
    assert HandleReport(Deliver(s, m), s.uid, []) == Deliver(s, m);
    DeliverWatched(s, m);
    assert !Hear(WatchOf(s), m).pending;
  }

  /** A measurement of the own sensor is on its way, behind `p` other replies. */
  predicate OwnNewsAt(y: System, p: nat) {
    p < |y.replies| && y.replies[p].News? && y.replies[p].uid == y.s.uid
  }

  predicate OwnNewsComing(y: System) {
    exists p: nat :: p < |y.replies| && OwnNewsAt(y, p)
  }

  predicate NoOpening(ms: seq<Move>) {
    forall m <- ms :: !m.PressOpen?
  }

  function Receives(ms: seq<Move>): nat {
    if ms == [] then 0 else (if ms[0].Receive? then 1 else 0) + Receives(ms[1..])
  }

  /** No move but an open makes anything pending, and none touches the UID. */
  lemma IdleStep(c: Config, y: System, m: Move)
    requires Sound(c, y) && !m.PressOpen?
    ensures Next(c, y, m).s.uid == y.s.uid
    ensures Next(c, y, m).s.reportId in {0, y.s.reportId}
    ensures !y.open ==> !Next(c, y, m).open
  {
    if m.Receive? && y.replies != [] {
      ReceiveSession(c, y);
    } else if m.PressClose? && y.open && y.s.halt == Running {
      CloseSends(y.s);
    }
  }

  lemma ReceiveSession(c: Config, y: System)
    requires Finished(c, y) && y.replies != []
    ensures SameSession(y.s, ReceiveOne(y).s)
  {
    assert SessionReply(y.replies[0]);
    match y.replies[0]
    case Ack(k) => AckStep(y.s, k);
    case News(uid, bodies) =>
      assert bodies == [bodies[0]];
      MeasurementStep(y.s, uid, bodies[0]);
  }

  /** A received own measurement leaves nothing pending. */
  lemma ReceiveOwnNews(c: Config, y: System)
    requires Sound(c, y) && OwnNewsAt(y, 0)
    ensures ReceiveOne(y).s.reportId == 0
  {
    ReceiveSession(c, y);
    if y.s.reportId != 0 {
      assert SessionReply(y.replies[0]);
      var b := y.replies[0].bodies[0];
      assert y.replies[0].bodies == [b];
      OwnMeasurementCompletes(y.s, b);
    }
  }

  /** Own news moves up the queue, and does its work at the head of it. */
  lemma NewsStep(c: Config, y: System, m: Move, p: nat)
    requires Sound(c, y) && OwnNewsAt(y, p) && !m.PressOpen?
    ensures if !m.Receive? then OwnNewsAt(Next(c, y, m), p)
            else if p > 0 then OwnNewsAt(Next(c, y, m), p - 1)
            else Next(c, y, m).s.reportId == 0
    ensures !y.open ==> !Next(c, y, m).open
  {
    IdleStep(c, y, m);
    match m
    case Receive => if p == 0 { ReceiveOwnNews(c, y); }
    case _ =>
  }

  lemma {:induction false} IdleStays(c: Config, y: System, ms: seq<Move>, dataType: string)
    requires Sensible(c, dataType) && Sound(c, y) && NoOpening(ms) && y.s.reportId == 0
    ensures Moves(c, y, ms).s.reportId == 0 && (!y.open ==> !Moves(c, y, ms).open)
    decreases |ms|
  {
    if ms != [] {
      assert ms[0] in ms;
      IdleStep(c, y, ms[0]);
      SoundStays(c, y, ms[0], dataType);
      IdleStays(c, Next(c, y, ms[0]), ms[1..], dataType);
    }
  }

  /** In every schedule without another open, own news is on its way until received; then nothing is pending. */
  lemma {:induction false} NewsArrives(c: Config, y: System, ms: seq<Move>, p: nat, dataType: string)
    requires Sensible(c, dataType) && Sound(c, y) && NoOpening(ms) && OwnNewsAt(y, p)
    ensures var z := Moves(c, y, ms);
            && (z.s.reportId == 0 || OwnNewsComing(z))
            && (Receives(ms) > p ==> z.s.reportId == 0)
            && (!y.open ==> !z.open)
    decreases |ms|
  {
    if ms != [] {
      var z := Next(c, y, ms[0]);
      assert ms[0] in ms;
      SoundStays(c, y, ms[0], dataType);
      NewsStep(c, y, ms[0], p);
      if !ms[0].Receive? {
        NewsArrives(c, z, ms[1..], p, dataType);
      } else if p > 0 {
        NewsArrives(c, z, ms[1..], p - 1, dataType);
      } else {
        IdleStays(c, z, ms[1..], dataType);
      }
    }
  }

  /** The core knows the sensor and has something to report for it. */
  predicate Measures(c: Config, uid: Uid) {
    ByUid(DbAt(c, true), uid).Some? && ByUid(DbAt(c, true), uid).value.measurements != []
  }

  /** With everything served, one worker turn puts an own measurement behind all other replies. */
  lemma WorkerTurn(c: Config, z: System, dataType: string)
    requires Sensible(c, dataType) && Finished(c, z) && z.taken == |z.s.client.sent|
    requires z.open && z.s.reportId != 0 && Measures(c, z.s.uid)
    ensures var w := WorkOne(c, z, z.s.uid);
            && Finished(c, w) && w.s == z.s && w.replies != []
            && w.replies[|w.replies| - 1].News? && w.replies[|w.replies| - 1].uid == z.s.uid
  {
    assert z.s.client.sent[..z.taken] == z.s.client.sent;
    SessionWork(c, z, dataType, z.s.uid);
  }

  predicate NoUserMove(ms: seq<Move>) {
    forall m <- ms :: !m.PressOpen? && !m.PressClose?
  }

  /** Receiving everything, an own measurement last. */
  lemma DrainCompletes(c: Config, w: System, dataType: string) returns (ms: seq<Move>)
    requires Sensible(c, dataType) && Sound(c, w) && w.replies != [] && OwnNewsAt(w, |w.replies| - 1)
    ensures Moves(c, w, ms).s.reportId == 0 && NoUserMove(ms)
  {
    ms := Times(|w.replies|, Receive);
    TimesAre(|w.replies|, Receive);
    NewsArrives(c, w, ms, |w.replies| - 1, dataType);
  }

  lemma ServedCompletes(c: Config, z: System, dataType: string) returns (ms: seq<Move>)
    requires Sensible(c, dataType) && Sound(c, z) && z.taken == |z.s.client.sent|
    requires OpenWaits(z) && Measures(c, z.s.uid)
    ensures Moves(c, z, ms).s.reportId == 0 && NoUserMove(ms)
  {
    WorkerTurn(c, z, dataType);
    var w := WorkOne(c, z, z.s.uid);
    SoundStays(c, z, Work(z.s.uid), dataType);
    var drain := DrainCompletes(c, w, dataType);
    WorkThen(c, z, z.s.uid, drain);
    ms := [Work(z.s.uid)] + drain;
  }

  lemma PendingCompletes(c: Config, y: System, dataType: string) returns (ms: seq<Move>)
    requires Sensible(c, dataType) && Sound(c, y) && OpenWaits(y) && Measures(c, y.s.uid)
    ensures Moves(c, y, ms).s.reportId == 0 && NoUserMove(ms)
  {
    var n := |y.s.client.sent| - y.taken;
    var serve := Times(n, Serve(true));
    ServeAll(c, y, n);
    TimesAre(n, Serve(true));
    SoundForGood(c, y, serve, dataType);
    var rest := ServedCompletes(c, Moves(c, y, serve), dataType);
    MovesConcat(c, y, serve, rest);
    ms := serve + rest;
  }

  lemma WorkThen(c: Config, z: System, uid: Uid, ms: seq<Move>)
    requires !z.crashed
    ensures Moves(c, z, [Work(uid)] + ms) == Moves(c, WorkOne(c, z, uid), ms)
  {
    assert ([Work(uid)] + ms)[1..] == ms;
  }

  lemma {:induction false} TimesAre(n: nat, m: Move)
    ensures forall x <- Times(n, m) :: x == m
    ensures Receives(Times(n, m)) == if m.Receive? then n else 0
  {
    if n > 0 { TimesAre(n - 1, m); }
  }

  /**
   * From every reachable state in which an open is waiting (and was not closed again), for a
   * sensor with at least one measurement: serving what is outstanding, one worker turn and
   * receiving the replies completes it.
   */
  lemma OpenCanComplete(c: Config, kind: Kind, dataType: string, uid: Uid, ms: seq<Move>) returns (more: seq<Move>)
    requires Sensible(c, dataType)
    requires var y := Moves(c, Start(kind, dataType, uid), ms);
             OpenWaits(y) && Measures(c, y.s.uid)
    ensures Moves(c, Start(kind, dataType, uid), ms + more).s.reportId == 0 && NoUserMove(more)
  {
    var y := Moves(c, Start(kind, dataType, uid), ms);
    OpenIsReached(c, kind, dataType, uid, ms);
    more := PendingCompletes(c, y, dataType);
    MovesConcat(c, Start(kind, dataType, uid), ms, more);
  }

  /**
   * And no schedule can prevent it: from every reachable state after the initialisation with an
   * own measurement behind `p` other replies, every continuation without another open (closing
   * included) in which more than `p` replies are received leaves nothing pending.
   */
  lemma MeasurementCompletes(c: Config, kind: Kind, dataType: string, uid: Uid, ms: seq<Move>, p: nat, more: seq<Move>)
    requires Sensible(c, dataType)
    requires var y := Moves(c, Start(kind, dataType, uid), ms); y.s.done != [] && OwnNewsAt(y, p)
    requires NoOpening(more) && Receives(more) > p
    ensures Moves(c, Moves(c, Start(kind, dataType, uid), ms), more).s.reportId == 0
  {
    Reached(c, kind, dataType, uid, ms);
    NewsArrives(c, Moves(c, Start(kind, dataType, uid), ms), more, p, dataType);
  }

  // ---------------------------------------------------------------------
  // How opens and closes end
  // ---------------------------------------------------------------------

  predicate OnlySuccess(before: seq<Completion>, after: seq<Completion>) {
    before <= after && forall i :: |before| <= i < |after| ==> after[i].outcome == Success
  }

  lemma MeasurementEnds(s: State, id: nat, m: Protocol.Report)
    requires m.id == REPORT_MEASUREMENT || m.id == REPORT_PROXIMITY
    ensures OnlySuccess(s.done, Call(s, id, m).done) && Call(s, id, m).attrs == s.attrs
  {
  }

  lemma {:induction false} EmissionEnds(s: State, ids: seq<nat>, m: Protocol.Report)
    requires m.id == REPORT_MEASUREMENT || m.id == REPORT_PROXIMITY
    ensures OnlySuccess(s.done, Emit(s, ids, m).done) && Emit(s, ids, m).attrs == s.attrs
    decreases |ids|
  {
    if ids != [] {
      MeasurementEnds(s, ids[0], m);
      EmissionEnds(Call(s, ids[0], m), ids[1..], m);
    }
  }

  lemma ReplyEnds(c: Config, y: System)
    requires Finished(c, y) && y.replies != []
    ensures OnlySuccess(y.s.done, ReceiveOne(y).s.done) && ReceiveOne(y).s.attrs == y.s.attrs
  {
    assert SessionReply(y.replies[0]);
    if y.replies[0].News? && y.s.halt == Running {
      var b := y.replies[0].bodies[0];
      var m := Protocol.Report(b.id, y.replies[0].uid, b.payload);
      assert y.replies[0].bodies == [b] && [b][1..] == [];
      EmissionEnds(y.s, Ids(y.s.client.handlers), m);
      assert HandleReport(Deliver(y.s, m), y.replies[0].uid, []) == Deliver(y.s, m);
    }
  }

  /** How a sensor with these attributes ends a session task. */
  predicate Ends(a: Attrs, o: Outcome) {
    || o == Success
    || (o == Unavailable && !a.available)
    || (o == NoSampleRate && a.available && a.streamType == 0 && a.sampleRate <= 0.0)
  }

  predicate SessionsEnd(s: State) {
    forall i :: 1 <= i < |s.done| ==> Ends(s.attrs, s.done[i].outcome)
  }

  lemma OpenEnding(s: State)
    ensures var t := Open(s);
            && t.attrs == s.attrs
            && (t.done == s.done || (|t.done| == |s.done| + 1 && s.done <= t.done
                                     && !Openable(s.attrs) && Ends(s.attrs, t.done[|s.done|].outcome)))
  {
  }

  lemma EndsStays(c: Config, y: System, m: Move)
    requires Finished(c, y) && SessionsEnd(y.s)
    ensures SessionsEnd(Next(c, y, m).s) && Next(c, y, m).s.attrs == y.s.attrs
  {
    match m
    case Serve(up) =>
    case Receive =>
      if y.replies != [] {
        ReplyEnds(c, y);
        SuccessEnds(y.s, ReceiveOne(y).s);
      }
    case Work(uid) =>
    case PressOpen => OpenEnding(y.s);
    case PressClose => CloseEnding(y.s);
  }

  lemma CloseEnding(s: State)
    ensures Close(s).done == s.done && Close(s).attrs == s.attrs
  {
  }

  lemma SuccessEnds(s: State, t: State)
    requires SessionsEnd(s) && OnlySuccess(s.done, t.done) && t.attrs == s.attrs
    ensures SessionsEnd(t)
  {
  }

  lemma OneEnding(s: State, h: Handler, m: Protocol.Report)
    requires h.BaseHandler?
    ensures |ReportReceived(s, h, m).done| <= |s.done| + 1
  {
  }

  lemma FirstEnding(c: Config, y: System, m: Move, dataType: string)
    requires Sensible(c, dataType) && y.s.dataType == dataType && Initialising(c, y)
    ensures |Next(c, y, m).s.done| <= 1
  {
    InitStep(c, y, m, dataType);
    if m.Receive? && |y.replies| == 1 {
      var r := ReceiveNews(c, y);
      OneEnding(y.s, HANDLER, r);
    } else if m.Receive? && |y.replies| == 2 {
      ReceiveAck(c, y);
    }
  }

  lemma {:induction false} MovesEnd(c: Config, y: System, ms: seq<Move>, dataType: string)
    requires ClosedSystem.Inv(c, y, dataType, 0) && SessionsEnd(y.s)
    ensures SessionsEnd(Moves(c, y, ms).s)
    decreases |ms|
  {
    if ms != [] {
      InvStep(c, y, ms[0], dataType, 0);
      if Finished(c, y) { EndsStays(c, y, ms[0]); } else { FirstEnding(c, y, ms[0], dataType); }
      MovesEnd(c, Next(c, y, ms[0]), ms[1..], dataType);
    }
  }

  /**
   * In the closed system no open or close ends in any other way than it should: with success, or
   * with the refusal that the sensor's attributes call for. So once the attributes let the sensor
   * be opened, every open that completes does so with success; and they stay as they are.
   */
  lemma SessionOutcomes(c: Config, kind: Kind, dataType: string, uid: Uid, ms: seq<Move>, more: seq<Move>)
    requires Sensible(c, dataType)
    ensures var y := Moves(c, Start(kind, dataType, uid), ms);
            && SessionsEnd(y.s)
            && (Openable(y.s.attrs) ==> forall i :: 1 <= i < |y.s.done| ==> y.s.done[i].outcome == Success)
            && (y.s.done != [] ==> Moves(c, y, more).s.attrs == y.s.attrs)
  {
    var y := Moves(c, Start(kind, dataType, uid), ms);
    StartInv(c, kind, dataType, uid, 0);
    InvMoves(c, Start(kind, dataType, uid), ms, dataType, 0);
    MovesEnd(c, Start(kind, dataType, uid), ms, dataType);
    if y.s.done != [] { AttributesSettled(c, y, more, dataType); }
  }

  lemma {:induction false} AttributesSettled(c: Config, y: System, ms: seq<Move>, dataType: string)
    requires Sensible(c, dataType) && Finished(c, y) && SessionsEnd(y.s)
    ensures Moves(c, y, ms).s.attrs == y.s.attrs
    decreases |ms|
  {
    if ms != [] {
      EndsStays(c, y, ms[0]);
      FinishedStays(c, y, ms[0], dataType);
      AttributesSettled(c, Next(c, y, ms[0]), ms[1..], dataType);
    }
  }

  // ---------------------------------------------------------------------
  // Closing too early
  // ---------------------------------------------------------------------

  /** A closed sensor with an open still pending, and nothing on the way that could complete it. */
  ghost predicate Orphaned(c: Config, y: System) {
    && Finished(c, y) && !y.open && y.s.reportId != 0
    && y.s.uid !in y.workers
    && (forall k :: y.taken <= k < |y.s.client.sent| ==> !EnablesFor(y.s.client.sent[k], y.s.uid))
    && (forall r <- y.replies :: r.News? ==> r.uid != y.s.uid)
  }

  predicate EnablesFor(r: Request, uid: Uid) {
    Enables(r) && r.uid == uid
  }

  lemma ForeignCall(s: State, id: nat, m: Protocol.Report)
    requires (m.id == REPORT_MEASUREMENT || m.id == REPORT_PROXIMITY) && m.uid != s.uid
    ensures Call(s, id, m).reportId == s.reportId && Call(s, id, m).uid == s.uid
  {
  }

  lemma {:induction false} ForeignEmit(s: State, ids: seq<nat>, m: Protocol.Report)
    requires (m.id == REPORT_MEASUREMENT || m.id == REPORT_PROXIMITY) && m.uid != s.uid
    ensures Emit(s, ids, m).reportId == s.reportId
    decreases |ids|
  {
    if ids != [] {
      ForeignCall(s, ids[0], m);
      ForeignEmit(Call(s, ids[0], m), ids[1..], m);
    }
  }

  lemma ForeignReceive(c: Config, y: System)
    requires Orphaned(c, y) && y.replies != []
    ensures ReceiveOne(y).s.reportId == y.s.reportId && SameSession(y.s, ReceiveOne(y).s)
  {
    assert SessionReply(y.replies[0]);
    match y.replies[0]
    case Ack(k) => AckStep(y.s, k);
    case News(uid, bodies) =>
      var b := bodies[0];
      assert bodies == [b] && [b][1..] == [];
      MeasurementStep(y.s, uid, b);
      var m := Protocol.Report(b.id, uid, b.payload);
      ForeignEmit(y.s, Ids(y.s.client.handlers), m);
      assert HandleReport(Deliver(y.s, m), uid, []) == Deliver(y.s, m);
  }

  lemma OrphanedServe(c: Config, y: System, up: bool)
    requires Orphaned(c, y) && y.taken < |y.s.client.sent|
    ensures Orphaned(c, ServeOne(c, y, up))
  {
    SessionServe(c, y, up);
    assert SessionRequest(y.s.client.sent[y.taken]);
    assert !EnablesFor(y.s.client.sent[y.taken], y.s.uid);
  }

  lemma OrphanedStays(c: Config, y: System, m: Move, dataType: string)
    requires Sensible(c, dataType) && Orphaned(c, y)
    ensures Orphaned(c, Next(c, y, m))
  {
    FinishedStays(c, y, m, dataType);
    match m
    case Serve(up) => if y.taken < |y.s.client.sent| { OrphanedServe(c, y, up); }
    case Receive => if y.replies != [] { ForeignReceive(c, y); }
    case Work(uid) =>
    case PressOpen =>
    case PressClose =>
  }

  /** Such a sensor stays that way: whatever happens, it can never be opened again. */
  lemma {:induction false} OrphanedForever(c: Config, y: System, ms: seq<Move>, dataType: string)
    requires Sensible(c, dataType) && Orphaned(c, y)
    ensures var z := Moves(c, y, ms); Orphaned(c, z) && !MayOpen(z) && z.s.reportId != 0
    decreases |ms|
  {
    if ms != [] {
      OrphanedStays(c, y, ms[0], dataType);
      OrphanedForever(c, Next(c, y, ms[0]), ms[1..], dataType);
    }
  }

  lemma EnabledLast(rs: seq<Request>, r: Request)
    requires Disables(r) && !Enables(r)
    ensures !Enabled(rs + [r], r.uid)
  {
    assert (rs + [r])[..|rs|] == rs;
  }

  function Outstanding(y: System): nat {
    if y.taken <= |y.s.client.sent| then |y.s.client.sent| - y.taken else 0
  }

  lemma CloseSends(s: State)
    ensures Close(s).client.sent == s.client.sent + [Request(s.uid, REQUEST_DISABLE, Empty, Some(s.nextTask))]
    ensures Close(s).reportId == s.reportId && Close(s).uid == s.uid && Close(s).heard == s.heard
  {
  }

  /** When nothing own is on its way, serving what is outstanding after the close is enough. */
  lemma ClosingOrphans(c: Config, y: System, dataType: string)
    requires Sensible(c, dataType) && Sound(c, y) && OpenWaits(y) && !OwnNewsComing(y)
    ensures Orphaned(c, Moves(c, Next(c, y, PressClose), Times(Outstanding(y) + 1, Serve(true))))
  {
    var n := Outstanding(y) + 1;
    var z := Next(c, y, PressClose);
    NothingOwn(y);
    FinishedStays(c, y, PressClose, dataType);
    CloseSends(y.s);
    ServeAll(c, z, n);
    var w := Moves(c, z, Times(n, Serve(true)));
    var r := Request(y.s.uid, REQUEST_DISABLE, Empty, Some(y.s.nextTask));
    EnabledLast(y.s.client.sent, r);
    assert w.s.client.sent[..w.taken] == y.s.client.sent + [r];
  }

  lemma NothingOwn(y: System)
    requires !OwnNewsComing(y)
    ensures forall r <- y.replies :: r.News? ==> r.uid != y.s.uid
  {
    forall r <- y.replies | r.News? ensures r.uid != y.s.uid {
      var p :| 0 <= p < |y.replies| && y.replies[p] == r;
      assert !OwnNewsAt(y, p);
    }
  }

  /** Whatever happens from here on, the user never gets to open the sensor. */
  ghost predicate Bricked(c: Config, z: System) {
    forall later: seq<Move> :: !MayOpen(Moves(c, z, later))
  }

  /** Nothing pending after a close, or own news on its way: the sensor can be opened again. */
  lemma ClosedRecovers(c: Config, z: System, dataType: string)
    requires Sensible(c, dataType) && Sound(c, z) && !z.open && Succeeded(z.s)
    requires z.s.reportId == 0 || OwnNewsComing(z)
    ensures !Bricked(c, z)
  {
    if z.s.reportId == 0 {
      assert MayOpen(Moves(c, z, []));
    } else {
      var p: nat :| p < |z.replies| && OwnNewsAt(z, p);
      var later := Times(p + 1, Receive);
      TimesAre(p + 1, Receive);
      NewsArrives(c, z, later, p, dataType);
      SoundForGood(c, z, later, dataType);
      assert MayOpen(Moves(c, z, later));
    }
  }

  /** After a close: own news stays on its way, or has arrived, in every schedule of the core and the client. */
  lemma ClosedKeepsNews(c: Config, y: System, more: seq<Move>, dataType: string)
    requires Sensible(c, dataType) && Sound(c, y) && y.open && NoUserMove(more)
    requires y.s.reportId == 0 || OwnNewsComing(y)
    ensures !Bricked(c, Moves(c, Next(c, y, PressClose), more))
  {
    var x := Next(c, y, PressClose);
    SoundStays(c, y, PressClose, dataType);
    IdleStep(c, y, PressClose);
    SoundForGood(c, x, more, dataType);
    if y.s.reportId == 0 {
      IdleStays(c, x, more, dataType);
    } else {
      var p: nat :| p < |y.replies| && OwnNewsAt(y, p);
      NewsStep(c, y, PressClose, p);
      NewsArrives(c, x, more, p, dataType);
    }
    ClosedRecovers(c, Moves(c, x, more), dataType);
  }

  /**
   * Exactly when closing a sensor can make it useless: in every reachable state in which it is
   * open, core and client can bring about that it never opens again after the close if and only
   * if the open is still pending and no own measurement is on its way.
   */
  lemma ClosedTooEarly(c: Config, kind: Kind, dataType: string, uid: Uid, ms: seq<Move>)
    requires Sensible(c, dataType) && Moves(c, Start(kind, dataType, uid), ms).open
    ensures var y := Moves(c, Start(kind, dataType, uid), ms);
            ClosingMayBrick(c, y) <==> y.s.reportId != 0 && !OwnNewsComing(y)
  {
    OpenIsReached(c, kind, dataType, uid, ms);
    BrickedIff(c, Moves(c, Start(kind, dataType, uid), ms), dataType);
  }

  /** Core and client can, without the user, see to it that a sensor closed now never opens again. */
  ghost predicate ClosingMayBrick(c: Config, y: System) {
    exists more :: NoUserMove(more) && Bricked(c, Moves(c, Next(c, y, PressClose), more))
  }

  lemma BrickedIff(c: Config, y: System, dataType: string)
    requires Sensible(c, dataType) && Sound(c, y) && y.open
    ensures ClosingMayBrick(c, y) <==> y.s.reportId != 0 && !OwnNewsComing(y)
  {
    if y.s.reportId != 0 && !OwnNewsComing(y) {
      MayBrick(c, y, dataType);
    } else {
      forall more | NoUserMove(more) ensures !Bricked(c, Moves(c, Next(c, y, PressClose), more)) {
        ClosedKeepsNews(c, y, more, dataType);
      }
    }
  }

  lemma MayBrick(c: Config, y: System, dataType: string)
    requires Sensible(c, dataType) && Sound(c, y) && OpenWaits(y) && !OwnNewsComing(y)
    ensures ClosingMayBrick(c, y)
  {
    var more := Times(Outstanding(y) + 1, Serve(true));
    TimesAre(Outstanding(y) + 1, Serve(true));
    ClosingOrphans(c, y, dataType);
    OrphanedBricked(c, Moves(c, Next(c, y, PressClose), more), dataType);
    assert NoUserMove(more) && Bricked(c, Moves(c, Next(c, y, PressClose), more));
  }

  lemma OrphanedBricked(c: Config, z: System, dataType: string)
    requires Sensible(c, dataType) && Orphaned(c, z)
    ensures Bricked(c, z)
  {
    forall later: seq<Move> ensures !MayOpen(Moves(c, z, later)) {
      OrphanedForever(c, z, later, dataType);
    }
  }

  /** A close with nothing pending leaves a sensor that can be opened at once. */
  lemma IdleCloseReopens(c: Config, kind: Kind, dataType: string, uid: Uid, ms: seq<Move>)
    requires Sensible(c, dataType)
    requires var y := Moves(c, Start(kind, dataType, uid), ms); y.open && y.s.reportId == 0
    ensures MayOpen(Next(c, Moves(c, Start(kind, dataType, uid), ms), PressClose))
  {
    var y := Moves(c, Start(kind, dataType, uid), ms);
    OpenIsReached(c, kind, dataType, uid, ms);
    SoundStays(c, y, PressClose, dataType);
    IdleStep(c, y, PressClose);
  }

  // ---------------------------------------------------------------------
  // It does happen
  // ---------------------------------------------------------------------

  /** Serve the request in flight, receive its acknowledgement, receive its answer. */
  const ROUND := [Serve(true), Receive, Receive]

  lemma RoundMoves(c: Config, y: System)
    ensures Moves(c, y, ROUND) == Next(c, Next(c, Next(c, y, Serve(true)), Receive), Receive)
  {
    assert ROUND[1..] == [Receive, Receive] && [Receive, Receive][1..] == [Receive] && [Receive][1..] == [];
    var z := Next(c, Next(c, Next(c, y, Serve(true)), Receive), Receive);
    assert Moves(c, z, []) == z;
    assert Moves(c, Next(c, Next(c, y, Serve(true)), Receive), [Receive]) == z;
    assert Moves(c, Next(c, y, Serve(true)), [Receive, Receive]) == z;
  }

  /** The state in which the answer is about to be received. */
  lemma Exchange(c: Config, y: System, dataType: string) returns (w: System)
    requires Sensible(c, dataType) && y.s.dataType == dataType
    requires Initialising(c, y) && RequestInFlight(y, PhaseOf(y))
    ensures Initialising(c, w) && PhaseOf(w) == PhaseOf(y) && w.s.dataType == dataType
    ensures w.replies != [] && Moves(c, y, ROUND) == ReceiveOne(w)
    ensures w.replies == [ServeOne(c, y, true).replies[1]] && w.answers == ServeOne(c, y, true).answers
    ensures w.s.attrs == y.s.attrs && w.s.uid == y.s.uid && w.s.retries == y.s.retries
  {
    var z := ServeOne(c, y, true);
    ServeToken(c, y, dataType, true);
    w := ReceiveOne(z);
    InitAck(c, z, dataType);
    ReceiveAck(c, z);
    RoundMoves(c, y);
    assert z.replies[1..] == [z.replies[1]];
  }

  /** The attributes the core reports for the sensors of a type. */
  function DescribedAs(c: Config, dataType: string): seq<Attr>
    requires Sensible(c, dataType) && ByType(c.db, dataType).Some?
  {
    AttributesKnown(c, dataType, true);
    AttributesResponse(DbAt(c, true), ByType(c.db, dataType).value.uid).value.payload.attributes.value
  }

  lemma PollRound(c: Config, y: System, dataType: string)
    requires Sensible(c, dataType) && y.s.dataType == dataType && Initialising(c, y)
    requires PhaseOf(y).Polling? && RequestInFlight(y, Polling) && y.answers == [] && y.s.retries == 0
    ensures var z := Moves(c, y, ROUND);
            && Initialising(c, z) && PhaseOf(z).Discovering? && RequestInFlight(z, Discovering)
            && z.s.dataType == dataType && z.s.attrs == y.s.attrs
  {
    var w := Exchange(c, y, dataType);
    PollPositive(c, w, dataType);
    AnswerKeepsAttributes(c, w);
  }

  lemma DiscoveryRound(c: Config, y: System, dataType: string)
    requires Sensible(c, dataType) && y.s.dataType == dataType && Initialising(c, y)
    requires PhaseOf(y).Discovering? && RequestInFlight(y, Discovering) && ByType(c.db, dataType).Some?
    ensures var z := Moves(c, y, ROUND);
            && Initialising(c, z) && PhaseOf(z).Describing? && RequestInFlight(z, Describing)
            && z.s.dataType == dataType && z.s.attrs == y.s.attrs
  {
    var w := Exchange(c, y, dataType);
    DiscoveryAnswered(c, w, dataType);
    AnswerKeepsAttributes(c, w);
  }

  lemma AnswerKeepsAttributes(c: Config, w: System)
    requires Initialising(c, w) && |w.replies| == 1 && !PhaseOf(w).Describing?
    ensures ReceiveOne(w).s.attrs == w.s.attrs && ReceiveOne(w).s.dataType == w.s.dataType
  {
    var m := ReceiveNews(c, w);
    if m.payload.suid.Some? { SuidRequests(w.s, HANDLER, m.payload.suid.value); }
  }

  lemma DescriptionRound(c: Config, y: System, dataType: string)
    requires Sensible(c, dataType) && y.s.dataType == dataType && Initialising(c, y)
    requires PhaseOf(y).Describing? && RequestInFlight(y, Describing) && ByType(c.db, dataType).Some?
    ensures var z := Moves(c, y, ROUND);
            && z.s.attrs == ApplyAll(y.s.attrs, DescribedAs(c, dataType))
            && MayOpen(z) && z.replies == [] && z.s.halt == Running
  {
    ServeDescription(c, y, dataType, true);
    var w := Exchange(c, y, dataType);
    var m := ReceiveNews(c, w);
    AttributesAnswered(c, w, dataType);
    assert m.payload.attributes == Some(DescribedAs(c, dataType));
  }

  /** The initialisation in three rounds. */
  lemma InitRounds(c: Config, kind: Kind, dataType: string, uid: Uid)
    requires Sensible(c, dataType) && ByType(c.db, dataType).Some?
    ensures var z := Moves(c, Start(kind, dataType, uid), ROUND + (ROUND + ROUND));
            && z.s.attrs == ApplyAll(INITIAL, DescribedAs(c, dataType))
            && MayOpen(z) && z.replies == [] && z.s.halt == Running
  {
    var y0 := Start(kind, dataType, uid);
    StartInv(c, kind, dataType, uid, 0);
    PollRound(c, y0, dataType);
    var y1 := Moves(c, y0, ROUND);
    DiscoveryRound(c, y1, dataType);
    var y2 := Moves(c, y1, ROUND);
    DescriptionRound(c, y2, dataType);
    MovesConcat(c, y1, ROUND, ROUND);
    MovesConcat(c, y0, ROUND, ROUND + ROUND);
  }

  /**
   * Every configuration that knows the data type and describes a sensor that can be opened: three
   * rounds of the initialisation and an open reach a state with the open pending and nothing on
   * its way, so closing it there can make it useless.
   */
  lemma TooEarlyIsReachable(c: Config, kind: Kind, dataType: string, uid: Uid) returns (ms: seq<Move>)
    requires Sensible(c, dataType) && ByType(c.db, dataType).Some?
    requires Openable(ApplyAll(INITIAL, DescribedAs(c, dataType)))
    ensures var y := Moves(c, Start(kind, dataType, uid), ms);
            OpenWaits(y) && y.replies == [] && !OwnNewsComing(y)
  {
    var init := ROUND + (ROUND + ROUND);
    var y := Moves(c, Start(kind, dataType, uid), init);
    InitRounds(c, kind, dataType, uid);
    Reached(c, kind, dataType, uid, init);
    OpenPends(c, y);
    MovesConcat(c, Start(kind, dataType, uid), init, [PressOpen]);
    ms := init + [PressOpen];
  }

  lemma OpenPends(c: Config, y: System)
    requires MayOpen(y) && y.s.halt == Running && Openable(y.s.attrs) && Balanced(y.s, 0)
    ensures var z := Moves(c, y, [PressOpen]); OpenWaits(z) && z.replies == y.replies
  {
    assert [PressOpen][1..] == [];
    assert Moves(c, Next(c, y, PressOpen), []) == Next(c, y, PressOpen);
    assert y.s.client.nextId > 0;
    OpenIsPending(y.s);
  }

  lemma OpenIsPending(s: State)
    requires Openable(s.attrs)
    ensures Open(s).reportId != 0 || s.client.nextId == 0
  {
  }

  /** One such configuration: an on-change sensor that is available. */
  function Example(): Config {
    Config(Entry(REGISTRY, Uid(0, 1), [Attr(AVAILABLE, [YES])], []),
           [Entry("proximity", Uid(0, 2), [Attr(AVAILABLE, [YES]), Attr(STREAM_TYPE, [ONE])],
                  [Body(REPORT_PROXIMITY, GARBAGE.(near := Some(true)))])])
  }

  const YES := AttrValue(None, None, None, Some(true))
  const ONE := AttrValue(None, None, Some(1), None)

  lemma ExampleSensible()
    ensures Sensible(Example(), "proximity")
    ensures ByType(Example().db, "proximity") == Some(Example().db[0])
  {
  }

  lemma ExampleFound()
    ensures ByUid(DbAt(Example(), true), Example().db[0].uid) == Some(Example().db[0])
  {
    var c := Example();
    assert DbAt(c, true)[1..] == [c.db[0]];
    assert ByUid(DbAt(c, true), Uid(0, 2)) == ByUid([c.db[0]], Uid(0, 2));
  }

  lemma ExampleIsOpenable()
    ensures Sensible(Example(), "proximity") && ByType(Example().db, "proximity").Some?
    ensures Openable(ApplyAll(INITIAL, DescribedAs(Example(), "proximity")))
  {
    ExampleSensible();
    ExampleFound();
    var attrs := Example().db[0].attributes;
    assert DescribedAs(Example(), "proximity") == attrs;
    LastOfferWins(INITIAL, attrs);
    assert attrs[..1] == [Attr(AVAILABLE, [YES])];
    assert LastAvailable(attrs) == LastAvailable(attrs[..1]) == Some(true);
    assert LastStream(attrs) == Some(1);
  }

  /** A proximity sensor made useless by closing it too early. */
  lemma UselessSensorExists() returns (ms: seq<Move>, more: seq<Move>)
    ensures var y := Moves(Example(), Start(Proximity, "proximity", Uid(0, 0)), ms);
            y.open && NoUserMove(more) && Bricked(Example(), Moves(Example(), Next(Example(), y, PressClose), more))
  {
    ExampleIsOpenable();
    ms := TooEarlyIsReachable(Example(), Proximity, "proximity", Uid(0, 0));
    ClosedTooEarly(Example(), Proximity, "proximity", Uid(0, 0), ms);
    var y := Moves(Example(), Start(Proximity, "proximity", Uid(0, 0)), ms);
    more :| NoUserMove(more) && Bricked(Example(), Moves(Example(), Next(Example(), y, PressClose), more));
  }
}
