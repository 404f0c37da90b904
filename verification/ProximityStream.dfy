/**
 * The proximity sensor as a change filter: since the latest open the user sees the readings
 * with consecutive repetitions removed, however many copies of the handler are connected.
 */
module ProximityStream {
  import opened Common
  import opened Protocol
  import opened SensorModel
  import opened Discovery
  import opened Delivery

  /** Drop every element equal to the one before it. */
  function Dedup(xs: seq<bool>): seq<bool> {
    if |xs| <= 1 then xs
    else if xs[0] == xs[1] then Dedup(xs[1..])
    else [xs[0]] + Dedup(xs[1..])
  }

  lemma {:induction false} DedupFacts(xs: seq<bool>)
    ensures xs != [] ==> Dedup(xs) != [] && Dedup(xs)[0] == xs[0] && Last(Dedup(xs)) == Last(xs)
    ensures forall i :: 0 < i < |Dedup(xs)| ==> Dedup(xs)[i - 1] != Dedup(xs)[i]
  {
    if |xs| > 1 {
      DedupFacts(xs[1..]);
    }
  }

  function Last(xs: seq<bool>): bool
    requires xs != []
  {
    xs[|xs| - 1]
  }

  /** Adding one reading adds one element exactly when it is the first or differs from the last. */
  lemma {:induction false} DedupAppend(xs: seq<bool>, x: bool)
    ensures Dedup(xs + [x]) == if xs != [] && Last(xs) == x then Dedup(xs) else Dedup(xs) + [x]
  {
    if |xs| > 1 {
      assert (xs + [x])[1..] == xs[1..] + [x];
      DedupAppend(xs[1..], x);
    } else if |xs| == 1 {
      assert (xs + [x])[1..] == [x];
      assert xs + [x] == [xs[0], x];
    } else {
      assert xs + [x] == [x];
    }
  }

  function Samples(xs: seq<bool>): seq<Sample> {
    if xs == [] then [] else Samples(xs[..|xs| - 1]) + [Near(xs[|xs| - 1])]
  }

  lemma SamplesAppend(xs: seq<bool>, x: bool)
    ensures Samples(xs + [x]) == Samples(xs) + [Near(x)]
  {
  }

  /** The filter's state after some readings, on top of an earlier queue. */
  predicate Filtered(s: State, before: seq<Sample>, xs: seq<bool>) {
    && s.driver.queue == before + Samples(Dedup(xs))
    && s.driver.reportedOnce == (xs != [])
    && (xs != [] ==> s.driver.near == Last(xs))
  }

  /**
   * The reading in a report to the holder of a UID: the near field of an own proximity report
   * (769), or of an own measurement (1025) in the vendor's form if that has the right size.
   */
  function Reading(uid: Uid, m: Report): seq<bool> {
    if m.uid == uid && m.id == 769 && m.payload.near.Some? then [m.payload.near.value]
    else if m.uid == uid && m.id == 1025 && m.payload.davinci.Some? && m.payload.davinci.value.sized
    then [m.payload.davinci.value.near]
    else []
  }

  lemma ReadingIsNear(uid: Uid, m: Report)
    ensures Reading(uid, m) == match NearIn(uid, m) case None => [] case Some(near) => [near]
  {
  }

  /** The readings a report is worth while somebody listens. */
  function ReadingsIn(s: State, m: Report): seq<bool> {
    if s.halt != Running || DriverIds(s.client.handlers) == [] then [] else Reading(s.uid, m)
  }

  lemma ReportFiltered(s: State, m: Report, before: seq<Sample>, xs: seq<bool>)
    requires Filtered(s, before, xs)
    ensures NearIn(s.uid, m).None? ==> Filtered(ProximityReport(s, m), before, xs)
    ensures NearIn(s.uid, m).Some? ==> Filtered(ProximityReport(s, m), before, xs + [NearIn(s.uid, m).value])
  {
    if NearIn(s.uid, m).Some? {
      var near := NearIn(s.uid, m).value;
      DedupAppend(xs, near);
      if !(xs != [] && Last(xs) == near) {
        SamplesAppend(Dedup(xs), near);
        assert before + Samples(Dedup(xs)) + [Near(near)] == before + (Samples(Dedup(xs)) + [Near(near)]);
      }
    }
  }

  /** A second copy of the handler sees the same reading again and adds nothing. */
  lemma RepeatFiltered(s: State, m: Report, before: seq<Sample>, xs: seq<bool>)
    requires Filtered(s, before, xs) && NearIn(s.uid, m).Some? && xs != [] && Last(xs) == NearIn(s.uid, m).value
    ensures ProximityReport(s, m) == s
  {
  }

  lemma CallFiltered(s: State, id: nat, m: Report, before: seq<Sample>, xs: seq<bool>)
    requires Wired(s) && s.kind.Proximity? && Filtered(s, before, xs)
    ensures var t := Call(s, id, m);
            if s.halt == Running && id in DriverIds(s.client.handlers) && NearIn(s.uid, m).Some?
            then Filtered(t, before, xs + [NearIn(s.uid, m).value])
            else Filtered(t, before, xs)
    ensures NearIn(Call(s, id, m).uid, m) == NearIn(s.uid, m)
  {
    CallFacts(s, id, m);
    ReportFiltered(s, m, before, xs);
  }

  /** After one copy ran, the rest of the emission changes nothing in the filter. */
  lemma {:induction false} RestOfEmission(s: State, ids: seq<nat>, m: Report, before: seq<Sample>, xs: seq<bool>)
    requires Wired(s) && s.kind.Proximity? && Filtered(s, before, xs)
    requires NearIn(s.uid, m).Some? ==> xs != [] && Last(xs) == NearIn(s.uid, m).value
    ensures Filtered(Emit(s, ids, m), before, xs)
    decreases |ids|
  {
    if ids != [] {
      var t := Call(s, ids[0], m);
      CallFacts(s, ids[0], m);
      CallFiltered(s, ids[0], m, before, xs);
      if NearIn(s.uid, m).Some? { RepeatFiltered(s, m, before, xs); }
      RestOfEmission(t, ids[1..], m, before, xs);
    }
  }

  /** An emission that a driver handler gets to see adds its reading once. */
  lemma {:induction false} EmitFiltered(s: State, ids: seq<nat>, m: Report, before: seq<Sample>, xs: seq<bool>)
    requires Wired(s) && s.kind.Proximity? && Filtered(s, before, xs)
    requires Emit(s, ids, m).halt == Running
    ensures Filtered(Emit(s, ids, m), before,
                     xs + if NearIn(s.uid, m).Some? && exists id <- ids :: id in DriverIds(s.client.handlers)
                          then [NearIn(s.uid, m).value] else [])
    decreases |ids|
  {
    assert xs + [] == xs;
    if ids != [] {
      var t := Call(s, ids[0], m);
      CallFacts(s, ids[0], m);
      EmitFacts(t, ids[1..], m);
      CallFiltered(s, ids[0], m, before, xs);
      if ids[0] in DriverIds(s.client.handlers) && NearIn(s.uid, m).Some? {
        RestOfEmission(t, ids[1..], m, before, xs + [NearIn(s.uid, m).value]);
      } else {
        EmitFiltered(t, ids[1..], m, before, xs);
      }
    }
  }

  lemma {:induction false} SomeDriverIsListed(hs: seq<Handler>)
    ensures (exists id <- Ids(hs) :: id in DriverIds(hs)) <==> DriverIds(hs) != []
  {
    if DriverIds(hs) != [] {
      var d := DriverIds(hs)[0];
      DriverIdsAreIds(hs, d);
      var h :| h in hs && h.id == d;
      var i :| 0 <= i < |hs| && hs[i] == h;
      assert Ids(hs)[i] == d;
    }
  }

  lemma DeliverFiltered(s: State, m: Report, before: seq<Sample>, xs: seq<bool>)
    requires Wired(s) && s.kind.Proximity? && Filtered(s, before, xs) && Deliver(s, m).halt == Running
    ensures Filtered(Deliver(s, m), before, xs + ReadingsIn(s, m))
  {
    DeliverFacts(s, m);
    ReadingIsNear(s.uid, m);
    SomeDriverIsListed(s.client.handlers);
    EmitFiltered(s, Ids(s.client.handlers), m, before, xs);
  }

  function BatchReadings(s: State, uid: Uid, bodies: seq<Body>): seq<bool>
    decreases |bodies|
  {
    if bodies == [] then []
    else
      var m := Report(bodies[0].id, uid, bodies[0].payload);
      ReadingsIn(s, m) + BatchReadings(Deliver(s, m), uid, bodies[1..])
  }

  lemma {:induction false} HandleFiltered(s: State, uid: Uid, bodies: seq<Body>, before: seq<Sample>, xs: seq<bool>)
    requires Wired(s) && s.kind.Proximity? && Filtered(s, before, xs) && HandleReport(s, uid, bodies).halt == Running
    ensures Filtered(HandleReport(s, uid, bodies), before, xs + BatchReadings(s, uid, bodies))
    decreases |bodies|
  {
    if bodies == [] {
      assert xs + [] == xs;
    } else {
      var m := Report(bodies[0].id, uid, bodies[0].payload);
      var t := Deliver(s, m);
      DeliverFacts(s, m);
      HandleFacts(t, uid, bodies[1..]);
      DeliverFiltered(s, m, before, xs);
      HandleFiltered(t, uid, bodies[1..], before, xs + ReadingsIn(s, m));
      Assoc(xs, ReadingsIn(s, m), BatchReadings(t, uid, bodies[1..]));
    }
  }

  lemma Assoc(a: seq<bool>, b: seq<bool>, c: seq<bool>)
    ensures (a + b) + c == a + (b + c)
  {
  }

  /** The readings delivered by a run while at least one handler was connected. */
  function RunReadings(s: State, es: seq<Event>): seq<bool>
    decreases |es|
  {
    if es == [] then [] else StepReadings(s, es[0]) + RunReadings(Step(s, es[0]), es[1..])
  }

  function StepReadings(s: State, e: Event): seq<bool> {
    if e.Indication? then BatchReadings(s, e.uid, e.bodies) else []
  }

  lemma StepFiltered(s: State, e: Event, before: seq<Sample>, xs: seq<bool>)
    requires Wired(s) && s.kind.Proximity? && Filtered(s, before, xs)
    requires !e.UserOpen? && Step(s, e).halt == Running
    ensures Wired(Step(s, e)) && Step(s, e).kind.Proximity?
    ensures Filtered(Step(s, e), before, xs + StepReadings(s, e))
  {
    StepFacts(s, e);
    assert xs + [] == xs;
    match e
    case UserClose => CloseFacts(s);
    case Indication(uid, bodies) => HandleFiltered(s, uid, bodies, before, xs);
    case SendResult(_, _) =>
  }

  lemma {:induction false} RunFiltered(s: State, es: seq<Event>, before: seq<Sample>, xs: seq<bool>)
    requires Wired(s) && s.kind.Proximity? && Filtered(s, before, xs)
    requires (forall e <- es :: !e.UserOpen?) && Run(s, es).halt == Running
    ensures Filtered(Run(s, es), before, xs + RunReadings(s, es))
    decreases |es|
  {
    if es == [] {
      assert xs + [] == xs;
    } else {
      assert es[0] in es;
      var t := Step(s, es[0]);
      if t.halt != Running { HaltedRun(t, es[1..]); }
      StepFiltered(s, es[0], before, xs);
      RunFiltered(t, es[1..], before, xs + StepReadings(s, es[0]));
      Assoc(xs, StepReadings(s, es[0]), RunReadings(t, es[1..]));
    }
  }

  /**
   * For every run, split at its latest open: what was queued since then are the readings heard
   * since then without consecutive repetitions. So the first reading is always reported, even
   * when it equals the last one of the session before, and no copy of the handler left behind
   * by an earlier open adds anything.
   */
  lemma ProximityReportsChanges(s: State, es: seq<Event>)
    requires Wired(s) && s.kind.Proximity? && s.halt == Running
    requires (forall e <- es :: !e.UserOpen?) && Run(s, [UserOpen] + es).halt == Running
    ensures Run(s, [UserOpen] + es).driver.queue ==
            s.driver.queue + Samples(Dedup(RunReadings(Open(s), es)))
  {
    var o := Open(s);
    OpenFacts(s);
    assert ([UserOpen] + es)[1..] == es;
    assert o.driver.queue + Samples(Dedup([])) == o.driver.queue;
    RunFiltered(o, es, s.driver.queue, []);
    assert [] + RunReadings(o, es) == RunReadings(o, es);
  }

  // ---------------------------------------------------------------------
  // A session in which only measurements and configuration updates arrive
  // ---------------------------------------------------------------------

  function NearReadings(uid: Uid, ms: seq<Report>): seq<bool> {
    if ms == [] then []
    else Reading(uid, ms[0]) + NearReadings(uid, ms[1..])
  }

  lemma {:induction false} NearReadingsConcat(uid: Uid, xs: seq<Report>, ys: seq<Report>)
    ensures NearReadings(uid, xs + ys) == NearReadings(uid, xs) + NearReadings(uid, ys)
  {
    if xs == [] {
      assert xs + ys == ys;
    } else {
      assert (xs + ys)[1..] == xs[1..] + ys;
      NearReadingsConcat(uid, xs[1..], ys);
    }
  }

  lemma {:induction false} QuietBatchReadings(s: State, uid: Uid, bodies: seq<Body>)
    requires Wired(s) && DriverIds(s.client.handlers) != [] && HandleReport(s, uid, bodies).halt == Running
    requires forall m <- ReportsOf(uid, bodies) :: Quiet(m)
    ensures BatchReadings(s, uid, bodies) == NearReadings(s.uid, ReportsOf(uid, bodies))
    ensures HandleReport(s, uid, bodies).uid == s.uid
    decreases |bodies|
  {
    if bodies != [] {
      var m := Report(bodies[0].id, uid, bodies[0].payload);
      var all := ReportsOf(uid, bodies);
      assert all[0] == m && all[1..] == ReportsOf(uid, bodies[1..]);
      assert m in all;
      forall r <- ReportsOf(uid, bodies[1..]) ensures Quiet(r) { assert r in all; }
      DeliverFacts(s, m);
      HandleFacts(Deliver(s, m), uid, bodies[1..]);
      QuietBatchReadings(Deliver(s, m), uid, bodies[1..]);
    }
  }

  lemma {:induction false} QuietReadings(s: State, es: seq<Event>)
    requires Wired(s) && DriverIds(s.client.handlers) != [] && Run(s, es).halt == Running
    requires NoUserAction(es) && QuietRun(es)
    ensures RunReadings(s, es) == NearReadings(s.uid, Delivered(es))
    decreases |es|
  {
    if es != [] {
      var e := es[0];
      assert e in es;
      var t := Step(s, e);
      StepFacts(s, e);
      if t.halt != Running { HaltedRun(t, es[1..]); }
      var now := if e.Indication? then ReportsOf(e.uid, e.bodies) else [];
      assert Delivered(es) == now + Delivered(es[1..]);
      forall m <- now ensures Quiet(m) { assert m in Delivered(es); }
      forall m <- Delivered(es[1..]) ensures Quiet(m) { assert m in Delivered(es); }
      if e.Indication? { QuietBatchReadings(s, e.uid, e.bodies); }
      QuietReadings(t, es[1..]);
      NearReadingsConcat(s.uid, now, Delivered(es[1..]));
    }
  }

  /** From an open on, the queue is a function of the delivered reports alone. */
  lemma ProximitySession(s: State, es: seq<Event>)
    requires Wired(s) && s.kind.Proximity? && s.halt == Running
    requires NoUserAction(es) && QuietRun(es) && Run(s, [UserOpen] + es).halt == Running
    ensures Run(s, [UserOpen] + es).driver.queue ==
            s.driver.queue + Samples(Dedup(NearReadings(s.uid, Delivered(es))))
  {
    OpenFacts(s);
    assert ([UserOpen] + es)[1..] == es;
    ProximityReportsChanges(s, es);
    QuietReadings(Open(s), es);
  }
}
