/**
 * The results about runs, for the objects that are updated in place: whatever is played into a
 * sensor object, its fields obey what was proved of runs.
 */
module ObjectRuns {
  import opened Common
  import opened Attributes
  import opened Protocol
  import opened SensorModel
  import opened Discovery
  import opened Provenance
  import opened TaskLedger
  import opened ProximityStream
  import opened Observer
  import opened TaskOutcomes
  import opened SensorObjects

  /**
   * A sensor object from its creation through any events at all. It sends at most 100 polls;
   * its UID is the initial one or was announced in the delivered reports; every rate it has asked
   * for was listed in a delivered report of its own. If the events are tidy, its books are in
   * order, and the requests it has sent and the tasks it has completed, outcomes included, are
   * those the events call for.
   */
  method Live(kind: Kind, dataType: string, uid: Uid, es: seq<Event>) returns (o: SensorObject)
    requires dataType != REGISTRY
    ensures fresh(o) && fresh(o.client) && fresh(o.mount) && o.Shape()
    ensures o.View() == Run(Boot(kind, dataType, uid), es)
    ensures Polls(o.client.sent) <= 100
    ensures Announced(Delivered(es), dataType, uid, o.uid)
    ensures forall r <- o.client.sent :: r.id == REQUEST_ENABLE_CONTINUOUS ==>
              r.body.Rate? && RateDelivered(Delivered(es), dataType, uid, r.body.hz)
    ensures Tidy(First(dataType, uid), es) ==>
              var d := After(First(dataType, uid), es);
              && Books(o.View()) && o.client.sent == d.sent && o.done == d.done
              && (o.halt == Running <==> !d.aborted)
  {
    o := new SensorObject(kind, dataType, uid);
    o.OnClientReady(true);
    o.Play(es);
    PollBudget(kind, dataType, uid, es);
    UidProvenance(kind, dataType, uid, es);
    TasksCompleteExactlyOnce(kind, dataType, uid, es);
    RunAtDesk(kind, dataType, uid, es);
    assert es[..|es|] == es;
    forall r <- o.client.sent | r.id == REQUEST_ENABLE_CONTINUOUS
      ensures r.body.Rate? && RateDelivered(Delivered(es), dataType, uid, r.body.hz)
    {
      EnableProvenance(kind, dataType, uid, es, r);
    }
  }

  /** An accelerometer object and polite events: its fields are what the observing machine computes. */
  method LiveAccelerometer(dataType: string, uid: Uid, es: seq<Event>) returns (o: SensorObject)
    requires dataType != REGISTRY && Polite(Initially(dataType, uid), es)
    ensures fresh(o) && o.Shape()
    ensures o.halt == Running <==> Survives(Initially(dataType, uid), es)
    ensures o.halt == Running ==>
              var w := ObserveAll(Initially(dataType, uid), es);
              && o.queue == Shown(Initially(dataType, uid), es)
              && o.uid == w.uid && o.Attributes() == w.attrs && o.serviceAvailable == w.available
              && o.retries == w.retries && (o.reportId != 0 <==> w.pending)
  {
    o := Live(Accelerometer, dataType, uid, es);
    AccelerometerObserved(dataType, uid, es);
    if o.halt == Running {
      assert WatchOf(o.View()) == ObserveAll(Initially(dataType, uid), es);
    }
  }

  /** A proximity object is opened and fed more events: the queue grows by the changes among the readings. */
  method OpenProximity(o: SensorObject, later: seq<Event>)
    requires o.Shape() && Usual(o.View()) && o.kind.Proximity? && o.halt == Running
    requires Polite(WatchOf(o.View()), [UserOpen] + later) && forall e <- later :: !e.UserOpen?
    modifies o, o.client, o.mount
    ensures o.halt == Running ==>
              o.queue == old(o.queue) + Samples(Dedup(NearShown(Observe(WatchOf(old(o.View())), UserOpen), later)))
  {
    ghost var before := o.View();
    o.Play([UserOpen] + later);
    if o.halt == Running {
      assert Run(before, [UserOpen] + later).halt == Running;
      SinceOpenWatched(before, later);
    }
  }
}
