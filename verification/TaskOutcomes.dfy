/**
 * How every task ends, as a function of the events alone: a desk that keeps what the sensor knows
 * and the numbers of tasks and requests, but no handlers and no contexts. In every disciplined
 * run the requests sent and the tasks completed, outcomes included, are exactly the desk's.
 */
module TaskOutcomes {
  import opened Common
  import opened Attributes
  import opened Protocol
  import opened SensorModel
  import opened Discovery
  import opened Delivery
  import opened TaskLedger
  import opened Observer

  /** `task` is the pending one, if any; `next` the number of the next task handed out. */
  datatype Desk = Desk(w: Watch, task: nat, next: nat, sent: seq<Request>, answered: set<nat>,
                       done: seq<Completion>, aborted: bool)

  // ---------------------------------------------------------------------
  // The desk
  // ---------------------------------------------------------------------

  /** The request a report leads to: the own type, another poll, or the attributes. */
  function NewRequest(w: Watch, task: nat, m: Report): seq<Request> {
    if !w.pending || m.uid != SUID || m.id != 768 || m.payload.suid.None? then []
    else
      var r := m.payload.suid.value;
      if IsUp(r) then [Request(SUID, 512, FindType(w.dataType), Some(task))]
      else if !w.available then
        if w.retries + 1 < 100 then [Request(SUID, 512, FindType("registry"), Some(task))] else []
      else if r.dataType == w.dataType && r.uids != [] then [Request(r.uids[0], 1, NoUpdates, None)]
      else []
  }

  /** How a report that ends the waiting ends it. */
  function Ending(w: Watch, m: Report): Outcome {
    if m.uid == SUID && m.id == 768 then (if w.available then NotFound else NoService) else Success
  }

  function OnReport(d: Desk, m: Report): Desk {
    if !d.w.pending then d
    else
      var w := Hear(d.w, m);
      d.(w := w, sent := d.sent + NewRequest(d.w, d.task, m),
         done := if w.pending then d.done else d.done + [Completion(d.task, Ending(d.w, m))])
  }

  function OnReports(d: Desk, ms: seq<Report>): Desk {
    if ms == [] then d else OnReport(OnReports(d, ms[..|ms| - 1]), ms[|ms| - 1])
  }

  function Accept(d: Desk, id: nat, body: RequestBody): Desk {
    d.(w := d.w.(pending := true), task := d.next, next := d.next + 1,
       sent := d.sent + [Request(d.w.uid, id, body, Some(d.next))])
  }

  function Refuse(d: Desk, o: Outcome): Desk {
    d.(next := d.next + 1, done := d.done + [Completion(d.next, o)])
  }

  function OnOpen(d: Desk): Desk {
    if !d.w.attrs.available then Refuse(d, Unavailable)
    else if d.w.attrs.streamType == 0 then
      if d.w.attrs.sampleRate <= 0.0 then Refuse(d, NoSampleRate) else Accept(d, 513, Rate(d.w.attrs.sampleRate))
    else if d.w.attrs.streamType == 1 then Accept(d, 514, Empty)
    else d.(next := d.next + 1, aborted := true)
  }

  function OnClose(d: Desk): Desk {
    d.(next := d.next + 1, sent := d.sent + [Request(d.w.uid, 10, Empty, Some(d.next))])
  }

  /** The callback of a request; only that of a disable ends its task when all went well. */
  function OnSend(d: Desk, k: nat, ok: bool): Desk {
    if k >= |d.sent| || k in d.answered then d
    else
      var d' := d.(answered := d.answered + {k});
      if d.sent[k].task.None? || (ok && d.sent[k].id != 10) then d'
      else d'.(done := d.done + [Completion(d.sent[k].task.value, if ok then Success else SendFailed)])
  }

  function OnEvent(d: Desk, e: Event): Desk {
    if d.aborted then d
    else match e
      case UserOpen => OnOpen(d)
      case UserClose => OnClose(d)
      case Indication(_, _) => OnReports(d, ReportsIn(e))
      case SendResult(k, ok) => OnSend(d, k, ok)
  }

  /** The initialisation: task 0 is pending, the first poll is out. */
  function First(dataType: string, uid: Uid): Desk {
    Desk(Initially(dataType, uid), 0, 1, [Request(SUID, 512, FindType("registry"), Some(0))], {}, [], false)
  }

  function After(d: Desk, es: seq<Event>): Desk {
    if es == [] then d else OnEvent(After(d, es[..|es| - 1]), es[|es| - 1])
  }

  /** The discipline, on the desk: no open over a pending task, and only disables fail to be sent. */
  predicate TidyStep(d: Desk, e: Event) {
    d.aborted ||
    match e
    case UserOpen => !d.w.pending || !Openable(d.w.attrs)
    case SendResult(k, ok) => ok || k >= |d.sent| || k in d.answered || d.sent[k].task.None? || d.sent[k].id == 10
    case _ => true
  }

  predicate Tidy(d: Desk, es: seq<Event>) {
    es == [] || (Tidy(d, es[..|es| - 1]) && TidyStep(After(d, es[..|es| - 1]), es[|es| - 1]))
  }

  // ---------------------------------------------------------------------
  // The sensor at the desk
  // ---------------------------------------------------------------------

  predicate SameLog(s: State, d: Desk) {
    && s.client.sent == d.sent && s.client.answered == d.answered
    && s.done == d.done && s.nextTask == d.next
  }

  predicate SameTask(s: State, d: Desk) {
    d.w.pending ==> Bases(s.client.handlers) != [] && Bases(s.client.handlers)[0].BaseHandler?
                    && Bases(s.client.handlers)[0].task == d.task
  }

  /** Listening does not matter to tasks. */
  predicate Matches(s: State, d: Desk) {
    && Balanced(s, 0) && SameLog(s, d) && SameTask(s, d)
    && WatchOf(s).(listening := false) == d.w
    && s.halt == (if d.aborted then Aborted else Running)
  }

  lemma HearWithout(w: Watch, m: Report)
    ensures Hear(w.(listening := false), m) == Hear(w, m).(listening := false)
  {
  }

  /** What a report does to the log when the base handler gets it. */
  lemma ReportLog(s: State, h: Handler, m: Report)
    requires Wired(s) && h.BaseHandler? && h.live && s.reportId != 0
    ensures var t := ReportReceived(s, h, m);
            && t.client.sent == s.client.sent + NewRequest(WatchOf(s), h.task, m)
            && t.client.answered == s.client.answered && t.nextTask == s.nextTask
            && t.done == (if t.reportId != 0 then s.done else s.done + [Completion(h.task, Ending(WatchOf(s), m))])
            && (t.reportId != 0 ==> t.client.handlers == s.client.handlers)
  {
    assert s.client.sent + [] == s.client.sent;
    if m.uid == SUID && m.id == 768 && m.payload.suid.Some? {
      ResponseLog(s, h, m.payload.suid.value, m);
    }
  }

  lemma ResponseLog(s: State, h: Handler, r: SuidResponse, m: Report)
    requires h.BaseHandler? && s.reportId != 0
    requires m.uid == SUID && m.id == 768 && m.payload.suid == Some(r)
    ensures var t := SuidReceived(s, h, r);
            && t.client.sent == s.client.sent + NewRequest(WatchOf(s), h.task, m)
            && t.client.answered == s.client.answered && t.nextTask == s.nextTask
            && t.done == (if t.reportId != 0 then s.done else s.done + [Completion(h.task, Ending(WatchOf(s), m))])
            && (t.reportId != 0 ==> t.client.handlers == s.client.handlers)
  {
    assert s.client.sent + [] == s.client.sent;
  }

  /** The base handler holds the task the desk knows as pending. */
  lemma PendingBase(s: State, d: Desk) returns (b: Handler)
    requires Matches(s, d) && s.reportId != 0
    ensures b.BaseHandler? && b.live && b.task == d.task && b.id == s.reportId
    ensures Find(s.client.handlers, s.reportId) == Some(b) && Bases(s.client.handlers) == [b]
  {
    BasesMembers(s.client.handlers);
    b := Bases(s.client.handlers)[0];
    assert b in Bases(s.client.handlers);
    FindMember(s.client.handlers, 0, b);
  }

  lemma CallAtDesk(s: State, d: Desk, m: Report)
    requires Matches(s, d) && s.halt == Running && s.reportId != 0
    ensures Matches(Call(s, s.reportId, m), OnReport(d, m))
  {
    CallBase(s, m);
    var b := PendingBase(s, d);
    ReportLog(s, b, m);
    HearWithout(WatchOf(s), m);
    RequestWithout(WatchOf(s), d.task, m);
    ReportMatches(s, ReportReceived(s, b, m), d, b, m);
  }

  lemma RequestWithout(w: Watch, task: nat, m: Report)
    ensures NewRequest(w.(listening := false), task, m) == NewRequest(w, task, m)
    ensures Ending(w.(listening := false), m) == Ending(w, m)
  {
  }

  lemma ReportMatches(s: State, t: State, d: Desk, b: Handler, m: Report)
    requires SameLog(s, d) && d.w.pending && !d.aborted && b.BaseHandler? && b.task == d.task
    requires Balanced(t, 0) && t.halt == Running && WatchOf(t).(listening := false) == Hear(d.w, m)
    requires t.client.sent == s.client.sent + NewRequest(d.w, b.task, m)
    requires t.client.answered == s.client.answered && t.nextTask == s.nextTask
    requires t.done == (if t.reportId != 0 then s.done else s.done + [Completion(b.task, Ending(d.w, m))])
    requires t.reportId != 0 ==> Bases(t.client.handlers) == [b]
    ensures Matches(t, OnReport(d, m))
  {
  }

  lemma OtherAtDesk(s: State, d: Desk, id: nat, m: Report)
    requires Matches(s, d) && s.halt == Running && (s.reportId == 0 || id != s.reportId)
    ensures Matches(Call(s, id, m), d)
  {
    CallOther(s, id, m);
    FindFacts(s.client.handlers, 0, id);
    NotBase(s, id);
    var t := Call(s, id, m);
    assert t == s || t == DriverReport(s, m);
    assert t.client == s.client && t.done == s.done && t.nextTask == s.nextTask;
  }

  lemma {:induction false} EmitAtDesk(s: State, d: Desk, ids: seq<nat>, m: Report)
    requires Matches(s, d) && s.halt == Running
    requires forall i, j :: 0 <= i < j < |ids| ==> ids[i] < ids[j]
    ensures Matches(Emit(s, ids, m), if s.reportId != 0 && s.reportId in ids then OnReport(d, m) else d)
    decreases |ids|
  {
    if ids != [] {
      var t := Call(s, ids[0], m);
      assert s.reportId in ids <==> s.reportId == ids[0] || s.reportId in ids[1..];
      assert ids[0] !in ids[1..];
      if s.reportId != 0 && s.reportId == ids[0] {
        CallBase(s, m);
        CallAtDesk(s, d, m);
        EmitAtDesk(t, OnReport(d, m), ids[1..], m);
      } else {
        CallOther(s, ids[0], m);
        OtherAtDesk(s, d, ids[0], m);
        EmitAtDesk(t, d, ids[1..], m);
      }
    }
  }

  lemma DeliverAtDesk(s: State, d: Desk, m: Report)
    requires Matches(s, d) && s.halt == Running
    ensures Matches(Deliver(s, m), OnReport(d, m)) && Deliver(s, m).halt == Running
  {
    DeliverWatched(s, m);
    IdsOrdered(s.client.handlers, 0);
    EmitAtDesk(s, d, Ids(s.client.handlers), m);
    if s.reportId != 0 { BaseVisited(s); }
  }

  lemma {:induction false} ReportsFront(d: Desk, m: Report, ms: seq<Report>)
    ensures OnReports(d, [m] + ms) == OnReports(OnReport(d, m), ms)
    decreases |ms|
  {
    if ms == [] {
      assert [m] + ms == [m] && [m][..0] == [];
    } else {
      assert ([m] + ms)[..|ms|] == [m] + ms[..|ms| - 1];
      ReportsFront(d, m, ms[..|ms| - 1]);
    }
  }

  lemma BatchFront(d: Desk, uid: Uid, bodies: seq<Body>)
    requires bodies != []
    ensures OnReports(d, ReportsOf(uid, bodies)) ==
            OnReports(OnReport(d, Report(bodies[0].id, uid, bodies[0].payload)), ReportsOf(uid, bodies[1..]))
  {
    var m := Report(bodies[0].id, uid, bodies[0].payload);
    ReportsFront(d, m, ReportsOf(uid, bodies[1..]));
    assert ReportsOf(uid, bodies) == [m] + ReportsOf(uid, bodies[1..]);
  }

  lemma {:induction false} HandleAtDesk(s: State, d: Desk, uid: Uid, bodies: seq<Body>)
    requires Matches(s, d) && s.halt == Running
    ensures Matches(HandleReport(s, uid, bodies), OnReports(d, ReportsOf(uid, bodies)))
    decreases |bodies|
  {
    if bodies != [] {
      var m := Report(bodies[0].id, uid, bodies[0].payload);
      DeliverAtDesk(s, d, m);
      HandleAtDesk(Deliver(s, m), OnReport(d, m), uid, bodies[1..]);
      BatchFront(d, uid, bodies);
    }
  }

  lemma SensorOpenLog(s: State, d: Desk)
    requires SameLog(s, d) && SameDiscovery(s, d.w) && s.halt == Running && !d.aborted
    ensures SameLog(SensorOpen(s), OnOpen(d)) && SameDiscovery(SensorOpen(s), OnOpen(d).w)
    ensures SensorOpen(s).halt == if OnOpen(d).aborted then Aborted else Running
  {
  }

  lemma OpenLog(s: State, d: Desk)
    requires SameLog(s, d) && SameDiscovery(s, d.w) && s.halt == Running && !d.aborted
    ensures SameLog(Open(s), OnOpen(d)) && SameDiscovery(Open(s), OnOpen(d).w)
    ensures Open(s).halt == if OnOpen(d).aborted then Aborted else Running
  {
    match s.kind
    case Plain => SensorOpenLog(s, d);
    case Accelerometer => SensorOpenLog(ConnectDriver(s), d);
    case Proximity => SensorOpenLog(ConnectDriver(s.(driver := s.driver.(reportedOnce := false))), d);
  }

  lemma OpenTask(s: State)
    requires Balanced(s, 0) && s.halt == Running && (s.reportId == 0 || !Openable(s.attrs))
    ensures var t := Open(s);
            if Openable(s.attrs)
            then t.reportId != 0 && Bases(t.client.handlers) != [] && Bases(t.client.handlers)[0].BaseHandler?
                 && Bases(t.client.handlers)[0].task == s.nextTask
            else t.reportId == s.reportId && Bases(t.client.handlers) == Bases(s.client.handlers)
  {
    OpenBalanced(s, 0);
    if Openable(s.attrs) {
      AcceptedOpen(s);
      var extra, b := OpenHandlers(s);
      BasesMembers(Open(s).client.handlers);
      assert b in Bases(Open(s).client.handlers);
    } else {
      RefusedOpen(s);
    }
  }

  lemma RefusedOpen(s: State)
    requires !Openable(s.attrs)
    ensures Open(s).reportId == s.reportId
    ensures Bases(Open(s).client.handlers) == Bases(s.client.handlers)
  {
    BasesAppend(s.client.handlers, DriverHandler(s.client.nextId));
    assert Bases(s.client.handlers) + [] == Bases(s.client.handlers);
  }

  lemma OpenAtDesk(s: State, d: Desk)
    requires Matches(s, d) && s.halt == Running && (s.reportId == 0 || !Openable(s.attrs))
    ensures Matches(Open(s), OnOpen(d))
  {
    OpenBalanced(s, 0);
    OpenLog(s, d);
    OpenTask(s);
  }

  lemma CloseKeepsBases(s: State)
    requires Wired(s)
    ensures Bases(Close(s).client.handlers) == Bases(s.client.handlers)
  {
    if !s.kind.Plain? && s.driver.reportId != 0 {
      WithoutDriver(s.client.handlers, s.driver.reportId);
    }
  }

  lemma CloseAtDesk(s: State, d: Desk)
    requires Matches(s, d) && s.halt == Running
    ensures Matches(Close(s), OnClose(d))
  {
    CloseBalanced(s, 0);
    CloseKeepsBases(s);
  }

  lemma SendLog(s: State, d: Desk, k: nat, ok: bool)
    requires SameLog(s, d) && TidyStep(d, SendResult(k, ok)) && !d.aborted
    ensures SameLog(SendReady(s, k, ok), OnSend(d, k, ok))
  {
  }

  lemma SendTable(s: State, k: nat, ok: bool)
    ensures var t := SendReady(s, k, ok);
            && t.client.handlers == s.client.handlers && WatchOf(t) == WatchOf(s) && t.halt == s.halt
  {
  }

  lemma SendAtDesk(s: State, d: Desk, k: nat, ok: bool)
    requires Matches(s, d) && s.halt == Running && TidyStep(d, SendResult(k, ok))
    ensures Matches(SendReady(s, k, ok), OnSend(d, k, ok))
  {
    SendReadyBalanced(s, k, ok, 0);
    SendLog(s, d, k, ok);
    SendTable(s, k, ok);
  }

  /** One event, on both sides; and the disciplines agree. */
  lemma EventAtDesk(s: State, d: Desk, e: Event)
    requires Matches(s, d)
    ensures Allowed(s, e) <==> TidyStep(d, e)
    ensures TidyStep(d, e) ==> Matches(Step(s, e), OnEvent(d, e))
  {
    if s.halt == Running && TidyStep(d, e) {
      match e
      case UserOpen => OpenAtDesk(s, d);
      case UserClose => CloseAtDesk(s, d);
      case Indication(uid, bodies) => HandleAtDesk(s, d, uid, bodies);
      case SendResult(k, ok) => SendAtDesk(s, d, k, ok);
    }
  }

  lemma RunSnoc(s: State, es: seq<Event>, e: Event)
    ensures Run(s, es + [e]) == Step(Run(s, es), e)
  {
    RunConcat(s, es, [e]);
    assert [e][1..] == [] && Run(Step(Run(s, es), e), []) == Step(Run(s, es), e);
  }

  lemma {:induction false} DisciplinedSnoc(s: State, es: seq<Event>, e: Event)
    ensures Disciplined(s, es + [e]) <==> Disciplined(s, es) && Allowed(Run(s, es), e)
    decreases |es|
  {
    if es == [] {
      assert es + [e] == [e] && [e][1..] == [];
    } else {
      assert (es + [e])[1..] == es[1..] + [e];
      DisciplinedSnoc(Step(s, es[0]), es[1..], e);
    }
  }

  lemma BootMatches(kind: Kind, dataType: string, uid: Uid)
    ensures Matches(Boot(kind, dataType, uid), First(dataType, uid))
  {
    BootBalanced(kind, dataType, uid, 0);
    var h := BaseHandler(1, 0, true);
    assert Boot(kind, dataType, uid).client.handlers == [] + [h] == [h];
    assert Bases([h]) == [h] by { assert [h][1..] == []; }
  }

  /**
   * The desk is right: a run is disciplined exactly when it is tidy at the desk, and then the
   * requests sent, the tasks handed out and the completions, outcomes included, are the desk's.
   */
  lemma {:induction false} RunAtDesk(kind: Kind, dataType: string, uid: Uid, es: seq<Event>)
    ensures Disciplined(Boot(kind, dataType, uid), es) <==> Tidy(First(dataType, uid), es)
    ensures Tidy(First(dataType, uid), es) ==>
              Matches(Run(Boot(kind, dataType, uid), es), After(First(dataType, uid), es))
    decreases |es|
  {
    if es == [] {
      BootMatches(kind, dataType, uid);
    } else {
      var n := |es| - 1;
      assert es == es[..n] + [es[n]];
      RunAtDesk(kind, dataType, uid, es[..n]);
      RunSnoc(Boot(kind, dataType, uid), es[..n], es[n]);
      DisciplinedSnoc(Boot(kind, dataType, uid), es[..n], es[n]);
      if Tidy(First(dataType, uid), es[..n]) {
        EventAtDesk(Run(Boot(kind, dataType, uid), es[..n]), After(First(dataType, uid), es[..n]), es[n]);
      }
    }
  }

  // ---------------------------------------------------------------------
  // What the desk says about one task
  // ---------------------------------------------------------------------

  /** Event `i` hands out task `t`. */
  predicate HandsOut(d: Desk, es: seq<Event>, i: nat, t: nat) {
    && i < |es| && (es[i].UserOpen? || es[i].UserClose?)
    && !After(d, es[..i]).aborted && After(d, es[..i]).next == t
  }

  /** Report `p` of event `j` met the task while it was pending, and ended it with this outcome. */
  predicate MetBy(d: Desk, es: seq<Event>, c: Completion, j: nat, p: nat) {
    && j < |es| && es[j].Indication? && p < |es[j].bodies|
    && !After(d, es[..j]).aborted
    && var m := ReportsIn(es[j])[p];
       var b := OnReports(After(d, es[..j]), ReportsIn(es[j])[..p]);
       b.w.pending && b.task == c.task && !Hear(b.w, m).pending && c.outcome == Ending(b.w, m)
  }

  /** Event `j` is the callback of the task's disable request. */
  predicate SentBy(d: Desk, es: seq<Event>, c: Completion, j: nat) {
    && j < |es| && es[j].SendResult?
    && var b := After(d, es[..j]);
       && es[j].request < |b.sent| && es[j].request !in b.answered
       && b.sent[es[j].request].id == 10 && b.sent[es[j].request].task == Some(c.task)
       && c.outcome == if es[j].ok then Success else SendFailed
  }

  /** The end of an open's task, given what was known when it was opened. */
  predicate OpenEnds(d: Desk, es: seq<Event>, c: Completion, a: Attrs) {
    && (c.outcome == Unavailable <==> !a.available)
    && (c.outcome == NoSampleRate <==> a.available && a.streamType == 0 && a.sampleRate <= 0.0)
    && (a.available && !(a.streamType == 0 && a.sampleRate <= 0.0) ==>
          Openable(a) && exists j: nat, p: nat :: j < |es| && p < |Batch(es, j)| && MetBy(d, es, c, j, p))
  }

  function Batch(es: seq<Event>, j: nat): seq<Report>
    requires j < |es|
  {
    ReportsIn(es[j])
  }

  predicate CloseEnds(d: Desk, es: seq<Event>, c: Completion) {
    exists j: nat :: j < |es| && SentBy(d, es, c, j)
  }

  lemma MetByLater(d: Desk, es: seq<Event>, n: nat, c: Completion, j: nat, p: nat)
    requires n <= |es| && MetBy(d, es[..n], c, j, p)
    ensures MetBy(d, es, c, j, p)
  {
    assert es[..n][..j] == es[..j];
  }

  lemma SentByLater(d: Desk, es: seq<Event>, n: nat, c: Completion, j: nat)
    requires n <= |es| && SentBy(d, es[..n], c, j)
    ensures SentBy(d, es, c, j)
  {
    assert es[..n][..j] == es[..j];
  }

  lemma HandsOutLater(d: Desk, es: seq<Event>, n: nat, i: nat, t: nat)
    requires n <= |es| && HandsOut(d, es[..n], i, t)
    ensures HandsOut(d, es, i, t) && es[..n][..i] == es[..i]
  {
    assert es[..n][..i] == es[..i];
  }

  /** Reports end a task, never start one, and only add requests of their own kinds. */
  lemma {:induction false} ReportsFacts(d: Desk, ms: seq<Report>)
    ensures var b := OnReports(d, ms);
            && b.task == d.task && b.next == d.next && b.aborted == d.aborted && b.answered == d.answered
            && (b.w.pending ==> d.w.pending)
            && d.sent <= b.sent && forall k :: |d.sent| <= k < |b.sent| ==> b.sent[k].id != 10
  {
    if ms != [] {
      var n := |ms| - 1;
      ReportsFacts(d, ms[..n]);
    }
  }

  /** Among some reports the one that completed a task. */
  lemma {:induction false} ReportsComplete(d: Desk, ms: seq<Report>, c: Completion) returns (p: nat)
    requires c in OnReports(d, ms).done && c !in d.done
    ensures p < |ms|
    ensures var b := OnReports(d, ms[..p]);
            b.w.pending && b.task == c.task == d.task && !Hear(b.w, ms[p]).pending && c.outcome == Ending(b.w, ms[p])
  {
    var n := |ms| - 1;
    ReportsFacts(d, ms[..n]);
    if c in OnReports(d, ms[..n]).done {
      p := ReportsComplete(d, ms[..n], c);
      assert ms[..n][..p] == ms[..p];
    } else {
      p := n;
    }
  }

  /** A pending open was accepted when its task was handed out. */
  lemma {:induction false} PendingOpened(d: Desk, es: seq<Event>) returns (i: nat)
    requires After(d, es).w.pending && After(d, es).task > 0 && d.task == 0
    ensures HandsOut(d, es, i, After(d, es).task) && es[i].UserOpen? && Openable(After(d, es[..i]).w.attrs)
  {
    var n := |es| - 1;
    var b := After(d, es[..n]);
    if !b.aborted && es[n].UserOpen? && Openable(b.w.attrs) {
      i := n;
    } else {
      if es[n].Indication? { ReportsFacts(b, ReportsIn(es[n])); }
      i := PendingOpened(d, es[..n]);
      HandsOutLater(d, es, n, i, b.task);
    }
  }

  /** A disable request was sent by the close that handed out its task. */
  lemma {:induction false} DisableClosed(d: Desk, es: seq<Event>, k: nat) returns (i: nat)
    requires k < |After(d, es).sent| && After(d, es).sent[k].id == 10 && forall r <- d.sent :: r.id != 10
    ensures After(d, es).sent[k].task.Some?
    ensures HandsOut(d, es, i, After(d, es).sent[k].task.value) && es[i].UserClose?
  {
    var n := |es| - 1;
    var b := After(d, es[..n]);
    if k < |b.sent| {
      SentGrows(d, es);
      i := DisableClosed(d, es[..n], k);
      HandsOutLater(d, es, n, i, b.sent[k].task.value);
    } else {
      if es[n].Indication? { ReportsFacts(b, ReportsIn(es[n])); }
      i := n;
    }
  }

  lemma SentGrows(d: Desk, es: seq<Event>)
    requires es != []
    ensures After(d, es[..|es| - 1]).sent <= After(d, es).sent
  {
    var b := After(d, es[..|es| - 1]);
    if es[|es| - 1].Indication? { ReportsFacts(b, ReportsIn(es[|es| - 1])); }
  }

  /** How task `c.task` was handed out and came to its end. */
  predicate Explained(d: Desk, es: seq<Event>, c: Completion, i: nat) {
    && HandsOut(d, es, i, c.task)
    && (es[i].UserOpen? ==> OpenEnds(d, es, c, After(d, es[..i]).w.attrs))
    && (es[i].UserClose? ==> CloseEnds(d, es, c))
  }

  lemma ExplainedLater(d: Desk, es: seq<Event>, n: nat, c: Completion, i: nat)
    requires n <= |es| && Explained(d, es[..n], c, i)
    ensures Explained(d, es, c, i)
  {
    HandsOutLater(d, es, n, i, c.task);
    if es[i].UserClose? {
      var j: nat :| j < n && SentBy(d, es[..n], c, j);
      SentByLater(d, es, n, c, j);
    } else if exists j: nat, p: nat :: j < n && p < |Batch(es[..n], j)| && MetBy(d, es[..n], c, j, p) {
      var j: nat, p: nat :| j < n && p < |Batch(es[..n], j)| && MetBy(d, es[..n], c, j, p);
      MetByLater(d, es, n, c, j, p);
      assert p < |Batch(es, j)|;
    }
  }

  /** A completion that the last event brought about. */
  lemma JustCompleted(d: Desk, es: seq<Event>, c: Completion) returns (i: nat)
    requires es != [] && Tidy(d, es) && d.task == 0 && forall r <- d.sent :: r.id != 10
    requires c in After(d, es).done && c !in After(d, es[..|es| - 1]).done && c.task > 0
    ensures Explained(d, es, c, i)
  {
    var n := |es| - 1;
    var b := After(d, es[..n]);
    i := n;
    match es[n] {
      case UserOpen =>
      case UserClose =>
      case Indication(_, bodies) =>
        var p := ReportsComplete(b, ReportsIn(es[n]), c);
        ReportsFacts(b, ReportsIn(es[n])[..p]);
        i := PendingOpened(d, es[..n]);
        HandsOutLater(d, es, n, i, c.task);
        assert p < |Batch(es, n)| && MetBy(d, es, c, n, p);
      case SendResult(k, ok) =>
        i := DisableClosed(d, es[..n], k);
        HandsOutLater(d, es, n, i, c.task);
        assert SentBy(d, es, c, n);
    }
  }

  /**
   * Every completed task of an open or a close, in every tidy run: the event that handed it out,
   * and the outcome. An open ends with Unavailable or NoSampleRate exactly when what was known at
   * that moment says so, and otherwise as the report that met it says: with success for a
   * configuration update, a measurement or attributes of the own sensor. A close ends with
   * success or failure as its request was sent.
   */
  lemma {:induction false} OutcomeOfTask(dataType: string, uid: Uid, es: seq<Event>, c: Completion) returns (i: nat)
    requires Tidy(First(dataType, uid), es) && c in After(First(dataType, uid), es).done && c.task > 0
    ensures Explained(First(dataType, uid), es, c, i)
    decreases |es|
  {
    var d := First(dataType, uid);
    var n := |es| - 1;
    if c in After(d, es[..n]).done {
      i := OutcomeOfTask(dataType, uid, es[..n], c);
      ExplainedLater(d, es, n, c, i);
    } else {
      i := JustCompleted(d, es, c);
    }
  }

  // ---------------------------------------------------------------------
  // Without a client
  // ---------------------------------------------------------------------

  lemma {:induction false} NothingHandled(s: State, uid: Uid, bodies: seq<Body>)
    requires s.client.handlers == []
    ensures HandleReport(s, uid, bodies) == s
    decreases |bodies|
  {
    if bodies != [] {
      var m := Report(bodies[0].id, uid, bodies[0].payload);
      assert Ids(s.client.handlers) == [] && Deliver(s, m) == s;
      NothingHandled(s, uid, bodies[1..]);
    }
  }

  /** When the client could not be had, the initialisation ends with that error and nothing ever follows. */
  lemma {:induction false} NoClient(kind: Kind, dataType: string, uid: Uid, es: seq<Event>)
    requires NoUserAction(es)
    ensures var s := ClientReady(New(kind, dataType, uid), false);
            && Run(s, es) == s && s.done == [Completion(0, ClientFailed)]
            && s.client.sent == [] && s.driver.queue == [] && s.reportId == 0
    decreases |es|
  {
    var s := ClientReady(New(kind, dataType, uid), false);
    assert s.done == [] + [Completion(0, ClientFailed)];
    if es != [] {
      assert es[0] in es;
      if es[0].Indication? { NothingHandled(s, es[0].uid, es[0].bodies); }
      NoClient(kind, dataType, uid, es[1..]);
    }
  }

  /** A sensor before its first open: nothing is queued, and a proximity sensor counts as having reported once. */
  lemma BeforeFirstOpen(kind: Kind, dataType: string, uid: Uid)
    ensures Boot(kind, dataType, uid).driver == SensorModel.Driver(0, false, kind == Proximity, [])
  {
  }
}
