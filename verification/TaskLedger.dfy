/**
 * Task bookkeeping. Every task handed out is completed exactly once or still held by exactly one
 * pending operation, and no freed context is ever touched, in a run if and only if all its steps
 * are harmless: nothing is opened on top of a pending task, and no request fails whose task is
 * completed elsewhere.
 */
module TaskLedger {
  import opened Common
  import opened Attributes
  import opened Protocol
  import opened SensorModel
  import opened Delivery

  /** The k-th request is waiting for its callback. */
  predicate Unanswered(s: State, k: nat) {
    k < |s.client.sent| && k !in s.client.answered
  }

  /**
   * Steps that do no harm: an open, unless it is accepted while a task is pending; and a failing
   * send, unless somebody other than the send's own callback is to complete the task.
   */
  predicate Harmless(s: State, e: Event) {
    match e
    case UserOpen => s.reportId == 0 || !Openable(s.attrs)
    case SendResult(k, ok) =>
      ok || !Unanswered(s, k) || s.client.sent[k].task.None? || s.client.sent[k].id == REQUEST_DISABLE
    case UserClose => true
    case Indication(_, _) => true
  }

  predicate Allowed(s: State, e: Event) {
    s.halt == Running ==> Harmless(s, e)
  }

  predicate Disciplined(s: State, es: seq<Event>)
    decreases |es|
  {
    es == [] || (Allowed(s, es[0]) && Disciplined(Step(s, es[0]), es[1..]))
  }

  function Bases(hs: seq<Handler>): seq<Handler> {
    if hs == [] then []
    else (if hs[0].BaseHandler? then [hs[0]] else []) + Bases(hs[1..])
  }

  /** The stored handler id is non-zero exactly when one base handler, with a live context, is connected under it. */
  predicate OneBase(s: State) {
    if s.reportId == 0 then Bases(s.client.handlers) == []
    else var b := Bases(s.client.handlers); |b| == 1 && b[0].id == s.reportId && b[0].BaseHandler? && b[0].live
  }

  // ---------------------------------------------------------------------
  // The ledger: where a task number is accounted for
  // ---------------------------------------------------------------------

  /** How often a task was completed. */
  function TimesDone(done: seq<Completion>, t: nat): nat {
    if done == [] then 0
    else TimesDone(done[..|done| - 1], t) + if done[|done| - 1].task == t then 1 else 0
  }

  /** Base handlers holding the task of an initialisation or an open. */
  function Waiting(bases: seq<Handler>, t: nat): nat {
    if bases == [] then 0
    else (if bases[0].BaseHandler? && bases[0].task == t then 1 else 0) + Waiting(bases[1..], t)
  }

  predicate ClosesTask(r: Request, t: nat) {
    r.id == REQUEST_DISABLE && r.task == Some(t)
  }

  /** Disable requests of the task that have not been answered yet. */
  function Closing(sent: seq<Request>, answered: set<nat>, t: nat): nat {
    if sent == [] then 0
    else
      var n := |sent| - 1;
      Closing(sent[..n], answered, t) + if ClosesTask(sent[n], t) && n !in answered then 1 else 0
  }

  /** A task handed out is completed once or held once; any other number appears nowhere. */
  predicate Ledger(s: State, t: nat) {
    TimesDone(s.done, t) + Waiting(Bases(s.client.handlers), t) + Closing(s.client.sent, s.client.answered, t)
    == if t < s.nextTask then 1 else 0
  }

  /** The books are in order: what a caller may rely on. */
  ghost predicate Books(s: State) {
    && OneBase(s) && s.halt != StaleContext
    && (s.halt == Running ==> forall t: nat :: Ledger(s, t))
  }

  predicate Balanced(s: State, t: nat) {
    && Wired(s) && OneBase(s)
    && (s.halt == Running ==> Ledger(s, t))
    && s.halt != StaleContext
    && forall k <- s.client.answered :: k < |s.client.sent|
  }

  lemma {:induction false} BasesMembers(hs: seq<Handler>)
    ensures forall h :: h in Bases(hs) <==> h in hs && h.BaseHandler?
  {
    if hs != [] { BasesMembers(hs[1..]); }
  }

  lemma {:induction false} WithoutBase(hs: seq<Handler>, id: nat)
    requires forall h <- hs :: h.BaseHandler? ==> h.id == id
    ensures Bases(Without(hs, id)) == []
  {
    if hs != [] {
      WithoutBase(hs[1..], id);
      if hs[0].id != id {
        assert hs[0] in hs;
        assert ([hs[0]] + Without(hs[1..], id))[1..] == Without(hs[1..], id);
      }
    }
  }

  lemma {:induction false} FreedNoBase(hs: seq<Handler>, id: nat)
    requires Bases(hs) == []
    ensures Freed(hs, id) == hs
  {
    if hs != [] {
      assert Bases(hs[1..]) == [];
      FreedNoBase(hs[1..], id);
    }
  }

  lemma {:induction false} WithoutDriver(hs: seq<Handler>, id: nat)
    requires forall h <- hs :: h.BaseHandler? ==> h.id != id
    ensures Bases(Without(hs, id)) == Bases(hs)
  {
    if hs != [] {
      WithoutDriver(hs[1..], id);
      assert hs[0] in hs;
      if hs[0].id != id {
        assert ([hs[0]] + Without(hs[1..], id))[1..] == Without(hs[1..], id);
      } else {
        assert Bases(hs) == [] + Bases(hs[1..]);
      }
    }
  }

  lemma {:induction false} BasesAppend(hs: seq<Handler>, h: Handler)
    ensures Bases(hs + [h]) == Bases(hs) + if h.BaseHandler? then [h] else []
  {
    if hs == [] {
      assert [] + [h] == [h] && [h][1..] == [];
    } else {
      var first := if hs[0].BaseHandler? then [hs[0]] else [];
      var last := if h.BaseHandler? then [h] else [];
      assert (hs + [h])[1..] == hs[1..] + [h];
      BasesAppend(hs[1..], h);
      assert Bases(hs + [h]) == first + (Bases(hs[1..]) + last);
      assert Bases(hs) + last == first + Bases(hs[1..]) + last;
    }
  }

  lemma DoneAppend(done: seq<Completion>, c: Completion, t: nat)
    ensures TimesDone(done + [c], t) == TimesDone(done, t) + if c.task == t then 1 else 0
  {
  }

  lemma ClosingAppend(sent: seq<Request>, answered: set<nat>, r: Request, t: nat)
    requires forall k <- answered :: k < |sent|
    ensures Closing(sent + [r], answered, t) == Closing(sent, answered, t) + if ClosesTask(r, t) then 1 else 0
  {
  }

  /** Answering a request settles it, and only it. */
  lemma {:induction false} ClosingAnswer(sent: seq<Request>, answered: set<nat>, k: nat, t: nat)
    requires k !in answered
    ensures Closing(sent, answered, t) ==
            Closing(sent, answered + {k}, t) + if k < |sent| && ClosesTask(sent[k], t) then 1 else 0
  {
    if sent != [] {
      ClosingAnswer(sent[..|sent| - 1], answered, k, t);
    }
  }

  lemma TheBase(s: State, h: Handler)
    requires OneBase(s) && h in s.client.handlers && h.BaseHandler?
    ensures Bases(s.client.handlers) == [h] && h.id == s.reportId != 0 && h.live
    ensures forall g <- s.client.handlers :: g.BaseHandler? ==> g == h
  {
    BasesMembers(s.client.handlers);
    assert h in Bases(s.client.handlers);
  }

  lemma FinishHandlers(s: State, h: Handler)
    requires OneBase(s) && h in s.client.handlers && h.BaseHandler?
    ensures Bases(Freed(Without(s.client.handlers, s.reportId), h.id)) == []
  {
    TheBase(s, h);
    WithoutBase(s.client.handlers, s.reportId);
    FreedNoBase(Without(s.client.handlers, s.reportId), h.id);
  }

  /** Completing the one pending task moves it from its handler to the done list. */
  lemma FinishBalanced(s: State, h: Handler, o: Outcome, t: nat)
    requires Balanced(s, t) && h in s.client.handlers && h.BaseHandler?
    ensures Balanced(Finish(s, h, o), t) && Finish(s, h, o).reportId == 0
  {
    TheBase(s, h);
    FinishHandlers(s, h);
    FinishFacts(s, h, o);
    DoneAppend(s.done, Completion(h.task, o), t);
    assert Waiting([h], t) == if h.task == t then 1 else 0;
  }

  /** A request that is not a disable does not touch the ledger. */
  lemma SendBalanced(s: State, uid: Uid, id: nat, body: RequestBody, task: Option<nat>, t: nat)
    requires Balanced(s, t) && id != REQUEST_DISABLE
    ensures Balanced(Send(s, uid, id, body, task), t)
  {
  }

  /** Same table, logs and stored ids: same balance. */
  predicate SameBooks(s: State, u: State) {
    u.client == s.client && u.driver.reportId == s.driver.reportId && u.reportId == s.reportId
    && u.done == s.done && u.nextTask == s.nextTask && u.halt == s.halt
  }

  lemma SameBooksBalanced(s: State, u: State, t: nat)
    requires Balanced(s, t) && SameBooks(s, u)
    ensures Balanced(u, t)
  {
  }

  lemma SuidBalanced(s: State, h: Handler, r: SuidResponse, t: nat)
    requires Balanced(s, t) && h in s.client.handlers && h.BaseHandler?
    ensures Balanced(SuidReceived(s, h, r), t)
  {
    var s1 := s.(heard := s.heard + [r]);
    SameBooksBalanced(s, s1, t);
    if r.uids != [] && r.dataType == REGISTRY {
      var s2 := s1.(serviceAvailable := true);
      SameBooksBalanced(s1, s2, t);
      SendBalanced(s2, SUID, REQUEST_SUID, FindType(s.dataType), Some(h.task), t);
    } else if !s.serviceAvailable {
      var s2 := s1.(retries := s1.retries + 1);
      SameBooksBalanced(s1, s2, t);
      if s2.retries >= MAX_RETRIES {
        FinishBalanced(s2, h, NoService, t);
      } else {
        SendBalanced(s2, SUID, REQUEST_SUID, FindType(REGISTRY), Some(h.task), t);
      }
    } else if r.dataType == s.dataType {
      if r.uids != [] {
        var s2 := s1.(uid := r.uids[0]);
        SameBooksBalanced(s1, s2, t);
        SendBalanced(s2, r.uids[0], REQUEST_GET_ATTRIBUTES, NoUpdates, None, t);
      } else {
        FinishBalanced(s1, h, NotFound, t);
      }
    }
  }

  lemma ReportBalanced(s: State, h: Handler, m: Report, t: nat)
    requires Balanced(s, t) && h in s.client.handlers && h.BaseHandler?
    ensures Balanced(ReportReceived(s, h, m), t)
  {
    TheBase(s, h);
    if m.uid == SUID && m.id == RESPONSE_SUID {
      if m.payload.suid.Some? { SuidBalanced(s, h, m.payload.suid.value, t); }
    } else if m.uid == s.uid && m.id == RESPONSE_GET_ATTRIBUTES {
      if m.payload.attributes.Some? {
        var attrs := m.payload.attributes.value;
        var s1 := s.(attrs := ApplyAll(s.attrs, attrs), accepted := s.accepted + attrs);
        SameBooksBalanced(s, s1, t);
        FinishBalanced(s1, h, Success, t);
      }
    } else {
      FinishBalanced(s, h, Success, t);
    }
  }

  lemma DriverSameBooks(s: State, m: Report)
    ensures SameBooks(s, DriverReport(s, m))
  {
  }

  lemma CallBalanced(s: State, id: nat, m: Report, t: nat)
    requires Balanced(s, t)
    ensures Balanced(Call(s, id, m), t)
  {
    FindFacts(s.client.handlers, 0, id);
    var f := Find(s.client.handlers, id);
    if s.halt == Running && f.Some? {
      if f.value.BaseHandler? {
        ReportBalanced(s, f.value, m, t);
      } else {
        DriverSameBooks(s, m);
        SameBooksBalanced(s, DriverReport(s, m), t);
      }
    }
  }

  lemma {:induction false} EmitBalanced(s: State, ids: seq<nat>, m: Report, t: nat)
    requires Balanced(s, t)
    ensures Balanced(Emit(s, ids, m), t)
    decreases |ids|
  {
    if ids != [] {
      CallBalanced(s, ids[0], m, t);
      EmitBalanced(Call(s, ids[0], m), ids[1..], m, t);
    }
  }

  lemma {:induction false} HandleBalanced(s: State, uid: Uid, bodies: seq<Body>, t: nat)
    requires Balanced(s, t)
    ensures Balanced(HandleReport(s, uid, bodies), t)
    decreases |bodies|
  {
    if bodies != [] {
      var m := Report(bodies[0].id, uid, bodies[0].payload);
      EmitBalanced(s, Ids(s.client.handlers), m, t);
      HandleBalanced(Deliver(s, m), uid, bodies[1..], t);
    }
  }

  lemma SameTableKept(s: State, u: State)
    requires Wired(s) && OneBase(s) && SameTable(s, u)
    ensures Wired(u) && OneBase(u)
  {
    SameTableWired(s, u);
  }

  /** A task that is completed as soon as it is handed out. */
  lemma LedgerNewTask(s: State, u: State, o: Outcome, t: nat)
    requires Ledger(s, t) && u.client == s.client && u.nextTask == s.nextTask + 1
    requires u.done == s.done + [Completion(s.nextTask, o)]
    ensures Ledger(u, t)
  {
    DoneAppend(s.done, Completion(s.nextTask, o), t);
  }

  lemma CompleteNewTask(s: State, o: Outcome, t: nat)
    requires Balanced(s, t) && s.halt == Running
    ensures Balanced(Complete(s.(nextTask := s.nextTask + 1), s.nextTask, o), t)
  {
    var u := Complete(s.(nextTask := s.nextTask + 1), s.nextTask, o);
    SameTableKept(s, u);
    LedgerNewTask(s, u, o, t);
  }

  /** A new base handler under the next id, when there was none. */
  lemma BaseConnected(s: State, h: Handler)
    requires Wired(s) && Bases(s.client.handlers) == [] && h.BaseHandler? && h.live && h.id == s.client.nextId
    ensures var u := s.(client := Connect(s.client, h), reportId := h.id);
            Wired(u) && OneBase(u) && Bases(u.client.handlers) == [h]
  {
    WiredBase(s, h);
    BasesAppend(s.client.handlers, h);
    assert [] + [h] == [h];
  }

  lemma EnableBalanced(s: State, id: nat, body: RequestBody, t: nat)
    requires Balanced(s, t) && s.reportId == 0 && id != REQUEST_DISABLE
    ensures Balanced(Enable(s.(nextTask := s.nextTask + 1), id, body, s.nextTask), t)
  {
    var h := BaseHandler(s.client.nextId, s.nextTask, true);
    var r := Request(s.uid, id, body, Some(s.nextTask));
    var u := s.(client := Connect(s.client, h), reportId := h.id);
    var v := Enable(s.(nextTask := s.nextTask + 1), id, body, s.nextTask);
    BaseConnected(s, h);
    assert v.client == u.client.(sent := s.client.sent + [r]) && v.done == s.done;
    SameTableKept(u, v);
    ClosingAppend(s.client.sent, s.client.answered, r, t);
    assert Waiting([h], t) == if h.task == t then 1 else 0;
    assert s.halt == Running ==> Ledger(v, t);
  }

  lemma AbortBalanced(s: State, t: nat)
    requires Balanced(s, t)
    ensures Balanced(s.(nextTask := s.nextTask + 1, halt := Aborted), t)
  {
  }

  lemma SensorOpenBalanced(s: State, t: nat)
    requires Balanced(s, t) && (s.reportId == 0 || !Openable(s.attrs)) && s.halt == Running
    ensures Balanced(SensorOpen(s), t)
  {
    var n := s.(nextTask := s.nextTask + 1);
    if !s.attrs.available {
      assert SensorOpen(s) == Complete(n, s.nextTask, Unavailable);
      CompleteNewTask(s, Unavailable, t);
    } else if s.attrs.streamType == CONTINUOUS && s.attrs.sampleRate <= 0.0 {
      assert SensorOpen(s) == Complete(n, s.nextTask, NoSampleRate);
      CompleteNewTask(s, NoSampleRate, t);
    } else if s.attrs.streamType == CONTINUOUS {
      assert SensorOpen(s) == Enable(n, REQUEST_ENABLE_CONTINUOUS, Rate(s.attrs.sampleRate), s.nextTask);
      EnableBalanced(s, REQUEST_ENABLE_CONTINUOUS, Rate(s.attrs.sampleRate), t);
    } else if s.attrs.streamType == ON_CHANGE {
      assert SensorOpen(s) == Enable(n, REQUEST_ENABLE_ON_CHANGE, Empty, s.nextTask);
      EnableBalanced(s, REQUEST_ENABLE_ON_CHANGE, Empty, t);
    } else {
      assert SensorOpen(s) == n.(halt := Aborted);
      AbortBalanced(s, t);
    }
  }

  lemma ConnectDriverBalanced(s: State, t: nat)
    requires Balanced(s, t)
    ensures Balanced(ConnectDriver(s), t)
  {
    var h := DriverHandler(s.client.nextId);
    ConnectFacts(s, h);
    BasesAppend(s.client.handlers, h);
    assert Bases(s.client.handlers + [h]) == Bases(s.client.handlers);
  }

  lemma OpenBalanced(s: State, t: nat)
    requires Balanced(s, t) && (s.reportId == 0 || !Openable(s.attrs)) && s.halt == Running
    ensures Balanced(Open(s), t)
  {
    match s.kind
    case Plain => SensorOpenBalanced(s, t);
    case Accelerometer =>
      ConnectDriverBalanced(s, t);
      SensorOpenBalanced(ConnectDriver(s), t);
    case Proximity =>
      var s1 := s.(driver := s.driver.(reportedOnce := false));
      SameBooksBalanced(s, s1, t);
      ConnectDriverBalanced(s1, t);
      SensorOpenBalanced(ConnectDriver(s1), t);
  }

  lemma SensorCloseBalanced(s: State, t: nat)
    requires Balanced(s, t)
    ensures Balanced(SensorClose(s), t)
  {
  }

  lemma CloseBalanced(s: State, t: nat)
    requires Balanced(s, t)
    ensures Balanced(Close(s), t)
  {
    if s.kind.Plain? || s.driver.reportId == 0 {
      SensorCloseBalanced(s, t);
    } else {
      var hs := s.client.handlers;
      var s1 := s.(client := Disconnect(s.client, s.driver.reportId));
      WithoutFacts(hs, 0, s.driver.reportId);
      WithoutSublist(hs, s.driver.reportId);
      WithoutDriver(hs, s.driver.reportId);
      assert Balanced(s1, t);
      SensorCloseBalanced(s1, t);
    }
  }

  /** A request is answered: the task of a disable is completed, no other request's is. */
  lemma AnsweredBalanced(s: State, k: nat, o: Outcome, t: nat)
    requires Balanced(s, t) && Unanswered(s, k)
    ensures var u := s.(client := s.client.(answered := s.client.answered + {k}));
            var r := s.client.sent[k];
            && (!(r.id == REQUEST_DISABLE && r.task.Some?) ==> Balanced(u, t))
            && (r.id == REQUEST_DISABLE && r.task.Some? ==> Balanced(Complete(u, r.task.value, o), t))
  {
    var r := s.client.sent[k];
    ClosingAnswer(s.client.sent, s.client.answered, k, t);
    if r.task.Some? {
      DoneAppend(s.done, Completion(r.task.value, o), t);
    }
  }

  lemma SendReadyBalanced(s: State, k: nat, ok: bool, t: nat)
    requires Balanced(s, t) && Harmless(s, SendResult(k, ok))
    ensures Balanced(SendReady(s, k, ok), t)
  {
    if Unanswered(s, k) {
      AnsweredBalanced(s, k, if ok then Success else SendFailed, t);
    }
  }

  lemma StepBalanced(s: State, e: Event, t: nat)
    requires Balanced(s, t) && Allowed(s, e)
    ensures Balanced(Step(s, e), t)
  {
    if s.halt == Running {
      match e
      case UserOpen => OpenBalanced(s, t);
      case UserClose => CloseBalanced(s, t);
      case Indication(uid, bodies) => HandleBalanced(s, uid, bodies, t);
      case SendResult(k, ok) => SendReadyBalanced(s, k, ok, t);
    }
  }

  lemma {:induction false} RunBalanced(s: State, es: seq<Event>, t: nat)
    requires Balanced(s, t) && Disciplined(s, es)
    ensures Balanced(Run(s, es), t)
    decreases |es|
  {
    if es != [] {
      StepBalanced(s, es[0], t);
      RunBalanced(Step(s, es[0]), es[1..], t);
    }
  }

  lemma BootBalanced(kind: Kind, dataType: string, uid: Uid, t: nat)
    ensures Balanced(Boot(kind, dataType, uid), t)
  {
  }

  /** Steps that do harm: an accepted open on top of a pending task leaves two base handlers ... */
  lemma HarmfulOpen(s: State)
    requires Balanced(s, 0) && s.halt == Running && s.reportId != 0 && Openable(s.attrs)
    ensures !OneBase(Open(s))
  {
    AcceptedOpen(s);
    var extra, b := OpenHandlers(s);
    BasesMembers(s.client.handlers);
    var older := Bases(s.client.handlers)[0];
    assert older in Bases(s.client.handlers);
    BasesMembers(Open(s).client.handlers);
    assert older in Bases(Open(s).client.handlers) && b in Bases(Open(s).client.handlers);
    assert older.id != b.id;
  }

  /** ... and a failing request other than a disable completes a task that is accounted for already. */
  lemma HarmfulSend(s: State, k: nat, t: nat)
    requires Balanced(s, t) && s.halt == Running && Unanswered(s, k)
    requires s.client.sent[k].task == Some(t) && s.client.sent[k].id != REQUEST_DISABLE
    ensures !Ledger(SendReady(s, k, false), t)
  {
    ClosingAnswer(s.client.sent, s.client.answered, k, t);
    DoneAppend(s.done, Completion(t, SendFailed), t);
  }

  /** Exactly the harmless steps keep the books in order. */
  lemma BooksIffHarmless(s: State, e: Event)
    requires s.halt == Running && forall t: nat :: Balanced(s, t)
    ensures Books(Step(s, e)) <==> Harmless(s, e)
  {
    if Harmless(s, e) {
      forall t: nat ensures Balanced(Step(s, e), t) {
        assert Balanced(s, t);
        StepBalanced(s, e, t);
      }
      assert Balanced(Step(s, e), 0);
      forall t: nat ensures Step(s, e).halt == Running ==> Ledger(Step(s, e), t) {
        assert Balanced(Step(s, e), t);
      }
    } else if e.UserOpen? {
      assert Balanced(s, 0);
      HarmfulOpen(s);
    } else {
      var t := s.client.sent[e.request].task.value;
      assert Balanced(s, t);
      HarmfulSend(s, e.request, t);
    }
  }

  lemma BalancedBooks(s: State)
    requires forall t: nat :: Balanced(s, t)
    ensures Books(s)
  {
    assert Balanced(s, 0);
    forall t: nat ensures s.halt == Running ==> Ledger(s, t) {
      assert Balanced(s, t);
    }
  }

  lemma RunStep(s: State, es: seq<Event>, n: nat)
    requires 0 < n <= |es|
    ensures Run(s, es[..n]) == Run(Step(s, es[0]), es[1..][..n - 1])
  {
    assert es[..n][1..] == es[1..][..n - 1];
  }

  lemma {:induction false} BooksIffDisciplined(s: State, es: seq<Event>)
    requires forall t: nat :: Balanced(s, t)
    ensures Disciplined(s, es) <==> forall n :: 0 <= n <= |es| ==> Books(Run(s, es[..n]))
    decreases |es|
  {
    BalancedBooks(s);
    assert Run(s, es[..0]) == s;
    if es != [] {
      var u := Step(s, es[0]);
      RunStep(s, es, 1);
      assert Run(u, es[1..][..0]) == u;
      if Allowed(s, es[0]) {
        forall t: nat ensures Balanced(u, t) {
          assert Balanced(s, t);
          StepBalanced(s, es[0], t);
        }
        BooksIffDisciplined(u, es[1..]);
        forall n | 0 < n <= |es| ensures Run(s, es[..n]) == Run(u, es[1..][..n - 1]) {
          RunStep(s, es, n);
        }
        if forall n :: 0 <= n <= |es| ==> Books(Run(s, es[..n])) {
          forall n | 0 <= n <= |es[1..]| ensures Books(Run(u, es[1..][..n])) {
            assert Books(Run(s, es[..n + 1]));
          }
        }
      } else {
        BooksIffHarmless(s, es[0]);
        assert !Books(Run(s, es[..1]));
      }
    }
  }

  /**
   * The books stay in order throughout a run if and only if every step of it is harmless. In
   * order means: the stored handler id is non-zero exactly when a base handler is connected,
   * under that id and with a live context; every task handed out (initialisation, open, close)
   * has been completed exactly once, or never and is held by exactly one pending operation; and
   * no freed context has been used.
   */
  lemma TasksCompleteExactlyOnce(kind: Kind, dataType: string, uid: Uid, es: seq<Event>)
    ensures Disciplined(Boot(kind, dataType, uid), es) <==>
            forall n :: 0 <= n <= |es| ==> Books(Run(Boot(kind, dataType, uid), es[..n]))
  {
    forall t: nat ensures Balanced(Boot(kind, dataType, uid), t) {
      BootBalanced(kind, dataType, uid, t);
    }
    BooksIffDisciplined(Boot(kind, dataType, uid), es);
  }

  // ---------------------------------------------------------------------
  // Aborting
  // ---------------------------------------------------------------------

  lemma {:induction false} EmitAborts(s: State, ids: seq<nat>, m: Report)
    ensures s.halt != Aborted ==> Emit(s, ids, m).halt != Aborted
    decreases |ids|
  {
    if ids != [] { EmitAborts(Call(s, ids[0], m), ids[1..], m); }
  }

  lemma {:induction false} HandleAborts(s: State, uid: Uid, bodies: seq<Body>)
    ensures s.halt != Aborted ==> HandleReport(s, uid, bodies).halt != Aborted
    decreases |bodies|
  {
    if bodies != [] {
      var m := Report(bodies[0].id, uid, bodies[0].payload);
      EmitAborts(s, Ids(s.client.handlers), m);
      HandleAborts(Deliver(s, m), uid, bodies[1..]);
    }
  }

  /** Only an open of an unknown stream type aborts, and it completes nothing and connects no base handler. */
  lemma AbortingStep(s: State, e: Event)
    requires s.halt == Running && Step(s, e).halt == Aborted
    ensures e == UserOpen && UnknownStream(s.attrs)
    ensures Step(s, e).done == s.done && Step(s, e).reportId == s.reportId
  {
    match e
    case UserOpen =>
    case UserClose =>
    case Indication(uid, bodies) => HandleAborts(s, uid, bodies);
    case SendResult(_, _) =>
  }

  // ---------------------------------------------------------------------
  // What harm leads to
  // ---------------------------------------------------------------------

  /** A measurement of the own sensor whose body nobody can decode: only the base class reacts to it. */
  function Nudge(uid: Uid): Event {
    Indication(uid, [Body(REPORT_MEASUREMENT, GARBAGE)])
  }

  function NudgeReport(uid: Uid): Report {
    Report(REPORT_MEASUREMENT, uid, GARBAGE)
  }

  lemma {:induction false} EmitConcat(s: State, xs: seq<nat>, ys: seq<nat>, m: Report)
    ensures Emit(s, xs + ys, m) == Emit(Emit(s, xs, m), ys, m)
    decreases |xs|
  {
    if xs == [] {
      assert xs + ys == ys;
    } else {
      assert (xs + ys)[1..] == xs[1..] + ys;
      EmitConcat(Call(s, xs[0], m), xs[1..], ys, m);
    }
  }

  /** Drivers, and handlers no longer connected, do nothing on a nudge. */
  lemma {:induction false} EmitIdle(s: State, ids: seq<nat>, m: Report)
    requires m.payload == GARBAGE
    requires s.halt != Running || forall id <- ids ::
               Find(s.client.handlers, id).Some? ==> Find(s.client.handlers, id).value.DriverHandler?
    ensures Emit(s, ids, m) == s
    decreases |ids|
  {
    if ids != [] {
      assert ids[0] in ids;
      assert Call(s, ids[0], m) == s;
      EmitIdle(s, ids[1..], m);
    }
  }

  lemma NudgeStep(s: State)
    requires s.halt == Running
    ensures Step(s, Nudge(s.uid)) == Deliver(s, NudgeReport(s.uid))
  {
    var bodies := [Body(REPORT_MEASUREMENT, GARBAGE)];
    assert bodies[1..] == [];
    assert HandleReport(Deliver(s, NudgeReport(s.uid)), s.uid, []) == Deliver(s, NudgeReport(s.uid));
  }

  /** Where a handler stands in the table. */
  lemma {:induction false} SplitIds(hs: seq<Handler>, low: nat, h: Handler) returns (pre: seq<nat>, post: seq<nat>)
    requires Ordered(hs, low) && h in hs
    ensures Ids(hs) == pre + [h.id] + post
    ensures forall id <- pre + post :: id != h.id
  {
    OrderedAbove(hs[1..], hs[0].id);
    if hs[0] == h {
      pre, post := [], Ids(hs[1..]);
      assert Ids(hs) == [h.id] + Ids(hs[1..]);
      forall id <- post ensures id != h.id {
        var i :| 0 <= i < |hs| - 1 && Ids(hs[1..])[i] == id;
        assert hs[1..][i] in hs[1..];
      }
    } else {
      assert h in hs[1..];
      pre, post := SplitIds(hs[1..], hs[0].id, h);
      assert Ids(hs) == [hs[0].id] + Ids(hs[1..]);
      assert [hs[0].id] + pre + [h.id] + post == [hs[0].id] + (pre + [h.id] + post);
      forall id <- [hs[0].id] + pre + post ensures id != h.id {
        if id != hs[0].id { assert id in pre + post; }
      }
      pre := [hs[0].id] + pre;
    }
  }

  /** Two base handlers of which the older is `older`; an open has stored the newer one's id. */
  predicate Overlapped(s: State, older: Handler, newer: nat) {
    && Wired(s) && s.halt == Running && s.reportId == newer
    && older in s.client.handlers && older.BaseHandler? && older.live && older.id < newer
    && forall h <- s.client.handlers :: h.BaseHandler? ==> h == older || h.id == newer
  }

  lemma FindMember(hs: seq<Handler>, low: nat, h: Handler)
    requires Ordered(hs, low) && h in hs
    ensures Find(hs, h.id) == Some(h)
  {
    FindFacts(hs, low, h.id);
    UniqueIds(hs, low);
  }

  lemma {:induction false} UniqueIds(hs: seq<Handler>, low: nat)
    requires Ordered(hs, low)
    ensures forall g, h :: g in hs && h in hs && g.id == h.id ==> g == h
  {
    if hs != [] {
      OrderedAbove(hs[1..], hs[0].id);
      UniqueIds(hs[1..], hs[0].id);
      forall g, h | g in hs && h in hs && g.id == h.id ensures g == h {
        if g != hs[0] { assert g in hs[1..]; }
        if h != hs[0] { assert h in hs[1..]; }
      }
    }
  }

  lemma {:induction false} FreedMembers(hs: seq<Handler>, id: nat)
    ensures forall h :: h in Freed(hs, id) <==>
              exists g :: g in hs && h == if g.BaseHandler? && g.id == id then g.(live := false) else g
  {
    if hs != [] {
      FreedMembers(hs[1..], id);
      forall h ensures h in Freed(hs, id) <==>
                exists g :: g in hs && h == if g.BaseHandler? && g.id == id then g.(live := false) else g
      {
        var first := if hs[0].BaseHandler? && hs[0].id == id then hs[0].(live := false) else hs[0];
        assert Freed(hs, id) == [first] + Freed(hs[1..], id);
        assert h in Freed(hs, id) <==> h == first || h in Freed(hs[1..], id);
        assert forall g :: g in hs <==> g == hs[0] || g in hs[1..];
      }
    }
  }

  lemma {:induction false} IdsOrdered(hs: seq<Handler>, low: nat)
    requires Ordered(hs, low)
    ensures forall i, j :: 0 <= i < j < |hs| ==> Ids(hs)[i] < Ids(hs)[j]
  {
    if hs != [] {
      IdsOrdered(hs[1..], hs[0].id);
      OrderedAbove(hs[1..], hs[0].id);
      forall i, j | 0 <= i < j < |hs| ensures Ids(hs)[i] < Ids(hs)[j] {
        assert hs[j] == hs[1..][j - 1];
        if i > 0 { assert Ids(hs[1..])[i - 1] < Ids(hs[1..])[j - 1]; }
      }
    }
  }

  /** Among the handlers before a given one there are only drivers. */
  lemma OnlyDriversBefore(hs: seq<Handler>, h: Handler, pre: seq<nat>, post: seq<nat>)
    requires Ordered(hs, 0) && Ids(hs) == pre + [h.id] + post
    requires forall g <- hs :: g.BaseHandler? ==> g == h || g.id > h.id
    ensures forall id <- pre :: Find(hs, id).Some? ==> Find(hs, id).value.DriverHandler?
  {
    IdsOrdered(hs, 0);
    forall id <- pre ensures Find(hs, id).Some? ==> Find(hs, id).value.DriverHandler? {
      FindFacts(hs, 0, id);
      var i :| 0 <= i < |pre| && pre[i] == id;
      assert Ids(hs)[i] < Ids(hs)[|pre|] == h.id;
    }
  }

  lemma CallOne(s: State, id: nat, m: Report)
    ensures Emit(s, [id], m) == Call(s, id, m)
  {
  }

  /** A nudge reaches the first base handler; what it does there is all when no other base handler is left. */
  lemma NudgeReaches(s: State, h: Handler)
    requires Wired(s) && s.halt == Running && h in s.client.handlers && h.BaseHandler?
    requires forall g <- s.client.handlers :: g.BaseHandler? ==> g == h || g.id > h.id
    requires var r := ReportReceived(s, h, NudgeReport(s.uid));
             r.halt != Running || (Wired(r) && forall g <- r.client.handlers :: g.BaseHandler? ==> g.id == h.id)
    ensures Deliver(s, NudgeReport(s.uid)) == ReportReceived(s, h, NudgeReport(s.uid))
  {
    var hs := s.client.handlers;
    var m := NudgeReport(s.uid);
    var r := ReportReceived(s, h, m);
    var pre, post := SplitIds(hs, 0, h);
    EmitConcat(s, pre + [h.id], post, m);
    EmitConcat(s, pre, [h.id], m);
    OnlyDriversBefore(hs, h, pre, post);
    EmitIdle(s, pre, m);
    FindMember(hs, 0, h);
    CallOne(s, h.id, m);
    if r.halt == Running {
      forall id <- post ensures Find(r.client.handlers, id).Some? ==> Find(r.client.handlers, id).value.DriverHandler? {
        FindFacts(r.client.handlers, 0, id);
        assert id in pre + post;
      }
    }
    EmitIdle(r, post, m);
  }

  /** The first measurement completes the older task, disconnects the newer handler, frees the older's context. */
  lemma FirstNudge(s: State, older: Handler, newer: nat)
    requires Overlapped(s, older, newer)
    ensures var u := Finish(s, older, Success);
            && Deliver(s, NudgeReport(s.uid)) == u
            && Wired(u)
            && older.(live := false) in u.client.handlers
            && forall h <- u.client.handlers :: h.BaseHandler? ==> h == older.(live := false)
  {
    var hs := s.client.handlers;
    WithoutFacts(hs, 0, newer);
    FreedMembers(Without(hs, newer), older.id);
    FinishFacts(s, older, Success);
    NudgeReaches(s, older);
  }

  /** The next measurement runs into the freed context. */
  lemma SecondNudge(s: State, dead: Handler)
    requires Wired(s) && s.halt == Running && dead in s.client.handlers && dead.BaseHandler? && !dead.live
    requires forall h <- s.client.handlers :: h.BaseHandler? ==> h == dead
    ensures Deliver(s, NudgeReport(s.uid)).halt == StaleContext
  {
    NudgeReaches(s, dead);
  }

  lemma SensorOpenHandlers(s: State)
    requires Wired(s) && SensorOpen(s).reportId != s.reportId
    ensures SensorOpen(s).client.handlers == s.client.handlers + [BaseHandler(s.client.nextId, s.nextTask, true)]
    ensures SensorOpen(s).reportId == s.client.nextId && SensorOpen(s).halt == s.halt
  {
  }

  lemma AcceptedOpen(s: State)
    requires Wired(s) && Openable(s.attrs)
    ensures Open(s).reportId != s.reportId
  {
  }

  /** An accepted open adds at most a driver and one base handler, stored as the current one. */
  lemma OpenHandlers(s: State) returns (extra: seq<Handler>, b: Handler)
    requires Wired(s) && Open(s).reportId != s.reportId
    ensures Open(s).client.handlers == s.client.handlers + extra + [b]
    ensures (forall h <- extra :: h.DriverHandler?) && b.BaseHandler?
    ensures Open(s).reportId == b.id >= s.client.nextId && Open(s).halt == s.halt && b.task == s.nextTask
  {
    ConnectFacts(s, DriverHandler(s.client.nextId));
    match s.kind {
      case Plain =>
        extra, b := [], BaseHandler(s.client.nextId, s.nextTask, true);
        SensorOpenHandlers(s);
        assert s.client.handlers + extra == s.client.handlers;
      case Accelerometer =>
        extra, b := [DriverHandler(s.client.nextId)], BaseHandler(s.client.nextId + 1, s.nextTask, true);
        SensorOpenHandlers(ConnectDriver(s));
      case Proximity =>
        extra, b := [DriverHandler(s.client.nextId)], BaseHandler(s.client.nextId + 1, s.nextTask, true);
        SensorOpenHandlers(ConnectDriver(s.(driver := s.driver.(reportedOnce := false))));
    }
  }

  lemma OverlapAfterOpen(s: State, t: nat, older: Handler)
    requires Balanced(s, t) && s.halt == Running && s.reportId != 0
    requires older in s.client.handlers && older.BaseHandler?
    requires Open(s).reportId != s.reportId
    ensures Overlapped(Open(s), older, Open(s).reportId)
  {
    TheBase(s, older);
    OpenFacts(s);
    var extra, b := OpenHandlers(s);
    assert older in Open(s).client.handlers;
  }

  lemma OpenUid(s: State)
    requires Wired(s)
    ensures Open(s).uid == s.uid
  {
  }

  lemma RunThree(s: State, e: Event, f: Event, g: Event)
    ensures Run(s, [e, f, g]) == Step(Step(Step(s, e), f), g)
  {
    var es := [e, f, g];
    assert es[1..] == [f, g] && [f, g][1..] == [g] && [g][1..] == [];
    var v := Step(Step(Step(s, e), f), g);
    assert Run(v, []) == v;
    assert Run(Step(Step(s, e), f), [g]) == v;
    assert Run(Step(s, e), [f, g]) == v;
  }

  /**
   * Opening while a task is pending goes wrong for every such state and every open the sensor
   * accepts: two own measurements later the handler of the older task, still connected, is
   * called with its freed context; the newer open's task is never completed.
   */
  lemma OverlappingOpenFails(s: State, t: nat)
    requires Balanced(s, t) && s.halt == Running && s.reportId != 0 && Openable(s.attrs)
    ensures Run(s, [UserOpen, Nudge(s.uid), Nudge(s.uid)]).halt == StaleContext
  {
    var o := Open(s);
    AcceptedOpen(s);
    OpenUid(s);
    BasesMembers(s.client.handlers);
    var older := Bases(s.client.handlers)[0];
    OverlapAfterOpen(s, t, older);
    assert Step(s, UserOpen) == o;
    FirstNudge(o, older, o.reportId);
    var u := Finish(o, older, Success);
    NudgeStep(o);
    SecondNudge(u, older.(live := false));
    NudgeStep(u);
    RunThree(s, UserOpen, Nudge(s.uid), Nudge(s.uid));
  }

  /** With one base handler connected, a nudge completes its task. */
  lemma NudgeCompletes(s: State, h: Handler)
    requires Wired(s) && OneBase(s) && s.halt == Running && h in s.client.handlers && h.BaseHandler?
    ensures Step(s, Nudge(s.uid)) == Finish(s, h, Success)
  {
    TheBase(s, h);
    FinishHandlers(s, h);
    FinishFacts(s, h, Success);
    BasesMembers(Finish(s, h, Success).client.handlers);
    NudgeReaches(s, h);
    NudgeStep(s);
  }

  /** A request with a task that fails completes the task and changes nothing else. */
  lemma SendFails(s: State, k: nat)
    requires s.halt == Running && k < |s.client.sent| && k !in s.client.answered && s.client.sent[k].task.Some?
    ensures var u := Step(s, SendResult(k, false));
            && u == s.(client := s.client.(answered := s.client.answered + {k}), done := u.done)
            && u.done == s.done + [Completion(s.client.sent[k].task.value, SendFailed)]
  {
  }

  lemma RunTwo(s: State, e: Event, f: Event)
    ensures Run(s, [e, f]) == Step(Step(s, e), f)
  {
    assert [e, f][1..] == [f] && [f][1..] == [];
    var v := Step(Step(s, e), f);
    assert Run(v, []) == v;
    assert Run(Step(s, e), [f]) == v;
  }

  /**
   * A failed send breaks the ledger as well, for every pending task whose request fails: the task
   * is completed with the error, its handler stays connected, and the next own measurement
   * completes it a second time.
   */
  lemma FailedSendCompletesTwice(s: State, k: nat, t: nat)
    requires Balanced(s, t) && s.halt == Running && s.reportId != 0
    requires Unanswered(s, k)
    requires s.client.sent[k].task == Some(Bases(s.client.handlers)[0].task)
    ensures var h := Bases(s.client.handlers)[0];
            Run(s, [SendResult(k, false), Nudge(s.uid)]).done ==
            s.done + [Completion(h.task, SendFailed), Completion(h.task, Success)]
  {
    BasesMembers(s.client.handlers);
    var h := Bases(s.client.handlers)[0];
    SendFails(s, k);
    var u := Step(s, SendResult(k, false));
    NudgeCompletes(u, h);
    RunTwo(s, SendResult(k, false), Nudge(s.uid));
    var c, d := Completion(h.task, SendFailed), Completion(h.task, Success);
    assert s.done + [c] + [d] == s.done + [c, d];
  }

  /**
   * And a request that fails late, when its task has been completed already, completes it a
   * second time right away, whether or not anything is pending.
   */
  lemma LateFailureCompletesTwice(s: State, k: nat, t: nat)
    requires Balanced(s, t) && s.halt == Running && Unanswered(s, k)
    requires s.client.sent[k].task == Some(t) && TimesDone(s.done, t) == 1
    ensures TimesDone(Step(s, SendResult(k, false)).done, t) == 2
  {
    DoneAppend(s.done, Completion(t, SendFailed), t);
  }
}
