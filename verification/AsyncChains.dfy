/**
 * The asynchronous plumbing: the chain of callbacks that initialises a client, the callback
 * chain of one request, and the synchronous wrapper that waits for a callback while running
 * the main loop.
 */
module AsyncChains {
  import opened Common

  // ---------------------------------------------------------------------
  // Client initialisation
  // ---------------------------------------------------------------------

  /** The callback the main loop will run next, if the chain has not ended. */
  datatype Pending = BusNew | DeviceNew | DeviceOpen | AllocateClient | Nothing

  datatype InitResult = Connected | BusError | ServiceNotFound | DeviceError | OpenError | AllocateError

  /** How the outside world answers the chain: the four operations, and whether a node offers the service. */
  datatype World = World(bus: bool, node: bool, device: bool, open: bool, allocate: bool)

  /** The failure a world leads to is the first one on the way, if any. */
  function Expected(w: World): InitResult {
    if !w.bus then BusError else if !w.node then ServiceNotFound else if !w.device then DeviceError
    else if !w.open then OpenError else if !w.allocate then AllocateError else Connected
  }

  function StepsLeft(p: Pending): nat {
    match p
    case BusNew => 4
    case DeviceNew => 3
    case DeviceOpen => 2
    case AllocateClient => 1
    case Nothing => 0
  }

  class ClientInit {
    var pending: Pending
    var bus: bool
    var device: bool
    var qmiClient: bool
    var smallConnected: bool
    var largeConnected: bool
    var results: seq<InitResult>

    constructor ()
      ensures pending == BusNew && results == [] && !smallConnected && !largeConnected
    {
      pending, bus, device, qmiClient := BusNew, false, false, false;
      smallConnected, largeConnected, results := false, false, [];
    }

    method Fail(e: InitResult)
      modifies this`pending, this`results
      ensures pending == Nothing && results == old(results) + [e]
    {
      pending := Nothing;
      results := results + [e];
    }

    method BusNewReady(ok: bool, nodes: seq<bool>)
      requires pending == BusNew
      modifies this
      ensures unchanged(`smallConnected) && unchanged(`largeConnected)
      ensures ok && true in nodes ==> pending == DeviceNew && results == old(results)
      ensures !ok ==> pending == Nothing && results == old(results) + [BusError]
      ensures ok && true !in nodes ==> pending == Nothing && results == old(results) + [ServiceNotFound]
    {
      bus := ok;
      if !ok {
        Fail(BusError);
        return;
      }
      var found := false;
      for i := 0 to |nodes|
        invariant !found && true !in nodes[..i]
      {
        if nodes[i] {
          found := true;
          break;
        }
      }
      if !found {
        assert nodes[..|nodes|] == nodes;
        Fail(ServiceNotFound);
        return;
      }
      pending := DeviceNew;
    }

    method DeviceNewReady(ok: bool)
      requires pending == DeviceNew
      modifies this
      ensures unchanged(`smallConnected) && unchanged(`largeConnected)
      ensures ok ==> pending == DeviceOpen && results == old(results)
      ensures !ok ==> pending == Nothing && results == old(results) + [DeviceError]
    {
      device := ok;
      if !ok {
        Fail(DeviceError);
        return;
      }
      pending := DeviceOpen;
    }

    method DeviceOpenReady(ok: bool)
      requires pending == DeviceOpen
      modifies this
      ensures unchanged(`smallConnected) && unchanged(`largeConnected)
      ensures ok ==> pending == AllocateClient && results == old(results)
      ensures !ok ==> pending == Nothing && results == old(results) + [OpenError]
    {
      if !ok {
        Fail(OpenError);
        return;
      }
      pending := AllocateClient;
    }

    method AllocateClientReady(ok: bool)
      requires pending == AllocateClient
      modifies this
      ensures pending == Nothing
      ensures ok ==> smallConnected && largeConnected && results == old(results) + [Connected]
      ensures !ok ==> unchanged(`smallConnected) && unchanged(`largeConnected)
      ensures !ok ==> results == old(results) + [AllocateError]
    {
      qmiClient := ok;
      if !ok {
        Fail(AllocateError);
        return;
      }
      smallConnected := true;
      largeConnected := true;
      pending := Nothing;
      results := results + [Connected];
    }

    /**
     * The main loop runs whatever callback is pending until none is. Whatever the world answers,
     * the task completes exactly once, and the report signals are connected exactly on success.
     */
    method RunToEnd(w: World, nodes: seq<bool>)
      requires pending == BusNew && results == [] && !smallConnected && !largeConnected
      requires w.node <==> true in nodes
      modifies this
      ensures pending == Nothing
      ensures results == [Expected(w)]
      ensures smallConnected == largeConnected == (results == [Connected])
    {
      while pending != Nothing
        invariant pending != Nothing ==> results == [] && !smallConnected && !largeConnected
        invariant pending == Nothing ==> results == [Expected(w)]
        invariant pending == Nothing ==> smallConnected == largeConnected == (results == [Connected])
        invariant pending.DeviceNew? ==> w.bus && w.node
        invariant pending.DeviceOpen? ==> w.bus && w.node && w.device
        invariant pending.AllocateClient? ==> w.bus && w.node && w.device && w.open
        decreases StepsLeft(pending)
      {
        match pending {
          case BusNew => BusNewReady(w.bus, nodes);
          case DeviceNew => DeviceNewReady(w.device);
          case DeviceOpen => DeviceOpenReady(w.open);
          case AllocateClient => AllocateClientReady(w.allocate);
        }
      }
    }
  }

  // ---------------------------------------------------------------------
  // Requests
  // ---------------------------------------------------------------------

  datatype SendOutcome = Accepted | BadReportType | BadData | NoReply | Rejected

  datatype Done = Done(task: nat, outcome: SendOutcome)

  /**
   * A caller hands over a request, whose two fields can or cannot be set in the message; or the
   * transport calls back for some request, with or without a reply, which accepts it or does not.
   */
  datatype SendEvent = Start(reportType: bool, data: bool) | Answer(task: nat, reply: bool, accepted: bool)

  function Count(results: seq<Done>, task: nat): nat {
    if results == [] then 0
    else Count(results[..|results| - 1], task) + if results[|results| - 1].task == task then 1 else 0
  }

  lemma CountAppend(results: seq<Done>, d: Done, task: nat)
    ensures Count(results + [d], task) == Count(results, task) + if d.task == task then 1 else 0
  {
    assert (results + [d])[..|results|] == results;
  }

  /** How many requests were handed over. */
  function Started(es: seq<SendEvent>): nat {
    if es == [] then 0 else Started(es[..|es| - 1]) + if es[|es| - 1].Start? then 1 else 0
  }

  /** The request of a task was built and put on the wire. */
  predicate Built(es: seq<SendEvent>, task: nat) {
    es != [] &&
    var n := |es| - 1;
    Built(es[..n], task) || (es[n].Start? && es[n].reportType && es[n].data && Started(es[..n]) == task)
  }

  function AnswerOutcome(e: SendEvent): SendOutcome
    requires e.Answer?
  {
    if !e.reply then NoReply else if e.accepted then Accepted else Rejected
  }

  /** What a task is due, looking at nothing but its own request and the first answer to it. */
  function Fate(es: seq<SendEvent>, task: nat): Option<SendOutcome> {
    if es == [] then None
    else
      var n := |es| - 1;
      var earlier := Fate(es[..n], task);
      if earlier.Some? then earlier
      else match es[n]
        case Start(reportType, data) =>
          if Started(es[..n]) != task then None
          else if !reportType then Some(BadReportType)
          else if !data then Some(BadData)
          else None
        case Answer(t, _, _) => if t == task && Built(es[..n], task) then Some(AnswerOutcome(es[n])) else None
  }

  /** The record agrees with what every task is due. */
  ghost predicate Deserved(es: seq<SendEvent>, waiting: set<nat>, next: nat, wired: set<nat>, results: seq<Done>) {
    && next == Started(es)
    && (forall t: nat :: t in wired <==> Built(es, t))
    && (forall t: nat :: t in waiting <==> t in wired && Fate(es, t) == None)
    && (forall d <- results :: Fate(es, d.task) == Some(d.outcome))
  }

  lemma {:induction false} BuiltAreStarted(es: seq<SendEvent>, task: nat)
    ensures Built(es, task) || Fate(es, task).Some? ==> task < Started(es)
  {
    if es != [] { BuiltAreStarted(es[..|es| - 1], task); }
  }

  lemma FateStep(es: seq<SendEvent>, e: SendEvent, task: nat)
    ensures Started(es + [e]) == Started(es) + if e.Start? then 1 else 0
    ensures Built(es + [e], task) <==>
            Built(es, task) || (e.Start? && e.reportType && e.data && Started(es) == task)
    ensures Fate(es + [e], task) ==
            if Fate(es, task).Some? then Fate(es, task)
            else if e.Start? && Started(es) == task && !e.reportType then Some(BadReportType)
            else if e.Start? && Started(es) == task && !e.data then Some(BadData)
            else if e.Answer? && e.task == task && Built(es, task) then Some(AnswerOutcome(e))
            else None
  {
    assert (es + [e])[..|es|] == es;
  }

  lemma DeservedStart(es: seq<SendEvent>, e: SendEvent, waiting: set<nat>, next: nat,
                      wired: set<nat>, results: seq<Done>,
                      waiting': set<nat>, wired': set<nat>, results': seq<Done>)
    requires Deserved(es, waiting, next, wired, results) && e.Start?
    requires if e.reportType && e.data
             then waiting' == waiting + {next} && wired' == wired + {next} && results' == results
             else waiting' == waiting && wired' == wired
                  && results' == results + [Done(next, if e.reportType then BadData else BadReportType)]
    ensures Deserved(es + [e], waiting', next + 1, wired', results')
  {
    FateStep(es, e, next);
    BuiltAreStarted(es, next);
    forall t: nat ensures t in wired' <==> Built(es + [e], t) { FateStep(es, e, t); }
    forall t: nat ensures t in waiting' <==> t in wired' && Fate(es + [e], t) == None { FateStep(es, e, t); }
    forall d <- results' ensures Fate(es + [e], d.task) == Some(d.outcome) { FateStep(es, e, d.task); }
  }

  lemma DeservedAnswer(es: seq<SendEvent>, e: SendEvent, waiting: set<nat>, next: nat,
                       wired: set<nat>, results: seq<Done>,
                       waiting': set<nat>, results': seq<Done>)
    requires Deserved(es, waiting, next, wired, results) && e.Answer?
    requires if e.task in waiting
             then waiting' == waiting - {e.task} && results' == results + [Done(e.task, AnswerOutcome(e))]
             else waiting' == waiting && results' == results
    ensures Deserved(es + [e], waiting', next, wired, results')
  {
    FateStep(es, e, e.task);
    forall t: nat ensures t in wired <==> Built(es + [e], t) { FateStep(es, e, t); }
    forall t: nat ensures t in waiting' <==> t in wired && Fate(es + [e], t) == None { FateStep(es, e, t); }
    forall d <- results' ensures Fate(es + [e], d.task) == Some(d.outcome) { FateStep(es, e, d.task); }
  }

  /** A task number is waiting, or completed once, exactly if it has been handed out. */
  predicate Accounted(waiting: set<nat>, next: nat, results: seq<Done>, t: nat) {
    Count(results, t) + (if t in waiting then 1 else 0) == if t < next then 1 else 0
  }

  /** A request whose message could not be built was not on the wire; one that was answered was. */
  predicate Consistent(wired: set<nat>, d: Done) {
    d.outcome in {BadReportType, BadData} <==> d.task !in wired
  }

  ghost predicate InOrder(waiting: set<nat>, next: nat, wired: set<nat>, results: seq<Done>) {
    && (forall t: nat :: Accounted(waiting, next, results, t))
    && (forall d <- results :: d.task < next && Consistent(wired, d))
    && waiting <= wired && forall t <- wired :: t < next
  }

  lemma NotBuilt(waiting: set<nat>, next: nat, wired: set<nat>, results: seq<Done>, o: SendOutcome)
    requires InOrder(waiting, next, wired, results) && o in {BadReportType, BadData}
    ensures InOrder(waiting, next + 1, wired, results + [Done(next, o)])
  {
    var n, rs := next + 1, results + [Done(next, o)];
    forall t: nat ensures Accounted(waiting, n, rs, t) {
      assert Accounted(waiting, next, results, t);
      CountAppend(results, Done(next, o), t);
    }
  }

  lemma Sent(waiting: set<nat>, next: nat, wired: set<nat>, results: seq<Done>)
    requires InOrder(waiting, next, wired, results)
    ensures InOrder(waiting + {next}, next + 1, wired + {next}, results)
  {
    var n, w := next + 1, waiting + {next};
    forall t: nat ensures Accounted(w, n, results, t) {
      assert Accounted(waiting, next, results, t);
    }
  }

  lemma Answered(waiting: set<nat>, next: nat, wired: set<nat>, results: seq<Done>, task: nat, o: SendOutcome)
    requires InOrder(waiting, next, wired, results) && task in waiting && o !in {BadReportType, BadData}
    ensures InOrder(waiting - {task}, next, wired, results + [Done(task, o)])
  {
    var w, rs := waiting - {task}, results + [Done(task, o)];
    forall t: nat ensures Accounted(w, next, rs, t) {
      assert Accounted(waiting, next, results, t);
      CountAppend(results, Done(task, o), t);
    }
  }

  /** Position `i` hands over the request of a task. */
  predicate RequestAt(es: seq<SendEvent>, task: nat, i: nat) {
    i < |es| && es[i].Start? && Started(es[..i]) == task
  }

  /** Position `j` holds the first answer to a task's request. */
  predicate FirstAnswerAt(es: seq<SendEvent>, task: nat, j: nat) {
    && AnswerAt(es, task, j)
    && forall i :: 0 <= i < j ==> !AnswerAt(es, task, i)
  }

  predicate AnswerAt(es: seq<SendEvent>, task: nat, j: nat) {
    && j < |es| && es[j].Answer? && es[j].task == task
    && exists i :: 0 <= i < j && RequestAt(es, task, i) && es[i].reportType && es[i].data
  }

  lemma {:induction false} BuiltMeans(es: seq<SendEvent>, task: nat)
    ensures Built(es, task) <==>
            exists i :: 0 <= i < |es| && RequestAt(es, task, i) && es[i].reportType && es[i].data
  {
    if es != [] {
      var n := |es| - 1;
      BuiltMeans(es[..n], task);
      forall i | 0 <= i < n ensures RequestAt(es, task, i) <==> RequestAt(es[..n], task, i) {
        assert es[..n][..i] == es[..i];
      }
      if Built(es[..n], task) {
        var i :| 0 <= i < n && RequestAt(es[..n], task, i) && es[i].reportType && es[i].data;
        assert RequestAt(es, task, i);
      }
    }
  }

  lemma AnswerAtPrefix(es: seq<SendEvent>, n: nat, task: nat, j: nat)
    requires j < n <= |es|
    ensures AnswerAt(es, task, j) <==> AnswerAt(es[..n], task, j)
    ensures RequestAt(es, task, j) <==> RequestAt(es[..n], task, j)
  {
    assert es[..n][..j] == es[..j];
    forall i | 0 <= i < j ensures RequestAt(es, task, i) <==> RequestAt(es[..n], task, i) {
      assert es[..n][..i] == es[..i];
    }
  }

  lemma AnswerIsBuilt(es: seq<SendEvent>, task: nat, j: nat)
    requires j < |es| && es[j].Answer? && es[j].task == task
    ensures AnswerAt(es, task, j) <==> Built(es[..j], task)
  {
    BuiltMeans(es[..j], task);
    forall i | 0 <= i < j ensures RequestAt(es, task, i) <==> RequestAt(es[..j], task, i) {
      AnswerAtPrefix(es, j, task, i);
    }
  }

  /** What an outcome says about the fields of the events that led to it. */
  predicate Earned(es: seq<SendEvent>, task: nat, o: SendOutcome, i: nat) {
    match o
    case BadReportType => RequestAt(es, task, i) && !es[i].reportType
    case BadData => RequestAt(es, task, i) && es[i].reportType && !es[i].data
    case NoReply => FirstAnswerAt(es, task, i) && !es[i].reply
    case Accepted => FirstAnswerAt(es, task, i) && es[i].reply && es[i].accepted
    case Rejected => FirstAnswerAt(es, task, i) && es[i].reply && !es[i].accepted
  }

  predicate Earns(es: seq<SendEvent>, task: nat, o: SendOutcome) {
    exists i: nat :: i < |es| && Earned(es, task, o, i)
  }

  lemma {:induction false} StartedGrows(es: seq<SendEvent>, i: nat, j: nat)
    requires i < j <= |es| && es[i].Start?
    ensures Started(es[..i]) < Started(es[..j])
  {
    assert es[..j][..j - 1] == es[..j - 1];
    if i + 1 < j {
      assert Started(es[..j]) >= Started(es[..j - 1]);
      StartedGrows(es, i, j - 1);
    }
  }

  lemma RequestUnique(es: seq<SendEvent>, task: nat, i: nat, j: nat)
    requires RequestAt(es, task, i) && RequestAt(es, task, j)
    ensures i == j
  {
    if i < j { StartedGrows(es, i, j); }
    if j < i { StartedGrows(es, j, i); }
  }

  /** The request of a task that was answered could be built. */
  lemma AnsweredWasBuilt(es: seq<SendEvent>, task: nat, i: nat, j: nat)
    requires RequestAt(es, task, i) && AnswerAt(es, task, j)
    ensures es[i].reportType && es[i].data
  {
    var k :| 0 <= k < j && RequestAt(es, task, k) && es[k].reportType && es[k].data;
    RequestUnique(es, task, i, k);
  }

  /** No two outcomes are earned by the same task. */
  lemma EarnedUnique(es: seq<SendEvent>, task: nat, o: SendOutcome, i: nat, p: SendOutcome, j: nat)
    requires Earned(es, task, o, i) && Earned(es, task, p, j)
    ensures o == p
  {
    if RequestAt(es, task, i) && RequestAt(es, task, j) {
      RequestUnique(es, task, i, j);
    } else if RequestAt(es, task, i) && AnswerAt(es, task, j) {
      AnsweredWasBuilt(es, task, i, j);
    } else if RequestAt(es, task, j) && AnswerAt(es, task, i) {
      AnsweredWasBuilt(es, task, j, i);
    }
  }

  lemma EarnedPrefix(es: seq<SendEvent>, n: nat, task: nat, o: SendOutcome, i: nat)
    requires n <= |es| && Earned(es[..n], task, o, i)
    ensures i < n && Earned(es, task, o, i)
  {
    AnswerAtPrefix(es, n, task, i);
    forall k | 0 <= k < i ensures AnswerAt(es, task, k) <==> AnswerAt(es[..n], task, k) {
      AnswerAtPrefix(es, n, task, k);
    }
  }

  /** A task's fate is an outcome it has earned, and is open only while no answer has come. */
  lemma {:induction false} FateIsEarned(es: seq<SendEvent>, task: nat)
    ensures Fate(es, task).Some? ==> Earns(es, task, Fate(es, task).value)
    ensures Fate(es, task).None? ==> forall j :: 0 <= j < |es| ==> !AnswerAt(es, task, j)
  {
    if es != [] {
      var n := |es| - 1;
      FateIsEarned(es[..n], task);
      if Fate(es[..n], task).Some? {
        var o := Fate(es[..n], task).value;
        var i: nat :| i < n && Earned(es[..n], task, o, i);
        EarnedPrefix(es, n, task, o, i);
      } else {
        forall j | 0 <= j < n ensures !AnswerAt(es, task, j) { AnswerAtPrefix(es, n, task, j); }
        if es[n].Answer? && es[n].task == task { AnswerIsBuilt(es, task, n); }
        if Fate(es, task).Some? { assert Earned(es, task, Fate(es, task).value, n); }
      }
    }
  }

  /** Any number of requests may be on the wire at once; tasks are numbered as they are handed over. */
  class ClientSend {
    var waiting: set<nat>
    var next: nat
    var wired: set<nat>
    var results: seq<Done>

    ghost predicate Valid()
      reads this
    {
      InOrder(waiting, next, wired, results)
    }

    constructor ()
      ensures Valid() && next == 0 && waiting == wired == {} && results == []
    {
      waiting, next, wired, results := {}, 0, {}, [];
    }

    /** Build the message and hand it to the transport; a field that cannot be set ends the request at once. */
    method Send(reportType: bool, data: bool)
      requires Valid()
      modifies this
      ensures Valid() && next == old(next) + 1
      ensures if reportType && data
              then waiting == old(waiting) + {old(next)} && wired == old(wired) + {old(next)} && results == old(results)
              else waiting == old(waiting) && wired == old(wired)
                   && results == old(results) + [Done(old(next), if reportType then BadData else BadReportType)]
    {
      var task := next;
      next := next + 1;
      if !reportType {
        NotBuilt(waiting, task, wired, results, BadReportType);
        results := results + [Done(task, BadReportType)];
        return;
      }
      if !data {
        NotBuilt(waiting, task, wired, results, BadData);
        results := results + [Done(task, BadData)];
        return;
      }
      Sent(waiting, task, wired, results);
      waiting := waiting + {task};
      wired := wired + {task};
    }

    /** The transport calls back once for each request it was given. */
    method RequestReady(task: nat, reply: bool, accepted: bool)
      requires Valid()
      modifies this`waiting, this`results
      ensures Valid()
      ensures if task in old(waiting)
              then waiting == old(waiting) - {task}
                   && results == old(results) +
                      [Done(task, if !reply then NoReply else if accepted then Accepted else Rejected)]
              else waiting == old(waiting) && results == old(results)
    {
      if task !in waiting {
        return;
      }
      var outcome := Accepted;
      if !reply {
        outcome := NoReply;
      } else if !accepted {
        outcome := Rejected;
      }
      Answered(waiting, next, wired, results, task, outcome);
      waiting := waiting - {task};
      results := results + [Done(task, outcome)];
    }

    /**
     * Whatever is handed over and in whatever order the transport answers: each task is completed
     * exactly once, with the outcome its own request and the first answer to it have earned, or it
     * was put on the wire and still waits for its one callback.
     */
    method Play(es: seq<SendEvent>)
      requires Valid() && next == 0 && waiting == wired == {} && results == []
      modifies this
      ensures Valid() && next == Started(es)
      ensures forall t: nat :: t in wired <==> Built(es, t)
      ensures forall t: nat | t < next :: Count(results, t) == if Fate(es, t).Some? then 1 else 0
      ensures forall t: nat | t < next :: t in waiting <==> Fate(es, t) == None
      ensures forall d <- results :: forall o :: d.outcome == o <==> Earns(es, d.task, o)
    {
      for i := 0 to |es|
        invariant Valid()
        invariant Deserved(es[..i], waiting, next, wired, results)
      {
        ghost var w, n, x, r := waiting, next, wired, results;
        assert es[..i + 1] == es[..i] + [es[i]];
        match es[i] {
          case Start(reportType, data) =>
            Send(reportType, data);
            DeservedStart(es[..i], es[i], w, n, x, r, waiting, wired, results);
          case Answer(task, reply, accepted) =>
            RequestReady(task, reply, accepted);
            DeservedAnswer(es[..i], es[i], w, n, x, r, waiting, results);
        }
      }
      assert es[..|es|] == es;
      forall d <- results ensures forall o :: d.outcome == o <==> Earns(es, d.task, o) {
        OutcomeIsEarned(es, d);
      }
      forall t: nat | t < next
        ensures Count(results, t) == if Fate(es, t).Some? then 1 else 0
        ensures t in waiting <==> Fate(es, t) == None
      {
        TaskSettled(es, waiting, next, wired, results, t);
      }
    }
  }

  lemma OutcomeIsEarned(es: seq<SendEvent>, d: Done)
    requires Fate(es, d.task) == Some(d.outcome)
    ensures forall o :: d.outcome == o <==> Earns(es, d.task, o)
  {
    FateIsEarned(es, d.task);
    var i: nat :| i < |es| && Earned(es, d.task, d.outcome, i);
    forall o | Earns(es, d.task, o) ensures o == d.outcome {
      var j: nat :| j < |es| && Earned(es, d.task, o, j);
      EarnedUnique(es, d.task, o, j, d.outcome, i);
    }
  }

  lemma TaskSettled(es: seq<SendEvent>, waiting: set<nat>, next: nat, wired: set<nat>, results: seq<Done>, t: nat)
    requires InOrder(waiting, next, wired, results) && Deserved(es, waiting, next, wired, results) && t < next
    ensures Count(results, t) == if Fate(es, t).Some? then 1 else 0
    ensures t in waiting <==> Fate(es, t) == None
  {
    assert Accounted(waiting, next, results, t);
    if t !in waiting {
      CountedIsDone(results, t);
    }
  }

  lemma {:induction false} CountedIsDone(results: seq<Done>, t: nat)
    requires Count(results, t) > 0
    ensures exists d <- results :: d.task == t
  {
    var n := |results| - 1;
    if results[n].task != t {
      CountedIsDone(results[..n], t);
    }
  }

  // ---------------------------------------------------------------------
  // Waiting synchronously
  // ---------------------------------------------------------------------

  /** The context of a synchronous call. The mutex is not recursive: locking it twice would never return. */
  class SyncContext {
    var locked: bool
    var finished: bool
    var result: Option<nat>

    constructor ()
      ensures !locked && !finished && result == None
    {
      locked, finished, result := false, false, None;
    }

    method Lock()
      requires !locked
      modifies this`locked
      ensures locked
    {
      locked := true;
    }

    method Unlock()
      requires locked
      modifies this`locked
      ensures !locked
    {
      locked := false;
    }

    /** The completion callback takes the lock itself, so it must never run while the waiter holds it. */
    method Callback(r: nat)
      requires !locked
      modifies this
      ensures !locked && finished && result == Some(r)
    {
      Lock();
      result := Some(r);
      finished := true;
      Unlock();
    }

    /** One main-loop iteration: it dispatches the callback when the operation has completed. */
    method Iterate(due: bool, r: nat)
      requires !locked
      modifies this
      ensures !locked
      ensures due ==> finished && result == Some(r)
      ensures !due ==> unchanged(`finished) && unchanged(`result)
    {
      if due {
        Callback(r);
      }
    }

    /**
     * Wait until the callback has run, which the main loop does in its iteration number
     * `arrival`. The waiter never runs the main loop with the mutex held, returns with it
     * released and a result stored, and iterates exactly until the callback ran.
     */
    method Wait(arrival: nat, r: nat) returns (iterations: nat)
      requires !locked && (finished ==> result.Some?)
      modifies this
      ensures !locked && finished && result.Some?
      ensures if old(finished) then iterations == 0 && result == old(result)
              else iterations == arrival + 1 && result == Some(r)
    {
      iterations := 0;
      Lock();
      while !finished
        invariant locked
        invariant !finished ==> iterations <= arrival && !old(finished)
        invariant finished ==> if old(finished) then iterations == 0 && result == old(result)
                               else iterations == arrival + 1 && result == Some(r)
        decreases !finished, arrival - iterations
      {
        Unlock();
        Iterate(iterations == arrival, r);
        iterations := iterations + 1;
        Lock();
      }
      Unlock();
    }
  }
}
