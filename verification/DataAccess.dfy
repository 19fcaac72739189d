/** Who may touch a service's mutable data, with no lock in sight. */
module DataAccess {
  import opened Seqs
  import opened QueueSpec
  import opened ServiceSpec
  import opened TxnSpec
  import opened WorkflowLaws
  import opened Protocol
  import opened Invariants
  import opened LedgerSteps
  import opened ProtocolSteps
  import opened Runs
  import opened Counterexamples

  /** Asking for mutable data: a frozen handle gets nothing, an unfrozen one is granted the
      data or aborts the process, depending on the queue state. */
  datatype Access = NoData | Refused | GrantedData

  function MutableData(freezed: bool, state: QState): Access {
    if freezed then NoData
    else match state
      case Init | Destroy | Writing => GrantedData
      case _ => Refused
  }

  /** User code that runs with a service handle outside the service's init and release: an API, a
      job or the clean-up after a callback, when an event is handled; an endpoint callback, when
      a reply arrives; or the callback of an endpoint call that keeps no task pending, of which the
      protocol keeps no record, so that it may run at any time. */
  datatype Code = AtEvent(event: Event) | AtReply(op: Op) | AtPlainReply(svc: ServiceId)

  predicate RunsUserCode(m: Msg) {
    m.TaskRun? || m.TimerRun? || (m.TaskCb? && (m.status == TaskDone || m.status == TaskBusy))
  }

  /** The code can run next in state `s`. */
  predicate Waits(s: State, u: Code) {
    match u
    case AtEvent(e) => e in s.net && RunsUserCode(e.msg)
    case AtReply(o) => o in s.local.ops && o.EpCall?
    case AtPlainReply(v) => v in s.local.svcs
  }

  /** The code is given a service handle. */
  predicate HasHandle(u: Code) {
    match u
    case AtEvent(e) => RunsUserCode(e.msg)
    case AtReply(o) => o.EpCall?
    case AtPlainReply(_) => true
  }

  function ServiceOf(u: Code): ServiceId
    requires HasHandle(u)
  {
    match u
    case AtEvent(e) => e.msg.svc
    case AtReply(o) => o.svc
    case AtPlainReply(v) => v
  }

  /** Endpoint callbacks, refused jobs and read jobs get a frozen handle. */
  predicate Freezed(u: Code) {
    match u
    case AtEvent(e) => e.msg.TimerRun? && (!e.msg.ok || e.msg.job.kind == Read)
    case AtReply(_) => true
    case AtPlainReply(_) => true
  }

  function AccessOf(l: Local, u: Code): Access
    requires HasHandle(u) && ServiceOf(u) in l.svcs
  {
    MutableData(Freezed(u), l.svcs[ServiceOf(u)].queue.state)
  }

  /** The code is the only holder of a slot of its service, and it holds it to write. */
  predicate SoleWriter(s: State, u: Code) {
    && u.AtEvent? && RunsUserCode(u.event.msg)
    && HoldsSlot(u.event.msg, u.event.msg.svc, Write)
    && Held(s.net, u.event.msg.svc, Read) == 0 && Held(s.net, u.event.msg.svc, Write) == 1
  }

  predicate HoldsAnySlot(u: Code) {
    && u.AtEvent?
    && var m := u.event.msg;
       m.TaskRun? || (m.TaskCb? && m.slot) || (m.TimerRun? && m.ok)
  }

  /** Mutable data is granted to a slot holder exactly when it is the sole writer. Code without
      a slot is never the sole writer: what it is granted belongs to someone else. Endpoint
      callbacks, of either kind, are granted nothing. */
  lemma MutableDataIsExclusive(cfg: Config, trace: seq<State>, steps: seq<Step>, n: nat, u: Code)
    requires IsRun(cfg, trace, steps) && n < |trace| && Waits(trace[n], u)
    ensures var s := trace[n];
      && ServiceOf(u) in s.local.svcs
      && (HoldsAnySlot(u) ==> (AccessOf(s.local, u) == GrantedData <==> SoleWriter(s, u)))
      && (!HoldsAnySlot(u) ==> !SoleWriter(s, u))
      && (AccessOf(s.local, u) == GrantedData ==> (SoleWriter(s, u) <==> HoldsAnySlot(u)))
      && (!u.AtEvent? ==> AccessOf(s.local, u) == NoData)
  {
    RunInv(cfg, trace, steps, n);
    var s := trace[n];
    match u
    case AtPlainReply(_) =>
    case AtReply(o) => assert OpOk(cfg, s.local, o);
    case AtEvent(e) =>
      assert MsgOk(cfg, s.local, e);
      SlotCounts(s, e);
  }

  lemma SlotCounts(s: State, e: Event)
    requires e in s.net && RunsUserCode(e.msg) && e.msg.svc in s.local.svcs && Slots(s)
    ensures SlotsOk(s, e.msg.svc)
    ensures forall k :: HoldsSlot(e.msg, e.msg.svc, k) ==> Held(s.net, e.msg.svc, k) >= 1
  {
    forall k | HoldsSlot(e.msg, e.msg.svc, k) ensures Held(s.net, e.msg.svc, k) >= 1 {
      SumBounds(s.net, SlotW(e.msg.svc, k));
      assert SlotW(e.msg.svc, k)(e) <= Held(s.net, e.msg.svc, k);
    }
  }

  /** The service APIs and the jobs are granted mutable data only as the sole writer. */
  lemma ApisAndJobsAreExclusive(cfg: Config, trace: seq<State>, steps: seq<Step>, n: nat, e: Event)
    requires IsRun(cfg, trace, steps) && n < |trace| && e in trace[n].net && (e.msg.TaskRun? || e.msg.TimerRun?)
    ensures var s := trace[n];
      e.msg.svc in s.local.svcs && (AccessOf(s.local, AtEvent(e)) == GrantedData <==> SoleWriter(s, AtEvent(e)))
  {
    MutableDataIsExclusive(cfg, trace, steps, n, AtEvent(e));
  }

  /** Of all user code, only the clean-up after a callback can be granted mutable data without
      being the sole writer, and only when it holds no slot. */
  lemma OnlyCleanUpIsNotExclusive(cfg: Config, trace: seq<State>, steps: seq<Step>, n: nat, u: Code)
    requires IsRun(cfg, trace, steps) && n < |trace| && Waits(trace[n], u)
    ensures ServiceOf(u) in trace[n].local.svcs
    ensures AccessOf(trace[n].local, u) == GrantedData && !SoleWriter(trace[n], u) ==>
      u.AtEvent? && u.event.msg.TaskCb? && !u.event.msg.slot
  {
    MutableDataIsExclusive(cfg, trace, steps, n, u);
  }

  // ----- the callback clean-up is not exclusive -----

  function U0(): Txn { NewTxn(1, 1, false, 0) }
  function WCall(): Call { Call(0, Write, 0, true) }
  function WTask(st: TaskStatus, p: int): Task { Task(0, Write, 0, true, st, p) }
  function U1(p: int): Txn {
    U0().(state := Suspended, next := 1, log := [Ran(0)], tasks := [WTask(TaskRunning, p)], total := 1, pending := 1)
  }
  function Ep(): Op { EpCall(1, 0, Pend(0, 0)) }
  function WJob(): Job { Job(Write, 0, NoPend, 0, 1) }

  function M(net: seq<Event>, sv: Service, t: Txn, ops: seq<Op>): State {
    State(Local(map[0 := sv], map[0 := t], ops, 1), net)
  }

  function WIo(): Event { Event(1, MASTER, IoCall(0, 0, 0, Write, 0)) }
  function WRun(): Event { Event(MASTER, 1, TaskRun(0, 0, 0, Write, 1)) }
  function WPend(): Event { Event(1, 1, TaskCb(0, 0, 0, Write, TaskPending, true)) }
  function WDone(): Event { Event(1, MASTER, Done(0, 0, Write, false, true)) }
  function WFinish(): Event { Event(1, 1, TaskCb(0, 0, 0, Write, TaskDone, false)) }
  function JEmit(): Event { Event(1, MASTER, TimerEmit(0, WJob())) }
  function JRun(): Event { Event(MASTER, 1, TimerRun(0, WJob(), true)) }

  lemma D1()
    ensures Next(Cfg(), Start(), Arrive(1, 1, 1, false, 0), M([Wf()], Fresh(), U0(), []))
  {
    assert [] + [Wf()] == [Wf()];
  }

  lemma MadeWrite()
    ensures Made(U0(), [WCall()]).(state := Suspended) == U1(0) && Made(U0(), [WCall()]).pending == 1
  {
    assert Map(TaskOf(), [WCall()]) == [WTask(TaskRunning, 0)];
    assert U0().tasks + [WTask(TaskRunning, 0)] == [WTask(TaskRunning, 0)];
    SumOne(WCall(), CbWeight());
    assert U0().log + [Ran(0)] == [Ran(0)];
  }

  lemma D2()
    ensures Next(Cfg(), M([Wf()], Fresh(), U0(), []), Deliver(0, Choice([], Conduct(false, [WCall()], []))),
                 M([WIo()], Fresh(), U1(0), []))
  {
    MadeWrite();
    assert IoCalls(1, 0, U1(0), 0) == [WIo()];
    assert [WIo()] + [] == [WIo()];
    assert map[0 := U0()][0 := U1(0)] == map[0 := U1(0)];
    ModuleDelivered(M([Wf()], Fresh(), U0(), []), [WCall()], U1(0), M([WIo()], Fresh(), U1(0), []));
  }

  lemma D3()
    ensures Next(Cfg(), M([WIo()], Fresh(), U1(0), []), Deliver(0, NoChoice()), M([WRun()], Busy(Writing), U1(0), []))
  {
    var x := Elem(Write, ApiTask(1, 0, 0, 0));
    assert Push(Fresh().queue, x) == Queue(PreferWrite, Idle, 1, Single([x]));
    DrainOne(x);
    assert Map(ToRun(Cfg(), 0), [x]) == [WRun()];
    assert Remove([WIo()], 0) == [];
    assert [] + ([] + [WRun()]) == [WRun()];
    assert map[0 := Fresh()][0 := Busy(Writing)] == map[0 := Busy(Writing)];
  }

  /** The API starts one endpoint call and returns. */
  lemma D4()
    ensures Next(Cfg(), M([WRun()], Busy(Writing), U1(0), []), Deliver(0, Choice([StartEp], Quiet())),
                 M([WPend()], Busy(Writing), U1(1), [Ep()]))
  {
    assert AddPendings(U1(0), 0, 1) == U1(1);
    assert Map(OpOf(1, 0, Pend(0, 0)), [StartEp]) == [Ep()];
    assert [] + [Ep()] == [Ep()];
    assert Remove([WRun()], 0) == [];
    assert [] + [WPend()] == [WPend()];
    assert map[0 := U1(0)][0 := U1(1)] == map[0 := U1(1)];
  }

  lemma D5()
    ensures Next(Cfg(), M([WPend()], Busy(Writing), U1(1), [Ep()]), Deliver(0, NoChoice()),
                 M([WDone()], Busy(Writing), U1(1), [Ep()]))
  {
    NoticeDelivered(M([WPend()], Busy(Writing), U1(1), [Ep()]), M([WDone()], Busy(Writing), U1(1), [Ep()]));
  }

  /** A pending notice changes nothing but passes the slot on. */
  lemma NoticeDelivered(s: State, s': State)
    requires s.net == [WPend()] && 0 in s.local.txns && s'.local == s.local && s'.net == [WDone()]
    requires var t := s.local.txns[0]; t.home == 1 && |t.tasks| == 1 && t.tasks[0].hasCb && t.pending == 1
    ensures Next(Cfg(), s, Deliver(0, NoChoice()), s')
  {
    var t := s.local.txns[0];
    assert IoCalls(1, 0, t, 1) == [];
    assert s.local.txns[0 := t] == s.local.txns;
    assert HandleTaskCb(Cfg(), s.local, WPend(), Quiet()) == Effect(s.local, [] + [WDone()]);
    assert [] + [WDone()] == [WDone()];
    DeliverOnly(s, NoChoice(), s');
  }

  lemma D6()
    ensures Next(Cfg(), M([WDone()], Busy(Writing), U1(1), [Ep()]), Deliver(0, NoChoice()),
                 M([], Fresh(), U1(1), [Ep()]))
  {
    assert SetComplete(Busy(Writing)) == Fresh();
    DrainNone(Idle, 0);
    assert Map(ToRun(Cfg(), 0), []) == [];
    assert Remove([WDone()], 0) == [];
    var none: seq<Event> := [];
    assert none + (none + none) == none;
    assert map[0 := Busy(Writing)][0 := Fresh()] == map[0 := Fresh()];
  }

  lemma D7()
    ensures Next(Cfg(), M([], Fresh(), U1(1), [Ep()]), EpReply(0, []), M([WFinish()], Fresh(), U1(0), []))
  {
    assert AddPendings(U1(1), 0, -1) == U1(0);
    assert Remove([Ep()], 0) == [];
    assert [] + Map(OpOf(1, 0, Pend(0, 0)), []) == [];
    assert [] + [WFinish()] == [WFinish()];
    assert map[0 := U1(1)][0 := U1(0)] == map[0 := U1(0)];
  }

  lemma D8()
    ensures Next(Cfg(), M([WFinish()], Fresh(), U1(0), []), CreateJob(1, 0, Write, 0, 0),
                 M([WFinish()], Fresh(), U1(0), [Armed(1, 0, WJob())]))
    ensures Next(Cfg(), M([WFinish()], Fresh(), U1(0), [Armed(1, 0, WJob())]), TimerFires(0),
                 M([WFinish(), JEmit()], Fresh(), U1(0), []))
  {
    assert [WFinish()] + [] == [WFinish()];
    assert [] + [Armed(1, 0, WJob())] == [Armed(1, 0, WJob())];
    assert Remove([Armed(1, 0, WJob())], 0) == [];
    assert [WFinish()] + [JEmit()] == [WFinish(), JEmit()];
  }

  lemma D9()
    ensures Next(Cfg(), M([WFinish(), JEmit()], Fresh(), U1(0), []), Deliver(1, NoChoice()),
                 M([WFinish(), JRun()], Busy(Writing), U1(0), []))
  {
    JobTaken(M([], Fresh(), U1(0), []).local);
    assert Remove([WFinish(), JEmit()], 1) == [WFinish()];
    assert [WFinish()] + [JRun()] == [WFinish(), JRun()];
    assert map[0 := Fresh()][0 := Busy(Writing)] == map[0 := Busy(Writing)];
  }

  /** The idle service takes the job and runs it at once. */
  lemma JobTaken(l: Local)
    requires 0 in l.svcs && l.svcs[0] == Fresh()
    ensures HandleTimerEmit(Cfg(), l, JEmit()) == Effect(l.(svcs := l.svcs[0 := Busy(Writing)]), [JRun()])
  {
    var x := Elem(Write, TimerTask(1, WJob()));
    assert Push(Fresh().queue, x) == Queue(PreferWrite, Idle, 1, Single([x]));
    DrainOne(x);
    assert Map(ToRun(Cfg(), 0), [x]) == [JRun()];
    assert [] + [JRun()] == [JRun()];
  }

  lemma FirstSteps() returns (trace: seq<State>, steps: seq<Step>)
    ensures IsRun(Cfg(), trace, steps) && |steps| == 2
    ensures trace[2] == M([WIo()], Fresh(), U1(0), [])
  {
    trace, steps := [Start()], [];
    D1();
    ExtendRun(Cfg(), trace, steps, Arrive(1, 1, 1, false, 0), M([Wf()], Fresh(), U0(), []));
    trace, steps := trace + [M([Wf()], Fresh(), U0(), [])], steps + [Arrive(1, 1, 1, false, 0)];
    D2();
    var call := Deliver(0, Choice([], Conduct(false, [WCall()], [])));
    ExtendRun(Cfg(), trace, steps, call, M([WIo()], Fresh(), U1(0), []));
    trace, steps := trace + [M([WIo()], Fresh(), U1(0), [])], steps + [call];
  }

  lemma HalfWay() returns (trace: seq<State>, steps: seq<Step>)
    ensures IsRun(Cfg(), trace, steps) && |steps| == 5
    ensures trace[5] == M([WDone()], Busy(Writing), U1(1), [Ep()])
  {
    trace, steps := FirstSteps();
    D3();
    ExtendRun(Cfg(), trace, steps, Deliver(0, NoChoice()), M([WRun()], Busy(Writing), U1(0), []));
    trace, steps := trace + [M([WRun()], Busy(Writing), U1(0), [])], steps + [Deliver(0, NoChoice())];
    D4();
    var ep := Deliver(0, Choice([StartEp], Quiet()));
    ExtendRun(Cfg(), trace, steps, ep, M([WPend()], Busy(Writing), U1(1), [Ep()]));
    trace, steps := trace + [M([WPend()], Busy(Writing), U1(1), [Ep()])], steps + [ep];
    D5();
    ExtendRun(Cfg(), trace, steps, Deliver(0, NoChoice()), M([WDone()], Busy(Writing), U1(1), [Ep()]));
    trace, steps := trace + [M([WDone()], Busy(Writing), U1(1), [Ep()])], steps + [Deliver(0, NoChoice())];
  }

  lemma Waiting() returns (trace: seq<State>, steps: seq<Step>)
    ensures IsRun(Cfg(), trace, steps) && |steps| == 9
    ensures trace[9] == M([WFinish(), JEmit()], Fresh(), U1(0), [])
  {
    trace, steps := HalfWay();
    D6();
    ExtendRun(Cfg(), trace, steps, Deliver(0, NoChoice()), M([], Fresh(), U1(1), [Ep()]));
    trace, steps := trace + [M([], Fresh(), U1(1), [Ep()])], steps + [Deliver(0, NoChoice())];
    D7();
    ExtendRun(Cfg(), trace, steps, EpReply(0, []), M([WFinish()], Fresh(), U1(0), []));
    trace, steps := trace + [M([WFinish()], Fresh(), U1(0), [])], steps + [EpReply(0, [])];
    D8();
    ExtendRun(Cfg(), trace, steps, CreateJob(1, 0, Write, 0, 0), M([WFinish()], Fresh(), U1(0), [Armed(1, 0, WJob())]));
    trace := trace + [M([WFinish()], Fresh(), U1(0), [Armed(1, 0, WJob())])];
    steps := steps + [CreateJob(1, 0, Write, 0, 0)];
    ExtendRun(Cfg(), trace, steps, TimerFires(0), M([WFinish(), JEmit()], Fresh(), U1(0), []));
    trace, steps := trace + [M([WFinish(), JEmit()], Fresh(), U1(0), [])], steps + [TimerFires(0)];
  }

  /** The clean-up that follows a late completion is granted mutable data while a write job
      of the same service runs: the handle it gets is not frozen and it holds no slot. */
  lemma CleanUpIsNotExclusive() returns (trace: seq<State>, steps: seq<Step>)
    ensures IsRun(Cfg(), trace, steps) && |trace| == 11
    ensures var s := trace[10];
      && Deliverable(s.net, 0) && s.net[0].msg.TaskCb? && Waits(s, AtEvent(s.net[0]))
      && s.net[0].msg.svc in s.local.svcs
      && AccessOf(s.local, AtEvent(s.net[0])) == GrantedData && !SoleWriter(s, AtEvent(s.net[0]))
      && Deliverable(s.net, 1) && Waits(s, AtEvent(s.net[1])) && SoleWriter(s, AtEvent(s.net[1]))
  {
    trace, steps := Waiting();
    D9();
    ExtendRun(Cfg(), trace, steps, Deliver(1, NoChoice()), M([WFinish(), JRun()], Busy(Writing), U1(0), []));
    trace, steps := trace + [M([WFinish(), JRun()], Busy(Writing), U1(0), [])], steps + [Deliver(1, NoChoice())];
    TwoAtOnce();
  }

  lemma TwoAtOnce()
    ensures var s := M([WFinish(), JRun()], Busy(Writing), U1(0), []);
      && Deliverable(s.net, 0) && Waits(s, AtEvent(WFinish()))
      && AccessOf(s.local, AtEvent(WFinish())) == GrantedData && !SoleWriter(s, AtEvent(WFinish()))
      && Deliverable(s.net, 1) && Waits(s, AtEvent(JRun())) && SoleWriter(s, AtEvent(JRun()))
  {
    forall k ensures Held([WFinish(), JRun()], 0, k) == if k == Write then 1 else 0 {
      assert [WFinish()] + [JRun()] == [WFinish(), JRun()];
      SumAppend([WFinish()], [JRun()], SlotW(0, k));
      SumOne(WFinish(), SlotW(0, k));
      SumOne(JRun(), SlotW(0, k));
    }
  }
}
