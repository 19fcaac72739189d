/** Theorems about every run of the protocol. */
module Runs {
  // Whatever user code, clocks, endpoint replies and timers do, and however the channels
  // interleave.

  import opened Seqs
  import opened QueueSpec
  import opened ServiceSpec
  import opened TxnSpec
  import opened WorkflowLaws
  import opened Protocol
  import opened Invariants
  import opened LedgerSteps
  import opened ProtocolSteps
  import opened SlotSteps

  lemma PendingsFlow(t: Txn, k: nat, n: int)
    requires k < |t.tasks| && FlowOk(t)
    ensures FlowOk(AddPendings(t, k, n))
  {
  }

  lemma FinishPendingFlows(s: State, engine: Engine, svc: ServiceId, p: Pend, started: seq<Started>, net: seq<Event>)
    requires Flows(s) && p.Pend? && FinishPending(s.local, engine, svc, p, started).Effect?
    ensures Flows(State(FinishPending(s.local, engine, svc, p, started).local, net))
  {
    PendingsFlow(s.local.txns[p.txn], p.task, |started| - 1);
  }

  lemma HandleFlows(cfg: Config, s: State, i: nat, c: Choice)
    requires Flows(s) && i < |s.net| && Handle(cfg, s.local, s.net[i], c).Effect?
    ensures Flows(After(s, i, Handle(cfg, s.local, s.net[i], c)))
  {
    var e := s.net[i];
    var m := e.msg;
    var net := Remove(s.net, i) + Handle(cfg, s.local, e, c).sent;
    match m
    case TaskRun(t, k, svc, kind, caller) => PendingsFlow(s.local.txns[t], k, |c.started|);
    case TimerRun(svc, job, ok) =>
      if job.pend.Pend? { FinishPendingFlows(s, e.dst, svc, job.pend, c.started, net); }
    case TaskCb(t, k, svc, kind, status, slot) =>
      CallbackFlows(cfg, s, e, c.conduct, net);
    case WorkflowRun(t) => WorkflowFlows(cfg, s, e, c.conduct, net);
    case _ =>
  }

  lemma CallbackFlows(cfg: Config, s: State, e: Event, c: Conduct, net: seq<Event>)
    requires Flows(s) && e.msg.TaskCb? && HandleTaskCb(cfg, s.local, e, c).Effect?
    ensures Flows(State(HandleTaskCb(cfg, s.local, e, c).local, net))
  {
    var m := e.msg;
    var x := s.local.txns[m.txn];
    var runs := (m.status == TaskDone || m.status == TaskBusy) && x.tasks[m.task].hasCb;
    CallbackFlow(x, m.task, m.status, runs && c.failed, if runs then c.calls else []);
  }

  lemma WorkflowFlows(cfg: Config, s: State, e: Event, c: Conduct, net: seq<Event>)
    requires Flows(s) && e.msg.WorkflowRun? && HandleWorkflowRun(cfg, s.local, e, c).Effect?
    ensures Flows(State(HandleWorkflowRun(cfg, s.local, e, c).local, net))
  {
    StepFollows(s.local.txns[e.msg.txn], c, 0);
  }

  lemma HandleLedger(cfg: Config, s: State, i: nat, c: Choice)
    requires Ledger(cfg, s) && Flows(s) && Deliverable(s.net, i) && LegalChoice(cfg, s.local, c)
    requires Handle(cfg, s.local, s.net[i], c).Effect?
    ensures Ledger(cfg, After(s, i, Handle(cfg, s.local, s.net[i], c)))
  {
    match s.net[i].msg
    case IoCall(_, _, _, _, _) => IoCallLedger(cfg, s, i);
    case TaskRun(_, _, _, _, _) => ApiRan(cfg, s, i, c.started);
    case TaskCb(_, _, _, _, _, _) => TaskCbLedger(cfg, s, i, c.conduct);
    case Done(_, _, _, _, _) => DoneLedger(cfg, s, i);
    case WorkflowRun(_) => WorkflowRunLedger(cfg, s, i, c.conduct);
    case TimerEmit(_, _) => TimerEmitLedger(cfg, s, i);
    case TimerRun(_, _, _) => TimerRunLedger(cfg, s, i, c.started);
    case TimerDone(_, _, _) => TimerDoneLedger(cfg, s, i);
  }

  lemma HandleSlots(cfg: Config, s: State, i: nat, c: Choice)
    requires Ledger(cfg, s) && Slots(s) && i < |s.net|
    requires Handle(cfg, s.local, s.net[i], c).Effect?
    ensures Slots(After(s, i, Handle(cfg, s.local, s.net[i], c)))
  {
    var m := s.net[i].msg;
    if m.IoCall? || m.TimerEmit? {
      OnArrival(cfg, s, i, c);
    } else if m.Done? || m.TimerDone? {
      OnRelease(cfg, s, i, c);
    } else {
      OffMaster(cfg, s, i, c);
    }
  }

  lemma ArriveLedger(cfg: Config, s: State, t: Txn, from: Engine)
    requires Ledger(cfg, s) && Counted(t) && t.tasks == []
    ensures Ledger(cfg, Arrival(s, t, from))
  {
    Arrived(cfg, s, t);
    SendFirst(cfg, State(NewArrival(s.local, t), s.net), from, s.local.nextTxn);
  }

  lemma SendFirst(cfg: Config, s: State, from: Engine, id: TxnId)
    requires Ledger(cfg, s) && id in s.local.txns && id < s.local.nextTxn
    ensures Ledger(cfg, State(s.local, s.net + [Event(from, s.local.txns[id].home, WorkflowRun(id))]))
  {
    Send(cfg, s, Event(from, s.local.txns[id].home, WorkflowRun(id)));
  }

  lemma ArriveInv(cfg: Config, s: State, t: Txn, from: Engine)
    requires Inv(cfg, s) && Counted(t) && t.tasks == [] && FlowOk(t) && Resting(t.state)
    ensures Inv(cfg, Arrival(s, t, from))
  {
    ArriveLedger(cfg, s, t, from);
    SentOnly(s, Arrival(s, t, from).local, [Event(from, t.home, WorkflowRun(s.local.nextTxn))]);
  }

  /** The state after transaction `t` was delivered by engine `from`. */
  function Arrival(s: State, t: Txn, from: Engine): State {
    State(NewArrival(s.local, t), s.net + [Event(from, t.home, WorkflowRun(s.local.nextTxn))])
  }

  lemma ArriveKeeps(cfg: Config, s: State, step: Step, s': State)
    requires Inv(cfg, s) && step.Arrive? && Next(cfg, s, step, s')
    ensures Inv(cfg, s')
  {
    NewTxnFlow(step.home, step.modules, step.hasPack, step.timeout);
    var t := NewTxn(step.home, step.modules, step.hasPack, step.timeout);
    assert s' == Arrival(s, t, step.from);
    ArriveInv(cfg, s, t, step.from);
  }

  lemma EnvironmentKeeps(cfg: Config, s: State, step: Step, s': State)
    requires Inv(cfg, s) && (step.EpReply? || step.TimerFires? || step.CreateJob?) && Next(cfg, s, step, s')
    ensures Inv(cfg, s')
  {
    match step
    case EpReply(op, started) => ReplyKeeps(cfg, s, op, started, s');
    case TimerFires(op) =>
      var o := s.local.ops[op];
      JobFired(cfg, s, op);
      SentOnly(s, s'.local, [Event(o.engine, MASTER, TimerEmit(o.svc, o.job))]);
    case CreateJob(engine, svc, kind, bidx, interval) =>
      JobCreated(cfg, s, engine, svc, Job(kind, bidx, NoPend, interval, engine));
      assert s.net + [] == s.net;
      SentOnly(s, s'.local, []);
  }

  lemma ReplyKeeps(cfg: Config, s: State, op: nat, started: seq<Started>, s': State)
    requires Inv(cfg, s) && Next(cfg, s, EpReply(op, started), s')
    ensures Inv(cfg, s')
  {
    var o := s.local.ops[op];
    var l := s.local.(ops := Remove(s.local.ops, op));
    EpAnswered(cfg, s, op, started);
    FinishPendingFlows(State(l, s.net), o.engine, o.svc, o.pend, started, s'.net);
    SentOnly(s, s'.local, FinishPending(l, o.engine, o.svc, o.pend, started).sent);
  }

  /** Every step keeps the invariant. */
  lemma NextKeeps(cfg: Config, s: State, step: Step, s': State)
    requires Inv(cfg, s) && Next(cfg, s, step, s')
    ensures Inv(cfg, s')
  {
    match step
    case Arrive(_, _, _, _, _) => ArriveKeeps(cfg, s, step, s');
    case Deliver(pos, choice) =>
      HandleLedger(cfg, s, pos, choice);
      HandleSlots(cfg, s, pos, choice);
      HandleFlows(cfg, s, pos, choice);
    case _ => EnvironmentKeeps(cfg, s, step, s');
  }

  lemma InitialInv(cfg: Config, s: State)
    requires Initial(s)
    ensures Inv(cfg, s)
  {
    forall v | v in s.local.svcs ensures SlotsOk(s, v) && Saturated(s.local.svcs[v]) {
      assert Held(s.net, v, Read) == 0 && Held(s.net, v, Write) == 0;
    }
  }

  /** The invariant holds in every state of every run. */
  lemma {:induction false} RunInv(cfg: Config, trace: seq<State>, steps: seq<Step>, n: nat)
    requires IsRun(cfg, trace, steps) && n < |trace|
    ensures Inv(cfg, trace[n])
  {
    if n == 0 {
      InitialInv(cfg, trace[0]);
    } else {
      RunInv(cfg, trace, steps, n - 1);
      NextKeeps(cfg, trace[n - 1], steps[n - 1], trace[n]);
    }
  }

  // ----- when a transaction lives -----

  /** A transaction comes to life only by arriving, under a new number. */
  lemma Born(cfg: Config, s: State, step: Step, s': State, t: TxnId)
    requires Next(cfg, s, step, s') && t !in s.local.txns && t in s'.local.txns
    ensures step.Arrive? && t == s.local.nextTxn
    ensures s'.local.txns[t] == NewTxn(step.home, step.modules, step.hasPack, step.timeout)
  {
  }

  lemma NumbersGrow(cfg: Config, s: State, step: Step, s': State)
    requires Next(cfg, s, step, s')
    ensures s.local.nextTxn <= s'.local.nextTxn
  {
  }

  /** A transaction that lives in two states of a run lives in every state between. */
  lemma {:induction false} LivesBetween(cfg: Config, trace: seq<State>, steps: seq<Step>, n: nat, m: nat, t: TxnId)
    requires IsRun(cfg, trace, steps) && n < m < |trace| && t in trace[n].local.txns && t in trace[m].local.txns
    ensures t in trace[m - 1].local.txns
  {
    RunInv(cfg, trace, steps, n);
    assert TxnOk(trace[n].local, t);
    NumbersMount(cfg, trace, steps, n, m - 1);
    if t !in trace[m - 1].local.txns { Born(cfg, trace[m - 1], steps[m - 1], trace[m], t); }
  }

  lemma {:induction false} NumbersMount(cfg: Config, trace: seq<State>, steps: seq<Step>, n: nat, m: nat)
    requires IsRun(cfg, trace, steps) && n <= m < |trace|
    ensures trace[n].local.nextTxn <= trace[m].local.nextTxn
    decreases m
  {
    if n < m {
      NumbersMount(cfg, trace, steps, n, m - 1);
      NumbersGrow(cfg, trace[m - 1], steps[m - 1], trace[m]);
    }
  }

  // ----- the theorems -----

  /** Reader-writer exclusion: the tasks scheduled and not yet acknowledged are none, only
      readers, or one writer, and the queue state says which. */
  lemma ReaderWriterExclusion(cfg: Config, trace: seq<State>, steps: seq<Step>, n: nat, v: ServiceId)
    requires IsRun(cfg, trace, steps) && n < |trace| && v in trace[n].local.svcs
    ensures var s := trace[n];
      var r := Held(s.net, v, Read);
      var w := Held(s.net, v, Write);
      match s.local.svcs[v].queue.state
      case Idle => r == 0 && w == 0
      case Reading => r >= 1 && w == 0
      case Writing => r == 0 && w == 1
      case _ => false
  {
    RunInv(cfg, trace, steps, n);
    assert SlotsOk(trace[n], v);
  }

  /** Slot conservation: the running count is the number of slots carried by events, and is
      never negative. */
  lemma SlotConservation(cfg: Config, trace: seq<State>, steps: seq<Step>, n: nat, v: ServiceId)
    requires IsRun(cfg, trace, steps) && n < |trace| && v in trace[n].local.svcs
    ensures var s := trace[n];
      s.local.svcs[v].running == Held(s.net, v, Read) + Held(s.net, v, Write) >= 0
  {
    RunInv(cfg, trace, steps, n);
    assert SlotsOk(trace[n], v);
  }

  /** Work conservation: queued work implies a running task. */
  lemma WorkConservation(cfg: Config, trace: seq<State>, steps: seq<Step>, n: nat, v: ServiceId)
    requires IsRun(cfg, trace, steps) && n < |trace| && v in trace[n].local.svcs
    ensures var sv := trace[n].local.svcs[v]; sv.queue.Pending() != [] ==> sv.running >= 1
  {
    RunInv(cfg, trace, steps, n);
    assert SlotsOk(trace[n], v) && Saturated(trace[n].local.svcs[v]);
  }

  /** A completion notice that can be delivered finds its call incomplete, so no call is
      completed twice; and `pendings` is the work still outstanding for the call. */
  lemma CompletedOnce(cfg: Config, trace: seq<State>, steps: seq<Step>, n: nat, i: nat, t: TxnId, k: nat)
    requires IsRun(cfg, trace, steps) && n < |trace|
    requires Deliverable(trace[n].net, i) && IsFinish(trace[n].net[i].msg, t, k)
    ensures var s := trace[n];
      && t in s.local.txns && k < |s.local.txns[t].tasks|
      && s.local.txns[t].tasks[k].status == TaskRunning && s.local.txns[t].tasks[k].pendings == 0
      && s.local.txns[t].complete < s.local.txns[t].total
  {
    RunInv(cfg, trace, steps, n);
    var s := trace[n];
    CallFinished(cfg, s, i, t, k);
    assert TaskOk(s, t, k);
    NoOtherToken(s, i, t, k);
    OutstandingNonneg(s, t, k);
    assert TxnOk(s.local, t);
  }

  /** Where a call is: complete and nowhere, or incomplete and in exactly one place (one event,
      one queue slot, or waiting); `pendings` is the endpoint calls and jobs outstanding for it,
      wherever they are. */
  lemma CallAccounted(cfg: Config, trace: seq<State>, steps: seq<Step>, n: nat, t: TxnId, k: nat)
    requires IsRun(cfg, trace, steps) && n < |trace| && t in trace[n].local.txns && k < |trace[n].local.txns[t].tasks|
    ensures var s := trace[n];
      var task := s.local.txns[t].tasks[k];
      var q := QueueOf(s.local, task.svc);
      var c := Count(s.net, t, k);
      && task.pendings == c.job + Sum(q, QueuedJobW(t, k)) + Sum(s.local.ops, OpW(t, k)) >= 0
      && (task.Complete() ==> c.token == 0 && Sum(q, QueuedW(t, k)) == 0 && task.pendings == 0)
      && (!task.Complete() ==> c.token + Sum(q, QueuedW(t, k)) == if task.pendings > 0 then 0 else 1)
  {
    RunInv(cfg, trace, steps, n);
    var s := trace[n];
    assert TaskOk(s, t, k);
    OutstandingNonneg(s, t, k);
    CountMember(s.net, t, k);
    QueuedNonneg(QueueOf(s.local, s.local.txns[t].tasks[k].svc), t, k);
  }

  /** A call runs on its caller's engine, on the background engine it asked for, or on the
      first one, and its result goes back to the caller's engine. */
  lemma RunsWhereAsked(cfg: Config, trace: seq<State>, steps: seq<Step>, n: nat, e: Event)
    requires IsRun(cfg, trace, steps) && n < |trace| && e in trace[n].net && e.msg.TaskRun?
    ensures var l := trace[n].local;
      && e.msg.txn in l.txns && e.msg.task < |l.txns[e.msg.txn].tasks|
      && var t := l.txns[e.msg.txn];
         var bidx := t.tasks[e.msg.task].bidx;
         && e.msg.caller == t.home
         && (bidx == 0 ==> e.dst == t.home)
         && (bidx > 0 ==> e.dst == cfg.workers + bidx)
         && (bidx < 0 ==> e.dst == cfg.workers + 1)
  {
    RunInv(cfg, trace, steps, n);
    assert MsgOk(cfg, trace[n].local, e);
  }

  /** A job runs on the engine that created it, on the background engine it asked for, or on the
      first one; a refused one is sent back to its creator's engine. */
  lemma JobsRunWhereAsked(cfg: Config, trace: seq<State>, steps: seq<Step>, n: nat, e: Event)
    requires IsRun(cfg, trace, steps) && n < |trace| && e in trace[n].net && e.msg.TimerRun?
    ensures var job := e.msg.job;
      && (e.msg.ok && job.bidx == 0 ==> e.dst == job.origin)
      && (e.msg.ok && job.bidx > 0 ==> e.dst == cfg.workers + job.bidx)
      && (e.msg.ok && job.bidx < 0 ==> e.dst == cfg.workers + 1)
      && (!e.msg.ok ==> e.dst == job.origin)
  {
    RunInv(cfg, trace, steps, n);
    assert MsgOk(cfg, trace[n].local, e);
  }

  /** Counters and task table of every transaction agree in every state of a run. */
  lemma CountersAgree(cfg: Config, trace: seq<State>, steps: seq<Step>, n: nat, t: TxnId)
    requires IsRun(cfg, trace, steps) && n < |trace| && t in trace[n].local.txns
    ensures Counted(trace[n].local.txns[t])
    ensures forall k :: 0 <= k < |trace[n].local.txns[t].tasks| ==> trace[n].local.txns[t].tasks[k].pendings >= 0
  {
    RunInv(cfg, trace, steps, n);
    assert TxnOk(trace[n].local, t);
    forall k | 0 <= k < |trace[n].local.txns[t].tasks| ensures trace[n].local.txns[t].tasks[k].pendings >= 0 {
      assert TaskOk(trace[n], t, k);
      OutstandingNonneg(trace[n], t, k);
    }
  }

  /** The modules of a transaction run in order, each at most once, then one pack step. */
  lemma WorkflowInOrder(cfg: Config, trace: seq<State>, steps: seq<Step>, n: nat, t: TxnId)
    requires IsRun(cfg, trace, steps) && n < |trace| && t in trace[n].local.txns
    ensures FlowOk(trace[n].local.txns[t])
  {
    RunInv(cfg, trace, steps, n);
  }

  /** How a transaction ends: it leaves the table only in a workflow step, with every call
      complete; by then its modules ran in order, each once, and then, if there is one, the one
      pack step, which saw an error exactly if one happened; without an error and a time limit
      all modules ran. */
  lemma FinishedInOrder(cfg: Config, trace: seq<State>, steps: seq<Step>, n: nat, id: TxnId)
    requires IsRun(cfg, trace, steps) && n < |steps|
    requires id in trace[n].local.txns && id !in trace[n + 1].local.txns
    ensures steps[n].Deliver? && steps[n].pos < |trace[n].net| && trace[n].net[steps[n].pos].msg == WorkflowRun(id)
    ensures var o := Run(trace[n].local.txns[id], steps[n].choice.conduct, 0);
      && o.Ended? && o.txn.state == Destroyed && o.txn.complete >= o.txn.total
      && o.txn.next <= o.txn.modules
      && (!o.txn.error && o.txn.timeout <= 0 ==> o.txn.next == o.txn.modules)
      && if !o.txn.hasPack then o.txn.log == Positions(o.txn.next)
         else exists saw :: o.txn.log == Positions(o.txn.next) + [PackSaw(saw)] && PackOk(o.txn, saw)
  {
    RunInv(cfg, trace, steps, n);
    assert Next(cfg, trace[n], steps[n], trace[n + 1]);
    OnlyStepsFree(cfg, trace[n], steps[n], trace[n + 1], id);
    var t := trace[n].local.txns[id];
    StepFollows(t, steps[n].choice.conduct, 0);
    var y := Run(t, steps[n].choice.conduct, 0).txn;
    if y.hasPack {
      var saw := y.log[y.next].state;
      assert y.log == Positions(y.next) + [PackSaw(saw)];
    }
  }

  lemma OnlyStepsFree(cfg: Config, s: State, step: Step, s': State, id: TxnId)
    requires Next(cfg, s, step, s') && id in s.local.txns && id !in s'.local.txns
    ensures step.Deliver? && step.pos < |s.net| && s.net[step.pos].msg == WorkflowRun(id)
    ensures Run(s.local.txns[id], step.choice.conduct, 0).Ended? && Run(s.local.txns[id], step.choice.conduct, 0).freed
  {
  }
}
