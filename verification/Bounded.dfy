/** No storm: all work was asked for. */
module Bounded {
  // Every step of a run is paid for by a request of the environment: an arrival, a service call, a
  // pending endpoint call or job, a timer. So the handlers, left to themselves, come to rest.

  import opened Seqs
  import opened QueueSpec
  import opened ServiceSpec
  import opened TxnSpec
  import opened WorkflowLaws
  import opened Protocol
  import opened Invariants
  import opened ProtocolSteps
  import opened Runs
  import opened Progress
  import opened Resume

  // ----- the steps an event can still cause -----

  function EventWork(): Event -> int {
    (e: Event) =>
      match e.msg
      case WorkflowRun(_) => 1
      case Done(_, _, _, _, _) => 2
      case TaskCb(_, _, _, _, _, _) => 3
      case TaskRun(_, _, _, _, _) => 4
      case IoCall(_, _, _, _, _) => 5
      case TimerDone(_, _, _) => 1
      case TimerRun(_, _, _) => 5
      case TimerEmit(_, _) => 6
  }

  function TaskWork(): SrvTask -> int { (x: SrvTask) => if x.body.ApiTask? then 4 else 5 }

  function QueueWork(): Service -> int { (s: Service) => Sum(s.queue.Pending(), TaskWork()) }

  predicate Periodic(o: Op) { o.Armed? && o.job.interval > 0 }

  /** A periodic timer is no work by itself: each time it fires is. */
  function OpWork(): Op -> int { (o: Op) => if o.EpCall? then 4 else if Periodic(o) then 0 else 7 }

  function ModuleWork(): Txn -> int { (t: Txn) => if t.next < t.modules then t.modules - t.next else 0 }

  /** The weight of the map's values at keys below `n`. */
  function Total<V>(m: map<nat, V>, w: V -> int, n: nat): int {
    if n == 0 then 0 else Total(m, w, n - 1) + if n - 1 in m then w(m[n - 1]) else 0
  }

  /** The steps still to be expected from the state; services have numbers below `n`. */
  function Work(l: Local, n: nat): int {
    Total(l.svcs, QueueWork(), n) + Sum(l.ops, OpWork()) + Total(l.txns, ModuleWork(), l.nextTxn)
  }

  /** What a delivery adds by its user code: the calls it makes, or the work it leaves pending. */
  function Fresh(l: Local, e: Event, c: Choice): nat {
    match e.msg
    case WorkflowRun(t) => if t in l.txns then 5 * |CallsOf(l.txns[t], c.conduct)| else 0
    case TaskCb(t, k, _, _, status, _) =>
      if (status == TaskDone || status == TaskBusy) && t in l.txns && k < |l.txns[t].tasks| && l.txns[t].tasks[k].hasCb
      then 5 * |c.conduct.calls| else 0
    case TaskRun(_, _, _, _, _) => 7 * |c.started|
    case TimerRun(_, job, _) => if job.pend.Pend? then 7 * |c.started| else 0
    case _ => 0
  }

  /** What the environment asks for by a step, in steps to come. */
  function Asks(s: State, step: Step): nat {
    match step
    case Arrive(_, _, modules, _, _) => modules + 2
    case Deliver(pos, choice) => if pos < |s.net| then Fresh(s.local, s.net[pos], choice) else 0
    case EpReply(_, started) => 7 * |started|
    case TimerFires(op) => if op < |s.local.ops| && Periodic(s.local.ops[op]) then 7 else 0
    case CreateJob(_, _, _, _, interval) => if interval > 0 then 1 else 8
  }

  /** All that was asked for in the first `n` steps. */
  function Asked(trace: seq<State>, steps: seq<Step>, n: nat): nat
    requires n <= |steps| < |trace|
  {
    if n == 0 then 0 else Asked(trace, steps, n - 1) + Asks(trace[n - 1], steps[n - 1])
  }

  // ----- totals over maps -----

  lemma {:induction false} TotalUpdate<V>(m: map<nat, V>, k: nat, v: V, w: V -> int, n: nat)
    requires k < n
    ensures Total(m[k := v], w, n) == Total(m, w, n) + w(v) - if k in m then w(m[k]) else 0
  {
    if k < n - 1 { TotalUpdate(m, k, v, w, n - 1); } else { TotalSame(m, m[k := v], w, n - 1); }
  }

  lemma {:induction false} TotalRemove<V>(m: map<nat, V>, k: nat, w: V -> int, n: nat)
    requires k < n && k in m
    ensures Total(m - {k}, w, n) == Total(m, w, n) - w(m[k])
  {
    if k < n - 1 { TotalRemove(m, k, w, n - 1); } else { TotalSame(m, m - {k}, w, n - 1); }
  }

  lemma {:induction false} TotalSame<V>(m: map<nat, V>, m': map<nat, V>, w: V -> int, n: nat)
    requires forall k :: 0 <= k < n ==> (k in m <==> k in m') && (k in m ==> m[k] == m'[k])
    ensures Total(m, w, n) == Total(m', w, n)
  {
    if n > 0 { TotalSame(m, m', w, n - 1); }
  }

  lemma {:induction false} TotalNonneg<V>(m: map<nat, V>, w: V -> int, n: nat)
    requires forall k :: k in m ==> w(m[k]) >= 0
    ensures Total(m, w, n) >= 0
  {
    if n > 0 { TotalNonneg(m, w, n - 1); }
  }

  lemma {:induction false} KeyBound<V>(m: map<nat, V>) returns (n: nat)
    ensures forall k :: k in m ==> k < n
    decreases |m.Keys|
  {
    n := 0;
    if m.Keys != {} {
      var k :| k in m;
      assert (m - {k}).Keys == m.Keys - {k};
      var j := KeyBound(m - {k});
      assert forall x :: x in m ==> x == k || x in m - {k};
      n := if j > k then j else k + 1;
    }
  }

  // ----- what a handler pays -----

  lemma ServiceWork(l: Local, svc: ServiceId, s: Service, n: nat)
    requires svc in l.svcs && svc < n
    ensures Work(l.(svcs := l.svcs[svc := s]), n) == Work(l, n) - QueueWork()(l.svcs[svc]) + QueueWork()(s)
  {
    TotalUpdate(l.svcs, svc, s, QueueWork(), n);
  }

  /** A queued task and the event that hands it to its engine weigh the same. */
  lemma {:induction false} BatchWork(cfg: Config, svc: ServiceId, batch: seq<SrvTask>)
    ensures Sum(Map(ToRun(cfg, svc), batch), EventWork()) == Sum(batch, TaskWork())
  {
    if batch != [] {
      assert Map(ToRun(cfg, svc), batch)[1..] == Map(ToRun(cfg, svc), batch[1..]);
      BatchWork(cfg, svc, batch[1..]);
    }
  }

  lemma DrainWork(cfg: Config, svc: ServiceId, s: Service, sent: seq<Event>)
    requires s.Valid()
    ensures QueueWork()(Drain(s).0) + Sum(sent + Map(ToRun(cfg, svc), Drain(s).1), EventWork())
      == QueueWork()(s) + Sum(sent, EventWork())
  {
    DrainConserves(s, TaskWork());
    BatchWork(cfg, svc, Drain(s).1);
    SumAppend(sent, Map(ToRun(cfg, svc), Drain(s).1), EventWork());
  }

  lemma SchedulePays(cfg: Config, l: Local, svc: ServiceId, s: Service, sent: seq<Event>, n: nat)
    requires s.Valid() && svc in l.svcs && svc < n
    ensures var eff := Schedule(cfg, l, svc, s, sent);
      Work(eff.local, n) + Sum(eff.sent, EventWork())
        == Work(l, n) - QueueWork()(l.svcs[svc]) + QueueWork()(s) + Sum(sent, EventWork())
  {
    DrainWork(cfg, svc, s, sent);
    ServiceWork(l, svc, Drain(s).0, n);
  }

  lemma QueuePays(cfg: Config, l: Local, e: Event, n: nat)
    requires forall v :: v in l.svcs ==> v < n
    ensures e.msg.IoCall? && HandleIoCall(cfg, l, e).Effect? ==>
      var eff := HandleIoCall(cfg, l, e); Work(eff.local, n) + Sum(eff.sent, EventWork()) + 1 <= Work(l, n) + 5
    ensures e.msg.TimerEmit? && HandleTimerEmit(cfg, l, e).Effect? ==>
      var eff := HandleTimerEmit(cfg, l, e); Work(eff.local, n) + Sum(eff.sent, EventWork()) + 1 <= Work(l, n) + 6
  {
    var m := e.msg;
    if (m.IoCall? || m.TimerEmit?) && m.svc in l.svcs && l.svcs[m.svc].Valid() {
      var s := l.svcs[m.svc];
      var kind := if m.IoCall? then m.kind else m.job.kind;
      var body := if m.IoCall? then ApiTask(e.src, m.bidx, m.txn, m.task) else TimerTask(e.src, m.job);
      var x: SrvTask := Elem(kind, body);
      if Accepts(s.queue.mode, kind) && !s.queue.Full(kind) {
        PushAdds(s.queue, x, TaskWork());
        SchedulePays(cfg, l, m.svc, s.(queue := Push(s.queue, x)), [], n);
      }
    }
  }

  lemma ReleasedWork(s: Service, release: bool)
    ensures QueueWork()(if release then SetComplete(s) else s) == QueueWork()(s)
  {
  }

  lemma WakeWork(src: Engine, t: TxnId, resume: bool)
    ensures Sum(if resume then [Event(MASTER, src, WorkflowRun(t))] else [], EventWork()) <= 1
  {
    SumOne(Event(MASTER, src, WorkflowRun(t)), EventWork());
  }

  lemma DonePays(cfg: Config, l: Local, e: Event, n: nat)
    requires forall v :: v in l.svcs ==> v < n
    requires e.msg.Done? && HandleDone(cfg, l, e).Effect?
    ensures var eff := HandleDone(cfg, l, e); Work(eff.local, n) + Sum(eff.sent, EventWork()) + 1 <= Work(l, n) + 2
  {
    var m := e.msg;
    var s := if m.slot then SetComplete(l.svcs[m.svc]) else l.svcs[m.svc];
    var wake := if m.resume then [Event(MASTER, e.src, WorkflowRun(m.txn))] else [];
    assert HandleDone(cfg, l, e) == Schedule(cfg, l, m.svc, s, wake);
    ReleasedWork(l.svcs[m.svc], m.slot);
    WakeWork(e.src, m.txn, m.resume);
    SchedulePays(cfg, l, m.svc, s, wake, n);
  }

  lemma TimerDonePays(cfg: Config, l: Local, e: Event, n: nat)
    requires forall v :: v in l.svcs ==> v < n
    requires e.msg.TimerDone? && HandleTimerDone(cfg, l, e).Effect?
    ensures var eff := HandleTimerDone(cfg, l, e); Work(eff.local, n) + Sum(eff.sent, EventWork()) + 1 <= Work(l, n) + 1
  {
    var m := e.msg;
    ReleasedWork(l.svcs[m.svc], m.ok);
    SchedulePays(cfg, l, m.svc, if m.ok then SetComplete(l.svcs[m.svc]) else l.svcs[m.svc], [], n);
  }

  /** A transaction changed that keeps its place in the workflow. */
  lemma TxnPays(l: Local, id: TxnId, t: Txn, n: nat)
    requires id in l.txns && id < l.nextTxn
    ensures Work(l.(txns := l.txns[id := t]), n) == Work(l, n) - ModuleWork()(l.txns[id]) + ModuleWork()(t)
  {
    TotalUpdate(l.txns, id, t, ModuleWork(), l.nextTxn);
  }

  lemma {:induction false} StartedWork(engine: Engine, svc: ServiceId, pend: Pend, started: seq<Started>)
    ensures 0 <= Sum(Map(OpOf(engine, svc, pend), started), OpWork()) <= 7 * |started|
  {
    if started != [] {
      assert Map(OpOf(engine, svc, pend), started)[1..] == Map(OpOf(engine, svc, pend), started[1..]);
      StartedWork(engine, svc, pend, started[1..]);
    }
  }

  lemma {:induction false} CallsWork(sent: seq<Event>)
    requires forall e :: e in sent ==> e.msg.IoCall?
    ensures Sum(sent, EventWork()) == 5 * |sent|
  {
    if sent != [] { CallsWork(sent[1..]); }
  }

  lemma ApiPays(cfg: Config, l: Local, e: Event, started: seq<Started>, n: nat)
    requires e.msg.TaskRun? && HandleTaskRun(cfg, l, e, started).Effect? && e.msg.txn < l.nextTxn
    ensures var eff := HandleTaskRun(cfg, l, e, started);
      Work(eff.local, n) + Sum(eff.sent, EventWork()) + 1 <= Work(l, n) + 4 + 7 * |started|
  {
    var m := e.msg;
    var ops := Map(OpOf(e.dst, m.svc, Pend(m.txn, m.task)), started);
    TxnPays(l, m.txn, AddPendings(l.txns[m.txn], m.task, |started|), n);
    SumAppend(l.ops, ops, OpWork());
    StartedWork(e.dst, m.svc, Pend(m.txn, m.task), started);
  }

  lemma FinishPays(l: Local, engine: Engine, svc: ServiceId, pend: Pend, started: seq<Started>, n: nat)
    requires pend.Pend? && FinishPending(l, engine, svc, pend, started).Effect? && pend.txn < l.nextTxn
    ensures var eff := FinishPending(l, engine, svc, pend, started);
      Work(eff.local, n) + Sum(eff.sent, EventWork()) <= Work(l, n) + 3 + 7 * |started|
  {
    var ops := Map(OpOf(engine, svc, pend), started);
    TxnPays(l, pend.txn, AddPendings(l.txns[pend.txn], pend.task, |started| - 1), n);
    SumAppend(l.ops, ops, OpWork());
    StartedWork(engine, svc, pend, started);
  }

  lemma JobPays(cfg: Config, l: Local, e: Event, started: seq<Started>, n: nat)
    requires e.msg.TimerRun? && HandleTimerRun(cfg, l, e, started).Effect?
    requires e.msg.job.pend.Pend? ==> e.msg.job.pend.txn < l.nextTxn
    ensures var eff := HandleTimerRun(cfg, l, e, started);
      Work(eff.local, n) + Sum(eff.sent, EventWork()) + 1
        <= Work(l, n) + 5 + if e.msg.job.pend.Pend? then 7 * |started| else 0
  {
    var m := e.msg;
    var done := Event(e.dst, e.src, TimerDone(m.svc, m.job, m.ok));
    SumOne(done, EventWork());
    if m.job.pend.Pend? {
      FinishPays(l, e.dst, m.svc, m.job.pend, started, n);
      SumAppend(FinishPending(l, e.dst, m.svc, m.job.pend, started).sent, [done], EventWork());
    }
  }

  lemma CallbackPays(cfg: Config, l: Local, e: Event, c: Choice, n: nat)
    requires e.msg.TaskCb? && Handle(cfg, l, e, c).Effect? && e.msg.txn < l.nextTxn
    ensures var eff := Handle(cfg, l, e, c);
      Work(eff.local, n) + Sum(eff.sent, EventWork()) + 1 <= Work(l, n) + 3 + Fresh(l, e, c)
  {
    var m := e.msg;
    var t1 := HandleTaskCb(cfg, l, e, c.conduct).local.txns[m.txn];
    var calls := IoCalls(e.dst, m.txn, t1, |l.txns[m.txn].tasks|);
    var done := Event(e.dst, MASTER, Done(m.txn, m.svc, m.kind, Resumes(t1, m.task), m.slot));
    assert HandleTaskCb(cfg, l, e, c.conduct).sent == calls + [done];
    TxnPays(l, m.txn, t1, n);
    CallsWork(calls);
    SumAppend(calls, [done], EventWork());
    SumOne(done, EventWork());
  }

  /** The transaction after a workflow step: it moved on in the workflow if it goes on. */
  lemma StepWork(t: Txn, c: Conduct)
    requires FlowOk(t) && Resting(t.state) && Run(t, c, 0).Ended?
    ensures var o := Run(t, c, 0);
      && |o.txn.tasks| == |t.tasks| + |CallsOf(t, c)|
      && 0 <= ModuleWork()(o.txn) <= ModuleWork()(t) - if o.again then 1 else 0
  {
    StepFollows(t, c, 0);
  }

  lemma WorkflowPays(cfg: Config, l: Local, e: Event, c: Choice, n: nat)
    requires e.msg.WorkflowRun? && Handle(cfg, l, e, c).Effect? && e.msg.txn < l.nextTxn
    requires FlowOk(l.txns[e.msg.txn]) && Resting(l.txns[e.msg.txn].state)
    ensures var eff := Handle(cfg, l, e, c);
      Work(eff.local, n) + Sum(eff.sent, EventWork()) + 1 <= Work(l, n) + 1 + Fresh(l, e, c)
  {
    var id := e.msg.txn;
    var o := Run(l.txns[id], c.conduct, 0);
    var calls := IoCalls(e.dst, id, o.txn, |l.txns[id].tasks|);
    var again := if o.again then [Event(e.dst, e.dst, WorkflowRun(id))] else [];
    assert HandleWorkflowRun(cfg, l, e, c.conduct).sent == calls + again;
    StepWork(l.txns[id], c.conduct);
    CallsWork(calls);
    SumAppend(calls, again, EventWork());
    if o.freed { TotalRemove(l.txns, id, ModuleWork(), l.nextTxn); } else { TxnPays(l, id, o.txn, n); }
  }

  /** Every handler pays for its step: what it leaves to do is less than what the event stood for,
      but for what its user code asks for. */
  lemma HandlerPays(cfg: Config, s: State, i: nat, c: Choice, n: nat)
    requires Inv(cfg, s) && i < |s.net| && Handle(cfg, s.local, s.net[i], c).Effect?
    requires forall v :: v in s.local.svcs ==> v < n
    ensures var eff := Handle(cfg, s.local, s.net[i], c);
      Work(eff.local, n) + Sum(eff.sent, EventWork()) + 1
        <= Work(s.local, n) + EventWork()(s.net[i]) + Fresh(s.local, s.net[i], c)
  {
    var (l, e) := (s.local, s.net[i]);
    assert MsgOk(cfg, l, e);
    assert forall t :: t in l.txns ==> TxnOk(l, t);
    match e.msg
    case IoCall(_, _, _, _, _) => QueuePays(cfg, l, e, n);
    case TimerEmit(_, _) => QueuePays(cfg, l, e, n);
    case Done(_, _, _, _, _) => DonePays(cfg, l, e, n);
    case TimerDone(_, _, _) => TimerDonePays(cfg, l, e, n);
    case TaskCb(_, _, _, _, _, _) => CallbackPays(cfg, l, e, c, n);
    case WorkflowRun(_) => WorkflowPays(cfg, l, e, c, n);
    case TaskRun(_, _, _, _, _) => ApiPays(cfg, l, e, c.started, n);
    case TimerRun(_, _, _) => JobPays(cfg, l, e, c.started, n);
  }

  // ----- every run -----

  function Potential(s: State, n: nat): int { Work(s.local, n) + Sum(s.net, EventWork()) }

  lemma ArrivePays(cfg: Config, s: State, step: Step, s': State, n: nat)
    requires step.Arrive? && Next(cfg, s, step, s')
    ensures Potential(s', n) + 1 <= Potential(s, n) + Asks(s, step)
  {
    var (l, id) := (s.local, s.local.nextTxn);
    var t := NewTxn(step.home, step.modules, step.hasPack, step.timeout);
    TotalSame(l.txns, l.txns[id := t], ModuleWork(), id);
    TotalNonneg(l.txns, ModuleWork(), id);
    SumAppend(s.net, [Event(step.from, step.home, WorkflowRun(id))], EventWork());
    SumOne(Event(step.from, step.home, WorkflowRun(id)), EventWork());
  }

  lemma ReplyPays(cfg: Config, s: State, step: Step, s': State, n: nat)
    requires step.EpReply? && Next(cfg, s, step, s') && s.local.ops[step.op].pend.txn < s.local.nextTxn
    ensures Potential(s', n) + 1 <= Potential(s, n) + Asks(s, step)
  {
    var (l, o) := (s.local, s.local.ops[step.op]);
    var l1 := l.(ops := Remove(l.ops, step.op));
    SumRemove(l.ops, step.op, OpWork());
    FinishPays(l1, o.engine, o.svc, o.pend, step.started, n);
    SumAppend(s.net, FinishPending(l1, o.engine, o.svc, o.pend, step.started).sent, EventWork());
  }

  lemma TimerPays(cfg: Config, s: State, step: Step, s': State, n: nat)
    requires (step.TimerFires? || step.CreateJob?) && Next(cfg, s, step, s')
    ensures Potential(s', n) + 1 <= Potential(s, n) + Asks(s, step)
  {
    match step
    case TimerFires(op) =>
      var o := s.local.ops[op];
      SumRemove(s.local.ops, op, OpWork());
      SumAppend(s.net, [Event(o.engine, MASTER, TimerEmit(o.svc, o.job))], EventWork());
      SumOne(Event(o.engine, MASTER, TimerEmit(o.svc, o.job)), EventWork());
    case CreateJob(engine, svc, kind, bidx, interval) =>
      SumAppend(s.local.ops, [Armed(engine, svc, Job(kind, bidx, NoPend, interval, engine))], OpWork());
      SumOne(Armed(engine, svc, Job(kind, bidx, NoPend, interval, engine)), OpWork());
      assert s.net + [] == s.net;
  }

  lemma DeliverPays(cfg: Config, s: State, pos: nat, c: Choice, n: nat)
    requires Inv(cfg, s) && pos < |s.net| && Handle(cfg, s.local, s.net[pos], c).Effect?
    requires forall v :: v in s.local.svcs ==> v < n
    ensures Potential(After(s, pos, Handle(cfg, s.local, s.net[pos], c)), n) + 1
      <= Potential(s, n) + Asks(s, Deliver(pos, c))
  {
    HandlerPays(cfg, s, pos, c, n);
    SumReplace(s.net, pos, Handle(cfg, s.local, s.net[pos], c).sent, EventWork());
  }

  /** Every step lowers the potential, but for what it asks for. */
  lemma NextPays(cfg: Config, s: State, step: Step, s': State, n: nat)
    requires Inv(cfg, s) && Next(cfg, s, step, s') && forall v :: v in s.local.svcs ==> v < n
    ensures Potential(s', n) + 1 <= Potential(s, n) + Asks(s, step)
  {
    match step
    case Deliver(pos, choice) => DeliverPays(cfg, s, pos, choice, n);
    case Arrive(_, _, _, _, _) => ArrivePays(cfg, s, step, s', n);
    case EpReply(op, _) =>
      assert OpOk(cfg, s.local, s.local.ops[op]);
      assert TxnOk(s.local, s.local.ops[op].pend.txn);
      ReplyPays(cfg, s, step, s', n);
    case _ => TimerPays(cfg, s, step, s', n);
  }

  lemma HandlerServices(cfg: Config, l: Local, e: Event, c: Choice)
    requires Handle(cfg, l, e, c).Effect?
    ensures Handle(cfg, l, e, c).local.svcs.Keys == l.svcs.Keys
  {
    match e.msg
    case IoCall(_, _, svc, _, _) => assert svc in l.svcs;
    case TimerEmit(svc, _) => assert svc in l.svcs;
    case _ =>
  }

  /** No step adds or removes a service. */
  lemma SameServices(cfg: Config, s: State, step: Step, s': State)
    requires Next(cfg, s, step, s')
    ensures s'.local.svcs.Keys == s.local.svcs.Keys
  {
    if step.Deliver? { HandlerServices(cfg, s.local, s.net[step.pos], step.choice); }
  }

  lemma {:induction false} RunServices(cfg: Config, trace: seq<State>, steps: seq<Step>, n: nat)
    requires IsRun(cfg, trace, steps) && n < |trace|
    ensures trace[n].local.svcs.Keys == trace[0].local.svcs.Keys
  {
    if n > 0 {
      RunServices(cfg, trace, steps, n - 1);
      SameServices(cfg, trace[n - 1], steps[n - 1], trace[n]);
    }
  }

  lemma {:induction false} TotalZero<V>(m: map<nat, V>, w: V -> int, n: nat)
    requires forall k :: k in m ==> w(m[k]) == 0
    ensures Total(m, w, n) == 0
  {
    if n > 0 { TotalZero(m, w, n - 1); }
  }

  lemma PotentialNonneg(s: State, n: nat)
    ensures Potential(s, n) >= 0
  {
    forall v | v in s.local.svcs ensures QueueWork()(s.local.svcs[v]) >= 0 {
      SumBounds(s.local.svcs[v].queue.Pending(), TaskWork());
    }
    TotalNonneg(s.local.svcs, QueueWork(), n);
    TotalNonneg(s.local.txns, ModuleWork(), s.local.nextTxn);
    SumBounds(s.local.ops, OpWork());
    SumBounds(s.net, EventWork());
  }

  lemma NothingAsked(s: State, b: nat)
    requires Initial(s)
    ensures Potential(s, b) == 0
  {
    TotalZero(s.local.svcs, QueueWork(), b);
    TotalZero(s.local.txns, ModuleWork(), s.local.nextTxn);
  }

  predicate Pays(trace: seq<State>, steps: seq<Step>, i: nat, b: nat)
    requires i < |steps| < |trace|
  {
    Potential(trace[i + 1], b) + 1 <= Potential(trace[i], b) + Asks(trace[i], steps[i])
  }

  lemma {:induction false} AllPaid(trace: seq<State>, steps: seq<Step>, n: nat, b: nat)
    requires n <= |steps| < |trace| && Potential(trace[0], b) == 0
    requires forall i: nat :: i < n ==> Pays(trace, steps, i, b)
    ensures Potential(trace[n], b) + n <= Asked(trace, steps, n)
  {
    if n > 0 {
      AllPaid(trace, steps, n - 1, b);
      assert Pays(trace, steps, n - 1, b);
    }
  }

  lemma RunPays(cfg: Config, trace: seq<State>, steps: seq<Step>, b: nat)
    requires IsRun(cfg, trace, steps) && forall v :: v in trace[0].local.svcs ==> v < b
    ensures Potential(trace[|steps|], b) + |steps| <= Asked(trace, steps, |steps|)
  {
    NothingAsked(trace[0], b);
    forall i: nat | i < |steps| ensures Pays(trace, steps, i, b) { PaysOnce(cfg, trace, steps, i, b); }
    AllPaid(trace, steps, |steps|, b);
  }

  lemma PaysOnce(cfg: Config, trace: seq<State>, steps: seq<Step>, n: nat, b: nat)
    requires IsRun(cfg, trace, steps) && n < |steps| && forall v :: v in trace[0].local.svcs ==> v < b
    ensures Pays(trace, steps, n, b)
  {
    RunInv(cfg, trace, steps, n);
    RunServices(cfg, trace, steps, n);
    assert Next(cfg, trace[n], steps[n], trace[n + 1]);
    assert forall v :: v in trace[n].local.svcs ==> v in trace[n].local.svcs.Keys;
    NextPays(cfg, trace[n], steps[n], trace[n + 1], b);
  }

  /** No storm: a run has no more steps than its environment asked for. */
  lemma WorkBounded(cfg: Config, trace: seq<State>, steps: seq<Step>)
    requires IsRun(cfg, trace, steps)
    ensures |steps| <= Asked(trace, steps, |steps|)
  {
    var b := KeyBound(trace[0].local.svcs);
    RunPays(cfg, trace, steps, b);
    PotentialNonneg(trace[|steps|], b);
  }

  /** Coming to rest: once nothing more is asked for, at most the steps asked for before remain. */
  lemma ComesToRest(cfg: Config, trace: seq<State>, steps: seq<Step>, m: nat)
    requires IsRun(cfg, trace, steps) && m <= |steps|
    requires forall i :: m <= i < |steps| ==> Asks(trace[i], steps[i]) == 0
    ensures |steps| <= Asked(trace, steps, m)
  {
    WorkBounded(cfg, trace, steps);
    AskedBefore(trace, steps, m, |steps|);
  }

  lemma {:induction false} AskedBefore(trace: seq<State>, steps: seq<Step>, m: nat, n: nat)
    requires m <= n <= |steps| < |trace| && forall i :: m <= i < n ==> Asks(trace[i], steps[i]) == 0
    ensures Asked(trace, steps, n) == Asked(trace, steps, m)
  {
    if m < n { AskedBefore(trace, steps, m, n - 1); }
  }

  // ----- at rest, all is done -----

  /** User code that makes no call and leaves nothing pending. */
  function AskNothing(): Choice { Choice([], Conduct(false, [], [])) }

  /** Every step that asks for nothing fails, if it can be taken at all. */
  ghost predicate AtRest(cfg: Config, s: State) {
    forall step :: Enabled(cfg, s, step) && Asks(s, step) == 0 ==> Perform(cfg, s, step).0.Crash?
  }

  /** One more step of a run that is not at rest: it asks for nothing and lowers the potential. */
  lemma StepOn(cfg: Config, trace: seq<State>, steps: seq<Step>, b: nat) returns (step: Step, s': State)
    requires IsRun(cfg, trace, steps) && !AtRest(cfg, trace[|steps|])
    requires forall v :: v in trace[0].local.svcs ==> v < b
    ensures Next(cfg, trace[|steps|], step, s') && Asks(trace[|steps|], step) == 0
    ensures Potential(s', b) < Potential(trace[|steps|], b)
  {
    var s := trace[|steps|];
    step :| Enabled(cfg, s, step) && Asks(s, step) == 0 && Perform(cfg, s, step).0.Effect?;
    var (eff, rest) := Perform(cfg, s, step);
    s' := State(eff.local, rest + eff.sent);
    RunInv(cfg, trace, steps, |steps|);
    RunServices(cfg, trace, steps, |steps|);
    assert forall v :: v in s.local.svcs ==> v in s.local.svcs.Keys;
    NextPays(cfg, s, step, s', b);
  }

  lemma {:induction false} RestWithin(cfg: Config, trace: seq<State>, steps: seq<Step>, b: nat, left: nat)
    returns (trace': seq<State>, steps': seq<Step>)
    requires IsRun(cfg, trace, steps) && Potential(trace[|steps|], b) <= left
    requires forall v :: v in trace[0].local.svcs ==> v < b
    ensures IsRun(cfg, trace', steps') && trace <= trace' && steps <= steps' && AtRest(cfg, trace'[|steps'|])
    ensures forall i :: |steps| <= i < |steps'| ==> Asks(trace'[i], steps'[i]) == 0
    decreases left
  {
    trace', steps' := trace, steps;
    if !AtRest(cfg, trace[|steps|]) {
      var step, s' := StepOn(cfg, trace, steps, b);
      ExtendRun(cfg, trace, steps, step, s');
      PotentialNonneg(s', b);
      trace', steps' := RestWithin(cfg, trace + [s'], steps + [step], b, left - 1);
      assert trace'[|steps|] == trace[|steps|] && steps'[|steps|] == step;
    }
  }

  /** From every state of every run rest can be reached with nothing more asked for. */
  lemma ReachesRest(cfg: Config, trace: seq<State>, steps: seq<Step>) returns (trace': seq<State>, steps': seq<Step>)
    requires IsRun(cfg, trace, steps)
    ensures IsRun(cfg, trace', steps') && trace <= trace' && steps <= steps' && AtRest(cfg, trace'[|steps'|])
    ensures forall i :: |steps| <= i < |steps'| ==> Asks(trace'[i], steps'[i]) == 0
  {
    var b := KeyBound(trace[0].local.svcs);
    PotentialNonneg(trace[|steps|], b);
    trace', steps' := RestWithin(cfg, trace, steps, b, Potential(trace[|steps|], b));
  }

  /** At rest every channel that is not empty is blocked by the workflow event of a freed
      transaction; if none is, every transaction is finished. */
  lemma RestMeansFinished(cfg: Config, trace: seq<State>, steps: seq<Step>, n: nat)
    requires IsRun(cfg, trace, steps) && n < |trace| && AtRest(cfg, trace[n])
    ensures var s := trace[n];
      && (forall i: nat :: Deliverable(s.net, i) ==> s.net[i].msg.WorkflowRun? && s.net[i].msg.txn !in s.local.txns)
      && (s.net == [] ==> s.local.txns == map[])
  {
    var s := trace[n];
    forall i: nat | Deliverable(s.net, i) ensures s.net[i].msg.WorkflowRun? && s.net[i].msg.txn !in s.local.txns {
      var step := Deliver(i, AskNothing());
      assert Enabled(cfg, s, step) && Asks(s, step) == 0;
      HandlersFailExactly(cfg, trace, steps, n, step);
    }
    if s.net == [] {
      forall o | o in s.local.ops ensures PendOf(o).NoPend? { NothingAwaited(cfg, trace, steps, n, o); }
      QuietMeansFinished(cfg, trace, steps, n);
    }
  }

  /** With callbacks nothing blocks: at rest nothing is in flight and every transaction that ever
      arrived is finished. */
  lemma AllFinish(cfg: Config, trace: seq<State>, steps: seq<Step>, n: nat)
    requires IsRun(cfg, trace, steps) && n < |trace| && AtRest(cfg, trace[n])
    requires forall t: TxnId :: t < trace[n].local.nextTxn ==> AlwaysCbs(trace, n, t)
    ensures trace[n].net == [] && trace[n].local.txns == map[]
  {
    var s := trace[n];
    RestMeansFinished(cfg, trace, steps, n);
    if s.net != [] {
      assert Deliverable(s.net, 0);
      var t := s.net[0].msg.txn;
      assert MsgOk(cfg, s.local, s.net[0]) by { RunInv(cfg, trace, steps, n); }
      assert s.net[0] in s.net && NamesTxn(s.net[0].msg, t);
      NothingDangles(cfg, trace, steps, n, t);
    }
  }

  lemma NothingAwaited(cfg: Config, trace: seq<State>, steps: seq<Step>, n: nat, o: Op)
    requires IsRun(cfg, trace, steps) && n < |trace| && AtRest(cfg, trace[n]) && o in trace[n].local.ops
    ensures PendOf(o).NoPend?
  {
    var s := trace[n];
    var j :| 0 <= j < |s.local.ops| && s.local.ops[j] == o;
    if PendOf(o).Pend? {
      var step := if o.EpCall? then EpReply(j, []) else TimerFires(j);
      assert OpOk(cfg, s.local, o) by { RunInv(cfg, trace, steps, n); }
      assert Enabled(cfg, s, step) && Asks(s, step) == 0;
      HandlersFailExactly(cfg, trace, steps, n, step);
    }
  }
}
