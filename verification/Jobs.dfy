/** Where every job is. */
module Jobs {
  // Jobs are created by user code, fire, are queued or refused, and run: each exactly once, as it
  // was asked for.

  import opened Seqs
  import opened QueueSpec
  import opened ServiceSpec
  import opened TxnSpec
  import opened Protocol
  import opened Invariants
  import opened LedgerSteps
  import opened ProtocolSteps
  import opened Runs

  // ----- where a job is -----

  function ArmedW(v: ServiceId, j: Job): Op -> int { (o: Op) => if o.Armed? && o.svc == v && o.job == j then 1 else 0 }
  function EmitW(v: ServiceId, j: Job): Event -> int { (e: Event) => if e.msg == TimerEmit(v, j) then 1 else 0 }
  function RunW(v: ServiceId, j: Job, ok: bool): Event -> int {
    (e: Event) => if e.msg == TimerRun(v, j, ok) then 1 else 0
  }
  function WaitW(j: Job): SrvTask -> int { (x: SrvTask) => if x.body.TimerTask? && x.body.job == j then 1 else 0 }

  /** Events in flight of job `j` of service `v`: fired, accepted, refused. */
  datatype Flying = Flying(fired: int, accepted: int, refused: int)

  function FlyingOf(net: seq<Event>, v: ServiceId, j: Job): Flying {
    Flying(Sum(net, EmitW(v, j)), Sum(net, RunW(v, j, true)), Sum(net, RunW(v, j, false)))
  }

  function ArmedOf(l: Local, v: ServiceId, j: Job): int { Sum(l.ops, ArmedW(v, j)) }
  function WaitingOf(l: Local, v: ServiceId, j: Job): int { Sum(QueueOf(l, v), WaitW(j)) }

  // ----- what a step asks for and does -----

  function AsksW(engine: Engine, pend: Pend, j: Job): Started -> int {
    (st: Started) => if st.StartJob? && j == Job(st.kind, 0, pend, 0, engine) then 1 else 0
  }

  /** The jobs `j` of service `v` that user code creates while event `e` is handled. */
  function CreatedBy(e: Event, started: seq<Started>, v: ServiceId, j: Job): int {
    match e.msg
    case TaskRun(t, k, svc, _, _) => if svc == v then Sum(started, AsksW(e.dst, Pend(t, k), j)) else 0
    case TimerRun(svc, job, _) => if svc == v && job.pend.Pend? then Sum(started, AsksW(e.dst, job.pend, j)) else 0
    case _ => 0
  }

  /** The jobs `j` of service `v` that user code creates in the step. */
  function Creates(v: ServiceId, j: Job): (State, Step) -> int {
    (s: State, step: Step) =>
      match step
      case CreateJob(engine, svc, kind, bidx, interval) =>
        if svc == v && j == Job(kind, bidx, NoPend, interval, engine) then 1 else 0
      case EpReply(op, started) =>
        if op < |s.local.ops| && s.local.ops[op].EpCall? && s.local.ops[op].svc == v
        then Sum(started, AsksW(s.local.ops[op].engine, s.local.ops[op].pend, j)) else 0
      case Deliver(pos, c) =>
        if pos < |s.net| then CreatedBy(s.net[pos], c.started, v, j) else 0
      case _ => 0
  }

  function Fires(v: ServiceId, j: Job): (State, Step) -> int {
    (s: State, step: Step) =>
      if step.TimerFires? && step.op < |s.local.ops| then ArmedW(v, j)(s.local.ops[step.op]) else 0
  }

  predicate IsFull(l: Local, v: ServiceId, k: Kind) {
    v in l.svcs && |l.svcs[v].queue.Target(k)| >= l.svcs[v].queue.maxSlots
  }

  function ArrivedBy(l: Local, e: Event, v: ServiceId, j: Job, accepted: bool): int {
    if IsFull(l, v, j.kind) != accepted then EmitW(v, j)(e) else 0
  }

  /** A fired job reaches the master and is accepted, or refused because its queue is full. */
  function Arrives(v: ServiceId, j: Job, accepted: bool): (State, Step) -> int {
    (s: State, step: Step) =>
      if step.Deliver? && step.pos < |s.net| then ArrivedBy(s.local, s.net[step.pos], v, j, accepted) else 0
  }

  function Executes(v: ServiceId, j: Job, ok: bool): (State, Step) -> int {
    (s: State, step: Step) => if step.Deliver? && step.pos < |s.net| then RunW(v, j, ok)(s.net[step.pos]) else 0
  }

  /** How often something happened in the first `n` steps. */
  function Times(trace: seq<State>, steps: seq<Step>, n: nat, f: (State, Step) -> int): int
    requires n <= |steps| < |trace|
  {
    if n == 0 then 0 else Times(trace, steps, n - 1, f) + f(trace[n - 1], steps[n - 1])
  }

  // ----- what a handler does with jobs -----

  lemma FlyingReplace(net: seq<Event>, i: nat, sent: seq<Event>, v: ServiceId, j: Job)
    requires i < |net|
    ensures var (w, f, u) := (FlyingOf(Remove(net, i) + sent, v, j), FlyingOf(net, v, j), FlyingOf(sent, v, j));
      && w.fired == f.fired - EmitW(v, j)(net[i]) + u.fired
      && w.accepted == f.accepted - RunW(v, j, true)(net[i]) + u.accepted
      && w.refused == f.refused - RunW(v, j, false)(net[i]) + u.refused
  {
    SumReplace(net, i, sent, EmitW(v, j));
    SumReplace(net, i, sent, RunW(v, j, true));
    SumReplace(net, i, sent, RunW(v, j, false));
  }

  lemma FlyingAppend(net: seq<Event>, sent: seq<Event>, v: ServiceId, j: Job)
    ensures var (w, f, u) := (FlyingOf(net + sent, v, j), FlyingOf(net, v, j), FlyingOf(sent, v, j));
      w.fired == f.fired + u.fired && w.accepted == f.accepted + u.accepted && w.refused == f.refused + u.refused
  {
    SumAppend(net, sent, EmitW(v, j));
    SumAppend(net, sent, RunW(v, j, true));
    SumAppend(net, sent, RunW(v, j, false));
  }

  predicate NoJob(m: Msg) { !m.TimerEmit? && !m.TimerRun? }

  lemma FlyingNone(sent: seq<Event>, v: ServiceId, j: Job)
    requires forall e :: e in sent ==> NoJob(e.msg)
    ensures FlyingOf(sent, v, j) == Flying(0, 0, 0)
  {
    SumZero(sent, EmitW(v, j));
    SumZero(sent, RunW(v, j, true));
    SumZero(sent, RunW(v, j, false));
  }

  lemma FlyingOne(e: Event, v: ServiceId, j: Job)
    ensures FlyingOf([e], v, j) == Flying(EmitW(v, j)(e), RunW(v, j, true)(e), RunW(v, j, false)(e))
  {
    SumOne(e, EmitW(v, j));
    SumOne(e, RunW(v, j, true));
    SumOne(e, RunW(v, j, false));
  }

  lemma {:induction false} BatchFlying(cfg: Config, svc: ServiceId, batch: seq<SrvTask>, v: ServiceId, j: Job)
    ensures FlyingOf(Map(ToRun(cfg, svc), batch), v, j) == Flying(0, if svc == v then Sum(batch, WaitW(j)) else 0, 0)
  {
    if batch != [] {
      var run := Map(ToRun(cfg, svc), batch);
      assert run[1..] == Map(ToRun(cfg, svc), batch[1..]);
      BatchFlying(cfg, svc, batch[1..], v, j);
    }
  }

  /** Scheduling turns waiting jobs into accepted ones. */
  lemma ScheduleJobs(cfg: Config, l: Local, svc: ServiceId, s: Service, sent: seq<Event>, v: ServiceId, j: Job)
    requires s.Valid() && svc in l.svcs && forall e :: e in sent ==> NoJob(e.msg)
    ensures var eff := Schedule(cfg, l, svc, s, sent);
      && FlyingOf(eff.sent, v, j).fired == FlyingOf(eff.sent, v, j).refused == 0
      && WaitingOf(eff.local, v, j) + FlyingOf(eff.sent, v, j).accepted
           == if svc == v then Sum(s.queue.Pending(), WaitW(j)) else WaitingOf(l, v, j)
  {
    var batch := Drain(s).1;
    DrainConserves(s, WaitW(j));
    BatchFlying(cfg, svc, batch, v, j);
    FlyingNone(sent, v, j);
    FlyingAppend(sent, Map(ToRun(cfg, svc), batch), v, j);
  }

  lemma {:induction false} StartedJobs(engine: Engine, svc: ServiceId, pend: Pend, started: seq<Started>,
                                       v: ServiceId, j: Job)
    ensures Sum(Map(OpOf(engine, svc, pend), started), ArmedW(v, j))
         == if svc == v then Sum(started, AsksW(engine, pend, j)) else 0
  {
    if started != [] {
      assert Map(OpOf(engine, svc, pend), started)[1..] == Map(OpOf(engine, svc, pend), started[1..]);
      StartedJobs(engine, svc, pend, started[1..], v, j);
    }
  }

  /** A handler's effect on the jobs `j` of service `v`: it creates, accepts and refuses some. */
  predicate JobsMove(l: Local, e: Event, started: seq<Started>, eff: Effect, v: ServiceId, j: Job)
    requires eff.Effect?
  {
    var f := FlyingOf(eff.sent, v, j);
    && f.fired == 0
    && WaitingOf(eff.local, v, j) + f.accepted == WaitingOf(l, v, j) + ArrivedBy(l, e, v, j, true)
    && f.refused == ArrivedBy(l, e, v, j, false)
    && ArmedOf(eff.local, v, j) == ArmedOf(l, v, j) + CreatedBy(e, started, v, j)
  }

  /** A task is queued and the service scheduled. */
  lemma QueuedJobs(cfg: Config, l: Local, svc: ServiceId, x: SrvTask, v: ServiceId, j: Job)
    requires svc in l.svcs && l.svcs[svc].Valid() && Rw(x.kind) && !l.svcs[svc].queue.Full(x.kind)
    ensures var sv := l.svcs[svc];
      var eff := Schedule(cfg, l, svc, sv.(queue := Push(sv.queue, x)), []);
      && FlyingOf(eff.sent, v, j).fired == FlyingOf(eff.sent, v, j).refused == 0
      && WaitingOf(eff.local, v, j) + FlyingOf(eff.sent, v, j).accepted
           == WaitingOf(l, v, j) + if svc == v then WaitW(j)(x) else 0
  {
    var sv := l.svcs[svc];
    PushAdds(sv.queue, x, WaitW(j));
    ScheduleJobs(cfg, l, svc, sv.(queue := Push(sv.queue, x)), [], v, j);
  }

  /** A slot is released, or none, and the service scheduled. */
  lemma ReleasedJobs(cfg: Config, l: Local, svc: ServiceId, release: bool, sent: seq<Event>, v: ServiceId, j: Job)
    requires svc in l.svcs && forall e :: e in sent ==> NoJob(e.msg)
    requires var sv := if release then SetComplete(l.svcs[svc]) else l.svcs[svc]; sv.Valid()
    ensures var eff := Schedule(cfg, l, svc, if release then SetComplete(l.svcs[svc]) else l.svcs[svc], sent);
      && FlyingOf(eff.sent, v, j).fired == FlyingOf(eff.sent, v, j).refused == 0
      && WaitingOf(eff.local, v, j) + FlyingOf(eff.sent, v, j).accepted == WaitingOf(l, v, j)
  {
    var sv := if release then SetComplete(l.svcs[svc]) else l.svcs[svc];
    assert sv.queue.Pending() == l.svcs[svc].queue.Pending();
    ScheduleJobs(cfg, l, svc, sv, sent, v, j);
  }

  lemma IoCallMoves(cfg: Config, l: Local, e: Event, started: seq<Started>, v: ServiceId, j: Job)
    requires e.msg.IoCall? && HandleIoCall(cfg, l, e).Effect?
    ensures JobsMove(l, e, started, HandleIoCall(cfg, l, e), v, j)
  {
    var m := e.msg;
    if l.svcs[m.svc].queue.Full(m.kind) {
      FlyingNone(HandleIoCall(cfg, l, e).sent, v, j);
    } else {
      QueuedJobs(cfg, l, m.svc, Elem(m.kind, ApiTask(e.src, m.bidx, m.txn, m.task)), v, j);
    }
  }

  lemma TimerEmitMoves(cfg: Config, l: Local, e: Event, started: seq<Started>, v: ServiceId, j: Job)
    requires e.msg.TimerEmit? && HandleTimerEmit(cfg, l, e).Effect?
    ensures JobsMove(l, e, started, HandleTimerEmit(cfg, l, e), v, j)
  {
    var m := e.msg;
    if l.svcs[m.svc].queue.Full(m.job.kind) {
      FlyingOne(Event(MASTER, e.src, TimerRun(m.svc, m.job, false)), v, j);
    } else {
      QueuedJobs(cfg, l, m.svc, Elem(m.job.kind, TimerTask(e.src, m.job)), v, j);
    }
  }

  lemma DoneMoves(cfg: Config, l: Local, e: Event, started: seq<Started>, v: ServiceId, j: Job)
    requires e.msg.Done? && HandleDone(cfg, l, e).Effect?
    ensures JobsMove(l, e, started, HandleDone(cfg, l, e), v, j)
  {
    var m := e.msg;
    ReleasedJobs(cfg, l, m.svc, m.slot, if m.resume then [Event(MASTER, e.src, WorkflowRun(m.txn))] else [], v, j);
  }

  lemma TimerDoneMoves(cfg: Config, l: Local, e: Event, started: seq<Started>, v: ServiceId, j: Job)
    requires e.msg.TimerDone? && HandleTimerDone(cfg, l, e).Effect?
    ensures JobsMove(l, e, started, HandleTimerDone(cfg, l, e), v, j)
  {
    ReleasedJobs(cfg, l, e.msg.svc, e.msg.ok, [], v, j);
  }

  lemma ApiMoves(cfg: Config, l: Local, e: Event, started: seq<Started>, v: ServiceId, j: Job)
    requires e.msg.TaskRun? && HandleTaskRun(cfg, l, e, started).Effect?
    ensures JobsMove(l, e, started, HandleTaskRun(cfg, l, e, started), v, j)
  {
    var m := e.msg;
    SumAppend(l.ops, Map(OpOf(e.dst, m.svc, Pend(m.txn, m.task)), started), ArmedW(v, j));
    StartedJobs(e.dst, m.svc, Pend(m.txn, m.task), started, v, j);
    FlyingNone(HandleTaskRun(cfg, l, e, started).sent, v, j);
  }

  /** A job that ran moves no other job; its callback may start some. */
  lemma RunShape(cfg: Config, l: Local, e: Event, started: seq<Started>)
    requires e.msg.TimerRun? && HandleTimerRun(cfg, l, e, started).Effect?
    ensures var (m, eff) := (e.msg, HandleTimerRun(cfg, l, e, started));
      && eff.local.svcs == l.svcs && (forall x :: x in eff.sent ==> NoJob(x.msg))
      && eff.local.ops == if m.job.pend.Pend? then l.ops + Map(OpOf(e.dst, m.svc, m.job.pend), started) else l.ops
  {
  }

  lemma RunMoves(cfg: Config, l: Local, e: Event, started: seq<Started>, v: ServiceId, j: Job)
    requires e.msg.TimerRun? && HandleTimerRun(cfg, l, e, started).Effect?
    ensures JobsMove(l, e, started, HandleTimerRun(cfg, l, e, started), v, j)
  {
    RunShape(cfg, l, e, started);
    ShapeMoves(l, e, started, HandleTimerRun(cfg, l, e, started), v, j);
  }

  lemma ShapeMoves(l: Local, e: Event, started: seq<Started>, eff: Effect, v: ServiceId, j: Job)
    requires e.msg.TimerRun? && eff.Effect? && eff.local.svcs == l.svcs && forall x :: x in eff.sent ==> NoJob(x.msg)
    requires var m := e.msg;
      eff.local.ops == if m.job.pend.Pend? then l.ops + Map(OpOf(e.dst, m.svc, m.job.pend), started) else l.ops
    ensures JobsMove(l, e, started, eff, v, j)
  {
    FlyingNone(eff.sent, v, j);
    if e.msg.job.pend.Pend? {
      SumAppend(l.ops, Map(OpOf(e.dst, e.msg.svc, e.msg.job.pend), started), ArmedW(v, j));
      StartedJobs(e.dst, e.msg.svc, e.msg.job.pend, started, v, j);
    }
  }

  lemma HandlerMoves(cfg: Config, l: Local, e: Event, c: Choice, v: ServiceId, j: Job)
    requires Handle(cfg, l, e, c).Effect?
    ensures JobsMove(l, e, c.started, Handle(cfg, l, e, c), v, j)
  {
    match e.msg
    case IoCall(_, _, _, _, _) => IoCallMoves(cfg, l, e, c.started, v, j);
    case TimerEmit(_, _) => TimerEmitMoves(cfg, l, e, c.started, v, j);
    case Done(_, _, _, _, _) => DoneMoves(cfg, l, e, c.started, v, j);
    case TimerDone(_, _, _) => TimerDoneMoves(cfg, l, e, c.started, v, j);
    case TaskRun(_, _, _, _, _) => ApiMoves(cfg, l, e, c.started, v, j);
    case TimerRun(_, _, _) => RunMoves(cfg, l, e, c.started, v, j);
    case _ => FlyingNone(Handle(cfg, l, e, c).sent, v, j);
  }

  // ----- one step -----

  /** How a step moves jobs `j` of service `v` from place to place. */
  predicate Balance(s: State, step: Step, s': State, v: ServiceId, j: Job) {
    var (f, f') := (FlyingOf(s.net, v, j), FlyingOf(s'.net, v, j));
    var fires := Fires(v, j)(s, step);
    && ArmedOf(s'.local, v, j)
         == ArmedOf(s.local, v, j) + Creates(v, j)(s, step) - (if j.interval > 0 then 0 else fires)
    && f'.fired == f.fired + fires - Arrives(v, j, true)(s, step) - Arrives(v, j, false)(s, step)
    && WaitingOf(s'.local, v, j) + f'.accepted
         == WaitingOf(s.local, v, j) + f.accepted + Arrives(v, j, true)(s, step) - Executes(v, j, true)(s, step)
    && f'.refused == f.refused + Arrives(v, j, false)(s, step) - Executes(v, j, false)(s, step)
  }

  /** What a delivery counts as. */
  lemma DeliveryCounts(s: State, i: nat, c: Choice, v: ServiceId, j: Job)
    requires i < |s.net|
    ensures var (e, step) := (s.net[i], Deliver(i, c));
      && Creates(v, j)(s, step) == CreatedBy(e, c.started, v, j) && Fires(v, j)(s, step) == 0
      && (forall a :: Arrives(v, j, a)(s, step) == ArrivedBy(s.local, e, v, j, a))
      && (forall ok :: Executes(v, j, ok)(s, step) == RunW(v, j, ok)(e))
      && EmitW(v, j)(e) == ArrivedBy(s.local, e, v, j, true) + ArrivedBy(s.local, e, v, j, false)
  {
  }

  lemma DeliveryBalance(cfg: Config, s: State, i: nat, c: Choice, v: ServiceId, j: Job)
    requires i < |s.net| && Handle(cfg, s.local, s.net[i], c).Effect?
    ensures Balance(s, Deliver(i, c), After(s, i, Handle(cfg, s.local, s.net[i], c)), v, j)
  {
    HandlerMoves(cfg, s.local, s.net[i], c, v, j);
    MovedBalance(s, i, c, Handle(cfg, s.local, s.net[i], c), v, j);
  }

  lemma MovedBalance(s: State, i: nat, c: Choice, eff: Effect, v: ServiceId, j: Job)
    requires i < |s.net| && eff.Effect? && JobsMove(s.local, s.net[i], c.started, eff, v, j)
    ensures Balance(s, Deliver(i, c), After(s, i, eff), v, j)
  {
    DeliveryCounts(s, i, c, v, j);
    FlyingReplace(s.net, i, eff.sent, v, j);
  }

  lemma ReplyBalance(cfg: Config, s: State, step: Step, s': State, v: ServiceId, j: Job)
    requires step.EpReply? && Next(cfg, s, step, s')
    ensures Balance(s, step, s', v, j)
  {
    var o := s.local.ops[step.op];
    var l1 := s.local.(ops := Remove(s.local.ops, step.op));
    var sent := FinishPending(l1, o.engine, o.svc, o.pend, step.started).sent;
    SumRemove(s.local.ops, step.op, ArmedW(v, j));
    SumAppend(l1.ops, Map(OpOf(o.engine, o.svc, o.pend), step.started), ArmedW(v, j));
    StartedJobs(o.engine, o.svc, o.pend, step.started, v, j);
    FlyingNone(sent, v, j);
    FlyingAppend(s.net, sent, v, j);
  }

  lemma TimerBalance(cfg: Config, s: State, step: Step, s': State, v: ServiceId, j: Job)
    requires step.TimerFires? && Next(cfg, s, step, s')
    ensures Balance(s, step, s', v, j)
  {
    var o := s.local.ops[step.op];
    var e := Event(o.engine, MASTER, TimerEmit(o.svc, o.job));
    SumRemove(s.local.ops, step.op, ArmedW(v, j));
    FlyingOne(e, v, j);
    FlyingAppend(s.net, [e], v, j);
  }

  lemma CreateBalance(cfg: Config, s: State, step: Step, s': State, v: ServiceId, j: Job)
    requires (step.CreateJob? || step.Arrive?) && Next(cfg, s, step, s')
    ensures Balance(s, step, s', v, j)
  {
    var sent := Perform(cfg, s, step).0.sent;
    FlyingNone(sent, v, j);
    FlyingAppend(s.net, sent, v, j);
    if step.CreateJob? {
      var o := Armed(step.engine, step.svc, Job(step.kind, step.bidx, NoPend, step.interval, step.engine));
      SumAppend(s.local.ops, [o], ArmedW(v, j));
      SumOne(o, ArmedW(v, j));
    }
  }

  lemma NextBalance(cfg: Config, s: State, step: Step, s': State, v: ServiceId, j: Job)
    requires Next(cfg, s, step, s')
    ensures Balance(s, step, s', v, j)
  {
    match step
    case Deliver(pos, choice) => DeliveryBalance(cfg, s, pos, choice, v, j);
    case EpReply(_, _) => ReplyBalance(cfg, s, step, s', v, j);
    case TimerFires(_) => TimerBalance(cfg, s, step, s', v, j);
    case _ => CreateBalance(cfg, s, step, s', v, j);
  }

  // ----- every run -----

  /** The account of job `j` of service `v` after `n` steps. */
  predicate Settled(trace: seq<State>, steps: seq<Step>, n: nat, v: ServiceId, j: Job)
    requires n <= |steps| < |trace|
  {
    var (l, f) := (trace[n].local, FlyingOf(trace[n].net, v, j));
    var fired := Times(trace, steps, n, Fires(v, j));
    && Times(trace, steps, n, Creates(v, j)) == ArmedOf(l, v, j) + (if j.interval > 0 then 0 else fired)
    && fired == f.fired + Times(trace, steps, n, Arrives(v, j, true)) + Times(trace, steps, n, Arrives(v, j, false))
    && Times(trace, steps, n, Arrives(v, j, true))
         == WaitingOf(l, v, j) + f.accepted + Times(trace, steps, n, Executes(v, j, true))
    && Times(trace, steps, n, Arrives(v, j, false)) == f.refused + Times(trace, steps, n, Executes(v, j, false))
  }

  lemma SettledNext(trace: seq<State>, steps: seq<Step>, n: nat, v: ServiceId, j: Job)
    requires n < |steps| < |trace| && Settled(trace, steps, n, v, j)
    requires Balance(trace[n], steps[n], trace[n + 1], v, j)
    ensures Settled(trace, steps, n + 1, v, j)
  {
  }

  lemma SettledFirst(trace: seq<State>, steps: seq<Step>, v: ServiceId, j: Job)
    requires |steps| < |trace|
    requires trace[0].net == [] && trace[0].local.ops == [] && QueueOf(trace[0].local, v) == []
    ensures Settled(trace, steps, 0, v, j)
  {
  }

  lemma {:induction false} AllSettled(trace: seq<State>, steps: seq<Step>, n: nat, v: ServiceId, j: Job)
    requires n <= |steps| < |trace|
    requires trace[0].net == [] && trace[0].local.ops == [] && QueueOf(trace[0].local, v) == []
    requires forall i: nat :: i < n ==> Balance(trace[i], steps[i], trace[i + 1], v, j)
    ensures Settled(trace, steps, n, v, j)
  {
    if n == 0 {
      SettledFirst(trace, steps, v, j);
    } else {
      AllSettled(trace, steps, n - 1, v, j);
      SettledNext(trace, steps, n - 1, v, j);
      assert n - 1 + 1 == n;
    }
  }

  /** In every run, for every service and job: jobs created are armed, or have fired if not
      periodic; jobs fired are on their way to the master, accepted, or refused because the queue
      was full; accepted ones wait in the queue, are on their way to an engine, or have run; refused
      ones are on their way back or have run as refused. None is lost, doubled or changed. */
  lemma JobsAccounted(cfg: Config, trace: seq<State>, steps: seq<Step>, n: nat, v: ServiceId, j: Job)
    requires IsRun(cfg, trace, steps) && n < |trace|
    ensures Settled(trace, steps, n, v, j)
  {
    forall i: nat | i < n ensures Balance(trace[i], steps[i], trace[i + 1], v, j) {
      assert Next(cfg, trace[i], steps[i], trace[i + 1]);
      NextBalance(cfg, trace[i], steps[i], trace[i + 1], v, j);
    }
    AllSettled(trace, steps, n, v, j);
  }
}
