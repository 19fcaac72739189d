/** The service task protocol: one master, workers and background engines exchange
    events over FIFO channels. Handlers are atomic; user code, the clock, endpoint
    replies and timers are choices of the environment. */
module Protocol {
  import opened Seqs
  import opened QueueSpec
  import opened ServiceSpec
  import opened TxnSpec

  // ----- engines and events -----

  datatype Config = Config(workers: nat, bios: nat)

  const MASTER: Engine := 0

  predicate ValidBio(cfg: Config, bidx: int) {
    if bidx > 0 then bidx <= cfg.bios else bidx < 0 ==> cfg.bios >= 1
  }

  /** Workers are engines 1..workers, background engine i is workers + i. */
  function Target(cfg: Config, src: Engine, bidx: int): Engine {
    if bidx == 0 then src else if bidx > 0 then cfg.workers + bidx else cfg.workers + 1
  }

  datatype Msg =
    | IoCall(txn: TxnId, task: nat, svc: ServiceId, kind: Kind, bidx: int)
    | TaskRun(txn: TxnId, task: nat, svc: ServiceId, kind: Kind, caller: Engine)
    | TaskCb(txn: TxnId, task: nat, svc: ServiceId, kind: Kind, status: TaskStatus, slot: bool)
    | Done(txn: TxnId, svc: ServiceId, kind: Kind, resume: bool, slot: bool)
    | WorkflowRun(txn: TxnId)
    | TimerEmit(svc: ServiceId, job: Job)
    | TimerRun(svc: ServiceId, job: Job, ok: bool)
    | TimerDone(svc: ServiceId, job: Job, ok: bool)

  datatype Event = Event(src: Engine, dst: Engine, msg: Msg)

  /** Priorities of the protocol table. */
  function Priority(m: Msg): nat {
    match m
    case IoCall(_, _, _, _, _) => 6
    case TaskRun(_, _, _, _, _) => 4
    case TaskCb(_, _, _, _, _, _) => 6
    case Done(_, _, _, _, _) => 6
    case WorkflowRun(_) => 5
    case TimerEmit(_, _) => 8
    case TimerRun(_, _, _) => 8
    case TimerDone(_, _, _) => 8
  }

  type Channel = (Engine, Engine, nat)

  function ChannelOf(e: Event): Channel { (e.src, e.dst, Priority(e.msg)) }

  /** Work that user code left pending on an engine. */
  datatype Op =
    | EpCall(engine: Engine, svc: ServiceId, pend: Pend)
    | Armed(engine: Engine, svc: ServiceId, job: Job)

  datatype Local = Local(
    svcs: map<ServiceId, Service>, txns: map<TxnId, Txn>, ops: seq<Op>, nextTxn: TxnId)

  /** `net` holds the events in flight in the order they were sent. */
  datatype State = State(local: Local, net: seq<Event>)

  // ----- handlers -----

  /** Pending work a service API, an endpoint callback or a job callback starts. */
  datatype Started = StartEp | StartJob(kind: Kind)

  datatype Choice = Choice(started: seq<Started>, conduct: Conduct)

  datatype Effect = Crash | Effect(local: Local, sent: seq<Event>)

  function OpOf(engine: Engine, svc: ServiceId, pend: Pend): Started -> Op {
    (st: Started) =>
      match st
      case StartEp => EpCall(engine, svc, pend)
      case StartJob(kind) => Armed(engine, svc, Job(kind, 0, pend, 0, engine))
  }

  /** The event that hands a popped task to its engine. */
  function ToRun(cfg: Config, svc: ServiceId): SrvTask -> Event {
    (e: SrvTask) =>
      match e.body
      case ApiTask(src, bidx, t, k) => Event(MASTER, Target(cfg, src, bidx), TaskRun(t, k, svc, e.kind, src))
      case TimerTask(src, job) => Event(MASTER, Target(cfg, src, job.bidx), TimerRun(svc, job, true))
  }

  /** Events of the service calls registered from position `from` of the task table. */
  function IoCalls(engine: Engine, id: TxnId, t: Txn, from: nat): seq<Event>
    requires from <= |t.tasks|
  {
    seq(|t.tasks| - from, i requires 0 <= i < |t.tasks| - from =>
      var task := t.tasks[from + i];
      Event(engine, MASTER, IoCall(id, from + i, task.svc, task.kind, task.bidx)))
  }

  /** Run the scheduling loop of service `svc` after it became `s`. */
  function Schedule(cfg: Config, l: Local, svc: ServiceId, s: Service, sent: seq<Event>): Effect
    requires s.Valid()
  {
    var (s1, batch) := Drain(s);
    Effect(l.(svcs := l.svcs[svc := s1]), sent + Map(ToRun(cfg, svc), batch))
  }

  function HandleIoCall(cfg: Config, l: Local, e: Event): Effect
    requires e.msg.IoCall?
  {
    var m := e.msg;
    if e.dst != MASTER || m.svc !in l.svcs || !(m.kind == Read || m.kind == Write) then Crash
    else
      var s := l.svcs[m.svc];
      if s.Valid() then
        if s.queue.Full(m.kind) then
          Effect(l, [Event(MASTER, e.src, TaskCb(m.txn, m.task, m.svc, m.kind, TaskBusy, false))])
        else
          var q := Push(s.queue, Elem(m.kind, ApiTask(e.src, m.bidx, m.txn, m.task)));
          Schedule(cfg, l, m.svc, s.(queue := q), [])
      else Crash
  }

  function HandleTaskRun(cfg: Config, l: Local, e: Event, started: seq<Started>): Effect
    requires e.msg.TaskRun?
  {
    var m := e.msg;
    if e.src != MASTER || m.txn !in l.txns || m.task >= |l.txns[m.txn].tasks| then Crash
    else
      var t := AddPendings(l.txns[m.txn], m.task, |started|);
      var status := if t.tasks[m.task].pendings > 0 then TaskPending else TaskDone;
      Effect(l.(txns := l.txns[m.txn := t],
                ops := l.ops + Map(OpOf(e.dst, m.svc, Pend(m.txn, m.task)), started)),
             [Event(e.dst, m.caller, TaskCb(m.txn, m.task, m.svc, m.kind, status, true))])
  }

  function HandleTaskCb(cfg: Config, l: Local, e: Event, c: Conduct): Effect
    requires e.msg.TaskCb?
  {
    var m := e.msg;
    if m.txn !in l.txns || m.task >= |l.txns[m.txn].tasks| || e.dst != l.txns[m.txn].home then Crash
    else
      var t := l.txns[m.txn];
      var finished := m.status == TaskDone || m.status == TaskBusy;
      var runs := finished && t.tasks[m.task].hasCb;
      if finished && t.complete >= t.total then Crash
      else if runs && c.failed && !MaySet(t, Failed) then Crash
      else
        var t1 := Callback(t, m.task, m.status, runs && c.failed, if runs then c.calls else []);
        Effect(l.(txns := l.txns[m.txn := t1]),
               IoCalls(e.dst, m.txn, t1, |t.tasks|) +
               [Event(e.dst, MASTER, Done(m.txn, m.svc, m.kind, Resumes(t1, m.task), m.slot))])
  }

  function HandleDone(cfg: Config, l: Local, e: Event): Effect
    requires e.msg.Done?
  {
    var m := e.msg;
    if e.dst != MASTER || m.svc !in l.svcs then Crash
    else
      var s := if m.slot then SetComplete(l.svcs[m.svc]) else l.svcs[m.svc];
      if s.Valid() then
        Schedule(cfg, l, m.svc, s, if m.resume then [Event(MASTER, e.src, WorkflowRun(m.txn))] else [])
      else Crash
  }

  function HandleWorkflowRun(cfg: Config, l: Local, e: Event, c: Conduct): Effect
    requires e.msg.WorkflowRun?
  {
    var id := e.msg.txn;
    if id !in l.txns then Crash
    else
      var t := l.txns[id];
      match Run(t, c, 0)
      case Abort => Crash
      case Ended(t1, again, freed) =>
        if |t1.tasks| < |t.tasks| then Crash
        else
          Effect(l.(txns := if freed then l.txns - {id} else l.txns[id := t1]),
                 IoCalls(e.dst, id, t1, |t.tasks|) +
                 if again then [Event(e.dst, e.dst, WorkflowRun(id))] else [])
  }

  function HandleTimerEmit(cfg: Config, l: Local, e: Event): Effect
    requires e.msg.TimerEmit?
  {
    var m := e.msg;
    if e.dst != MASTER || m.svc !in l.svcs || !(m.job.kind == Read || m.job.kind == Write) then Crash
    else
      var s := l.svcs[m.svc];
      if s.Valid() then
        if s.queue.Full(m.job.kind) then
          Effect(l, [Event(MASTER, e.src, TimerRun(m.svc, m.job, false))])
        else
          var q := Push(s.queue, Elem(m.job.kind, TimerTask(e.src, m.job)));
          Schedule(cfg, l, m.svc, s.(queue := q), [])
      else Crash
  }

  /** A pending endpoint call or job ran its callback on `engine`. */
  function FinishPending(l: Local, engine: Engine, svc: ServiceId, pend: Pend, started: seq<Started>): Effect
    requires pend.Pend?
  {
    if pend.txn !in l.txns || pend.task >= |l.txns[pend.txn].tasks| then Crash
    else
      var t := AddPendings(l.txns[pend.txn], pend.task, |started| - 1);
      var task := t.tasks[pend.task];
      Effect(l.(txns := l.txns[pend.txn := t], ops := l.ops + Map(OpOf(engine, svc, pend), started)),
             if task.pendings > 0 then []
             else [Event(engine, t.home, TaskCb(pend.txn, pend.task, svc, task.kind, TaskDone, false))])
  }

  function HandleTimerRun(cfg: Config, l: Local, e: Event, started: seq<Started>): Effect
    requires e.msg.TimerRun?
  {
    var m := e.msg;
    var done := Event(e.dst, e.src, TimerDone(m.svc, m.job, m.ok));
    if e.src != MASTER then Crash
    else if m.job.pend.NoPend? then Effect(l, [done])
    else
      match FinishPending(l, e.dst, m.svc, m.job.pend, started)
      case Crash => Crash
      case Effect(l1, sent) => Effect(l1, sent + [done])
  }

  function HandleTimerDone(cfg: Config, l: Local, e: Event): Effect
    requires e.msg.TimerDone?
  {
    var m := e.msg;
    if e.dst != MASTER || m.svc !in l.svcs then Crash
    else
      var s := if m.ok then SetComplete(l.svcs[m.svc]) else l.svcs[m.svc];
      if s.Valid() then Schedule(cfg, l, m.svc, s, []) else Crash
  }

  function Handle(cfg: Config, l: Local, e: Event, c: Choice): Effect {
    match e.msg
    case IoCall(_, _, _, _, _) => HandleIoCall(cfg, l, e)
    case TaskRun(_, _, _, _, _) => HandleTaskRun(cfg, l, e, c.started)
    case TaskCb(_, _, _, _, _, _) => HandleTaskCb(cfg, l, e, c.conduct)
    case Done(_, _, _, _, _) => HandleDone(cfg, l, e)
    case WorkflowRun(_) => HandleWorkflowRun(cfg, l, e, c.conduct)
    case TimerEmit(_, _) => HandleTimerEmit(cfg, l, e)
    case TimerRun(_, _, _) => HandleTimerRun(cfg, l, e, c.started)
    case TimerDone(_, _, _) => HandleTimerDone(cfg, l, e)
  }

  // ----- the transition system -----

  datatype Step =
    | Arrive(from: Engine, home: Engine, modules: nat, hasPack: bool, timeout: int)
    | Deliver(pos: nat, choice: Choice)
    | EpReply(op: nat, started: seq<Started>)
    | TimerFires(op: nat)
    | CreateJob(engine: Engine, svc: ServiceId, kind: Kind, bidx: int, interval: nat)

  /** Only the oldest event of a channel can be delivered. */
  ghost predicate Deliverable(net: seq<Event>, i: nat) {
    i < |net| && forall j :: 0 <= j < i ==> ChannelOf(net[j]) != ChannelOf(net[i])
  }

  ghost predicate LegalCall(cfg: Config, l: Local, c: Call) {
    c.svc in l.svcs && (c.kind == Read || c.kind == Write) && ValidBio(cfg, c.bidx)
  }

  ghost predicate LegalStart(st: Started) {
    st.StartJob? ==> st.kind == Read || st.kind == Write
  }

  ghost predicate LegalChoice(cfg: Config, l: Local, c: Choice) {
    && (forall x :: x in c.conduct.calls ==> LegalCall(cfg, l, x))
    && (forall x :: x in c.started ==> LegalStart(x))
  }

  ghost predicate Enabled(cfg: Config, s: State, step: Step) {
    match step
    case Arrive(from, home, modules, hasPack, timeout) => modules > 0
    case Deliver(pos, choice) => Deliverable(s.net, pos) && LegalChoice(cfg, s.local, choice)
    case EpReply(op, started) =>
      op < |s.local.ops| && s.local.ops[op].EpCall? && s.local.ops[op].pend.Pend? &&
      forall x :: x in started ==> LegalStart(x)
    case TimerFires(op) => op < |s.local.ops| && s.local.ops[op].Armed?
    case CreateJob(engine, svc, kind, bidx, interval) =>
      svc in s.local.svcs && (kind == Read || kind == Write) && ValidBio(cfg, bidx)
  }

  /** The effect of a step and the events it leaves in flight; the effect may be a crash. */
  ghost function Perform(cfg: Config, s: State, step: Step): (Effect, seq<Event>)
    requires Enabled(cfg, s, step)
  {
    var l := s.local;
    match step
    case Arrive(from, home, modules, hasPack, timeout) =>
      (Effect(l.(txns := l.txns[l.nextTxn := NewTxn(home, modules, hasPack, timeout)], nextTxn := l.nextTxn + 1),
              [Event(from, home, WorkflowRun(l.nextTxn))]), s.net)
    case Deliver(pos, choice) => (Handle(cfg, l, s.net[pos], choice), Remove(s.net, pos))
    case EpReply(op, started) =>
      var o := l.ops[op];
      (FinishPending(l.(ops := Remove(l.ops, op)), o.engine, o.svc, o.pend, started), s.net)
    case TimerFires(op) =>
      var o := l.ops[op];
      (Effect(if o.job.interval > 0 then l else l.(ops := Remove(l.ops, op)),
              [Event(o.engine, MASTER, TimerEmit(o.svc, o.job))]), s.net)
    case CreateJob(engine, svc, kind, bidx, interval) =>
      (Effect(l.(ops := l.ops + [Armed(engine, svc, Job(kind, bidx, NoPend, interval, engine))]), []), s.net)
  }

  ghost predicate Next(cfg: Config, s: State, step: Step, s': State) {
    && Enabled(cfg, s, step)
    && var (eff, rest) := Perform(cfg, s, step);
       eff.Effect? && s' == State(eff.local, rest + eff.sent)
  }

  ghost predicate Initial(s: State) {
    && s.net == [] && s.local.ops == [] && s.local.txns == map[]
    && forall v :: v in s.local.svcs ==>
         var sv := s.local.svcs[v];
         sv.Valid() && sv.queue.Pending() == [] && sv.queue.state == Idle && sv.running == 0
  }

  /** `trace` is a run of the protocol by the steps `steps`. */
  ghost predicate IsRun(cfg: Config, trace: seq<State>, steps: seq<Step>) {
    && |trace| == |steps| + 1
    && Initial(trace[0])
    && forall i :: 0 <= i < |steps| ==> Next(cfg, trace[i], steps[i], trace[i + 1])
  }

  lemma ExtendRun(cfg: Config, trace: seq<State>, steps: seq<Step>, step: Step, s': State)
    requires IsRun(cfg, trace, steps) && Next(cfg, trace[|steps|], step, s')
    ensures IsRun(cfg, trace + [s'], steps + [step])
  {
    var tr := trace + [s'];
    var st := steps + [step];
    forall i | 0 <= i < |st| ensures Next(cfg, tr[i], st[i], tr[i + 1]) {
      if i < |steps| { assert Next(cfg, trace[i], steps[i], trace[i + 1]); }
    }
  }
}
