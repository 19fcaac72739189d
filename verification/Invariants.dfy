/** What every state of a run satisfies: who holds a service slot, where each service
    call is, and which pending work it waits for. */
module Invariants {
  import opened Seqs
  import opened QueueSpec
  import opened ServiceSpec
  import opened TxnSpec
  import opened Protocol

  // ----- weights -----

  /** The event carries a slot of service `svc` taken by a task of kind `k`. */
  predicate HoldsSlot(m: Msg, svc: ServiceId, k: Kind) {
    match m
    case TaskRun(_, _, v, kind, _) => v == svc && kind == k
    case TaskCb(_, _, v, kind, _, slot) => slot && v == svc && kind == k
    case Done(_, v, kind, _, slot) => slot && v == svc && kind == k
    case TimerRun(v, job, ok) => ok && v == svc && job.kind == k
    case TimerDone(v, job, ok) => ok && v == svc && job.kind == k
    case _ => false
  }

  predicate IsFinish(m: Msg, t: TxnId, k: nat) {
    m.TaskCb? && m.txn == t && m.task == k && (m.status == TaskDone || m.status == TaskBusy)
  }

  predicate IsPendingCb(m: Msg, t: TxnId, k: nat) {
    m.TaskCb? && m.txn == t && m.task == k && m.status == TaskPending
  }

  /** The call has not run yet, or was refused. */
  predicate IsEarly(m: Msg, t: TxnId, k: nat) {
    || (m.IoCall? && m.txn == t && m.task == k)
    || (m.TaskRun? && m.txn == t && m.task == k)
    || (m.TaskCb? && m.txn == t && m.task == k && m.status == TaskBusy)
  }

  predicate IsToken(m: Msg, t: TxnId, k: nat) {
    IsEarly(m, t, k) || IsFinish(m, t, k)
  }

  predicate IsJobFor(m: Msg, t: TxnId, k: nat) {
    (m.TimerEmit? || m.TimerRun?) && m.job.pend == Pend(t, k)
  }

  function SlotW(svc: ServiceId, k: Kind): Event -> int { (e: Event) => if HoldsSlot(e.msg, svc, k) then 1 else 0 }
  function QueuedW(t: TxnId, k: nat): SrvTask -> int {
    (e: SrvTask) => if e.body.ApiTask? && e.body.txn == t && e.body.task == k then 1 else 0
  }
  function QueuedJobW(t: TxnId, k: nat): SrvTask -> int {
    (e: SrvTask) => if e.body.TimerTask? && e.body.job.pend == Pend(t, k) then 1 else 0
  }

  function PendOf(o: Op): Pend { if o.EpCall? then o.pend else o.job.pend }
  function OpW(t: TxnId, k: nat): Op -> int { (o: Op) => if PendOf(o) == Pend(t, k) then 1 else 0 }

  // ----- the call ledger -----

  function CountOne(e: Event, t: TxnId, k: nat): Counts {
    Counts(if IsToken(e.msg, t, k) then 1 else 0, if IsEarly(e.msg, t, k) then 1 else 0,
           if IsJobFor(e.msg, t, k) then 1 else 0, if IsPendingCb(e.msg, t, k) then 1 else 0)
  }

  function CountW(t: TxnId, k: nat): Event -> Counts { (e: Event) => CountOne(e, t, k) }

  /** What the events in flight say about the call (t, k). */
  function Count(net: seq<Event>, t: TxnId, k: nat): Counts { Tally(net, CountW(t, k)) }

  /** A call is complete, or it is in exactly one place (an event or its service's queue),
      or it waits for pending work, and then `pendings` counts that work. */
  predicate LedgerOk(task: Task, c: Counts, queued: int, queuedJobs: int, ops: int) {
    && c.token + queued + (if task.pendings > 0 then 1 else 0) == (if task.Complete() then 0 else 1)
    && task.pendings == c.job + queuedJobs + ops
    && (c.pendCb > 0 ==> !task.Complete() && c.early + queued == 0)
  }

  function QueueOf(l: Local, svc: ServiceId): seq<SrvTask> {
    if svc in l.svcs then l.svcs[svc].queue.Pending() else []
  }

  predicate TaskOk(s: State, t: TxnId, k: nat)
    requires t in s.local.txns && k < |s.local.txns[t].tasks|
  {
    var task := s.local.txns[t].tasks[k];
    var q := QueueOf(s.local, task.svc);
    LedgerOk(task, Count(s.net, t, k), Sum(q, QueuedW(t, k)), Sum(q, QueuedJobW(t, k)), Sum(s.local.ops, OpW(t, k)))
  }

  ghost predicate TasksOk(s: State) {
    forall t, k | t in s.local.txns && 0 <= k < |s.local.txns[t].tasks| :: TaskOk(s, t, k)
  }

  /** A call's pending notice is never behind its completion. */
  ghost predicate OrderOk(net: seq<Event>) {
    forall i, j, t, k | 0 <= i < j < |net| ::
      !(IsFinish(net[i].msg, t, k) && IsPendingCb(net[j].msg, t, k))
  }

  // ----- well-formedness -----

  predicate Rw(k: Kind) { k == Read || k == Write }

  /** The kind the call was made with. */
  predicate OfKind(l: Local, t: TxnId, k: nat, kind: Kind) {
    t in l.txns && k < |l.txns[t].tasks| && l.txns[t].tasks[k].kind == kind
  }

  predicate Names(l: Local, t: TxnId, k: nat, svc: ServiceId) {
    t in l.txns && k < |l.txns[t].tasks| && l.txns[t].tasks[k].svc == svc && svc in l.svcs
  }

  /** The engine a service call runs on. */
  function Exec(cfg: Config, l: Local, t: TxnId, k: nat): Engine
    requires t in l.txns && k < |l.txns[t].tasks|
  {
    Target(cfg, l.txns[t].home, l.txns[t].tasks[k].bidx)
  }

  predicate JobOk(cfg: Config, l: Local, svc: ServiceId, job: Job) {
    && svc in l.svcs && Rw(job.kind)
    && (job.pend.Pend? ==>
          && Names(l, job.pend.txn, job.pend.task, svc)
          && job.bidx == 0 && job.interval == 0
          && job.origin == Exec(cfg, l, job.pend.txn, job.pend.task))
  }

  predicate MsgOk(cfg: Config, l: Local, e: Event) {
    match e.msg
    case IoCall(t, k, svc, kind, bidx) =>
      && Names(l, t, k, svc) && OfKind(l, t, k, kind) && Rw(kind) && e.src == l.txns[t].home && e.dst == MASTER
      && bidx == l.txns[t].tasks[k].bidx
    case TaskRun(t, k, svc, kind, caller) =>
      && Names(l, t, k, svc) && OfKind(l, t, k, kind) && Rw(kind) && e.src == MASTER && caller == l.txns[t].home
      && e.dst == Exec(cfg, l, t, k)
    case TaskCb(t, k, svc, kind, status, slot) =>
      && Names(l, t, k, svc) && OfKind(l, t, k, kind) && e.dst == l.txns[t].home && Rw(kind)
      && status in {TaskDone, TaskPending, TaskBusy}
      && (status != TaskBusy ==> e.src == Exec(cfg, l, t, k))
    case Done(t, svc, kind, resume, slot) =>
      && svc in l.svcs && Rw(kind) && e.dst == MASTER && t < l.nextTxn
      && (t in l.txns ==> e.src == l.txns[t].home)
    case WorkflowRun(t) => t < l.nextTxn && (t in l.txns ==> e.dst == l.txns[t].home)
    case TimerEmit(svc, job) => e.dst == MASTER && e.src == job.origin && JobOk(cfg, l, svc, job)
    case TimerRun(svc, job, ok) =>
      && e.src == MASTER && e.dst == (if ok then Target(cfg, job.origin, job.bidx) else job.origin)
      && JobOk(cfg, l, svc, job)
    case TimerDone(svc, job, ok) => svc in l.svcs && Rw(job.kind) && e.dst == MASTER
  }

  predicate ElemOk(cfg: Config, l: Local, svc: ServiceId, e: SrvTask) {
    match e.body
    case ApiTask(src, bidx, t, k) =>
      && Names(l, t, k, svc) && OfKind(l, t, k, e.kind)
      && src == l.txns[t].home && bidx == l.txns[t].tasks[k].bidx
    case TimerTask(src, job) => src == job.origin && JobOk(cfg, l, svc, job) && e.kind == job.kind
  }

  predicate OpOk(cfg: Config, l: Local, o: Op) {
    match o
    case EpCall(engine, svc, pend) =>
      && pend.Pend? && Names(l, pend.txn, pend.task, svc)
      && engine == Exec(cfg, l, pend.txn, pend.task)
    case Armed(engine, svc, job) => engine == job.origin && JobOk(cfg, l, svc, job)
  }

  ghost predicate TableOk(l: Local, t: Txn) {
    && Counted(t)
    && forall k :: 0 <= k < |t.tasks| ==>
         t.tasks[k].svc in l.svcs && Rw(t.tasks[k].kind) && t.tasks[k].status != TaskPending
  }

  ghost predicate TxnOk(l: Local, t: TxnId)
    requires t in l.txns
  {
    t < l.nextTxn && TableOk(l, l.txns[t])
  }

  ghost predicate WellFormed(cfg: Config, s: State) {
    && (forall v :: v in s.local.svcs ==> s.local.svcs[v].Valid())
    && (forall t :: t in s.local.txns ==> TxnOk(s.local, t))
    && (forall e :: e in s.net ==> MsgOk(cfg, s.local, e))
    && (forall v, e :: v in s.local.svcs && e in s.local.svcs[v].queue.Pending() ==> ElemOk(cfg, s.local, v, e))
    && (forall o :: o in s.local.ops ==> OpOk(cfg, s.local, o))
  }

  /** The ledger of all service calls. */
  ghost predicate Ledger(cfg: Config, s: State) {
    WellFormed(cfg, s) && TasksOk(s) && OrderOk(s.net)
  }

  // ----- slots -----

  function Held(net: seq<Event>, svc: ServiceId, k: Kind): int { Sum(net, SlotW(svc, k)) }

  /** Reader-writer exclusion and slot conservation of one service. */
  ghost predicate SlotsOk(s: State, svc: ServiceId)
    requires svc in s.local.svcs
  {
    Consistent(s.local.svcs[svc], Held(s.net, svc, Read), Held(s.net, svc, Write))
  }

  ghost predicate Slots(s: State) {
    forall v :: v in s.local.svcs ==> SlotsOk(s, v) && Saturated(s.local.svcs[v])
  }

  // ----- counting -----

  lemma {:induction false} CountAppend(net: seq<Event>, sent: seq<Event>, t: TxnId, k: nat)
    ensures Count(net + sent, t, k) == Plus(Count(net, t, k), Count(sent, t, k))
  {
    TallyAppend(net, sent, CountW(t, k));
  }

  lemma {:induction false} CountSingle(e: Event, t: TxnId, k: nat)
    ensures Count([e], t, k) == CountOne(e, t, k)
  {
    TallyOne(e, CountW(t, k));
  }

  lemma {:induction false} CountRemove(net: seq<Event>, i: nat, t: TxnId, k: nat)
    requires i < |net|
    ensures Count(net, t, k) == Plus(Count(Remove(net, i), t, k), CountOne(net[i], t, k))
  {
    TallyRemove(net, i, CountW(t, k));
  }

  lemma {:induction false} CountNone(sent: seq<Event>, t: TxnId, k: nat)
    requires forall e :: e in sent ==> CountOne(e, t, k) == Zero()
    ensures Count(sent, t, k) == Zero()
  {
    TallyNone(sent, CountW(t, k));
  }

  /** No count is negative, and an event in flight is counted. */
  lemma {:induction false} CountMember(net: seq<Event>, t: TxnId, k: nat)
    ensures Ordered(Count(net, t, k))
    ensures forall e :: e in net ==> Within(CountOne(e, t, k), Count(net, t, k))
  {
    TallyMember(net, CountW(t, k));
  }
}
