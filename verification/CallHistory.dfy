/** Calls as they were made, and their answers. */
module CallHistory {
  // The task table against the history of the run: which calls user code made, and what became
  // of each.

  import opened Seqs
  import opened QueueSpec
  import opened ServiceSpec
  import opened TxnSpec
  import opened WorkflowLaws
  import opened Protocol
  import opened Invariants
  import opened LedgerSteps
  import opened ProtocolSteps
  import opened Runs
  import opened Tokens

  /** The call as its task table entry records it. */
  function CallOf(x: Task): Call { Call(x.svc, x.kind, x.bidx, x.hasCb) }

  /** The table records exactly these calls, in this order. */
  predicate Records(tasks: seq<Task>, calls: seq<Call>) {
    |tasks| == |calls| && forall k :: 0 <= k < |tasks| ==> CallOf(tasks[k]) == calls[k]
  }

  /** The calls that user code of transaction `t` makes in the step: the next module, or the
      callback of a call that completes. */
  function MadeIn(s: State, step: Step, t: TxnId): seq<Call> {
    if !step.Deliver? || step.pos >= |s.net| || t !in s.local.txns then []
    else
      var (m, x) := (s.net[step.pos].msg, s.local.txns[t]);
      if m == WorkflowRun(t) && RunsModule(x) then step.choice.conduct.calls
      else if Finishes(m) && m.txn == t && m.task < |x.tasks| && x.tasks[m.task].hasCb then step.choice.conduct.calls
      else []
  }

  /** All calls transaction `t` made in the first `n` steps. */
  function Made(trace: seq<State>, steps: seq<Step>, n: nat, t: TxnId): seq<Call>
    requires n <= |steps| < |trace|
  {
    if n == 0 then [] else Made(trace, steps, n - 1, t) + MadeIn(trace[n - 1], steps[n - 1], t)
  }

  /** The status of call (t, k) after the step, if it was `was` before. */
  function StatusIn(s: State, step: Step, t: TxnId, k: nat, was: TaskStatus): TaskStatus {
    if step.Deliver? && step.pos < |s.net| && IsFinish(s.net[step.pos].msg, t, k) then s.net[step.pos].msg.status
    else was
  }

  // ----- one step -----

  /** Old entries keep their call and take the status delivered; new ones are the calls made. */
  ghost predicate TableStep(s: State, step: Step, t: TxnId, x: Txn, y: Txn) {
    var made := MadeIn(s, step, t);
    && |y.tasks| == |x.tasks| + |made|
    && (forall k :: 0 <= k < |x.tasks| ==> CallOf(y.tasks[k]) == CallOf(x.tasks[k]))
    && (forall k :: 0 <= k < |x.tasks| ==> y.tasks[k].status == StatusIn(s, step, t, k, x.tasks[k].status))
    && (forall k :: 0 <= k < |made| ==> CallOf(y.tasks[|x.tasks| + k]) == made[k])
    && (forall k :: |x.tasks| <= k < |y.tasks| ==> y.tasks[k].status == TaskRunning)
  }

  lemma PendingsTableStep(s: State, step: Step, t: TxnId, x: Txn, k: nat, n: int)
    requires k < |x.tasks| && MadeIn(s, step, t) == []
    requires forall j, was :: StatusIn(s, step, t, j, was) == was
    ensures TableStep(s, step, t, x, AddPendings(x, k, n))
  {
  }

  lemma CallbackTable(cfg: Config, s: State, i: nat, c: Choice)
    requires i < |s.net| && s.net[i].msg.TaskCb? && Handle(cfg, s.local, s.net[i], c).Effect?
    ensures var t := s.net[i].msg.txn;
      && t in s.local.txns
      && TableStep(s, Deliver(i, c), t, s.local.txns[t], Handle(cfg, s.local, s.net[i], c).local.txns[t])
  {
  }

  lemma WorkflowTable(cfg: Config, s: State, i: nat, c: Choice)
    requires Flows(s) && i < |s.net| && s.net[i].msg.WorkflowRun? && Handle(cfg, s.local, s.net[i], c).Effect?
    ensures var (t, l) := (s.net[i].msg.txn, Handle(cfg, s.local, s.net[i], c).local);
      && t in s.local.txns
      && (t in l.txns ==> TableStep(s, Deliver(i, c), t, s.local.txns[t], l.txns[t]))
  {
    var x := s.local.txns[s.net[i].msg.txn];
    StepFollows(x, c.conduct, 0);
    assert Run(x, c.conduct, 0).txn.tasks == AddCalls(x, CallsOf(x, c.conduct)).tasks;
  }

  lemma OtherTable(cfg: Config, s: State, i: nat, c: Choice, t: TxnId)
    requires i < |s.net| && !Concerns(s.net[i].msg, t) && Handle(cfg, s.local, s.net[i], c).Effect? && t in s.local.txns
    ensures var l := Handle(cfg, s.local, s.net[i], c).local;
      t in l.txns && TableStep(s, Deliver(i, c), t, s.local.txns[t], l.txns[t])
  {
    var (e, step) := (s.net[i], Deliver(i, c));
    match e.msg
    case TaskRun(id, k, _, _, _) => if id == t { PendingsTableStep(s, step, t, s.local.txns[t], k, |c.started|); }
    case TimerRun(_, job, _) =>
      if job.pend.Pend? && job.pend.txn == t {
        PendingsTableStep(s, step, t, s.local.txns[t], job.pend.task, |c.started| - 1);
      }
    case _ => TxnsKept(cfg, s.local, e, c, t);
  }

  lemma DeliveryTable(cfg: Config, s: State, i: nat, c: Choice, t: TxnId)
    requires Flows(s) && i < |s.net| && Handle(cfg, s.local, s.net[i], c).Effect? && t in s.local.txns
    ensures var l := Handle(cfg, s.local, s.net[i], c).local;
      t in l.txns ==> TableStep(s, Deliver(i, c), t, s.local.txns[t], l.txns[t])
  {
    if !Concerns(s.net[i].msg, t) {
      OtherTable(cfg, s, i, c, t);
    } else if s.net[i].msg.TaskCb? {
      CallbackTable(cfg, s, i, c);
    } else {
      WorkflowTable(cfg, s, i, c);
    }
  }

  lemma EnvironmentTable(cfg: Config, s: State, step: Step, s': State, t: TxnId)
    requires Next(cfg, s, step, s') && !step.Deliver? && t in s.local.txns && t < s.local.nextTxn
    ensures t in s'.local.txns && TableStep(s, step, t, s.local.txns[t], s'.local.txns[t])
  {
    if step.EpReply? && s.local.ops[step.op].pend.txn == t {
      PendingsTableStep(s, step, t, s.local.txns[t], s.local.ops[step.op].pend.task, |step.started| - 1);
    }
  }

  /** What one step does to the table of transaction `t`. */
  ghost predicate TablesAgree(s: State, step: Step, s': State, t: TxnId) {
    && s.local.nextTxn <= s'.local.nextTxn
    && (t in s.local.txns ==> t < s.local.nextTxn)
    && (t in s'.local.txns ==>
          if t in s.local.txns then TableStep(s, step, t, s.local.txns[t], s'.local.txns[t])
          else t == s.local.nextTxn && s'.local.txns[t].tasks == [])
  }

  lemma NextTable(cfg: Config, s: State, step: Step, s': State, t: TxnId)
    requires Inv(cfg, s) && Next(cfg, s, step, s')
    ensures TablesAgree(s, step, s', t)
  {
    NumbersGrow(cfg, s, step, s');
    if t in s.local.txns {
      assert TxnOk(s.local, t);
      if step.Deliver? {
        DeliveryTable(cfg, s, step.pos, step.choice, t);
      } else {
        EnvironmentTable(cfg, s, step, s', t);
      }
    } else if t in s'.local.txns {
      Born(cfg, s, step, s', t);
    }
  }

  // ----- calls as they were made -----

  lemma RecordsMore(s: State, step: Step, t: TxnId, x: Txn, y: Txn, calls: seq<Call>)
    requires TableStep(s, step, t, x, y) && Records(x.tasks, calls)
    ensures Records(y.tasks, calls + MadeIn(s, step, t))
  {
    var made := MadeIn(s, step, t);
    forall k | 0 <= k < |y.tasks| ensures CallOf(y.tasks[k]) == (calls + made)[k] {
      if k >= |x.tasks| { assert y.tasks[k] == y.tasks[|x.tasks| + (k - |x.tasks|)]; }
    }
  }

  lemma {:induction false} RecordsMade(trace: seq<State>, steps: seq<Step>, n: nat, t: TxnId)
    requires n <= |steps| < |trace| && t !in trace[0].local.txns
    requires forall i: nat :: i < n ==> TablesAgree(trace[i], steps[i], trace[i + 1], t)
    ensures t in trace[n].local.txns ==> Records(trace[n].local.txns[t].tasks, Made(trace, steps, n, t))
    ensures t >= trace[n].local.nextTxn ==> Made(trace, steps, n, t) == []
  {
    if n > 0 {
      var (s, s') := (trace[n - 1], trace[n]);
      RecordsMade(trace, steps, n - 1, t);
      assert TablesAgree(s, steps[n - 1], s', t);
      if t in s.local.txns && t in s'.local.txns {
        RecordsMore(s, steps[n - 1], t, s.local.txns[t], s'.local.txns[t], Made(trace, steps, n - 1, t));
      }
    }
  }

  lemma RunTables(cfg: Config, trace: seq<State>, steps: seq<Step>, n: nat, t: TxnId)
    requires IsRun(cfg, trace, steps) && n < |steps|
    ensures TablesAgree(trace[n], steps[n], trace[n + 1], t)
  {
    RunInv(cfg, trace, steps, n);
    assert Next(cfg, trace[n], steps[n], trace[n + 1]);
    NextTable(cfg, trace[n], steps[n], trace[n + 1], t);
  }

  /** The task table of a live transaction is the calls its user code made, service, kind, engine
      and callback as asked, in the order they were made. */
  lemma CallsAsMade(cfg: Config, trace: seq<State>, steps: seq<Step>, n: nat, t: TxnId)
    requires IsRun(cfg, trace, steps) && n < |trace| && t in trace[n].local.txns
    ensures Records(trace[n].local.txns[t].tasks, Made(trace, steps, n, t))
  {
    forall i: nat | i < n ensures TablesAgree(trace[i], steps[i], trace[i + 1], t) {
      RunTables(cfg, trace, steps, i, t);
    }
    RecordsMade(trace, steps, n, t);
  }

  /** The event carries call (t, k). */
  predicate Carries(m: Msg, t: TxnId, k: nat) {
    (m.IoCall? || m.TaskRun? || m.TaskCb?) && m.txn == t && m.task == k
  }

  /** Every event and queued task of a call carries it as it was made: the service, the kind, and
      the engine asked for. */
  lemma CarriedAsMade(cfg: Config, trace: seq<State>, steps: seq<Step>, n: nat, t: TxnId, k: nat)
    requires IsRun(cfg, trace, steps) && n < |trace| && t in trace[n].local.txns
    ensures forall e :: e in trace[n].net && Carries(e.msg, t, k) ==>
      && k < |Made(trace, steps, n, t)|
      && var call := Made(trace, steps, n, t)[k];
         && e.msg.svc == call.svc && e.msg.kind == call.kind
         && (e.msg.IoCall? ==> e.msg.bidx == call.bidx)
    ensures forall v, x :: x in QueueOf(trace[n].local, v) && QueuedW(t, k)(x) == 1 ==>
        && k < |Made(trace, steps, n, t)|
        && var call := Made(trace, steps, n, t)[k];
           v == call.svc && x.kind == call.kind && x.body.bidx == call.bidx
  {
    var s := trace[n];
    CallsAsMade(cfg, trace, steps, n, t);
    RunInv(cfg, trace, steps, n);
    assert forall e :: e in s.net ==> MsgOk(cfg, s.local, e);
    assert forall v, x :: x in QueueOf(s.local, v) ==> ElemOk(cfg, s.local, v, x);
  }

  /** While a call that asked to write holds a slot of its service, nothing else does. */
  lemma WriterAlone(cfg: Config, trace: seq<State>, steps: seq<Step>, n: nat, e: Event)
    requires IsRun(cfg, trace, steps) && n < |trace| && e in trace[n].net
    requires e.msg.TaskRun? || (e.msg.TaskCb? && e.msg.slot)
    ensures var (s, m) := (trace[n], e.msg);
      && m.txn in s.local.txns && m.task < |Made(trace, steps, n, m.txn)|
      && var call := Made(trace, steps, n, m.txn)[m.task];
         && (call.kind == Write ==> Held(s.net, call.svc, Read) == 0 && Held(s.net, call.svc, Write) == 1)
         && (call.kind == Read ==> Held(s.net, call.svc, Read) >= 1 && Held(s.net, call.svc, Write) == 0)
  {
    var (s, m) := (trace[n], e.msg);
    assert MsgOk(cfg, s.local, e) by { RunInv(cfg, trace, steps, n); }
    CallsAsMade(cfg, trace, steps, n, m.txn);
    ReaderWriterExclusion(cfg, trace, steps, n, m.svc);
    SumBounds(s.net, SlotW(m.svc, m.kind));
    assert SlotW(m.svc, m.kind)(e) == 1;
  }

  // ----- answers as they were delivered -----

  /** A call that is complete after a step of a run has the status it had, or the one the step
      delivered; a completion is never delivered to a complete call. */
  lemma StatusRecorded(cfg: Config, trace: seq<State>, steps: seq<Step>, n: nat, t: TxnId, k: nat)
    requires IsRun(cfg, trace, steps) && n < |steps| && t in trace[n].local.txns && t in trace[n + 1].local.txns
    requires k < |trace[n].local.txns[t].tasks|
    ensures var (s, step) := (trace[n], steps[n]);
      var (x, y) := (s.local.txns[t].tasks, trace[n + 1].local.txns[t].tasks);
      && k < |y|
      && (x[k].Complete() ==> y[k].status == x[k].status)
      && y[k].status == StatusIn(s, step, t, k, x[k].status)
  {
    RunTables(cfg, trace, steps, n, t);
    if steps[n].Deliver? && IsFinish(trace[n].net[steps[n].pos].msg, t, k) {
      assert Deliverable(trace[n].net, steps[n].pos) by { assert Next(cfg, trace[n], steps[n], trace[n + 1]); }
      CompletedOnce(cfg, trace, steps, n, steps[n].pos, t, k);
    }
  }

  /** Once complete, a call keeps its status as long as its transaction lives. */
  lemma {:induction false} StatusFinal(
      cfg: Config, trace: seq<State>, steps: seq<Step>, n: nat, m: nat, t: TxnId, k: nat)
    requires IsRun(cfg, trace, steps) && n <= m < |trace| && t in trace[n].local.txns && t in trace[m].local.txns
    requires k < |trace[n].local.txns[t].tasks| && trace[n].local.txns[t].tasks[k].Complete()
    ensures k < |trace[m].local.txns[t].tasks|
    ensures trace[m].local.txns[t].tasks[k].status == trace[n].local.txns[t].tasks[k].status
    decreases m
  {
    if n < m {
      LivesBetween(cfg, trace, steps, n, m, t);
      StatusFinal(cfg, trace, steps, n, m - 1, t, k);
      StatusRecorded(cfg, trace, steps, m - 1, t, k);
    }
  }

  /** The step delivers the call to the master, whose queue has no room for its kind. */
  predicate Refused(s: State, step: Step, t: TxnId, k: nat) {
    && step.Deliver? && step.pos < |s.net| && s.net[step.pos].msg.IoCall?
    && s.net[step.pos].msg.txn == t && s.net[step.pos].msg.task == k
    && t in s.local.txns && k < |s.local.txns[t].tasks|
    && var call := CallOf(s.local.txns[t].tasks[k]);
       && call.svc in s.local.svcs
       && var q := s.local.svcs[call.svc].queue;
          |q.Target(call.kind)| >= q.maxSlots
  }

  predicate IsBusy(m: Msg, t: TxnId, k: nat) { IsFinish(m, t, k) && m.status == TaskBusy }

  predicate BusyInFlight(net: seq<Event>, t: TxnId, k: nat) { exists e :: e in net && IsBusy(e.msg, t, k) }

  lemma ScheduledNoAnswer(cfg: Config, v: ServiceId, batch: seq<SrvTask>)
    ensures forall e :: e in Map(ToRun(cfg, v), batch) ==> !e.msg.TaskCb? && !e.msg.IoCall?
  {
    forall e | e in Map(ToRun(cfg, v), batch) ensures !e.msg.TaskCb? && !e.msg.IoCall? {
      var j :| 0 <= j < |batch| && Map(ToRun(cfg, v), batch)[j] == e;
    }
  }

  lemma IoCallBusy(cfg: Config, s: State, i: nat, t: TxnId, k: nat)
    requires i < |s.net| && s.net[i].msg.IoCall? && MsgOk(cfg, s.local, s.net[i])
    requires HandleIoCall(cfg, s.local, s.net[i]).Effect?
    ensures BusyInFlight(HandleIoCall(cfg, s.local, s.net[i]).sent, t, k)
      <==> Names(s.local, t, k, s.net[i].msg.svc) && s.net[i].msg.txn == t && s.net[i].msg.task == k
           && s.local.svcs[s.net[i].msg.svc].queue.Full(s.net[i].msg.kind)
  {
    var e := s.net[i];
    var m := e.msg;
    var q := s.local.svcs[m.svc].queue;
    if q.Full(m.kind) {
      var r := Event(MASTER, e.src, TaskCb(m.txn, m.task, m.svc, m.kind, TaskBusy, false));
      assert r in HandleIoCall(cfg, s.local, e).sent && IsBusy(r.msg, m.txn, m.task);
    } else {
      ScheduledNoAnswer(cfg, m.svc, Drain(s.local.svcs[m.svc].(
        queue := Push(q, Elem(m.kind, ApiTask(e.src, m.bidx, m.txn, m.task))))).1);
    }
  }

  /** No other handler sends a busy answer. */
  lemma NeverBusy(cfg: Config, s: State, i: nat, c: Choice, t: TxnId, k: nat)
    requires i < |s.net| && !s.net[i].msg.IoCall? && Handle(cfg, s.local, s.net[i], c).Effect?
    ensures !BusyInFlight(Handle(cfg, s.local, s.net[i], c).sent, t, k)
  {
    var (e, l) := (s.net[i], s.local);
    match e.msg
    case TimerEmit(svc, job) =>
      var q := l.svcs[svc].queue;
      if !q.Full(job.kind) {
        ScheduledNoAnswer(cfg, svc, Drain(l.svcs[svc].(queue := Push(q, Elem(job.kind, TimerTask(e.src, job))))).1);
      }
    case Done(_, svc, _, _, slot) =>
      ScheduledNoAnswer(cfg, svc, Drain(if slot then SetComplete(l.svcs[svc]) else l.svcs[svc]).1);
    case TimerDone(svc, _, ok) =>
      ScheduledNoAnswer(cfg, svc, Drain(if ok then SetComplete(l.svcs[svc]) else l.svcs[svc]).1);
    case _ =>
  }

  /** A busy answer to call (t, k) comes into flight exactly by a refusal, and goes by delivery. */
  predicate BusyDelivered(s: State, step: Step, t: TxnId, k: nat) {
    step.Deliver? && step.pos < |s.net| && IsBusy(s.net[step.pos].msg, t, k)
  }

  predicate BusyMoves(s: State, step: Step, s': State, t: TxnId, k: nat) {
    && (Refused(s, step, t, k) ==> BusyInFlight(s'.net, t, k))
    && (BusyInFlight(s'.net, t, k) ==> BusyInFlight(s.net, t, k) || Refused(s, step, t, k))
    && (BusyInFlight(s.net, t, k) ==> BusyInFlight(s'.net, t, k) || BusyDelivered(s, step, t, k))
    && (BusyDelivered(s, step, t, k) ==> t in s.local.txns && k < |s.local.txns[t].tasks|)
  }

  lemma BusyStep(cfg: Config, s: State, step: Step, s': State, t: TxnId, k: nat)
    requires Inv(cfg, s) && Next(cfg, s, step, s')
    ensures BusyMoves(s, step, s', t, k)
  {
    if step.Deliver? {
      assert MsgOk(cfg, s.local, s.net[step.pos]);
      DeliveryBusy(cfg, s, step.pos, step.choice, t, k);
    } else {
      var eff := Perform(cfg, s, step).0;
      assert s'.net == s.net + eff.sent;
      assert forall e :: e in eff.sent ==> !IsBusy(e.msg, t, k);
    }
  }

  lemma DeliveryBusy(cfg: Config, s: State, i: nat, c: Choice, t: TxnId, k: nat)
    requires Inv(cfg, s) && i < |s.net| && Handle(cfg, s.local, s.net[i], c).Effect?
    ensures var (sent, net) := (Handle(cfg, s.local, s.net[i], c).sent, s.net);
      && (Refused(s, Deliver(i, c), t, k) ==> BusyInFlight(Remove(net, i) + sent, t, k))
      && (BusyInFlight(Remove(net, i) + sent, t, k) ==> BusyInFlight(net, t, k) || Refused(s, Deliver(i, c), t, k))
      && (BusyInFlight(net, t, k) ==> BusyInFlight(Remove(net, i) + sent, t, k) || IsBusy(net[i].msg, t, k))
  {
    var sent := Handle(cfg, s.local, s.net[i], c).sent;
    BusySent(cfg, s, i, c, t, k);
    BusyKept(s.net, i, sent, t, k);
  }

  /** Only a refusal sends the busy answer. */
  lemma BusySent(cfg: Config, s: State, i: nat, c: Choice, t: TxnId, k: nat)
    requires Inv(cfg, s) && i < |s.net| && Handle(cfg, s.local, s.net[i], c).Effect?
    ensures BusyInFlight(Handle(cfg, s.local, s.net[i], c).sent, t, k) <==> Refused(s, Deliver(i, c), t, k)
  {
    assert MsgOk(cfg, s.local, s.net[i]);
    if s.net[i].msg.IoCall? {
      IoCallBusy(cfg, s, i, t, k);
    } else {
      NeverBusy(cfg, s, i, c, t, k);
    }
  }

  lemma BusyKept(net: seq<Event>, i: nat, sent: seq<Event>, t: TxnId, k: nat)
    requires i < |net|
    ensures BusyInFlight(sent, t, k) ==> BusyInFlight(Remove(net, i) + sent, t, k)
    ensures BusyInFlight(Remove(net, i) + sent, t, k) ==> BusyInFlight(net, t, k) || BusyInFlight(sent, t, k)
    ensures BusyInFlight(net, t, k) ==> BusyInFlight(Remove(net, i) + sent, t, k) || IsBusy(net[i].msg, t, k)
  {
    var r := Remove(net, i) + sent;
    if BusyInFlight(sent, t, k) {
      var e :| e in sent && IsBusy(e.msg, t, k);
      assert e in r;
    }
    if BusyInFlight(r, t, k) {
      var e :| e in r && IsBusy(e.msg, t, k);
      assert e in net || e in sent;
    }
    if BusyInFlight(net, t, k) {
      var e :| e in net && IsBusy(e.msg, t, k);
      var j :| 0 <= j < |net| && net[j] == e;
      if j != i { assert r[if j < i then j else j - 1] == e && e in r; }
    }
  }

  // ----- busy exactly when refused -----

  /** So far the call was refused, or not. */
  ghost predicate WasRefused(trace: seq<State>, steps: seq<Step>, n: nat, t: TxnId, k: nat)
    requires n <= |steps| < |trace|
  {
    exists i: nat :: i < n && Refused(trace[i], steps[i], t, k)
  }

  /** A refused call has its busy answer in flight or recorded, any other has not. */
  ghost predicate BusyOk(s: State, refused: bool, t: TxnId, k: nat) {
    t in s.local.txns ==>
      var x := s.local.txns[t];
      var recorded := k < |x.tasks| && x.tasks[k].status == TaskBusy;
      refused <==> BusyInFlight(s.net, t, k) || recorded
  }

  lemma NextBusyOk(s: State, step: Step, s': State, refused: bool, t: TxnId, k: nat)
    requires BusyMoves(s, step, s', t, k) && TablesAgree(s, step, s', t) && BusyOk(s, refused, t, k)
    requires t in s.local.txns && t in s'.local.txns
    requires k < |s.local.txns[t].tasks| && s.local.txns[t].tasks[k].Complete() ==>
      s'.local.txns[t].tasks[k].status == s.local.txns[t].tasks[k].status
    ensures BusyOk(s', refused || Refused(s, step, t, k), t, k)
  {
    if BusyDelivered(s, step, t, k) { assert s.net[step.pos] in s.net; }
    if BusyInFlight(s'.net, t, k) && !BusyInFlight(s.net, t, k) { assert Refused(s, step, t, k); }
  }

  /** Nothing names a transaction that has not arrived. */
  lemma NewBusyOk(cfg: Config, s: State, t: TxnId, k: nat)
    requires Inv(cfg, s) && t in s.local.txns && s.local.txns[t].tasks == []
    ensures BusyOk(s, false, t, k)
  {
    forall e | e in s.net ensures !IsBusy(e.msg, t, k) { assert MsgOk(cfg, s.local, e); }
  }

  lemma StepBusyOk(cfg: Config, trace: seq<State>, steps: seq<Step>, n: nat, refused: bool, t: TxnId, k: nat)
    requires IsRun(cfg, trace, steps) && n < |steps| && t in trace[n].local.txns && t in trace[n + 1].local.txns
    requires BusyOk(trace[n], refused, t, k)
    ensures BusyOk(trace[n + 1], refused || Refused(trace[n], steps[n], t, k), t, k)
  {
    assert BusyMoves(trace[n], steps[n], trace[n + 1], t, k) by {
      RunInv(cfg, trace, steps, n);
      assert Next(cfg, trace[n], steps[n], trace[n + 1]);
      BusyStep(cfg, trace[n], steps[n], trace[n + 1], t, k);
    }
    RunTables(cfg, trace, steps, n, t);
    if k < |trace[n].local.txns[t].tasks| { StatusRecorded(cfg, trace, steps, n, t, k); }
    NextBusyOk(trace[n], steps[n], trace[n + 1], refused, t, k);
  }

  lemma RefusedLives(trace: seq<State>, steps: seq<Step>, n: nat, t: TxnId, k: nat)
    requires n < |steps| < |trace|
    ensures WasRefused(trace, steps, n + 1, t, k) <==>
      WasRefused(trace, steps, n, t, k) || Refused(trace[n], steps[n], t, k)
  {
  }

  /** Before a transaction arrives none of its calls is refused. */
  lemma NotYetRefused(cfg: Config, trace: seq<State>, steps: seq<Step>, n: nat, t: TxnId, k: nat)
    requires IsRun(cfg, trace, steps) && n <= |steps| && t >= trace[n].local.nextTxn
    ensures !WasRefused(trace, steps, n, t, k)
  {
    if WasRefused(trace, steps, n, t, k) {
      var i: nat :| i < n && Refused(trace[i], steps[i], t, k);
      RunInv(cfg, trace, steps, i);
      assert TxnOk(trace[i].local, t);
      NumbersMount(cfg, trace, steps, i, n);
    }
  }

  lemma {:induction false} RunBusyOk(cfg: Config, trace: seq<State>, steps: seq<Step>, n: nat, t: TxnId, k: nat)
    requires IsRun(cfg, trace, steps) && n < |trace|
    ensures BusyOk(trace[n], WasRefused(trace, steps, n, t, k), t, k)
  {
    if n > 0 && t in trace[n].local.txns {
      if t in trace[n - 1].local.txns {
        RunBusyOk(cfg, trace, steps, n - 1, t, k);
        StepBusyOk(cfg, trace, steps, n - 1, WasRefused(trace, steps, n - 1, t, k), t, k);
        RefusedLives(trace, steps, n - 1, t, k);
      } else {
        ArrivedBusyOk(cfg, trace, steps, n - 1, t, k);
      }
    }
  }

  lemma ArrivedBusyOk(cfg: Config, trace: seq<State>, steps: seq<Step>, n: nat, t: TxnId, k: nat)
    requires IsRun(cfg, trace, steps) && n < |steps| && t !in trace[n].local.txns && t in trace[n + 1].local.txns
    ensures BusyOk(trace[n + 1], WasRefused(trace, steps, n + 1, t, k), t, k)
  {
    RunTables(cfg, trace, steps, n, t);
    NotYetRefused(cfg, trace, steps, n, t, k);
    RefusedLives(trace, steps, n, t, k);
    RunInv(cfg, trace, steps, n + 1);
    NewBusyOk(cfg, trace[n + 1], t, k);
  }

  /** A complete call is recorded busy if and only if it reached the master when its service's
      queue was full for its kind; else it is recorded done. */
  lemma BusyExactlyRefused(cfg: Config, trace: seq<State>, steps: seq<Step>, n: nat, t: TxnId, k: nat)
    requires IsRun(cfg, trace, steps) && n < |trace| && t in trace[n].local.txns
    requires k < |trace[n].local.txns[t].tasks| && trace[n].local.txns[t].tasks[k].Complete()
    ensures trace[n].local.txns[t].tasks[k].status == TaskBusy <==> WasRefused(trace, steps, n, t, k)
  {
    RunBusyOk(cfg, trace, steps, n, t, k);
    CallAccounted(cfg, trace, steps, n, t, k);
    CountMember(trace[n].net, t, k);
    forall e | e in trace[n].net ensures !IsBusy(e.msg, t, k) {
      assert Within(CountOne(e, t, k), Count(trace[n].net, t, k));
    }
  }

  // ----- calls leave in the order they were made -----

  /** The calls of transaction `t` still on their way to the master are in the order of its table. */
  ghost predicate IoInOrder(net: seq<Event>, t: TxnId) {
    forall i, j | 0 <= i < j < |net| ::
      net[i].msg.IoCall? && net[j].msg.IoCall? && net[i].msg.txn == net[j].msg.txn == t ==>
        net[i].msg.task < net[j].msg.task
  }

  /** The calls of `t` among the events sent are in order and not below `from`. */
  ghost predicate IoFrom(sent: seq<Event>, t: TxnId, from: nat) {
    IoInOrder(sent, t) && forall e :: e in sent && e.msg.IoCall? && e.msg.txn == t ==> e.msg.task >= from
  }

  lemma NoIo(sent: seq<Event>, t: TxnId, from: nat)
    requires forall e :: e in sent ==> !e.msg.IoCall?
    ensures IoFrom(sent, t, from)
  {
  }

  lemma CallsFrom(engine: Engine, id: TxnId, x: Txn, from: nat, rest: seq<Event>, t: TxnId)
    requires from <= |x.tasks| && forall e :: e in rest ==> !e.msg.IoCall?
    ensures IoFrom(IoCalls(engine, id, x, from) + rest, t, if t == id then from else 0)
  {
    var sent := IoCalls(engine, id, x, from) + rest;
    forall i | 0 <= i < |sent| ensures sent[i].msg.IoCall? ==> sent[i].msg.txn == id && sent[i].msg.task == from + i {
      if i >= |x.tasks| - from { assert sent[i] == rest[i - (|x.tasks| - from)]; }
    }
  }

  lemma ScheduledNoIo(cfg: Config, l: Local, e: Event, c: Choice)
    requires Handle(cfg, l, e, c).Effect? && !e.msg.TaskCb? && !e.msg.WorkflowRun?
    ensures forall x :: x in Handle(cfg, l, e, c).sent ==> !x.msg.IoCall?
  {
    match e.msg
    case IoCall(t, k, svc, kind, bidx) =>
      var q := l.svcs[svc].queue;
      if !q.Full(kind) {
        ScheduledNoAnswer(cfg, svc, Drain(l.svcs[svc].(queue := Push(q, Elem(kind, ApiTask(e.src, bidx, t, k))))).1);
      }
    case TimerEmit(svc, job) =>
      var q := l.svcs[svc].queue;
      if !q.Full(job.kind) {
        ScheduledNoAnswer(cfg, svc, Drain(l.svcs[svc].(queue := Push(q, Elem(job.kind, TimerTask(e.src, job))))).1);
      }
    case Done(_, svc, _, _, slot) =>
      ScheduledNoAnswer(cfg, svc, Drain(if slot then SetComplete(l.svcs[svc]) else l.svcs[svc]).1);
    case TimerDone(svc, _, ok) =>
      ScheduledNoAnswer(cfg, svc, Drain(if ok then SetComplete(l.svcs[svc]) else l.svcs[svc]).1);
    case _ =>
  }

  lemma IoSent(cfg: Config, l: Local, e: Event, c: Choice, t: TxnId)
    requires Handle(cfg, l, e, c).Effect?
    ensures IoFrom(Handle(cfg, l, e, c).sent, t, if Concerns(e.msg, t) && t in l.txns then |l.txns[t].tasks| else 0)
    ensures !Concerns(e.msg, t) ==>
      forall x :: x in Handle(cfg, l, e, c).sent ==> !(x.msg.IoCall? && x.msg.txn == t)
  {
    match e.msg
    case TaskCb(id, k, svc, kind, _, slot) =>
      var y := HandleTaskCb(cfg, l, e, c.conduct).local.txns[id];
      CallsFrom(e.dst, id, y, |l.txns[id].tasks|,
                [Event(e.dst, MASTER, Done(id, svc, kind, Resumes(y, k), slot))], t);
    case WorkflowRun(id) =>
      var o := Run(l.txns[id], c.conduct, 0);
      CallsFrom(e.dst, id, o.txn, |l.txns[id].tasks|,
                if o.again then [Event(e.dst, e.dst, WorkflowRun(id))] else [], t);
    case _ =>
      ScheduledNoIo(cfg, l, e, c);
      NoIo(Handle(cfg, l, e, c).sent, t, 0);
  }

  lemma IoReplace(net: seq<Event>, i: nat, sent: seq<Event>, t: TxnId, from: nat)
    requires i < |net| && IoInOrder(net, t) && IoFrom(sent, t, from)
    requires forall e :: e in sent && e.msg.IoCall? && e.msg.txn == t ==>
      forall d :: d in net && d.msg.IoCall? && d.msg.txn == t ==> d.msg.task < from
    ensures IoInOrder(Remove(net, i) + sent, t)
  {
    var r := Remove(net, i) + sent;
    forall a, b | 0 <= a < b < |r| && r[a].msg.IoCall? && r[b].msg.IoCall? && r[a].msg.txn == r[b].msg.txn == t
      ensures r[a].msg.task < r[b].msg.task
    {
      if b < |net| - 1 {
        assert r[a] == net[if a < i then a else a + 1] && r[b] == net[if b < i then b else b + 1];
      } else if a < |net| - 1 {
        assert r[a] == net[if a < i then a else a + 1] && r[a] in net;
        assert r[b] == sent[b - (|net| - 1)] && r[b] in sent;
      } else {
        assert r[a] == sent[a - (|net| - 1)] && r[b] == sent[b - (|net| - 1)];
      }
    }
  }

  lemma NextIoInOrder(cfg: Config, s: State, step: Step, s': State, t: TxnId)
    requires Inv(cfg, s) && Next(cfg, s, step, s') && IoInOrder(s.net, t)
    ensures IoInOrder(s'.net, t)
  {
    if step.Deliver? {
      var (e, c) := (s.net[step.pos], step.choice);
      IoSent(cfg, s.local, e, c, t);
      forall d | d in s.net && d.msg.IoCall? && d.msg.txn == t
        ensures t in s.local.txns && d.msg.task < |s.local.txns[t].tasks|
      {
        assert MsgOk(cfg, s.local, d);
      }
      IoReplace(s.net, step.pos, Handle(cfg, s.local, e, c).sent, t,
                if Concerns(e.msg, t) && t in s.local.txns then |s.local.txns[t].tasks| else 0);
    } else {
      var sent := Perform(cfg, s, step).0.sent;
      assert s'.net == s.net + sent && forall e :: e in sent ==> !e.msg.IoCall?;
      forall j | |s.net| <= j < |s'.net| ensures !s'.net[j].msg.IoCall? {
        assert s'.net[j] == sent[j - |s.net|] && s'.net[j] in sent;
      }
    }
  }

  /** The calls of one transaction reach the master in the order user code made them. */
  lemma {:induction false} CallsArriveInOrder(cfg: Config, trace: seq<State>, steps: seq<Step>, n: nat, t: TxnId)
    requires IsRun(cfg, trace, steps) && n < |trace|
    ensures IoInOrder(trace[n].net, t)
  {
    if n > 0 {
      CallsArriveInOrder(cfg, trace, steps, n - 1, t);
      RunInv(cfg, trace, steps, n - 1);
      NextIoInOrder(cfg, trace[n - 1], steps[n - 1], trace[n], t);
    }
  }
}
