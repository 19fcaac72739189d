/** The transaction object, the workflow step and the handlers that run on workers and
    background engines. */
module Worker {
  import opened Seqs
  import opened QueueSpec
  import opened ServiceSpec
  import opened TxnSpec
  import opened Protocol
  import opened Master
  import WorkflowLaws

  lemma AddCallsOne(t: Txn, calls: seq<Call>, c: Call)
    ensures AddCalls(t, calls + [c]) == AddCalls(AddCalls(t, calls), [c])
  {
    MapAppend(TaskOf(), calls, [c]);
    SumAppend(calls, [c], CbWeight());
    Regroup(t.tasks, Map(TaskOf(), calls), Map(TaskOf(), [c]));
  }

  /** Registering one more call adds its event behind those already sent. */
  lemma IoCallsOne(engine: Engine, id: TxnId, t: Txn, from: nat, c: Call)
    requires from <= |t.tasks|
    ensures IoCalls(engine, id, AddCalls(t, [c]), from)
         == IoCalls(engine, id, t, from) + [Event(engine, MASTER, IoCall(id, |t.tasks|, c.svc, c.kind, c.bidx))]
  {
  }

  lemma AddPendingsTwice(t: Txn, k: nat, a: int, b: int)
    requires k < |t.tasks|
    ensures AddPendings(t, k, 0) == t
    ensures AddPendings(AddPendings(t, k, a), k, b) == AddPendings(t, k, a + b)
  {
    assert t.tasks[k := t.tasks[k]] == t.tasks;
  }

  class Transaction {
    const id: TxnId
    const home: Engine
    const modules: nat
    const hasPack: bool
    const timeout: int
    var state: TxnState
    var error: bool
    var next: nat
    var tasks: seq<Task>
    var total: int
    var complete: int
    var pending: int
    var log: seq<LogEntry>

    /** The transaction as a value. */
    ghost function Model(): Txn
      reads this
    {
      Txn(home, modules, hasPack, timeout, state, error, next, tasks, total, complete, pending, log)
    }

    constructor (id: TxnId, home: Engine, modules: nat, hasPack: bool, timeout: int)
      ensures this.id == id && Model() == NewTxn(home, modules, hasPack, timeout)
    {
      this.id, this.home, this.modules, this.hasPack, this.timeout := id, home, modules, hasPack, timeout;
      state, error, next, tasks, total, complete, pending, log := Unpacked, false, 0, [], 0, 0, 0, [];
    }

    method TaskAdd(c: Call) returns (k: nat)
      requires complete <= total
      modifies this
      ensures k == |old(tasks)| && Model() == AddCalls(old(Model()), [c])
    {
      SumOne(c, CbWeight());
      k := |tasks|;
      tasks := tasks + [Task(c.svc, c.kind, c.bidx, c.hasCb, TaskRunning, 0)];
      total := total + 1;
      pending := pending + (if c.hasCb then 1 else 0);
      assert complete < total;
    }

    method SetTaskComplete(k: nat, status: TaskStatus)
      requires k < |tasks| && complete < total
      modifies this
      ensures Model() == TxnSpec.SetTaskComplete(old(Model()), k, status)
    {
      tasks := tasks[k := tasks[k].(status := status)];
      complete := complete + 1;
      pending := pending - (if tasks[k].hasCb then 1 else 0);
    }

    method SetState(s: TxnState)
      requires MaySet(Model(), s)
      modifies this
      ensures Model() == TxnSpec.SetState(old(Model()), s)
    {
      state := s;
      if s == Failed { error := true; }
    }

    /** The service calls of one module or callback: each is registered and sent at once. */
    method MakeCalls(engine: Engine, calls: seq<Call>) returns (sent: seq<Event>)
      requires complete <= total
      modifies this
      ensures Model() == AddCalls(old(Model()), calls)
      ensures sent == IoCalls(engine, id, Model(), |old(tasks)|)
    {
      sent := [];
      ghost var was := Model();
      WorkflowLaws.AddNone(was);
      for i := 0 to |calls|
        invariant Model() == AddCalls(was, calls[..i]) && complete <= total
        invariant sent == IoCalls(engine, id, Model(), |was.tasks|)
      {
        var c := calls[i];
        IoCallsOne(engine, id, Model(), |was.tasks|, c);
        AddCallsOne(was, calls[..i], c);
        assert calls[..i + 1] == calls[..i] + [c];
        var k := TaskAdd(c);
        sent := sent + [Event(engine, MASTER, IoCall(id, k, c.svc, c.kind, c.bidx))];
      }
      assert calls[..|calls|] == calls;
    }

    // ----- the workflow step -----

    /** One entry of the run function. The switch is on the state read at entry, which is what
        makes the recursion end even when the time limit overwrites the stored state. */
    method Run(engine: Engine, c: Conduct, entry: nat) returns (again: bool, freed: bool, sent: seq<Event>)
      requires TxnSpec.Run(Model(), c, entry).Ended? && complete <= total
      modifies this
      ensures TxnSpec.Run(old(Model()), c, entry) == Ended(Model(), again, freed)
      ensures |tasks| >= |old(tasks)| && sent == IoCalls(engine, id, Model(), |old(tasks)|)
      ensures Rank(old(state)) <= 2 ==> tasks == old(tasks)
      decreases Rank(state), 1
    {
      var entered := state;
      if timeout > 0 && state != Failed && entry < |c.late| && c.late[entry] { SetState(Timeout); }
      assert Model() == if TimedOut(old(Model()), c, entry) then TxnSpec.SetState(old(Model()), Timeout)
                        else old(Model());
      match entered
      case Created | Unpacked | Suspended =>
        SetState(Running);
        again, freed, sent := Run(engine, c, entry + 1);
      case Running =>
        again, freed, sent := ModuleRun(engine, c, entry);
      case Completed | Failed | Timeout =>
        again, freed, sent := ModulePack(engine, c, entry);
      case Packed =>
        SetState(Destroyed);
        again, freed, sent := false, complete >= total, [];
      case Destroyed =>
        again, freed, sent := false, complete >= total, [];
    }

    method ModuleRun(engine: Engine, c: Conduct, entry: nat) returns (again: bool, freed: bool, sent: seq<Event>)
      requires state != Destroyed && TxnSpec.ModuleRun(Model(), c, entry).Ended? && complete <= total
      modifies this
      ensures TxnSpec.ModuleRun(old(Model()), c, entry) == Ended(Model(), again, freed)
      ensures |tasks| >= |old(tasks)| && sent == IoCalls(engine, id, Model(), |old(tasks)|)
      decreases 3, 0
    {
      again, freed := false, false;
      if next >= modules {
        SetState(Completed);
        again, freed, sent := Run(engine, c, entry + 1);
        return;
      }
      log := log + [Ran(next)];
      next := next + 1;
      sent := MakeCalls(engine, c.calls);
      if c.failed { SetState(Failed); }
      assert Model() == WorkflowLaws.AfterModule(old(Model()), c);
      if pending != 0 {
        if !c.failed { SetState(Suspended); }
        return;
      }
      var none;
      if c.failed {
        again, freed, none := Run(engine, c, entry + 1);
        return;
      }
      if next != modules {
        again := true;
        return;
      }
      SetState(Completed);
      again, freed, none := Run(engine, c, entry + 1);
    }

    method ModulePack(engine: Engine, c: Conduct, entry: nat) returns (again: bool, freed: bool, sent: seq<Event>)
      requires state != Destroyed && TxnSpec.ModulePack(Model(), c, entry).Ended? && complete <= total
      modifies this
      ensures TxnSpec.ModulePack(old(Model()), c, entry) == Ended(Model(), again, freed)
      ensures tasks == old(tasks) && sent == []
      decreases 2, 0
    {
      if hasPack { log := log + [PackSaw(state)]; }
      SetState(Packed);
      again, freed, sent := Run(engine, c, entry + 1);
    }

    // ----- pending work of a service call -----

    method Pending(k: nat, n: int)
      requires k < |tasks|
      modifies this
      ensures Model() == AddPendings(old(Model()), k, n)
    {
      tasks := tasks[k := tasks[k].(pendings := tasks[k].pendings + n)];
    }

    /** User code starts endpoint calls and jobs; each one keeps the task pending. */
    method StartPending(engine: Engine, svc: ServiceId, k: nat, started: seq<Started>) returns (ops: seq<Op>)
      requires k < |tasks|
      modifies this
      ensures Model() == AddPendings(old(Model()), k, |started|)
      ensures ops == Map(OpOf(engine, svc, Pend(id, k)), started)
    {
      ops := [];
      ghost var was := Model();
      AddPendingsTwice(was, k, 0, 0);
      for i := 0 to |started|
        invariant Model() == AddPendings(was, k, i)
        invariant ops == Map(OpOf(engine, svc, Pend(id, k)), started[..i])
      {
        var op := match started[i]
          case StartEp => EpCall(engine, svc, Pend(id, k))
          case StartJob(kind) => Armed(engine, svc, Job(kind, 0, Pend(id, k), 0, engine));
        AddPendingsTwice(was, k, i, 1);
        Pending(k, 1);
        MapAppend(OpOf(engine, svc, Pend(id, k)), started[..i], [started[i]]);
        assert started[..i + 1] == started[..i] + [started[i]];
        ops := ops + [op];
      }
      assert started[..|started|] == started;
    }

    /** An endpoint answered or a job ran: its callback may start more work, then its own
        share of the pending count is given back, and the last one completes the call. */
    method FinishPending(engine: Engine, svc: ServiceId, k: nat, started: seq<Started>, ghost l: Local)
      returns (ops: seq<Op>, sent: seq<Event>)
      requires k < |tasks| && id in l.txns && l.txns[id] == Model()
      modifies this
      ensures Protocol.FinishPending(l, engine, svc, Pend(id, k), started)
           == Effect(l.(txns := l.txns[id := Model()], ops := l.ops + ops), sent)
    {
      ops := StartPending(engine, svc, k, started);
      AddPendingsTwice(old(Model()), k, |started|, -1);
      Pending(k, -1);
      sent := if tasks[k].pendings > 0 then []
              else [Event(engine, home, TaskCb(id, k, svc, tasks[k].kind, TaskDone, false))];
    }
  }

  // ----- the handlers; `l` is the protocol state around the transaction -----

  ghost predicate Follows(l: Local, t: Transaction)
    reads t
  {
    t.id in l.txns && l.txns[t.id] == t.Model()
  }

  /** Run a service call on the engine the master chose. */
  method OnTaskRun(cfg: Config, t: Transaction, e: Event, started: seq<Started>, ghost l: Local)
    returns (ops: seq<Op>, sent: seq<Event>)
    requires e.msg.TaskRun? && e.msg.txn == t.id && Follows(l, t) && HandleTaskRun(cfg, l, e, started).Effect?
    modifies t
    ensures HandleTaskRun(cfg, l, e, started) == Effect(l.(txns := l.txns[t.id := t.Model()], ops := l.ops + ops), sent)
  {
    var m := e.msg;
    ops := t.StartPending(e.dst, m.svc, m.task, started);
    var status := if t.tasks[m.task].pendings > 0 then TaskPending else TaskDone;
    sent := [Event(e.dst, m.caller, TaskCb(m.txn, m.task, m.svc, m.kind, status, true))];
  }

  /** Complete the call in the task table, run the caller's callback, decide the resume. */
  method OnTaskCb(cfg: Config, t: Transaction, e: Event, c: Conduct, ghost l: Local) returns (sent: seq<Event>)
    requires e.msg.TaskCb? && e.msg.txn == t.id && Follows(l, t) && HandleTaskCb(cfg, l, e, c).Effect?
    modifies t
    ensures HandleTaskCb(cfg, l, e, c) == Effect(l.(txns := l.txns[t.id := t.Model()]), sent)
  {
    var m := e.msg;
    var made: seq<Event> := [];
    if m.status == TaskDone || m.status == TaskBusy {
      t.SetTaskComplete(m.task, m.status);
      if t.tasks[m.task].hasCb {
        made := t.MakeCalls(e.dst, c.calls);
        if c.failed { t.SetState(Failed); }
      } else {
        WorkflowLaws.AddNone(t.Model());
      }
    }
    assert t.Model() == Callback(old(t.Model()), m.task, m.status,
      (m.status == TaskDone || m.status == TaskBusy) && old(t.tasks)[m.task].hasCb && c.failed,
      if (m.status == TaskDone || m.status == TaskBusy) && old(t.tasks)[m.task].hasCb then c.calls else []);
    var resume := if t.tasks[m.task].hasCb then t.pending == 0 else t.complete == t.total;
    sent := made + [Event(e.dst, MASTER, Done(m.txn, m.svc, m.kind, resume, m.slot))];
  }

  /** One workflow step: a module, or the pack step and the release. */
  method OnWorkflowRun(cfg: Config, t: Transaction, e: Event, c: Conduct, ghost l: Local)
    returns (freed: bool, sent: seq<Event>)
    requires e.msg.WorkflowRun? && e.msg.txn == t.id && Follows(l, t) && HandleWorkflowRun(cfg, l, e, c).Effect?
    requires t.complete <= t.total
    modifies t
    ensures HandleWorkflowRun(cfg, l, e, c)
         == Effect(l.(txns := if freed then l.txns - {t.id} else l.txns[t.id := t.Model()]), sent)
  {
    var again;
    again, freed, sent := t.Run(e.dst, c, 0);
    sent := sent + (if again then [Event(e.dst, e.dst, WorkflowRun(t.id))] else []);
  }

  /** Run a job; a refused one runs too, and its slot flag is handed back unchanged. */
  method OnTimerRun(cfg: Config, t: Transaction?, e: Event, started: seq<Started>, ghost l: Local)
    returns (ops: seq<Op>, sent: seq<Event>)
    requires e.msg.TimerRun? && HandleTimerRun(cfg, l, e, started).Effect?
    requires if e.msg.job.pend.NoPend? then t == null
             else t != null && t.id == e.msg.job.pend.txn && Follows(l, t)
    modifies t
    ensures HandleTimerRun(cfg, l, e, started)
         == Effect(if t == null then l else l.(txns := l.txns[t.id := t.Model()], ops := l.ops + ops), sent)
  {
    var m := e.msg;
    ops, sent := [], [];
    if t != null {
      ops, sent := t.FinishPending(e.dst, m.svc, m.job.pend.task, started, l);
    }
    sent := sent + [Event(e.dst, e.src, TimerDone(m.svc, m.job, m.ok))];
  }
}
