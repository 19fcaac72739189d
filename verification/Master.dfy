/** The service object and the handlers that run on the master. */
module Master {
  import opened Seqs
  import opened QueueSpec
  import opened TaskQueueImpl
  import opened ServiceSpec
  import opened TxnSpec
  import opened Protocol

  lemma PullNoneSame<T>(q: Queue<T>)
    requires q.Valid() && q.Pullable() && Pull(q, 1).1 == []
    ensures Pull(q, 1).0 == q
  {
  }

  lemma {:induction false} MapAppend<T, U>(f: T -> U, s: seq<T>, t: seq<T>)
    ensures Map(f, s + t) == Map(f, s) + Map(f, t)
  {
  }

  /** One turn of the scheduling loop. */
  lemma DrainTurn(s: Service)
    requires s.Valid()
    ensures var (q, batch) := Pull(s.queue, 1);
      if batch == [] then q == s.queue && Drain(s) == (s, [])
      else
        var s1 := Scheduled(s, q, batch[0].kind);
        && batch == [batch[0]] && batch[0].kind in {Read, Write}
        && s1.Valid() && |s1.queue.Pending()| < |s.queue.Pending()|
        && Drain(s) == (Drain(s1).0, [batch[0]] + Drain(s1).1)
  {
    OnePopped(s);
    if Pull(s.queue, 1).1 == [] { PullNoneSame(s.queue); }
  }

  class ServiceObject {
    const id: ServiceId
    const queue: TaskQueue<Body>
    var running: int

    ghost predicate Valid()
      reads this, queue
    {
      queue.Valid() && Model().Valid() && queue.cap < HALF
    }

    /** The service as a value. */
    ghost function Model(): Service
      reads this, queue
    {
      Service(queue.Model(), running)
    }

    constructor (id: ServiceId, queue: TaskQueue<Body>)
      requires queue.Valid() && !queue.mode.ExclusiveMode? && queue.Model().Pullable()
      requires queue.cap < HALF   // the configured slots are a 32-bit number
      ensures Valid() && this.id == id && this.queue == queue && Model() == Service(queue.Model(), 0)
    {
      this.id, this.queue := id, queue;
      running := 0;
    }

    method PushTask(task: SrvTask) returns (busy: bool)
      requires Valid() && (task.kind == Read || task.kind == Write)
      modifies queue
      ensures Valid()
      ensures busy <==> old(Model()).queue.Full(task.kind)
      ensures Model() == if busy then old(Model()) else old(Model()).(queue := Push(old(Model()).queue, task))
    {
      var r := queue.Push(task);
      busy := r.Busy?;
    }

    /** Hand one task to its engine. */
    method ScheduleTask(cfg: Config, task: SrvTask) returns (e: Event)
      modifies this
      ensures running == old(running) + 1 && e == ToRun(cfg, id)(task)
    {
      running := running + 1;
      match task.body
      case ApiTask(src, bidx, t, k) => e := Event(MASTER, Target(cfg, src, bidx), TaskRun(t, k, id, task.kind, src));
      case TimerTask(src, job) => e := Event(MASTER, Target(cfg, src, job.bidx), TimerRun(id, job, true));
    }

    /** One turn of the loop: pop a task, mark the queue, schedule the task. The popped kind
        always fits the queue state. */
    method ScheduleOne(cfg: Config) returns (sent: seq<Event>, ghost popped: seq<SrvTask>)
      requires Valid()
      modifies this, queue
      ensures Valid() && popped == Pull(old(Model()).queue, 1).1 && |popped| <= 1
      ensures sent == Map(ToRun(cfg, id), popped)
      ensures Model() == if popped == [] then old(Model())
                         else Scheduled(old(Model()), Pull(old(Model()).queue, 1).0, popped[0].kind)
    {
      ghost var before := Model();
      DrainTurn(before);
      OnePopped(before);
      var batch := queue.Pull(1);
      popped := batch;
      if batch == [] { return [], batch; }
      var task := batch[0];
      assert task.kind == Read ==> queue.state in {Idle, Reading};
      assert task.kind == Write ==> queue.state == Idle;
      queue.SetState(if task.kind == Read then Reading else Writing);
      var e := ScheduleTask(cfg, task);
      sent := [e];
    }

    /** The scheduling loop. It ends, and it sends the tasks of `Drain` in order. */
    method ScheduleTasks(cfg: Config) returns (sent: seq<Event>)
      requires Valid()
      modifies this, queue
      ensures Valid()
      ensures Model() == Drain(old(Model())).0
      ensures sent == Map(ToRun(cfg, id), Drain(old(Model())).1)
    {
      ghost var start := Model();
      ghost var now := start;
      ghost var popped: seq<SrvTask> := [];
      sent := [];
      assert [] + Drain(start).1 == Drain(start).1;
      while true
        invariant Valid() && Model() == now
        invariant sent == Map(ToRun(cfg, id), popped)
        invariant Drain(start) == (Drain(now).0, popped + Drain(now).1)
        decreases |now.queue.Pending()|
      {
        DrainTurn(now);
        var event, task := ScheduleOne(cfg);
        if event == [] { break; }
        now := Scheduled(now, Pull(now.queue, 1).0, task[0].kind);
        Regroup(popped, task, Drain(now).1);
        MapAppend(ToRun(cfg, id), popped, task);
        sent := sent + event;
        popped := popped + task;
      }
      assert popped + [] == popped;
    }

    method SetComplete()
      requires Valid()
      modifies this, queue
      ensures Valid() && Model() == ServiceSpec.SetComplete(old(Model()))
    {
      running := running - 1;
      if running == 0 { queue.SetState(Idle); }
    }
  }

  // ----- the handlers; `l` is the protocol state around the service -----

  ghost predicate Tracks(l: Local, s: ServiceObject)
    reads s, s.queue
  {
    s.Valid() && s.id in l.svcs && l.svcs[s.id] == s.Model()
  }

  method OnIoCall(cfg: Config, s: ServiceObject, e: Event, ghost l: Local) returns (sent: seq<Event>)
    requires e.msg.IoCall? && e.msg.svc == s.id && Tracks(l, s) && HandleIoCall(cfg, l, e).Effect?
    modifies s, s.queue
    ensures s.Valid() && HandleIoCall(cfg, l, e) == Effect(l.(svcs := l.svcs[s.id := s.Model()]), sent)
  {
    var m := e.msg;
    var busy := s.PushTask(Elem(m.kind, ApiTask(e.src, m.bidx, m.txn, m.task)));
    if busy {
      assert l.svcs[s.id := s.Model()] == l.svcs;
      return [Event(MASTER, e.src, TaskCb(m.txn, m.task, m.svc, m.kind, TaskBusy, false))];
    }
    sent := s.ScheduleTasks(cfg);
    assert [] + sent == sent;
  }

  method OnTaskDone(cfg: Config, s: ServiceObject, e: Event, ghost l: Local) returns (sent: seq<Event>)
    requires e.msg.Done? && e.msg.svc == s.id && Tracks(l, s) && HandleDone(cfg, l, e).Effect?
    modifies s, s.queue
    ensures s.Valid() && HandleDone(cfg, l, e) == Effect(l.(svcs := l.svcs[s.id := s.Model()]), sent)
  {
    if e.msg.slot { s.SetComplete(); }
    var resume := if e.msg.resume then [Event(MASTER, e.src, WorkflowRun(e.msg.txn))] else [];
    var more := s.ScheduleTasks(cfg);
    sent := resume + more;
  }

  method OnTimerEmit(cfg: Config, s: ServiceObject, e: Event, ghost l: Local) returns (sent: seq<Event>)
    requires e.msg.TimerEmit? && e.msg.svc == s.id && Tracks(l, s) && HandleTimerEmit(cfg, l, e).Effect?
    modifies s, s.queue
    ensures s.Valid() && HandleTimerEmit(cfg, l, e) == Effect(l.(svcs := l.svcs[s.id := s.Model()]), sent)
  {
    var m := e.msg;
    var busy := s.PushTask(Elem(m.job.kind, TimerTask(e.src, m.job)));
    if busy {
      assert l.svcs[s.id := s.Model()] == l.svcs;
      return [Event(MASTER, e.src, TimerRun(m.svc, m.job, false))];
    }
    sent := s.ScheduleTasks(cfg);
    assert [] + sent == sent;
  }

  method OnTimerDone(cfg: Config, s: ServiceObject, e: Event, ghost l: Local) returns (sent: seq<Event>)
    requires e.msg.TimerDone? && e.msg.svc == s.id && Tracks(l, s) && HandleTimerDone(cfg, l, e).Effect?
    modifies s, s.queue
    ensures s.Valid() && HandleTimerDone(cfg, l, e) == Effect(l.(svcs := l.svcs[s.id := s.Model()]), sent)
  {
    if e.msg.ok { s.SetComplete(); }
    sent := s.ScheduleTasks(cfg);
    assert [] + sent == sent;
  }
}
