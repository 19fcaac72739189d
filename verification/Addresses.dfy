/** Every event the protocol sends names engines of the star, so it can be routed. */
module Addresses {
  import opened Seqs
  import opened QueueSpec
  import opened ServiceSpec
  import opened TxnSpec
  import opened Protocol
  import opened Invariants
  import opened Star
  import opened StarRuns
  import opened OnStar
  import opened WorkflowLaws
  import LedgerSteps
  import opened ProtocolSteps
  import opened Runs
  import Pto

  predicate MsgAt(cfg: Config, e: Event) {
    && Engines(cfg, e.src) && Engines(cfg, e.dst)
    && match e.msg
       case IoCall(_, _, _, _, bidx) => ValidBio(cfg, bidx)
       case TaskRun(_, _, _, _, caller) => Engines(cfg, caller)
       case TimerEmit(_, job) => ValidBio(cfg, job.bidx)
       case TimerRun(_, job, _) => ValidBio(cfg, job.bidx)
       case TimerDone(_, job, _) => ValidBio(cfg, job.bidx)
       case _ => true
  }

  predicate ElemAt(cfg: Config, e: SrvTask) {
    match e.body
    case ApiTask(src, bidx, _, _) => Engines(cfg, src) && ValidBio(cfg, bidx)
    case TimerTask(src, job) => Engines(cfg, src) && ValidBio(cfg, job.bidx)
  }

  predicate OpAt(cfg: Config, o: Op) {
    Engines(cfg, o.engine) && (o.Armed? ==> ValidBio(cfg, o.job.bidx))
  }

  ghost predicate TxnAt(cfg: Config, t: Txn) {
    Engines(cfg, t.home) && forall k :: 0 <= k < |t.tasks| ==> ValidBio(cfg, t.tasks[k].bidx)
  }

  ghost predicate LocalAt(cfg: Config, l: Local) {
    && (forall v, e :: v in l.svcs && e in l.svcs[v].queue.Pending() ==> ElemAt(cfg, e))
    && (forall t :: t in l.txns ==> TxnAt(cfg, l.txns[t]))
    && (forall o :: o in l.ops ==> OpAt(cfg, o))
  }

  ghost predicate SentAt(cfg: Config, sent: seq<Event>) { forall e :: e in sent ==> MsgAt(cfg, e) }

  /** The environment names engines of the star. */
  predicate StepAt(cfg: Config, step: Step) {
    match step
    case Arrive(from, home, _, _, _) => Engines(cfg, from) && Engines(cfg, home)
    case CreateJob(engine, _, _, _, _) => Engines(cfg, engine)
    case _ => true
  }

  /** Scheduling sends only to engines of the star. */
  lemma ScheduleAt(cfg: Config, l: Local, svc: ServiceId, s: Service, sent: seq<Event>)
    requires LocalAt(cfg, l) && s.Valid() && SentAt(cfg, sent)
    requires forall e :: e in s.queue.Pending() ==> ElemAt(cfg, e)
    ensures LocalAt(cfg, Schedule(cfg, l, svc, s, sent).local) && SentAt(cfg, Schedule(cfg, l, svc, s, sent).sent)
  {
    DrainMembers(s);
    RunsAt(cfg, svc, Drain(s).1);
  }

  lemma RunsAt(cfg: Config, svc: ServiceId, batch: seq<SrvTask>)
    requires forall e :: e in batch ==> ElemAt(cfg, e)
    ensures SentAt(cfg, Map(ToRun(cfg, svc), batch))
  {
    var runs := Map(ToRun(cfg, svc), batch);
    forall i | 0 <= i < |runs| ensures MsgAt(cfg, runs[i]) {
      assert batch[i] in batch && runs[i] == ToRun(cfg, svc)(batch[i]);
    }
  }

  lemma StartedAt(cfg: Config, engine: Engine, svc: ServiceId, pend: Pend, started: seq<Started>)
    requires Engines(cfg, engine)
    ensures forall o :: o in Map(OpOf(engine, svc, pend), started) ==> OpAt(cfg, o)
  {
    var ops := Map(OpOf(engine, svc, pend), started);
    forall i | 0 <= i < |ops| ensures OpAt(cfg, ops[i]) {
      assert ops[i] == OpOf(engine, svc, pend)(started[i]);
    }
  }

  /** The task table kept its calls, except for their progress, and gained `calls`. */
  ghost predicate Grew(t: Txn, t1: Txn, calls: seq<Call>) {
    && t1.home == t.home && |t1.tasks| == |t.tasks| + |calls|
    && (forall k :: 0 <= k < |t.tasks| ==> t1.tasks[k].bidx == t.tasks[k].bidx)
    && (forall k :: |t.tasks| <= k < |t1.tasks| ==> t1.tasks[k].bidx == calls[k - |t.tasks|].bidx)
  }

  lemma GrewAt(cfg: Config, t: Txn, t1: Txn, calls: seq<Call>)
    requires TxnAt(cfg, t) && Grew(t, t1, calls)
    requires forall x :: x in calls ==> ValidBio(cfg, x.bidx)
    ensures TxnAt(cfg, t1)
  {
    forall k | 0 <= k < |t1.tasks| ensures ValidBio(cfg, t1.tasks[k].bidx) {
      if k >= |t.tasks| { assert calls[k - |t.tasks|] in calls; }
    }
  }

  lemma CallsAt(cfg: Config, engine: Engine, id: TxnId, t: Txn, from: nat)
    requires Engines(cfg, engine) && TxnAt(cfg, t) && from <= |t.tasks|
    ensures SentAt(cfg, IoCalls(engine, id, t, from))
  {
    var calls := IoCalls(engine, id, t, from);
    forall i | 0 <= i < |calls| ensures MsgAt(cfg, calls[i]) { assert ValidBio(cfg, t.tasks[from + i].bidx); }
  }

  lemma FinishAt(cfg: Config, l: Local, engine: Engine, svc: ServiceId, pend: Pend, started: seq<Started>)
    requires LocalAt(cfg, l) && Engines(cfg, engine) && pend.Pend?
    requires FinishPending(l, engine, svc, pend, started).Effect?
    ensures var eff := FinishPending(l, engine, svc, pend, started); LocalAt(cfg, eff.local) && SentAt(cfg, eff.sent)
  {
    StartedAt(cfg, engine, svc, pend, started);
    GrewAt(cfg, l.txns[pend.txn], AddPendings(l.txns[pend.txn], pend.task, |started| - 1), []);
  }

  lemma QueueAt(cfg: Config, l: Local, e: Event)
    requires LocalAt(cfg, l) && MsgAt(cfg, e)
    ensures e.msg.IoCall? && HandleIoCall(cfg, l, e).Effect? ==>
      LocalAt(cfg, HandleIoCall(cfg, l, e).local) && SentAt(cfg, HandleIoCall(cfg, l, e).sent)
    ensures e.msg.TimerEmit? && HandleTimerEmit(cfg, l, e).Effect? ==>
      LocalAt(cfg, HandleTimerEmit(cfg, l, e).local) && SentAt(cfg, HandleTimerEmit(cfg, l, e).sent)
  {
    var m := e.msg;
    if (m.IoCall? || m.TimerEmit?) && m.svc in l.svcs && l.svcs[m.svc].Valid() {
      var s := l.svcs[m.svc];
      var kind := if m.IoCall? then m.kind else m.job.kind;
      var body := if m.IoCall? then ApiTask(e.src, m.bidx, m.txn, m.task) else TimerTask(e.src, m.job);
      var x: SrvTask := Elem(kind, body);
      if Accepts(s.queue.mode, kind) && !s.queue.Full(kind) {
        LedgerSteps.PushMembers(s.queue, x);
        ScheduleAt(cfg, l, m.svc, s.(queue := Push(s.queue, x)), []);
      }
    }
  }

  lemma ReleaseAt(cfg: Config, l: Local, e: Event)
    requires LocalAt(cfg, l) && MsgAt(cfg, e)
    ensures e.msg.Done? && HandleDone(cfg, l, e).Effect? ==>
      LocalAt(cfg, HandleDone(cfg, l, e).local) && SentAt(cfg, HandleDone(cfg, l, e).sent)
    ensures e.msg.TimerDone? && HandleTimerDone(cfg, l, e).Effect? ==>
      LocalAt(cfg, HandleTimerDone(cfg, l, e).local) && SentAt(cfg, HandleTimerDone(cfg, l, e).sent)
  {
    var m := e.msg;
    if (m.Done? || m.TimerDone?) && m.svc in l.svcs {
      var release := if m.Done? then m.slot else m.ok;
      var s := if release then SetComplete(l.svcs[m.svc]) else l.svcs[m.svc];
      assert s.queue.Pending() == l.svcs[m.svc].queue.Pending();
      var resume := if m.Done? && m.resume then [Event(MASTER, e.src, WorkflowRun(m.txn))] else [];
      if s.Valid() { ScheduleAt(cfg, l, m.svc, s, resume); }
    }
  }

  lemma CallbackGrew(t: Txn, k: nat, status: TaskStatus, failed: bool, calls: seq<Call>)
    requires k < |t.tasks| && (failed ==> MaySet(t, Failed))
    ensures Grew(t, Callback(t, k, status, failed, calls),
                 if status == TaskDone || status == TaskBusy then calls else [])
  {
  }

  lemma CallbackAt(cfg: Config, l: Local, e: Event, c: Conduct)
    requires LocalAt(cfg, l) && MsgAt(cfg, e) && e.msg.TaskCb? && HandleTaskCb(cfg, l, e, c).Effect?
    requires forall x :: x in c.calls ==> ValidBio(cfg, x.bidx)
    ensures LocalAt(cfg, HandleTaskCb(cfg, l, e, c).local) && SentAt(cfg, HandleTaskCb(cfg, l, e, c).sent)
  {
    var m := e.msg;
    var t := l.txns[m.txn];
    var finished := m.status == TaskDone || m.status == TaskBusy;
    var runs := finished && t.tasks[m.task].hasCb;
    var calls := if runs then c.calls else [];
    var t1 := Callback(t, m.task, m.status, runs && c.failed, calls);
    CallbackGrew(t, m.task, m.status, runs && c.failed, calls);
    GrewAt(cfg, t, t1, if finished then calls else []);
    CallsAt(cfg, e.dst, m.txn, t1, |t.tasks|);
  }

  lemma WorkflowAt(cfg: Config, l: Local, e: Event, c: Conduct)
    requires LocalAt(cfg, l) && MsgAt(cfg, e) && e.msg.WorkflowRun? && HandleWorkflowRun(cfg, l, e, c).Effect?
    requires FlowOk(l.txns[e.msg.txn]) && Resting(l.txns[e.msg.txn].state)
    requires forall x :: x in c.calls ==> ValidBio(cfg, x.bidx)
    ensures LocalAt(cfg, HandleWorkflowRun(cfg, l, e, c).local) && SentAt(cfg, HandleWorkflowRun(cfg, l, e, c).sent)
  {
    var t := l.txns[e.msg.txn];
    var t1 := TxnSpec.Run(t, c, 0).txn;
    WorkflowGrew(t, c);
    GrewAt(cfg, t, t1, CallsOf(t, c));
    CallsAt(cfg, e.dst, e.msg.txn, t1, |t.tasks|);
  }

  lemma WorkflowGrew(t: Txn, c: Conduct)
    requires FlowOk(t) && Resting(t.state) && TxnSpec.Run(t, c, 0).Ended?
    ensures Grew(t, TxnSpec.Run(t, c, 0).txn, CallsOf(t, c))
  {
    StepFollows(t, c, 0);
    assert TxnSpec.Run(t, c, 0).txn.tasks == AddCalls(t, CallsOf(t, c)).tasks;
  }

  lemma HandleAt(cfg: Config, l: Local, e: Event, c: Choice)
    requires Flows(State(l, []))
    requires LocalAt(cfg, l) && MsgAt(cfg, e) && LegalChoice(cfg, l, c) && Handle(cfg, l, e, c).Effect?
    ensures LocalAt(cfg, Handle(cfg, l, e, c).local) && SentAt(cfg, Handle(cfg, l, e, c).sent)
  {
    match e.msg
    case IoCall(_, _, _, _, _) => QueueAt(cfg, l, e);
    case TimerEmit(_, _) => QueueAt(cfg, l, e);
    case Done(_, _, _, _, _) => ReleaseAt(cfg, l, e);
    case TimerDone(_, _, _) => ReleaseAt(cfg, l, e);
    case TaskCb(_, _, _, _, _, _) => CallbackAt(cfg, l, e, c.conduct);
    case WorkflowRun(_) => WorkflowAt(cfg, l, e, c.conduct);
    case TaskRun(t, k, svc, _, _) =>
      StartedAt(cfg, e.dst, svc, Pend(t, k), c.started);
      GrewAt(cfg, l.txns[t], AddPendings(l.txns[t], k, |c.started|), []);
    case TimerRun(svc, job, ok) =>
      if job.pend.Pend? { FinishAt(cfg, l, e.dst, svc, job.pend, c.started); }
  }

  lemma EnvironmentAt(cfg: Config, l: Local, step: Step)
    requires LocalAt(cfg, l) && !step.Deliver? && StepAt(cfg, step) && Enabled(cfg, State(l, []), step)
    requires Perform(cfg, State(l, []), step).0.Effect?
    ensures var eff := Perform(cfg, State(l, []), step).0; LocalAt(cfg, eff.local) && SentAt(cfg, eff.sent)
  {
    match step
    case EpReply(op, started) =>
      var o := l.ops[op];
      assert o in l.ops;
      FinishAt(cfg, l.(ops := Remove(l.ops, op)), o.engine, o.svc, o.pend, started);
    case TimerFires(op) => assert l.ops[op] in l.ops;
    case _ =>
  }

  ghost predicate NetAt(cfg: Config, net: Net) {
    forall loc, i | 0 <= i < |At(net, loc)| :: MsgAt(cfg, At(net, loc)[i].event)
  }

  lemma {:induction false} SentAllAt(cfg: Config, net: Net, sent: seq<Event>)
    requires NetAt(cfg, net) && SentAt(cfg, sent)
    ensures NetAt(cfg, SentAll(net, sent))
    decreases |sent|
  {
    if sent != [] {
      var net' := Sent(net, sent[0]);
      forall l, i | 0 <= i < |At(net', l)| ensures MsgAt(cfg, At(net', l)[i].event) {
        assert At(net', l)[i].event == sent[0] || (i < |At(net, l)| && At(net', l)[i] == At(net, l)[i]);
      }
      SentAllAt(cfg, net', sent[1..]);
    }
  }

  lemma MovedAt(cfg: Config, net: Net, loc: Loc)
    requires NetAt(cfg, net) && CanMove(net, loc)
    ensures NetAt(cfg, Moved(net, loc))
  {
    var net' := Moved(net, loc);
    forall l, i | 0 <= i < |At(net', l)| ensures MsgAt(cfg, At(net', l)[i].event) {
      assert At(net', l)[i].event == At(net, loc)[0].event || (i < |At(net, l)| && At(net', l)[i] == At(net, l)[i])
        || (l == loc && At(net', l)[i] == At(net, l)[i + 1]);
    }
  }

  lemma TakenAt(cfg: Config, net: Net, d: Engine, p: nat)
    requires NetAt(cfg, net) && At(net, In(d, p)) != []
    ensures NetAt(cfg, Taken(net, d, p))
  {
    var net' := Taken(net, d, p);
    forall l, i | 0 <= i < |At(net', l)| ensures MsgAt(cfg, At(net', l)[i].event) {
      assert At(net', l)[i] == At(net, l)[if l == In(d, p) then i + 1 else i];
    }
  }

  lemma {:induction false} RunAt(cfg: Config, trace: seq<Whole>, steps: seq<WholeStep>, n: nat)
    requires IsWholeRun(cfg, trace, steps) && n < |trace|
    requires forall i :: 0 <= i < |steps| && steps[i].Environment? ==> StepAt(cfg, steps[i].step)
    ensures LocalAt(cfg, trace[n].local) && NetAt(cfg, trace[n].net)
  {
    if n > 0 {
      RunAt(cfg, trace, steps, n - 1);
      assert Flows(State(trace[n - 1].local, [])) by {
        var states, taken := StarRefines(cfg, trace, steps, n - 1);
        RunInv(cfg, states, taken, |taken|);
      }
      assert WholeNext(cfg, trace[n - 1], steps[n - 1], trace[n]);
      NextAt(cfg, trace[n - 1], steps[n - 1], trace[n]);
    }
  }

  lemma NextAt(cfg: Config, w: Whole, step: WholeStep, w': Whole)
    requires LocalAt(cfg, w.local) && NetAt(cfg, w.net) && Flows(State(w.local, []))
    requires WholeNext(cfg, w, step, w') && (step.Environment? ==> StepAt(cfg, step.step))
    ensures LocalAt(cfg, w'.local) && NetAt(cfg, w'.net)
  {
    var eff := WholeEffect(cfg, w, step);
    match step
    case Environment(st) =>
      EnvironmentAt(cfg, w.local, st);
      SentAllAt(cfg, w.net, eff.sent);
    case Consume(d, p, choice) =>
      HandleAt(cfg, w.local, At(w.net, In(d, p))[0].event, choice);
      TakenAt(cfg, w.net, d, p);
      SentAllAt(cfg, Taken(w.net, d, p), eff.sent);
    case Shift(loc) => MovedAt(cfg, w.net, loc);
  }

  /** Every event the protocol leaves in an output queue waits in the queue of its own protocol's
      priority, one of ten, and finds its bridge, below the hop limit, so nothing the protocol
      sends is ever dropped. */
  lemma EveryEventIsRouted(cfg: Config, trace: seq<Whole>, steps: seq<WholeStep>, n: nat, x: Engine, p: nat, last: nat)
    requires IsWholeRun(cfg, trace, steps) && n < |trace|
    requires forall i :: 0 <= i < |steps| && steps[i].Environment? ==> StepAt(cfg, steps[i].step)
    requires At(trace[n].net, Out(x, p)) != [] && last < |Bridges(cfg, x)|
    ensures var e := At(trace[n].net, Out(x, p))[0].event;
      var pick := Via(cfg, x, e.dst, last);
      && p == Pto.Table(Pto.IdOf(e.msg)).pri <= 9
      && CanMove(trace[n].net, Out(x, p))
      && pick.Bridge? && pick.index < |Bridges(cfg, x)|
      && NextLoc(Out(x, p), e) == Wire(x, Bridges(cfg, x)[pick.index])
  {
    RunAt(cfg, trace, steps, n);
    var states, taken := StarRefines(cfg, trace, steps, n);
    var q := At(trace[n].net, Out(x, p))[0];
    assert Out(x, p) in Route(ChannelOf(q.event)) && q.hop == Crossed(Out(x, p), ChannelOf(q.event));
    ViaStar(cfg, x, q.event.dst, last);
    Pto.TableSound(q.event.msg);
  }
}
