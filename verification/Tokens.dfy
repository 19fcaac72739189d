/** What resumes a transaction. */
module Tokens {
  // The wake-ups in flight, what each step does to them, exactly which steps break the one
  // resume token, and exactly which handlers fail.

  import opened Seqs
  import opened QueueSpec
  import opened ServiceSpec
  import opened TxnSpec
  import opened WorkflowLaws
  import opened Protocol
  import opened Invariants
  import opened LedgerSteps
  import opened ProtocolSteps

  predicate IsWake(m: Msg, t: TxnId) {
    (m.WorkflowRun? && m.txn == t) || (m.Done? && m.txn == t && m.resume)
  }

  function WakeW(t: TxnId): Event -> int { (e: Event) => if IsWake(e.msg, t) then 1 else 0 }
  function RunW(t: TxnId): Event -> int { (e: Event) => if e.msg.WorkflowRun? && e.msg.txn == t then 1 else 0 }
  function DoneW(t: TxnId): Event -> int { (e: Event) => if e.msg.Done? && e.msg.txn == t then 1 else 0 }

  /** The wake-ups in flight for transaction `t`: by an event of either kind, by a workflow
      event, and the completion events that name it. */
  datatype Wakes = Wakes(wake: int, run: int, done: int)

  function WakesOf(net: seq<Event>, t: TxnId): Wakes {
    Wakes(Sum(net, WakeW(t)), Sum(net, RunW(t)), Sum(net, DoneW(t)))
  }

  function Asleep(): Wakes { Wakes(0, 0, 0) }

  // ----- counting -----

  lemma WakesReplace(net: seq<Event>, i: nat, sent: seq<Event>, t: TxnId)
    requires i < |net|
    ensures var (w, v, u) := (WakesOf(Remove(net, i) + sent, t), WakesOf(net, t), WakesOf(sent, t));
      && w.wake == v.wake - WakeW(t)(net[i]) + u.wake
      && w.run == v.run - RunW(t)(net[i]) + u.run
      && w.done == v.done - DoneW(t)(net[i]) + u.done
  {
    SumReplace(net, i, sent, WakeW(t));
    SumReplace(net, i, sent, RunW(t));
    SumReplace(net, i, sent, DoneW(t));
  }

  lemma WakesAppend(net: seq<Event>, sent: seq<Event>, t: TxnId)
    ensures var (w, v, u) := (WakesOf(net + sent, t), WakesOf(net, t), WakesOf(sent, t));
      w.wake == v.wake + u.wake && w.run == v.run + u.run && w.done == v.done + u.done
  {
    SumAppend(net, sent, WakeW(t));
    SumAppend(net, sent, RunW(t));
    SumAppend(net, sent, DoneW(t));
  }

  predicate Silent(m: Msg) { !m.Done? && !m.WorkflowRun? }

  lemma WakesNone(sent: seq<Event>, t: TxnId)
    requires forall e :: e in sent ==> Silent(e.msg) || e.msg.txn != t
    ensures WakesOf(sent, t) == Asleep()
  {
    SumZero(sent, WakeW(t));
    SumZero(sent, RunW(t));
    SumZero(sent, DoneW(t));
  }

  lemma WakesOne(e: Event, t: TxnId)
    ensures WakesOf([e], t) == Wakes(WakeW(t)(e), RunW(t)(e), DoneW(t)(e))
  {
    SumOne(e, WakeW(t));
    SumOne(e, RunW(t));
    SumOne(e, DoneW(t));
  }

  /** Silent events before and after one that may speak. */
  lemma WakesAmong(pre: seq<Event>, one: Event, post: seq<Event>, t: TxnId)
    requires (forall e :: e in pre ==> Silent(e.msg)) && (forall e :: e in post ==> Silent(e.msg))
    ensures WakesOf(pre + [one], t) == WakesOf([one] + post, t) == WakesOf([one], t)
  {
    WakesAppend(pre, [one], t);
    WakesAppend([one], post, t);
    WakesNone(pre, t);
    WakesNone(post, t);
  }

  lemma {:induction false} WakesMember(net: seq<Event>, t: TxnId)
    ensures var w := WakesOf(net, t); 0 <= w.run <= w.wake && 0 <= w.done
    ensures forall e :: e in net ==>
      var w := WakesOf(net, t); WakeW(t)(e) <= w.wake && RunW(t)(e) <= w.run && DoneW(t)(e) <= w.done
  {
    SumBounds(net, WakeW(t));
    SumBounds(net, RunW(t));
    SumBounds(net, DoneW(t));
    RunIsWake(net, t);
  }

  lemma {:induction false} RunIsWake(net: seq<Event>, t: TxnId)
    ensures Sum(net, RunW(t)) <= Sum(net, WakeW(t))
  {
    if net != [] { RunIsWake(net[1..], t); }
  }

  // ----- what a handler sends -----

  /** The wake-ups of `t` among the events a handler sends. */
  function Sends(cfg: Config, l: Local, e: Event, c: Choice, t: TxnId): Wakes
    requires Handle(cfg, l, e, c).Effect?
  {
    match e.msg
    case TaskCb(id, k, _, _, _, _) =>
      if id != t then Asleep()
      else Wakes(if Resumes(HandleTaskCb(cfg, l, e, c.conduct).local.txns[id], k) then 1 else 0, 0, 1)
    case Done(id, _, _, resume, _) => if id == t && resume then Wakes(1, 1, 0) else Asleep()
    case WorkflowRun(id) => if id == t && Run(l.txns[id], c.conduct, 0).again then Wakes(1, 1, 0) else Asleep()
    case _ => Asleep()
  }

  lemma ScheduledSilent(cfg: Config, v: ServiceId, batch: seq<SrvTask>)
    ensures forall e :: e in Map(ToRun(cfg, v), batch) ==> Silent(e.msg)
  {
    forall e | e in Map(ToRun(cfg, v), batch) ensures Silent(e.msg) {
      var j :| 0 <= j < |batch| && Map(ToRun(cfg, v), batch)[j] == e;
    }
  }

  predicate Quiet(m: Msg) { m.IoCall? || m.TaskRun? || m.TimerEmit? || m.TimerRun? || m.TimerDone? }

  /** Queue work, run APIs and jobs, release slots of jobs: no wake-up. */
  lemma QuietSent(cfg: Config, l: Local, e: Event, c: Choice)
    requires Handle(cfg, l, e, c).Effect? && Quiet(e.msg)
    ensures forall x :: x in Handle(cfg, l, e, c).sent ==> Silent(x.msg)
  {
    match e.msg
    case IoCall(t, k, svc, kind, bidx) =>
      var q := l.svcs[svc].queue;
      if !q.Full(kind) {
        ScheduledSilent(cfg, svc, Drain(l.svcs[svc].(queue := Push(q, Elem(kind, ApiTask(e.src, bidx, t, k))))).1);
      }
    case TimerEmit(svc, job) =>
      var q := l.svcs[svc].queue;
      if !q.Full(job.kind) {
        ScheduledSilent(cfg, svc, Drain(l.svcs[svc].(queue := Push(q, Elem(job.kind, TimerTask(e.src, job))))).1);
      }
    case TimerDone(svc, job, ok) =>
      ScheduledSilent(cfg, svc, Drain(if ok then SetComplete(l.svcs[svc]) else l.svcs[svc]).1);
    case _ =>
  }

  lemma DoneSends(cfg: Config, l: Local, e: Event, c: Choice, t: TxnId)
    requires e.msg.Done? && Handle(cfg, l, e, c).Effect?
    ensures WakesOf(Handle(cfg, l, e, c).sent, t) == Sends(cfg, l, e, c, t)
  {
    var m := e.msg;
    var run := Map(ToRun(cfg, m.svc), Drain(if m.slot then SetComplete(l.svcs[m.svc]) else l.svcs[m.svc]).1);
    ScheduledSilent(cfg, m.svc, Drain(if m.slot then SetComplete(l.svcs[m.svc]) else l.svcs[m.svc]).1);
    if m.resume {
      var wake := Event(MASTER, e.src, WorkflowRun(m.txn));
      assert HandleDone(cfg, l, e).sent == [wake] + run;
      WakesAmong([], wake, run, t);
      WakesOne(wake, t);
    } else {
      assert [] + run == run;
      assert HandleDone(cfg, l, e).sent == run;
      WakesNone(run, t);
    }
  }

  lemma CallbackSends(cfg: Config, l: Local, e: Event, c: Choice, t: TxnId)
    requires e.msg.TaskCb? && Handle(cfg, l, e, c).Effect?
    ensures WakesOf(Handle(cfg, l, e, c).sent, t) == Sends(cfg, l, e, c, t)
  {
    var m := e.msg;
    var t1 := HandleTaskCb(cfg, l, e, c.conduct).local.txns[m.txn];
    var calls := IoCalls(e.dst, m.txn, t1, |l.txns[m.txn].tasks|);
    var done := Event(e.dst, MASTER, Done(m.txn, m.svc, m.kind, Resumes(t1, m.task), m.slot));
    assert HandleTaskCb(cfg, l, e, c.conduct).sent == calls + [done];
    WakesAmong(calls, done, [], t);
    WakesOne(done, t);
  }

  lemma WorkflowSends(cfg: Config, l: Local, e: Event, c: Choice, t: TxnId)
    requires e.msg.WorkflowRun? && Handle(cfg, l, e, c).Effect?
    ensures WakesOf(Handle(cfg, l, e, c).sent, t) == Sends(cfg, l, e, c, t)
  {
    var id := e.msg.txn;
    var o := Run(l.txns[id], c.conduct, 0);
    var calls := IoCalls(e.dst, id, o.txn, |l.txns[id].tasks|);
    if o.again {
      var again := Event(e.dst, e.dst, WorkflowRun(id));
      assert HandleWorkflowRun(cfg, l, e, c.conduct).sent == calls + [again];
      WakesAmong(calls, again, [], t);
      WakesOne(again, t);
    } else {
      assert HandleWorkflowRun(cfg, l, e, c.conduct).sent == calls + [];
      assert calls + [] == calls;
      WakesNone(calls, t);
    }
  }

  lemma HandlerSends(cfg: Config, l: Local, e: Event, c: Choice, t: TxnId)
    requires Handle(cfg, l, e, c).Effect?
    ensures WakesOf(Handle(cfg, l, e, c).sent, t) == Sends(cfg, l, e, c, t)
  {
    match e.msg
    case Done(_, _, _, _, _) => DoneSends(cfg, l, e, c, t);
    case TaskCb(_, _, _, _, _, _) => CallbackSends(cfg, l, e, c, t);
    case WorkflowRun(_) => WorkflowSends(cfg, l, e, c, t);
    case _ =>
      QuietSent(cfg, l, e, c);
      WakesNone(Handle(cfg, l, e, c).sent, t);
  }

  // ----- what a handler changes -----

  /** What resumption depends on is the same. */
  predicate SameView(x: Txn, y: Txn) {
    && y.pending == x.pending && y.complete == x.complete && y.total == x.total
    && y.state == x.state && |y.tasks| == |x.tasks|
    && forall k :: 0 <= k < |x.tasks| ==> y.tasks[k].hasCb == x.tasks[k].hasCb
  }

  /** The event runs user code of transaction `t` that may change its state. */
  predicate Concerns(m: Msg, t: TxnId) { (m.TaskCb? || m.WorkflowRun?) && m.txn == t }

  lemma OthersKept(cfg: Config, l: Local, e: Event, c: Choice, t: TxnId)
    requires Handle(cfg, l, e, c).Effect? && t in l.txns && !Concerns(e.msg, t)
    ensures t in Handle(cfg, l, e, c).local.txns && SameView(l.txns[t], Handle(cfg, l, e, c).local.txns[t])
  {
    match e.msg
    case TaskRun(id, k, _, _, _) => PendingsView(l.txns[id], k, |c.started|);
    case TimerRun(_, job, _) =>
      if job.pend.Pend? { PendingsView(l.txns[job.pend.txn], job.pend.task, |c.started| - 1); }
    case _ => TxnsKept(cfg, l, e, c, t);
  }

  lemma PendingsView(x: Txn, k: nat, n: int)
    requires k < |x.tasks|
    ensures SameView(x, AddPendings(x, k, n))
  {
  }

  /** Handlers on the master change no transaction; callbacks and steps change only theirs. */
  lemma TxnsKept(cfg: Config, l: Local, e: Event, c: Choice, t: TxnId)
    requires Handle(cfg, l, e, c).Effect? && t in l.txns && !Concerns(e.msg, t)
    requires !e.msg.TaskRun? && !e.msg.TimerRun?
    ensures t in Handle(cfg, l, e, c).local.txns && l.txns[t] == Handle(cfg, l, e, c).local.txns[t]
  {
  }

  /** No handler brings a transaction to life. */
  lemma NoneBorn(cfg: Config, l: Local, e: Event, c: Choice, t: TxnId)
    requires Handle(cfg, l, e, c).Effect? && t !in l.txns
    ensures t !in Handle(cfg, l, e, c).local.txns
  {
  }

  /** Endpoint replies, timers, new jobs and arrivals of others leave `t` as it is. */
  lemma EnvironmentKept(cfg: Config, s: State, step: Step, s': State, t: TxnId)
    requires Next(cfg, s, step, s') && !step.Deliver? && (step.Arrive? ==> t != s.local.nextTxn)
    ensures t in s'.local.txns <==> t in s.local.txns
    ensures t in s.local.txns ==> SameView(s.local.txns[t], s'.local.txns[t])
    ensures WakesOf(s'.net, t) == WakesOf(s.net, t)
    ensures exists sent :: s'.net == s.net + sent && forall e :: e in sent ==> Silent(e.msg) || e.msg.txn != t
  {
    var eff := Perform(cfg, s, step).0;
    assert s'.net == s.net + eff.sent;
    assert forall e :: e in eff.sent ==> Silent(e.msg) || e.msg.txn != t;
    WakesAppend(s.net, eff.sent, t);
    WakesNone(eff.sent, t);
  }

  // ----- the one resume token -----

  /** The transaction waits for service calls, or exactly one event in flight resumes it. */
  predicate OneToken(s: State, t: TxnId) {
    t in s.local.txns && WakesOf(s.net, t).wake + (if s.local.txns[t].pending > 0 then 1 else 0) == 1
  }

  predicate Finishes(m: Msg) { m.TaskCb? && (m.status == TaskDone || m.status == TaskBusy) }

  /** The two ways to lose the token: the last incomplete call completes and has no callback,
      or the workflow ends while calls are still incomplete. */
  predicate BreaksToken(s: State, step: Step, t: TxnId) {
    && step.Deliver? && step.pos < |s.net| && t in s.local.txns
    && var (m, x) := (s.net[step.pos].msg, s.local.txns[t]);
       || (Finishes(m) && m.txn == t && m.task < |x.tasks| && !x.tasks[m.task].hasCb && x.complete + 1 == x.total)
       || (m.WorkflowRun? && m.txn == t && EndsIncomplete(x, step.choice.conduct))
  }

  /** The workflow has no module left to run, or runs one that makes no call with a callback and
      fails or is the last; and some call, old or just made, is incomplete then. */
  predicate EndsIncomplete(x: Txn, c: Conduct) {
    && (RunsModule(x) ==> (forall k :: k in c.calls ==> !k.hasCb) && (c.failed || x.next + 1 == x.modules))
    && x.complete < x.total + |CallsOf(x, c)|
  }

  /** Whether a step of a transaction that does not wait ends it with calls incomplete can be told
      from the transaction and what its module does. */
  lemma EndsExactly(x: Txn, c: Conduct)
    requires FlowOk(x) && Resting(x.state) && x.pending == 0 && Run(x, c, 0).Ended?
    ensures var y := Run(x, c, 0).txn;
      EndsIncomplete(x, c) <==> y.state == Destroyed && y.complete < y.total
  {
    StepFollows(x, c, 0);
    SumBounds(c.calls, CbWeight());
    if forall k :: k in c.calls ==> !k.hasCb { SumZero(c.calls, CbWeight()); }
  }

  lemma {:induction false} TableSums(tasks: seq<Task>)
    ensures 0 <= Sum(tasks, WaitWeight()) <= |tasks| - Sum(tasks, DoneWeight())
    ensures forall k :: 0 <= k < |tasks| && tasks[k].hasCb && !tasks[k].Complete() ==> Sum(tasks, WaitWeight()) > 0
  {
    if tasks != [] {
      TableSums(tasks[1..]);
      forall k | 0 <= k < |tasks| && tasks[k].hasCb && !tasks[k].Complete() ensures Sum(tasks, WaitWeight()) > 0 {
        if k > 0 { assert tasks[k] == tasks[1..][k - 1]; }
      }
    }
  }

  /** A transaction never waits for more than its incomplete calls. */
  lemma WaitsAtMost(t: Txn)
    requires Counted(t)
    ensures 0 <= t.pending <= t.total - t.complete
    ensures forall k :: 0 <= k < |t.tasks| && t.tasks[k].hasCb && !t.tasks[k].Complete() ==> t.pending > 0
  {
    TableSums(t.tasks);
  }

  /** When only a call without a callback is missing, the transaction does not wait. */
  lemma LastUncalled(t: Txn, k: nat)
    requires Counted(t) && k < |t.tasks| && !t.tasks[k].Complete() && !t.tasks[k].hasCb
    ensures t.complete + 1 <= t.total && (t.complete + 1 == t.total ==> t.pending == 0)
  {
    SumRemove(t.tasks, k, DoneWeight());
    SumRemove(t.tasks, k, WaitWeight());
    TableSums(Remove(t.tasks, k));
  }

  /** The notice or completion of call `k`: what it does to the wait, and whether it resumes. */
  lemma CallbackView(cfg: Config, s: State, i: nat, c: Conduct)
    requires Ledger(cfg, s) && Deliverable(s.net, i) && s.net[i].msg.TaskCb?
    requires HandleTaskCb(cfg, s.local, s.net[i], c).Effect?
    ensures var m := s.net[i].msg;
      && m.txn in s.local.txns && m.task < |s.local.txns[m.txn].tasks|
      && var (x, y) := (s.local.txns[m.txn], HandleTaskCb(cfg, s.local, s.net[i], c).local.txns[m.txn]);
         && y.pending >= 0
         && (x.tasks[m.task].hasCb ==> x.pending > 0 && Resumes(y, m.task) == (y.pending == 0))
         && (!x.tasks[m.task].hasCb ==>
               && y.pending == x.pending
               && Resumes(y, m.task) == (Finishes(m) && x.complete + 1 == x.total)
               && (Resumes(y, m.task) ==> x.pending == 0))
  {
    var m := s.net[i].msg;
    assert MsgOk(cfg, s.local, s.net[i]);
    assert TxnOk(s.local, m.txn);
    var x := s.local.txns[m.txn];
    WaitsAtMost(x);
    if m.status == TaskPending {
      NoticeConsumed(cfg, s, i);
      if !x.tasks[m.task].hasCb { LastUncalled(x, m.task); }
    } else {
      CallFinished(cfg, s, i, m.txn, m.task);
      FinishView(cfg, s, i, c);
    }
  }

  lemma FinishView(cfg: Config, s: State, i: nat, c: Conduct)
    requires i < |s.net| && Finishes(s.net[i].msg) && HandleTaskCb(cfg, s.local, s.net[i], c).Effect?
    requires var (m, x) := (s.net[i].msg, s.local.txns[s.net[i].msg.txn]);
      Counted(x) && !x.tasks[m.task].Complete() && x.pending >= 0 && (x.tasks[m.task].hasCb ==> x.pending > 0)
    ensures var m := s.net[i].msg;
      var (x, y) := (s.local.txns[m.txn], HandleTaskCb(cfg, s.local, s.net[i], c).local.txns[m.txn]);
      && y.pending >= 0
      && (x.tasks[m.task].hasCb ==> Resumes(y, m.task) == (y.pending == 0))
      && (!x.tasks[m.task].hasCb ==>
            && y.pending == x.pending
            && Resumes(y, m.task) == (x.complete + 1 == x.total)
            && (Resumes(y, m.task) ==> x.pending == 0))
  {
    var m := s.net[i].msg;
    var x := s.local.txns[m.txn];
    if x.tasks[m.task].hasCb {
      SumBounds(c.calls, CbWeight());
    } else {
      LastUncalled(x, m.task);
      AddNone(SetTaskComplete(x, m.task, m.status));
    }
  }

  lemma CallbackLaw(cfg: Config, s: State, i: nat, c: Choice, t: TxnId)
    requires Ledger(cfg, s) && Deliverable(s.net, i) && s.net[i].msg.TaskCb? && s.net[i].msg.txn == t
    requires Handle(cfg, s.local, s.net[i], c).Effect? && OneToken(s, t)
    ensures OneToken(After(s, i, Handle(cfg, s.local, s.net[i], c)), t) <==> !BreaksToken(s, Deliver(i, c), t)
  {
    var eff := Handle(cfg, s.local, s.net[i], c);
    CallbackView(cfg, s, i, c.conduct);
    HandlerSends(cfg, s.local, s.net[i], c, t);
    WakesReplace(s.net, i, eff.sent, t);
    WakesMember(s.net, t);
  }

  /** The workflow step ends waiting, going on, freed, or destroyed with calls incomplete. */
  lemma WorkflowView(cfg: Config, s: State, i: nat, c: Conduct)
    requires Ledger(cfg, s) && Flows(s) && i < |s.net| && s.net[i].msg.WorkflowRun?
    requires HandleWorkflowRun(cfg, s.local, s.net[i], c).Effect? && s.local.txns[s.net[i].msg.txn].pending == 0
    ensures var t := s.local.txns[s.net[i].msg.txn];
      var o := Run(t, c, 0);
      && o.Ended? && (EndsIncomplete(t, c) <==> o.txn.state == Destroyed && o.txn.complete < o.txn.total)
      && Counted(o.txn) && o.txn.pending >= 0
      && (o.freed <==> o.txn.state == Destroyed && !EndsIncomplete(t, c))
      && (o.txn.state == Destroyed ==> o.txn.pending == 0 && !o.again)
      && (o.txn.state != Destroyed ==> (o.again <==> o.txn.pending == 0))
  {
    var t := s.local.txns[s.net[i].msg.txn];
    var calls := CallsOf(t, c);
    assert TxnOk(s.local, s.net[i].msg.txn);
    StepFollows(t, c, 0);
    EndsExactly(t, c);
    CallsCounted(t, calls);
    WaitsAtMost(AddCalls(t, calls));
    AddNone(t);
  }

  lemma WorkflowLaw(cfg: Config, s: State, i: nat, c: Choice, t: TxnId)
    requires Ledger(cfg, s) && Flows(s) && i < |s.net| && s.net[i].msg == WorkflowRun(t)
    requires Handle(cfg, s.local, s.net[i], c).Effect? && OneToken(s, t)
    ensures var s' := After(s, i, Handle(cfg, s.local, s.net[i], c));
      (t in s'.local.txns ==> OneToken(s', t)) <==> !BreaksToken(s, Deliver(i, c), t)
  {
    var eff := Handle(cfg, s.local, s.net[i], c);
    WakesMember(s.net, t);
    assert s.net[i] in s.net;
    assert TxnOk(s.local, t);
    WaitsAtMost(s.local.txns[t]);
    WorkflowView(cfg, s, i, c.conduct);
    HandlerSends(cfg, s.local, s.net[i], c, t);
    WakesReplace(s.net, i, eff.sent, t);
  }

  lemma OtherLaw(cfg: Config, s: State, i: nat, c: Choice, t: TxnId)
    requires i < |s.net| && !Concerns(s.net[i].msg, t) && Handle(cfg, s.local, s.net[i], c).Effect? && OneToken(s, t)
    ensures OneToken(After(s, i, Handle(cfg, s.local, s.net[i], c)), t)
  {
    var eff := Handle(cfg, s.local, s.net[i], c);
    OthersKept(cfg, s.local, s.net[i], c, t);
    HandlerSends(cfg, s.local, s.net[i], c, t);
    WakesReplace(s.net, i, eff.sent, t);
  }

  /** The token law, with no assumption on callbacks: a step from a state with one resume token
      leaves one token, or frees the transaction, if and only if it is neither of the two steps
      that break it. */
  lemma TokenLaw(cfg: Config, s: State, step: Step, s': State, t: TxnId)
    requires Inv(cfg, s) && Next(cfg, s, step, s') && OneToken(s, t)
    ensures (t in s'.local.txns ==> OneToken(s', t)) <==> !BreaksToken(s, step, t)
  {
    if step.Deliver? {
      var m := s.net[step.pos].msg;
      if m.TaskCb? && m.txn == t {
        CallbackLaw(cfg, s, step.pos, step.choice, t);
      } else if m.WorkflowRun? && m.txn == t {
        WorkflowLaw(cfg, s, step.pos, step.choice, t);
      } else {
        OtherLaw(cfg, s, step.pos, step.choice, t);
      }
    } else {
      assert TxnOk(s.local, t);
      EnvironmentKept(cfg, s, step, s', t);
    }
  }

  // ----- which handlers fail -----

  /** The only ways a handler fails: the workflow event of a freed transaction, or of a destroyed
      one whose time limit has passed, or a failing callback of a destroyed transaction. */
  predicate Fails(l: Local, e: Event, c: Choice) {
    match e.msg
    case WorkflowRun(id) => id in l.txns ==> l.txns[id].state == Destroyed && TimedOut(l.txns[id], c.conduct, 0)
    case TaskCb(id, k, _, _, _, _) =>
      && Finishes(e.msg) && id in l.txns && k < |l.txns[id].tasks| && l.txns[id].tasks[k].hasCb
      && c.conduct.failed && l.txns[id].state == Destroyed
    case _ => false
  }

  /** A handler fails if and only if it is one of these. */
  lemma HandlerFails(cfg: Config, s: State, i: nat, c: Choice)
    requires Inv(cfg, s) && Deliverable(s.net, i) && LegalChoice(cfg, s.local, c)
    ensures Handle(cfg, s.local, s.net[i], c).Crash? <==> Fails(s.local, s.net[i], c)
  {
    match s.net[i].msg
    case TaskCb(_, _, _, _, _, _) => CallbackFails(cfg, s, i, c);
    case WorkflowRun(t) => if t in s.local.txns { StepFollows(s.local.txns[t], c.conduct, 0); }
    case _ => OthersSucceed(cfg, s, i, c);
  }

  lemma CallbackFails(cfg: Config, s: State, i: nat, c: Choice)
    requires Ledger(cfg, s) && Deliverable(s.net, i) && s.net[i].msg.TaskCb?
    ensures HandleTaskCb(cfg, s.local, s.net[i], c.conduct).Crash? <==> Fails(s.local, s.net[i], c)
  {
    var m := s.net[i].msg;
    assert MsgOk(cfg, s.local, s.net[i]);
    if Finishes(m) { CallFinished(cfg, s, i, m.txn, m.task); }
  }

  lemma OthersSucceed(cfg: Config, s: State, i: nat, c: Choice)
    requires Ledger(cfg, s) && Deliverable(s.net, i) && LegalChoice(cfg, s.local, c)
    requires !s.net[i].msg.TaskCb? && !s.net[i].msg.WorkflowRun?
    ensures Handle(cfg, s.local, s.net[i], c).Effect?
  {
    match s.net[i].msg
    case IoCall(_, _, _, _, _) => IoCallLedger(cfg, s, i);
    case TaskRun(_, _, _, _, _) => ApiRan(cfg, s, i, c.started);
    case Done(_, _, _, _, _) => DoneLedger(cfg, s, i);
    case TimerEmit(_, _) => TimerEmitLedger(cfg, s, i);
    case TimerRun(_, _, _) => TimerRunLedger(cfg, s, i, c.started);
    case TimerDone(_, _, _) => TimerDoneLedger(cfg, s, i);
  }
}
