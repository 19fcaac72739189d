/** Nothing that lives is ever stranded. */
module Progress {
  // With or without callbacks: a live transaction always has something under way that leads back
  // to it.

  import opened Seqs
  import opened QueueSpec
  import opened ServiceSpec
  import opened TxnSpec
  import opened WorkflowLaws
  import opened Protocol
  import opened Invariants
  import opened LedgerSteps
  import opened ProtocolSteps
  import opened Runs
  import opened Tokens

  /** The transaction, if it lives, has a wake-up in flight or an incomplete call. */
  predicate Driven(s: State, t: TxnId) {
    t in s.local.txns ==> WakesOf(s.net, t).wake >= 1 || s.local.txns[t].complete < s.local.txns[t].total
  }

  /** A callback that does not resume leaves some call incomplete. */
  lemma UnresumedIncomplete(t: Txn, k: nat)
    requires Counted(t) && k < |t.tasks| && !Resumes(t, k)
    ensures t.complete < t.total
  {
    WaitsAtMost(t);
  }

  /** A workflow step that neither goes on nor frees its transaction leaves some call incomplete. */
  lemma UnfinishedIncomplete(t: Txn, c: Conduct)
    requires FlowOk(t) && Resting(t.state) && Run(t, c, 0).Ended? && Counted(Run(t, c, 0).txn)
    requires !Run(t, c, 0).again && !Run(t, c, 0).freed
    ensures Run(t, c, 0).txn.complete < Run(t, c, 0).txn.total
  {
    StepFollows(t, c, 0);
    WaitsAtMost(Run(t, c, 0).txn);
  }

  lemma StepDrives(cfg: Config, s: State, i: nat, c: Choice, t: TxnId)
    requires Flows(s) && i < |s.net| && s.net[i].msg == WorkflowRun(t) && Handle(cfg, s.local, s.net[i], c).Effect?
    requires var l := Handle(cfg, s.local, s.net[i], c).local; t in l.txns ==> Counted(l.txns[t])
    ensures Driven(After(s, i, Handle(cfg, s.local, s.net[i], c)), t)
  {
    SentDrive(cfg, s, i, c, t);
    var o := Run(s.local.txns[t], c.conduct, 0);
    if !o.again && !o.freed { UnfinishedIncomplete(s.local.txns[t], c.conduct); }
  }

  lemma CallbackDrives(cfg: Config, s: State, i: nat, c: Choice, t: TxnId)
    requires i < |s.net| && s.net[i].msg.TaskCb? && s.net[i].msg.txn == t
    requires Handle(cfg, s.local, s.net[i], c).Effect? && Counted(Handle(cfg, s.local, s.net[i], c).local.txns[t])
    ensures Driven(After(s, i, Handle(cfg, s.local, s.net[i], c)), t)
  {
    SentDrive(cfg, s, i, c, t);
    var y := Handle(cfg, s.local, s.net[i], c).local.txns[t];
    if !Resumes(y, s.net[i].msg.task) { UnresumedIncomplete(y, s.net[i].msg.task); }
  }

  lemma OthersDrive(cfg: Config, s: State, i: nat, c: Choice, t: TxnId)
    requires i < |s.net| && !Concerns(s.net[i].msg, t) && Handle(cfg, s.local, s.net[i], c).Effect?
    requires t in s.local.txns && Driven(s, t)
    ensures Driven(After(s, i, Handle(cfg, s.local, s.net[i], c)), t)
  {
    SentDrive(cfg, s, i, c, t);
    OthersKept(cfg, s.local, s.net[i], c, t);
  }

  /** The wake-ups in flight after a delivery: those before, but for the event delivered, and
      those the handler sends. */
  lemma SentDrive(cfg: Config, s: State, i: nat, c: Choice, t: TxnId)
    requires i < |s.net| && Handle(cfg, s.local, s.net[i], c).Effect?
    ensures WakesOf(After(s, i, Handle(cfg, s.local, s.net[i], c)).net, t).wake
      == WakesOf(s.net, t).wake - WakeW(t)(s.net[i]) + Sends(cfg, s.local, s.net[i], c, t).wake
    ensures WakesOf(s.net, t).wake >= WakeW(t)(s.net[i])
  {
    HandlerSends(cfg, s.local, s.net[i], c, t);
    WakesReplace(s.net, i, Handle(cfg, s.local, s.net[i], c).sent, t);
    WakesMember(s.net, t);
    assert s.net[i] in s.net;
  }

  lemma ArrivalDriven(cfg: Config, s: State, step: Step, s': State)
    requires step.Arrive? && Next(cfg, s, step, s')
    ensures Driven(s', s.local.nextTxn)
  {
    var e := Event(step.from, step.home, WorkflowRun(s.local.nextTxn));
    assert s'.net == s.net + [e];
    WakesMember(s'.net, s.local.nextTxn);
    assert e in s'.net && WakeW(s.local.nextTxn)(e) == 1;
  }

  lemma DeliveryDrives(cfg: Config, s: State, i: nat, c: Choice, t: TxnId)
    requires Flows(s) && i < |s.net| && Handle(cfg, s.local, s.net[i], c).Effect? && Driven(s, t)
    requires var l := Handle(cfg, s.local, s.net[i], c).local; t in l.txns ==> Counted(l.txns[t])
    ensures Driven(After(s, i, Handle(cfg, s.local, s.net[i], c)), t)
  {
    var m := s.net[i].msg;
    if t !in s.local.txns {
      NoneBorn(cfg, s.local, s.net[i], c, t);
    } else if !Concerns(m, t) {
      OthersDrive(cfg, s, i, c, t);
    } else if m.TaskCb? {
      CallbackDrives(cfg, s, i, c, t);
    } else {
      StepDrives(cfg, s, i, c, t);
    }
  }

  /** Every step leaves every transaction driven. */
  lemma NextDriven(cfg: Config, s: State, step: Step, s': State, t: TxnId)
    requires Flows(s) && Driven(s, t) && Next(cfg, s, step, s')
    requires t in s'.local.txns ==> Counted(s'.local.txns[t])
    ensures Driven(s', t)
  {
    if step.Deliver? {
      DeliveryDrives(cfg, s, step.pos, step.choice, t);
    } else if step.Arrive? && t == s.local.nextTxn {
      ArrivalDriven(cfg, s, step, s');
    } else {
      EnvironmentKept(cfg, s, step, s', t);
    }
  }

  lemma RunFlows(cfg: Config, trace: seq<State>, steps: seq<Step>, n: nat)
    requires IsRun(cfg, trace, steps) && n < |trace|
    ensures Flows(trace[n]) && forall t :: t in trace[n].local.txns ==> Counted(trace[n].local.txns[t])
  {
    RunInv(cfg, trace, steps, n);
    assert forall t :: t in trace[n].local.txns ==> TxnOk(trace[n].local, t);
  }

  lemma {:induction false} RunDriven(cfg: Config, trace: seq<State>, steps: seq<Step>, n: nat, t: TxnId)
    requires IsRun(cfg, trace, steps) && n < |trace|
    ensures Driven(trace[n], t)
  {
    if n > 0 {
      RunDriven(cfg, trace, steps, n - 1, t);
      RunFlows(cfg, trace, steps, n - 1);
      RunFlows(cfg, trace, steps, n);
      assert Next(cfg, trace[n - 1], steps[n - 1], trace[n]);
      NextDriven(cfg, trace[n - 1], steps[n - 1], trace[n], t);
    }
  }

  // ----- where an incomplete call is -----

  lemma {:induction false} SomeIncomplete(tasks: seq<Task>) returns (k: nat)
    requires Sum(tasks, DoneWeight()) < |tasks|
    ensures k < |tasks| && !tasks[k].Complete()
  {
    if tasks[0].Complete() {
      var j := SomeIncomplete(tasks[1..]);
      k := j + 1;
    } else {
      k := 0;
    }
  }

  /** An event in flight resumes transaction `t` or carries one of its calls. */
  predicate InFlight(net: seq<Event>, t: TxnId) {
    exists e :: e in net && (IsWake(e.msg, t) || NamesCallOf(e.msg, t))
  }

  /** An endpoint reply or a timer is pending for one of its calls. */
  predicate Awaited(l: Local, t: TxnId) {
    exists o :: o in l.ops && PendOf(o).Pend? && PendOf(o).txn == t
  }

  /** One of its calls, or a job for one, is queued at a service, and an event in flight carries a
      slot of that service, whose release schedules the queue. */
  ghost predicate QueuedBehind(s: State, t: TxnId) {
    exists v :: v in s.local.svcs && (exists x :: x in s.local.svcs[v].queue.Pending() && QueuedFor(x, t))
      && Held(s.net, v, Read) + Held(s.net, v, Write) >= 1
  }

  /** No transaction is ever stranded, whatever its calls carry: a live transaction has an event
      in flight that resumes it or carries one of its calls, or pending work for a call, or a call
      queued at a service that is busy. */
  lemma NeverStranded(cfg: Config, trace: seq<State>, steps: seq<Step>, n: nat, t: TxnId)
    requires IsRun(cfg, trace, steps) && n < |trace| && t in trace[n].local.txns
    ensures InFlight(trace[n].net, t) || Awaited(trace[n].local, t) || QueuedBehind(trace[n], t)
  {
    var s := trace[n];
    RunDriven(cfg, trace, steps, n, t);
    if s.local.txns[t].complete < s.local.txns[t].total {
      CountersAgree(cfg, trace, steps, n, t);
      var k := SomeIncomplete(s.local.txns[t].tasks);
      CallFound(cfg, trace, steps, n, t, k);
    } else {
      var e := SumFound(s.net, WakeW(t));
      assert IsWake(e.msg, t);
    }
  }

  lemma {:induction false} SumFound<T>(s: seq<T>, w: T -> int) returns (x: T)
    requires Sum(s, w) > 0
    ensures x in s && w(x) > 0
  {
    if w(s[0]) > 0 {
      x := s[0];
    } else {
      x := SumFound(s[1..], w);
    }
  }

  lemma CallFound(cfg: Config, trace: seq<State>, steps: seq<Step>, n: nat, t: TxnId, k: nat)
    requires IsRun(cfg, trace, steps) && n < |trace| && t in trace[n].local.txns
    requires k < |trace[n].local.txns[t].tasks| && !trace[n].local.txns[t].tasks[k].Complete()
    ensures InFlight(trace[n].net, t) || Awaited(trace[n].local, t) || QueuedBehind(trace[n], t)
  {
    var s := trace[n];
    var v := s.local.txns[t].tasks[k].svc;
    var q := QueueOf(s.local, v);
    CallAccounted(cfg, trace, steps, n, t, k);
    if Count(s.net, t, k).token + Count(s.net, t, k).job > 0 {
      CountFound(s.net, t, k);
    } else if Sum(s.local.ops, OpW(t, k)) > 0 {
      var o := SumFound(s.local.ops, OpW(t, k));
    } else {
      QueuedFound(q, t, k);
      WorkConservation(cfg, trace, steps, n, v);
      SlotConservation(cfg, trace, steps, n, v);
    }
  }

  lemma QueuedFound(q: seq<SrvTask>, t: TxnId, k: nat)
    requires Sum(q, QueuedW(t, k)) > 0 || Sum(q, QueuedJobW(t, k)) > 0
    ensures exists x :: x in q && QueuedFor(x, t)
  {
    var w := if Sum(q, QueuedW(t, k)) > 0 then QueuedW(t, k) else QueuedJobW(t, k);
    var x := SumFound(q, w);
    assert x in q && QueuedFor(x, t);
  }

  lemma {:induction false} CountFound(net: seq<Event>, t: TxnId, k: nat)
    requires Count(net, t, k).token + Count(net, t, k).job > 0
    ensures InFlight(net, t)
  {
    if CountOne(net[0], t, k) == Zero() {
      CountFound(net[1..], t, k);
      var e :| e in net[1..] && (IsWake(e.msg, t) || NamesCallOf(e.msg, t));
      assert e in net;
    } else {
      assert net[0] in net && NamesCallOf(net[0].msg, t);
    }
  }

  /** When nothing is in flight and no reply or timer is pending for a call, every transaction
      that ever arrived is finished. */
  lemma QuietMeansFinished(cfg: Config, trace: seq<State>, steps: seq<Step>, n: nat)
    requires IsRun(cfg, trace, steps) && n < |trace| && trace[n].net == []
    requires forall o :: o in trace[n].local.ops ==> PendOf(o).NoPend?
    ensures trace[n].local.txns == map[]
  {
    forall t | t in trace[n].local.txns ensures false {
      NeverStranded(cfg, trace, steps, n, t);
    }
  }
}
