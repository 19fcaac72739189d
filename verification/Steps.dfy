/** Every handler keeps the ledger of service calls. A handler is taken apart into the small
    steps of `LedgerSteps`: consume the event, change one call or the calls of one transaction,
    send the events. Lemmas named Shape say that the handler's state is the one the small steps
    lead to; lemmas named Ledger put them together. */
module ProtocolSteps {
  import opened Seqs
  import opened QueueSpec
  import opened ServiceSpec
  import opened TxnSpec
  import opened WorkflowLaws
  import opened Protocol
  import opened Invariants
  import opened LedgerSteps

  ghost predicate Flows(s: State) {
    forall t :: t in s.local.txns ==> FlowOk(s.local.txns[t]) && Resting(s.local.txns[t].state)
  }

  /** What holds in every state of every run. */
  ghost predicate Inv(cfg: Config, s: State) {
    Ledger(cfg, s) && Slots(s) && Flows(s)
  }

  /** The state after the handler of event `i` had effect `eff`. */
  function After(s: State, i: nat, eff: Effect): State
    requires i < |s.net| && eff.Effect?
  {
    State(eff.local, Remove(s.net, i) + eff.sent)
  }

  // ----- the ledger, handler by handler -----

  /** Scheduling after the ledger is in order. */
  lemma ScheduleLedger(cfg: Config, s: State, v: ServiceId)
    requires Ledger(cfg, s) && v in s.local.svcs
    ensures s.local.svcs[v].Valid()
    ensures var eff := Schedule(cfg, s.local, v, s.local.svcs[v], []);
      eff.Effect? && Ledger(cfg, State(eff.local, s.net + eff.sent))
  {
    Dispatch(cfg, s, v);
    var batch := Drain(s.local.svcs[v]).1;
    assert [] + Map(ToRun(cfg, v), batch) == Map(ToRun(cfg, v), batch);
  }

  lemma IoCallLedger(cfg: Config, s: State, i: nat)
    requires Ledger(cfg, s) && i < |s.net| && s.net[i].msg.IoCall?
    ensures var eff := HandleIoCall(cfg, s.local, s.net[i]); eff.Effect? && Ledger(cfg, After(s, i, eff))
  {
    var e := s.net[i];
    var m := e.msg;
    assert MsgOk(cfg, s.local, e);
    if s.local.svcs[m.svc].queue.Full(m.kind) {
      var r := Event(MASTER, e.src, TaskCb(m.txn, m.task, m.svc, m.kind, TaskBusy, false));
      forall t, k ensures CountOne(r, t, k) == CountOne(e, t, k) {}
      Replace(cfg, s, i, r);
    } else {
      QueueThenSchedule(cfg, s, i, m.svc, Elem(m.kind, ApiTask(e.src, m.bidx, m.txn, m.task)));
    }
  }

  lemma TimerEmitLedger(cfg: Config, s: State, i: nat)
    requires Ledger(cfg, s) && i < |s.net| && s.net[i].msg.TimerEmit?
    ensures var eff := HandleTimerEmit(cfg, s.local, s.net[i]); eff.Effect? && Ledger(cfg, After(s, i, eff))
  {
    var e := s.net[i];
    var m := e.msg;
    assert MsgOk(cfg, s.local, e);
    if s.local.svcs[m.svc].queue.Full(m.job.kind) {
      var r := Event(MASTER, e.src, TimerRun(m.svc, m.job, false));
      forall t, k ensures CountOne(r, t, k) == CountOne(e, t, k) {}
      Replace(cfg, s, i, r);
    } else {
      QueueThenSchedule(cfg, s, i, m.svc, Elem(m.job.kind, TimerTask(e.src, m.job)));
    }
  }

  lemma QueueThenSchedule(cfg: Config, s: State, i: nat, v: ServiceId, x: SrvTask)
    requires Ledger(cfg, s) && i < |s.net| && MayQueue(s, v, x)
    requires SameAs(x, s.net[i]) && ElemOk(cfg, s.local, v, x)
    ensures var sv := s.local.svcs[v];
      var eff := Schedule(cfg, s.local, v, sv.(queue := Push(sv.queue, x)), []);
      eff.Effect? && Ledger(cfg, After(s, i, eff))
  {
    Enqueue(cfg, s, i, v, x);
    var q := Enqueued(s, i, v, x);
    ScheduleLedger(cfg, q, v);
    var eff := Schedule(cfg, q.local, v, q.local.svcs[v], []);
    assert eff.local.svcs == s.local.svcs[v := eff.local.svcs[v]];
  }

  /** Releasing a slot touches no call. */
  lemma SlotReleased(cfg: Config, s: State, v: ServiceId)
    requires Ledger(cfg, s) && v in s.local.svcs
    ensures SetComplete(s.local.svcs[v]).Valid()
    ensures Ledger(cfg, State(s.local.(svcs := s.local.svcs[v := SetComplete(s.local.svcs[v])]), s.net))
  {
    var sv := SetComplete(s.local.svcs[v]);
    assert sv.queue.Pending() == s.local.svcs[v].queue.Pending();
    var s' := State(s.local.(svcs := s.local.svcs[v := sv]), s.net);
    GrowWellFormed(cfg, s, s');
    forall t, k | t in s.local.txns && 0 <= k < |s.local.txns[t].tasks| ensures TaskOk(s', t, k) {
      assert TaskOk(s, t, k);
      SameCounts(s, s', t, k);
    }
  }

  /** The master's end of a task: consume, maybe release, maybe resume, then schedule. */
  lemma ReleaseThenSchedule(cfg: Config, s: State, i: nat, v: ServiceId, release: bool, sent: seq<Event>)
    requires Ledger(cfg, s) && i < |s.net| && Neutral(s.net[i].msg) && v in s.local.svcs
    requires |sent| <= 1 && forall e :: e in sent ==> Neutral(e.msg) && MsgOk(cfg, s.local, e)
    ensures var sv := if release then SetComplete(s.local.svcs[v]) else s.local.svcs[v];
      sv.Valid() &&
      var eff := Schedule(cfg, s.local, v, sv, sent);
      eff.Effect? && Ledger(cfg, After(s, i, eff))
  {
    var sv := if release then SetComplete(s.local.svcs[v]) else s.local.svcs[v];
    var l := s.local.(svcs := s.local.svcs[v := sv]);
    assert Ledger(cfg, State(l, Remove(s.net, i) + sent)) by {
      assert Ledger(cfg, State(l, Remove(s.net, i))) by {
        Consume(cfg, s, i);
        if release {
          SlotReleased(cfg, State(s.local, Remove(s.net, i)), v);
        } else {
          assert l == s.local;
        }
      }
      ReleasedSend(cfg, s, l, Remove(s.net, i), sent);
    }
    ScheduleLedger(cfg, State(l, Remove(s.net, i) + sent), v);
    ScheduleShape(cfg, s.local, v, sv, sent, Remove(s.net, i));
  }

  lemma ReleasedSend(cfg: Config, s: State, l: Local, net: seq<Event>, sent: seq<Event>)
    requires Extends(s.local, l) && Ledger(cfg, State(l, net))
    requires |sent| <= 1 && forall e :: e in sent ==> Neutral(e.msg) && MsgOk(cfg, s.local, e)
    ensures Ledger(cfg, State(l, net + sent))
  {
    if sent != [] {
      assert sent == [sent[0]] && sent[0] in sent;
      KeepsMsg(cfg, s.local, l, sent[0]);
      Send(cfg, State(l, net), sent[0]);
    } else {
      assert net + sent == net;
    }
  }

  lemma ScheduleShape(cfg: Config, l: Local, v: ServiceId, sv: Service, sent: seq<Event>, net: seq<Event>)
    requires sv.Valid()
    ensures var eff := Schedule(cfg, l, v, sv, sent);
      var last := Schedule(cfg, l.(svcs := l.svcs[v := sv]), v, sv, []);
      eff.Effect? && last.Effect? && State(eff.local, net + eff.sent) == State(last.local, (net + sent) + last.sent)
  {
    var (s1, batch) := Drain(sv);
    var run := Map(ToRun(cfg, v), batch);
    assert [] + run == run;
    Regroup(net, sent, run);
    assert l.svcs[v := sv][v := s1] == l.svcs[v := s1];
  }

  lemma DoneLedger(cfg: Config, s: State, i: nat)
    requires Ledger(cfg, s) && i < |s.net| && s.net[i].msg.Done?
    ensures var eff := HandleDone(cfg, s.local, s.net[i]); eff.Effect? && Ledger(cfg, After(s, i, eff))
  {
    var e := s.net[i];
    var m := e.msg;
    assert MsgOk(cfg, s.local, e);
    ReleaseThenSchedule(cfg, s, i, m.svc, m.slot, if m.resume then [Event(MASTER, e.src, WorkflowRun(m.txn))] else []);
  }

  lemma TimerDoneLedger(cfg: Config, s: State, i: nat)
    requires Ledger(cfg, s) && i < |s.net| && s.net[i].msg.TimerDone?
    ensures var eff := HandleTimerDone(cfg, s.local, s.net[i]); eff.Effect? && Ledger(cfg, After(s, i, eff))
  {
    assert MsgOk(cfg, s.local, s.net[i]);
    ReleaseThenSchedule(cfg, s, i, s.net[i].msg.svc, s.net[i].msg.ok, []);
  }

  lemma TimerRunLedger(cfg: Config, s: State, i: nat, started: seq<Started>)
    requires Ledger(cfg, s) && i < |s.net| && s.net[i].msg.TimerRun?
    requires forall x :: x in started ==> LegalStart(x)
    ensures var eff := HandleTimerRun(cfg, s.local, s.net[i], started); eff.Effect? && Ledger(cfg, After(s, i, eff))
  {
    var e := s.net[i];
    var m := e.msg;
    assert MsgOk(cfg, s.local, e);
    var done := Event(e.dst, e.src, TimerDone(m.svc, m.job, m.ok));
    if m.job.pend.NoPend? {
      forall t, k ensures CountOne(done, t, k) == CountOne(e, t, k) {}
      Replace(cfg, s, i, done);
    } else {
      JobRan(cfg, s, i, started);
      var eff := FinishPending(s.local, e.dst, m.svc, m.job.pend, started);
      var s1 := State(eff.local, Remove(s.net, i) + eff.sent);
      Send(cfg, s1, done);
      assert s1.net + [done] == Remove(s.net, i) + (eff.sent + [done]);
    }
  }

  lemma TaskCbLedger(cfg: Config, s: State, i: nat, c: Conduct)
    requires Ledger(cfg, s) && Deliverable(s.net, i) && s.net[i].msg.TaskCb?
    requires forall x :: x in c.calls ==> LegalCall(cfg, s.local, x)
    requires HandleTaskCb(cfg, s.local, s.net[i], c).Effect?
    ensures Ledger(cfg, After(s, i, HandleTaskCb(cfg, s.local, s.net[i], c)))
  {
    assert MsgOk(cfg, s.local, s.net[i]);
    if s.net[i].msg.status == TaskPending {
      NoticeLedger(cfg, s, i, c);
    } else {
      FinishLedger(cfg, s, i, c);
    }
  }

  lemma NoticeLedger(cfg: Config, s: State, i: nat, c: Conduct)
    requires Ledger(cfg, s) && i < |s.net| && s.net[i].msg.TaskCb? && s.net[i].msg.status == TaskPending
    requires HandleTaskCb(cfg, s.local, s.net[i], c).Effect?
    ensures Ledger(cfg, After(s, i, HandleTaskCb(cfg, s.local, s.net[i], c)))
  {
    var e := s.net[i];
    var m := e.msg;
    assert MsgOk(cfg, s.local, e);
    assert TxnOk(s.local, m.txn);
    var t := s.local.txns[m.txn];
    var done := Event(e.dst, MASTER, Done(m.txn, m.svc, m.kind, Resumes(t, m.task), m.slot));
    assert Ledger(cfg, State(s.local, Remove(s.net, i) + [done])) by {
      NoticeConsumed(cfg, s, i);
      Send(cfg, State(s.local, Remove(s.net, i)), done);
    }
    assert IoCalls(e.dst, m.txn, t, |t.tasks|) + [done] == [done];
    assert s.local.txns[m.txn := t] == s.local.txns;
    assert After(s, i, HandleTaskCb(cfg, s.local, e, c)) == State(s.local, Remove(s.net, i) + [done]);
  }

  lemma FinishLedger(cfg: Config, s: State, i: nat, c: Conduct)
    requires Ledger(cfg, s) && Deliverable(s.net, i) && s.net[i].msg.TaskCb?
    requires s.net[i].msg.status == TaskDone || s.net[i].msg.status == TaskBusy
    requires forall x :: x in c.calls ==> LegalCall(cfg, s.local, x)
    requires HandleTaskCb(cfg, s.local, s.net[i], c).Effect?
    ensures Ledger(cfg, After(s, i, HandleTaskCb(cfg, s.local, s.net[i], c)))
  {
    var e := s.net[i];
    var m := e.msg;
    var eff := HandleTaskCb(cfg, s.local, e, c);
    var t1 := eff.local.txns[m.txn];
    var calls := IoCalls(e.dst, m.txn, t1, |s.local.txns[m.txn].tasks|);
    var done := Event(e.dst, MASTER, Done(m.txn, m.svc, m.kind, Resumes(t1, m.task), m.slot));
    DoneOk(cfg, s, i, c);
    FinishCalls(cfg, s, i, c);
    Send(cfg, State(eff.local, Remove(s.net, i) + calls), done);
    Regroup(Remove(s.net, i), calls, [done]);
  }

  lemma DoneOk(cfg: Config, s: State, i: nat, c: Conduct)
    requires WellFormed(cfg, s) && i < |s.net| && s.net[i].msg.TaskCb?
    requires HandleTaskCb(cfg, s.local, s.net[i], c).Effect?
    ensures var m := s.net[i].msg;
      var l := HandleTaskCb(cfg, s.local, s.net[i], c).local;
      forall resume :: MsgOk(cfg, l, Event(s.net[i].dst, MASTER, Done(m.txn, m.svc, m.kind, resume, m.slot)))
  {
    assert MsgOk(cfg, s.local, s.net[i]);
    assert TxnOk(s.local, s.net[i].msg.txn);
  }

  /** The call is complete and the calls of its callback are registered and sent. */
  lemma FinishCalls(cfg: Config, s: State, i: nat, c: Conduct)
    requires Ledger(cfg, s) && Deliverable(s.net, i) && s.net[i].msg.TaskCb?
    requires s.net[i].msg.status == TaskDone || s.net[i].msg.status == TaskBusy
    requires forall x :: x in c.calls ==> LegalCall(cfg, s.local, x)
    requires HandleTaskCb(cfg, s.local, s.net[i], c).Effect?
    ensures var e := s.net[i];
      var eff := HandleTaskCb(cfg, s.local, e, c);
      Ledger(cfg, State(eff.local, Remove(s.net, i) +
        IoCalls(e.dst, e.msg.txn, eff.local.txns[e.msg.txn], |s.local.txns[e.msg.txn].tasks|)))
  {
    var e := s.net[i];
    var m := e.msg;
    var t := s.local.txns[m.txn];
    var t1 := HandleTaskCb(cfg, s.local, e, c).local.txns[m.txn];
    var made := if t.tasks[m.task].hasCb then c.calls else [];
    var s1 := Finished(s, i, m.txn, m.task, m.status);
    assert Ledger(cfg, Called(s1, m.txn, made)) by {
      CallFinished(cfg, s, i, m.txn, m.task);
      CallsMade(cfg, s1, m.txn, made);
    }
    FinishShape(cfg, s, i, c);
    FieldsAfterCalls(cfg, s1, m.txn, made, t1);
  }

  /** The callback's transaction is the finished one with the calls added, up to its state. */
  lemma FinishShape(cfg: Config, s: State, i: nat, c: Conduct)
    requires i < |s.net| && s.net[i].msg.TaskCb?
    requires s.net[i].msg.status == TaskDone || s.net[i].msg.status == TaskBusy
    requires HandleTaskCb(cfg, s.local, s.net[i], c).Effect?
    ensures var m := s.net[i].msg;
      var eff := HandleTaskCb(cfg, s.local, s.net[i], c);
      var s1 := Finished(s, i, m.txn, m.task, m.status);
      && m.txn in s.local.txns && m.task < |s.local.txns[m.txn].tasks|
      && SameTable(eff.local.txns[m.txn],
           AddCalls(s1.local.txns[m.txn], if s.local.txns[m.txn].tasks[m.task].hasCb then c.calls else []))
      && eff.local == s1.local.(txns := s1.local.txns[m.txn := eff.local.txns[m.txn]])
  {
    var m := s.net[i].msg;
    var s1 := Finished(s, i, m.txn, m.task, m.status);
    var eff := HandleTaskCb(cfg, s.local, s.net[i], c);
    assert s1.local.txns[m.txn := eff.local.txns[m.txn]] == s.local.txns[m.txn := eff.local.txns[m.txn]];
  }

  /** Calls are registered, then fields outside the task table change. */
  lemma FieldsAfterCalls(cfg: Config, s: State, id: TxnId, made: seq<Call>, t1: Txn)
    requires id in s.local.txns && Ledger(cfg, Called(s, id, made)) && SameTable(t1, AddCalls(s.local.txns[id], made))
    ensures var t := s.local.txns[id];
      Ledger(cfg, State(s.local.(txns := s.local.txns[id := t1]), s.net + IoCalls(t.home, id, t1, |t.tasks|)))
  {
    FieldsChanged(cfg, Called(s, id, made), id, t1);
    FieldsShape(s, id, made, t1);
  }

  lemma FieldsShape(s: State, id: TxnId, made: seq<Call>, t1: Txn)
    requires id in s.local.txns && SameTable(t1, AddCalls(s.local.txns[id], made))
    ensures var (t, s2) := (s.local.txns[id], Called(s, id, made));
      State(s2.local.(txns := s2.local.txns[id := t1]), s2.net) ==
        State(s.local.(txns := s.local.txns[id := t1]), s.net + IoCalls(t.home, id, t1, |t.tasks|))
  {
    var (t, s2) := (s.local.txns[id], Called(s, id, made));
    assert IoCalls(t.home, id, t1, |t.tasks|) == IoCalls(t.home, id, s2.local.txns[id], |t.tasks|);
    assert s2.local.txns[id := t1] == s.local.txns[id := t1];
  }

  /** The calls a module made are registered and sent. */
  lemma ModuleLedger(cfg: Config, s: State, i: nat, c: Conduct)
    requires Ledger(cfg, s) && Flows(s) && i < |s.net| && s.net[i].msg.WorkflowRun?
    requires s.net[i].msg.txn in s.local.txns
    requires forall x :: x in c.calls ==> LegalCall(cfg, s.local, x)
    requires Run(s.local.txns[s.net[i].msg.txn], c, 0).Ended?
    ensures var e := s.net[i];
      var id := e.msg.txn;
      var t := s.local.txns[id];
      var o := Run(t, c, 0);
      && |t.tasks| <= |o.txn.tasks|
      && Ledger(cfg, State(s.local.(txns := s.local.txns[id := o.txn]),
                           Remove(s.net, i) + IoCalls(e.dst, id, o.txn, |t.tasks|)))
  {
    var e := s.net[i];
    var id := e.msg.txn;
    var t := s.local.txns[id];
    StepFollows(t, c, 0);
    var s1 := State(s.local, Remove(s.net, i));
    assert Ledger(cfg, Called(s1, id, CallsOf(t, c))) by {
      Consume(cfg, s, i);
      CallsMade(cfg, s1, id, CallsOf(t, c));
    }
    FieldsAfterCalls(cfg, s1, id, CallsOf(t, c), Run(t, c, 0).txn);
    assert MsgOk(cfg, s.local, e);
  }

  lemma WorkflowRunLedger(cfg: Config, s: State, i: nat, c: Conduct)
    requires Ledger(cfg, s) && Flows(s) && i < |s.net| && s.net[i].msg.WorkflowRun?
    requires forall x :: x in c.calls ==> LegalCall(cfg, s.local, x)
    requires HandleWorkflowRun(cfg, s.local, s.net[i], c).Effect?
    ensures Ledger(cfg, After(s, i, HandleWorkflowRun(cfg, s.local, s.net[i], c)))
  {
    var e := s.net[i];
    var id := e.msg.txn;
    var t := s.local.txns[id];
    var o := Run(t, c, 0);
    var s3 := ModuleState(s, i, c);
    assert Ledger(cfg, s3) by { ModuleLedger(cfg, s, i, c); }
    WorkflowShape(cfg, s, i, c);
    if o.freed {
      FreedLedger(cfg, s3, id);
    } else if o.again {
      assert MsgOk(cfg, s3.local, Event(e.dst, e.dst, WorkflowRun(id))) by {
        StepFollows(t, c, 0);
        assert MsgOk(cfg, s.local, e);
        assert TxnOk(s.local, id);
      }
      Send(cfg, s3, Event(e.dst, e.dst, WorkflowRun(id)));
    }
  }

  /** The state after the module ran and its calls were sent. */
  function ModuleState(s: State, i: nat, c: Conduct): State
    requires i < |s.net| && s.net[i].msg.WorkflowRun? && s.net[i].msg.txn in s.local.txns
    requires var t := s.local.txns[s.net[i].msg.txn]; Run(t, c, 0).Ended? && |t.tasks| <= |Run(t, c, 0).txn.tasks|
  {
    var e := s.net[i];
    var t := s.local.txns[e.msg.txn];
    var t1 := Run(t, c, 0).txn;
    State(s.local.(txns := s.local.txns[e.msg.txn := t1]), Remove(s.net, i) + IoCalls(e.dst, e.msg.txn, t1, |t.tasks|))
  }

  lemma WorkflowShape(cfg: Config, s: State, i: nat, c: Conduct)
    requires Flows(s) && i < |s.net| && s.net[i].msg.WorkflowRun?
    requires HandleWorkflowRun(cfg, s.local, s.net[i], c).Effect?
    ensures var e := s.net[i];
      var id := e.msg.txn;
      var o := Run(s.local.txns[id], c, 0);
      var s3 := ModuleState(s, i, c);
      && id in s3.local.txns && s3.local.txns[id] == o.txn
      && (o.freed ==> o.txn.complete >= o.txn.total)
      && After(s, i, HandleWorkflowRun(cfg, s.local, e, c)) ==
           if o.freed then State(s3.local.(txns := s3.local.txns - {id}), s3.net)
           else if o.again then State(s3.local, s3.net + [Event(e.dst, e.dst, WorkflowRun(id))])
           else s3
  {
    var e := s.net[i];
    var id := e.msg.txn;
    var t := s.local.txns[id];
    var s3 := ModuleState(s, i, c);
    StepFollows(t, c, 0);
    var calls := IoCalls(e.dst, id, s3.local.txns[id], |t.tasks|);
    assert s3.local.txns - {id} == s.local.txns - {id};
    assert calls + [] == calls;
    var r := Event(e.dst, e.dst, WorkflowRun(id));
    assert s3.net + [r] == Remove(s.net, i) + (calls + [r]);
  }

  lemma FreedLedger(cfg: Config, s: State, id: TxnId)
    requires Ledger(cfg, s) && id in s.local.txns && s.local.txns[id].complete >= s.local.txns[id].total
    ensures Ledger(cfg, State(s.local.(txns := s.local.txns - {id}), s.net))
  {
    Freed(cfg, s, id);
  }
}
