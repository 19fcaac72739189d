/** Every handler keeps the slots of every service. Handlers on the master queue tasks, schedule
    them and release their slots; handlers elsewhere pass a slot on with the event they send, or
    touch none. In each case the read and write slots carried by events in flight stay what the
    service's count and queue state say they are. */
module SlotSteps {
  import opened Seqs
  import opened QueueSpec
  import opened ServiceSpec
  import opened TxnSpec
  import opened Protocol
  import opened Invariants
  import opened LedgerSteps
  import opened ProtocolSteps

  /** Events that hold no slot. */
  predicate Slotless(m: Msg) {
    match m
    case TaskRun(_, _, _, _, _) => false
    case TaskCb(_, _, _, _, _, slot) => !slot
    case Done(_, _, _, _, slot) => !slot
    case TimerRun(_, _, ok) => !ok
    case TimerDone(_, _, ok) => !ok
    case _ => true
  }

  lemma SlotlessHeld(sent: seq<Event>, v: ServiceId, k: Kind)
    requires forall e :: e in sent ==> Slotless(e.msg)
    ensures Held(sent, v, k) == 0
  {
    SumZero(sent, SlotW(v, k));
  }

  lemma HeldReplace(net: seq<Event>, i: nat, sent: seq<Event>, v: ServiceId, k: Kind)
    requires i < |net|
    ensures Held(Remove(net, i) + sent, v, k) == Held(net, v, k) - SlotW(v, k)(net[i]) + Held(sent, v, k)
  {
    SumReplace(net, i, sent, SlotW(v, k));
  }

  /** A handler that passes the slot on and leaves the services alone. */
  lemma PassedOn(s: State, i: nat, l: Local, sent: seq<Event>)
    requires Slots(s) && i < |s.net| && l.svcs == s.local.svcs
    requires forall v, k :: Held(sent, v, k) == SlotW(v, k)(s.net[i])
    ensures Slots(State(l, Remove(s.net, i) + sent))
  {
    forall v | v in l.svcs ensures SlotsOk(State(l, Remove(s.net, i) + sent), v) {
      assert SlotsOk(s, v);
      HeldReplace(s.net, i, sent, v, Read);
      HeldReplace(s.net, i, sent, v, Write);
    }
  }

  /** A step of the environment that sends events without slots. */
  lemma SentOnly(s: State, l: Local, sent: seq<Event>)
    requires Slots(s) && l.svcs == s.local.svcs && forall e :: e in sent ==> Slotless(e.msg)
    ensures Slots(State(l, s.net + sent))
  {
    forall v | v in l.svcs ensures SlotsOk(State(l, s.net + sent), v) {
      assert SlotsOk(s, v);
      forall k ensures Held(s.net + sent, v, k) == Held(s.net, v, k) {
        SumAppend(s.net, sent, SlotW(v, k));
        SlotlessHeld(sent, v, k);
      }
    }
  }

  lemma {:induction false} BatchHeld(cfg: Config, u: ServiceId, batch: seq<SrvTask>, v: ServiceId, k: Kind)
    requires forall x :: x in batch ==> x.body.TimerTask? ==> x.kind == x.body.job.kind
    ensures Held(Map(ToRun(cfg, u), batch), v, k) == if u == v then Sum(batch, KindWeight(k)) else 0
  {
    if batch != [] {
      var f := ToRun(cfg, u);
      assert Map(f, batch)[1..] == Map(f, batch[1..]);
      assert batch[0] in batch;
      BatchHeld(cfg, u, batch[1..], v, k);
    }
  }

  /** The scheduling loop after service `v` became `sv` while `net` was in flight. */
  lemma ScheduleSlots(cfg: Config, l: Local, net: seq<Event>, v: ServiceId, sv: Service, sent: seq<Event>)
    requires v in l.svcs && sv.Valid() && Consistent(sv, Held(net, v, Read), Held(net, v, Write))
    requires forall u :: u in l.svcs && u != v ==> SlotsOk(State(l, net), u) && Saturated(l.svcs[u])
    requires forall x :: x in sv.queue.Pending() ==> x.body.TimerTask? ==> x.kind == x.body.job.kind
    requires forall e :: e in sent ==> Slotless(e.msg)
    ensures var eff := Schedule(cfg, l, v, sv, sent); eff.Effect? && Slots(State(eff.local, net + eff.sent))
  {
    var (s1, batch) := Drain(sv);
    var run := Map(ToRun(cfg, v), batch);
    var s' := State(l.(svcs := l.svcs[v := s1]), net + (sent + run));
    DrainMembers(sv);
    DrainConsistent(sv, Held(net, v, Read), Held(net, v, Write));
    DrainSaturates(sv);
    forall u, k ensures Held(s'.net, u, k) == Held(net, u, k) + if u == v then Sum(batch, KindWeight(k)) else 0 {
      SumAppend(net, sent + run, SlotW(u, k));
      SumAppend(sent, run, SlotW(u, k));
      SlotlessHeld(sent, u, k);
      BatchHeld(cfg, v, batch, u, k);
    }
    forall u | u in s'.local.svcs ensures SlotsOk(s', u) && Saturated(s'.local.svcs[u]) {
      if u != v { assert SlotsOk(State(l, net), u); }
    }
  }

  /** Slots of the other services when an event of service `v` is consumed. */
  lemma OthersKeep(s: State, i: nat, v: ServiceId)
    requires Slots(s) && i < |s.net|
    requires forall u, k :: u != v ==> SlotW(u, k)(s.net[i]) == 0
    ensures forall u :: u in s.local.svcs && u != v ==>
      SlotsOk(State(s.local, Remove(s.net, i)), u) && Saturated(s.local.svcs[u])
  {
    forall u | u in s.local.svcs && u != v ensures SlotsOk(State(s.local, Remove(s.net, i)), u) {
      assert SlotsOk(s, u);
      SumRemove(s.net, i, SlotW(u, Read));
      SumRemove(s.net, i, SlotW(u, Write));
    }
  }

  lemma KindsAgree(cfg: Config, s: State, v: ServiceId)
    requires WellFormed(cfg, s) && v in s.local.svcs
    ensures forall x :: x in s.local.svcs[v].queue.Pending() ==> x.body.TimerTask? ==> x.kind == x.body.job.kind
  {
    forall x | x in s.local.svcs[v].queue.Pending() ensures x.body.TimerTask? ==> x.kind == x.body.job.kind {
      assert ElemOk(cfg, s.local, v, x);
    }
  }

  /** A task is queued and the service scheduled. */
  lemma QueuedSlots(cfg: Config, s: State, i: nat, v: ServiceId, x: SrvTask)
    requires WellFormed(cfg, s) && Slots(s) && i < |s.net| && MayQueue(s, v, x) && Slotless(s.net[i].msg)
    requires x.body.TimerTask? ==> x.kind == x.body.job.kind
    ensures var sv := s.local.svcs[v];
      var eff := Schedule(cfg, s.local, v, sv.(queue := Push(sv.queue, x)), []);
      eff.Effect? && Slots(After(s, i, eff))
  {
    var sv := s.local.svcs[v];
    OthersKeep(s, i, v);
    KindsAgree(cfg, s, v);
    PushMembers(sv.queue, x);
    assert SlotsOk(s, v);
    SumRemove(s.net, i, SlotW(v, Read));
    SumRemove(s.net, i, SlotW(v, Write));
    ScheduleSlots(cfg, s.local, Remove(s.net, i), v, sv.(queue := Push(sv.queue, x)), []);
  }

  /** The master's end of a task. */
  lemma ReleasedSlots(cfg: Config, s: State, i: nat, v: ServiceId, k: Kind, release: bool, sent: seq<Event>)
    requires WellFormed(cfg, s) && Slots(s) && i < |s.net| && v in s.local.svcs && Rw(k)
    requires forall u, j :: SlotW(u, j)(s.net[i]) == if release && u == v && j == k then 1 else 0
    requires forall e :: e in sent ==> Slotless(e.msg)
    ensures var sv := if release then SetComplete(s.local.svcs[v]) else s.local.svcs[v];
      sv.Valid() &&
      var eff := Schedule(cfg, s.local, v, sv, sent);
      eff.Effect? && Slots(After(s, i, eff))
  {
    var sv := if release then SetComplete(s.local.svcs[v]) else s.local.svcs[v];
    OthersKeep(s, i, v);
    KindsAgree(cfg, s, v);
    assert SlotsOk(s, v);
    SumRemove(s.net, i, SlotW(v, Read));
    SumRemove(s.net, i, SlotW(v, Write));
    if release {
      SumBounds(s.net, SlotW(v, k));
      assert SlotW(v, k)(s.net[i]) == 1;
      CompleteConsistent(s.local.svcs[v], Held(s.net, v, Read), Held(s.net, v, Write), k);
    }
    assert sv.queue.Pending() == s.local.svcs[v].queue.Pending();
    ScheduleSlots(cfg, s.local, Remove(s.net, i), v, sv, sent);
  }

  lemma OnArrival(cfg: Config, s: State, i: nat, c: Choice)
    requires Ledger(cfg, s) && Slots(s) && i < |s.net| && (s.net[i].msg.IoCall? || s.net[i].msg.TimerEmit?)
    requires Handle(cfg, s.local, s.net[i], c).Effect?
    ensures Slots(After(s, i, Handle(cfg, s.local, s.net[i], c)))
  {
    var e := s.net[i];
    assert MsgOk(cfg, s.local, e);
    match e.msg
    case IoCall(t, k, svc, kind, bidx) =>
      if s.local.svcs[svc].queue.Full(kind) {
        BusySlots(s, i, [Event(MASTER, e.src, TaskCb(t, k, svc, kind, TaskBusy, false))]);
      } else {
        QueuedSlots(cfg, s, i, svc, Elem(kind, ApiTask(e.src, bidx, t, k)));
      }
    case TimerEmit(svc, job) =>
      if s.local.svcs[svc].queue.Full(job.kind) {
        BusySlots(s, i, [Event(MASTER, e.src, TimerRun(svc, job, false))]);
      } else {
        QueuedSlots(cfg, s, i, svc, Elem(job.kind, TimerTask(e.src, job)));
      }
  }

  lemma OnRelease(cfg: Config, s: State, i: nat, c: Choice)
    requires Ledger(cfg, s) && Slots(s) && i < |s.net| && (s.net[i].msg.Done? || s.net[i].msg.TimerDone?)
    requires Handle(cfg, s.local, s.net[i], c).Effect?
    ensures Slots(After(s, i, Handle(cfg, s.local, s.net[i], c)))
  {
    var e := s.net[i];
    assert MsgOk(cfg, s.local, e);
    match e.msg
    case Done(t, svc, kind, resume, slot) =>
      ReleasedSlots(cfg, s, i, svc, kind, slot, if resume then [Event(MASTER, e.src, WorkflowRun(t))] else []);
    case TimerDone(svc, job, ok) => ReleasedSlots(cfg, s, i, svc, job.kind, ok, []);
  }

  /** A refused task goes back without a slot. */
  lemma BusySlots(s: State, i: nat, sent: seq<Event>)
    requires Slots(s) && i < |s.net| && Slotless(s.net[i].msg) && forall e :: e in sent ==> Slotless(e.msg)
    ensures Slots(State(s.local, Remove(s.net, i) + sent))
  {
    forall v, k ensures Held(sent, v, k) == SlotW(v, k)(s.net[i]) { SlotlessHeld(sent, v, k); }
    PassedOn(s, i, s.local, sent);
  }

  /** Events without slots followed by one that carries the consumed slot. */
  lemma LastCarries(pre: seq<Event>, last: Event, e: Event, v: ServiceId, k: Kind)
    requires forall x :: x in pre ==> Slotless(x.msg)
    requires SlotW(v, k)(last) == SlotW(v, k)(e)
    ensures Held(pre + [last], v, k) == SlotW(v, k)(e)
  {
    SumAppend(pre, [last], SlotW(v, k));
    SumOne(last, SlotW(v, k));
    SlotlessHeld(pre, v, k);
  }

  lemma OffMaster(cfg: Config, s: State, i: nat, c: Choice)
    requires Slots(s) && i < |s.net|
    requires var m := s.net[i].msg; m.TaskRun? || m.TaskCb? || m.WorkflowRun? || m.TimerRun?
    requires Handle(cfg, s.local, s.net[i], c).Effect?
    ensures Slots(After(s, i, Handle(cfg, s.local, s.net[i], c)))
  {
    var e := s.net[i];
    var m := e.msg;
    var eff := Handle(cfg, s.local, e, c);
    forall v, k ensures Held(eff.sent, v, k) == SlotW(v, k)(e) { CarriedOn(cfg, s, i, c, v, k); }
    PassedOn(s, i, eff.local, eff.sent);
  }

  lemma CarriedOn(cfg: Config, s: State, i: nat, c: Choice, v: ServiceId, k: Kind)
    requires i < |s.net|
    requires var m := s.net[i].msg; m.TaskRun? || m.TaskCb? || m.WorkflowRun? || m.TimerRun?
    requires Handle(cfg, s.local, s.net[i], c).Effect?
    ensures Held(Handle(cfg, s.local, s.net[i], c).sent, v, k) == SlotW(v, k)(s.net[i])
  {
    var (e, l) := (s.net[i], s.local);
    match e.msg
    case TaskRun(_, _, _, _, _) => SumOne(HandleTaskRun(cfg, l, e, c.started).sent[0], SlotW(v, k));
    case TaskCb(_, _, _, _, _, _) => CallbackCarries(cfg, l, e, c.conduct, v, k);
    case WorkflowRun(t) => SlotlessHeld(HandleWorkflowRun(cfg, l, e, c.conduct).sent, v, k);
    case TimerRun(_, _, _) => JobCarries(cfg, l, e, c.started, v, k);
  }

  lemma CallbackCarries(cfg: Config, l: Local, e: Event, c: Conduct, v: ServiceId, k: Kind)
    requires e.msg.TaskCb? && HandleTaskCb(cfg, l, e, c).Effect?
    ensures Held(HandleTaskCb(cfg, l, e, c).sent, v, k) == SlotW(v, k)(e)
  {
    var m := e.msg;
    var t1 := HandleTaskCb(cfg, l, e, c).local.txns[m.txn];
    LastCarries(IoCalls(e.dst, m.txn, t1, |l.txns[m.txn].tasks|),
                Event(e.dst, MASTER, Done(m.txn, m.svc, m.kind, Resumes(t1, m.task), m.slot)), e, v, k);
  }

  lemma JobCarries(cfg: Config, l: Local, e: Event, started: seq<Started>, v: ServiceId, k: Kind)
    requires e.msg.TimerRun? && HandleTimerRun(cfg, l, e, started).Effect?
    ensures Held(HandleTimerRun(cfg, l, e, started).sent, v, k) == SlotW(v, k)(e)
  {
    var m := e.msg;
    var done := Event(e.dst, e.src, TimerDone(m.svc, m.job, m.ok));
    if m.job.pend.NoPend? {
      SumOne(done, SlotW(v, k));
    } else {
      LastCarries(FinishPending(l, e.dst, m.svc, m.job.pend, started).sent, done, e, v, k);
    }
  }
}
