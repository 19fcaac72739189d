/** The small steps of the protocol and the ledger of service calls. Each lemma takes a state in
    which every call is accounted for and shows the same for the state after one small step: an
    event consumed, sent or replaced, a task queued or handed out, an API call run, pending work
    started or finished, a call completed, calls made, a transaction arriving or freed. Handlers
    are composed of these steps in `ProtocolSteps`. */
module LedgerSteps {
  import opened Seqs
  import opened QueueSpec
  import opened ServiceSpec
  import opened TxnSpec
  import opened Protocol
  import opened Invariants

  // ----- growth of the local state -----

  ghost predicate TxnExtends(a: Txn, b: Txn) {
    && a.home == b.home && |a.tasks| <= |b.tasks|
    && forall k :: 0 <= k < |a.tasks| ==>
         a.tasks[k].svc == b.tasks[k].svc && a.tasks[k].bidx == b.tasks[k].bidx && a.tasks[k].kind == b.tasks[k].kind
  }

  ghost predicate Extends(l: Local, l': Local) {
    && l.svcs.Keys <= l'.svcs.Keys && l.nextTxn <= l'.nextTxn
    && (forall t :: t in l.txns ==> t in l'.txns && TxnExtends(l.txns[t], l'.txns[t]))
    && (forall t :: t in l'.txns && t !in l.txns ==> t >= l.nextTxn)
  }

  lemma {:induction false} KeepsMsg(cfg: Config, l: Local, l': Local, e: Event)
    requires Extends(l, l') && MsgOk(cfg, l, e)
    ensures MsgOk(cfg, l', e)
  {
  }

  lemma {:induction false} KeepsElem(cfg: Config, l: Local, l': Local, v: ServiceId, e: SrvTask)
    requires Extends(l, l') && ElemOk(cfg, l, v, e)
    ensures ElemOk(cfg, l', v, e)
  {
  }

  lemma {:induction false} KeepsOp(cfg: Config, l: Local, l': Local, o: Op)
    requires Extends(l, l') && OpOk(cfg, l, o)
    ensures OpOk(cfg, l', o)
  {
  }

  /** Well-formedness of a grown state: only new parts need a look. */
  lemma {:induction false} GrowWellFormed(cfg: Config, s: State, s': State)
    requires WellFormed(cfg, s) && Extends(s.local, s'.local)
    requires forall v :: v in s'.local.svcs ==> s'.local.svcs[v].Valid()
    requires forall t :: t in s'.local.txns ==> TxnOk(s'.local, t)
    requires forall e :: e in s'.net ==> e in s.net || MsgOk(cfg, s'.local, e)
    requires forall v, e :: v in s'.local.svcs && e in s'.local.svcs[v].queue.Pending() ==>
      (v in s.local.svcs && e in s.local.svcs[v].queue.Pending()) || ElemOk(cfg, s'.local, v, e)
    requires forall o :: o in s'.local.ops ==> o in s.local.ops || OpOk(cfg, s'.local, o)
    ensures WellFormed(cfg, s')
  {
    forall e | e in s'.net ensures MsgOk(cfg, s'.local, e) {
      if e in s.net { KeepsMsg(cfg, s.local, s'.local, e); }
    }
    forall v, e | v in s'.local.svcs && e in s'.local.svcs[v].queue.Pending() ensures ElemOk(cfg, s'.local, v, e) {
      if v in s.local.svcs && e in s.local.svcs[v].queue.Pending() { KeepsElem(cfg, s.local, s'.local, v, e); }
    }
    forall o | o in s'.local.ops ensures OpOk(cfg, s'.local, o) {
      if o in s.local.ops { KeepsOp(cfg, s.local, s'.local, o); }
    }
  }

  /** Well-formedness when one transaction grows and operations and events change. */
  lemma GrowTxn(cfg: Config, s: State, id: TxnId, t: Txn, ops: seq<Op>, net: seq<Event>)
    requires WellFormed(cfg, s) && id in s.local.txns && TxnExtends(s.local.txns[id], t) && TableOk(s.local, t)
    requires var l := s.local.(txns := s.local.txns[id := t], ops := ops);
      && (forall e :: e in net ==> e in s.net || MsgOk(cfg, l, e))
      && (forall o :: o in ops ==> o in s.local.ops || OpOk(cfg, l, o))
    ensures WellFormed(cfg, State(s.local.(txns := s.local.txns[id := t], ops := ops), net))
  {
    var s' := State(s.local.(txns := s.local.txns[id := t], ops := ops), net);
    forall x | x in s'.local.txns ensures TxnOk(s'.local, x) {
      assert TxnOk(s.local, x);
    }
    GrowWellFormed(cfg, s, s');
  }

  // ----- order of pending notices -----

  lemma {:induction false} OrderRemove(net: seq<Event>, i: nat)
    requires i < |net| && OrderOk(net)
    ensures OrderOk(Remove(net, i))
  {
    var r := Remove(net, i);
    forall a, b, t, k | 0 <= a < b < |r|
      ensures !(IsFinish(r[a].msg, t, k) && IsPendingCb(r[b].msg, t, k))
    {
      var a' := if a < i then a else a + 1;
      var b' := if b < i then b else b + 1;
      assert r[a] == net[a'] && r[b] == net[b'];
    }
  }

  /** Appending an event keeps the order when it is no pending notice of a finished call. */
  lemma {:induction false} OrderSend(net: seq<Event>, e: Event)
    requires OrderOk(net)
    requires e.msg.TaskCb? && e.msg.status == TaskPending ==>
      forall x :: x in net ==> !IsFinish(x.msg, e.msg.txn, e.msg.task)
    ensures OrderOk(net + [e])
  {
    var r := net + [e];
    forall a, b, t, k | 0 <= a < b < |r|
      ensures !(IsFinish(r[a].msg, t, k) && IsPendingCb(r[b].msg, t, k))
    {
      assert r[a] == net[a] && net[a] in net;
      if b < |net| { assert r[b] == net[b]; }
    }
  }

  lemma {:induction false} OrderSendAll(net: seq<Event>, sent: seq<Event>)
    requires OrderOk(net)
    requires forall e :: e in sent ==> !(e.msg.TaskCb? && e.msg.status == TaskPending)
    ensures OrderOk(net + sent)
    decreases |sent|
  {
    if sent == [] {
      assert net + sent == net;
    } else {
      OrderSend(net, sent[0]);
      assert net + sent == (net + [sent[0]]) + sent[1..];
      OrderSendAll(net + [sent[0]], sent[1..]);
    }
  }

  // ----- small steps -----

  /** Frame: a call whose own entry and counts did not change stays in order. */
  lemma {:induction false} SameCounts(s: State, s': State, t: TxnId, k: nat)
    requires t in s.local.txns && k < |s.local.txns[t].tasks| && TaskOk(s, t, k)
    requires t in s'.local.txns && k < |s'.local.txns[t].tasks| && s'.local.txns[t].tasks[k] == s.local.txns[t].tasks[k]
    requires Count(s'.net, t, k) == Count(s.net, t, k)
    requires QueueOf(s'.local, s.local.txns[t].tasks[k].svc) == QueueOf(s.local, s.local.txns[t].tasks[k].svc)
    requires Sum(s'.local.ops, OpW(t, k)) == Sum(s.local.ops, OpW(t, k))
    ensures TaskOk(s', t, k)
  {
  }

  predicate Neutral(m: Msg) { m.Done? || m.WorkflowRun? || m.TimerDone? }

  /** Consuming an event that carries no call. */
  lemma {:induction false} Consume(cfg: Config, s: State, i: nat)
    requires Ledger(cfg, s) && i < |s.net| && Neutral(s.net[i].msg)
    ensures Ledger(cfg, State(s.local, Remove(s.net, i)))
  {
    var s' := State(s.local, Remove(s.net, i));
    GrowWellFormed(cfg, s, s');
    OrderRemove(s.net, i);
    forall t, k | t in s.local.txns && 0 <= k < |s.local.txns[t].tasks| ensures TaskOk(s', t, k) {
      assert TaskOk(s, t, k);
      CountRemove(s.net, i, t, k);
      SameCounts(s, s', t, k);
    }
  }

  /** Sending an event that carries no call. */
  lemma {:induction false} Send(cfg: Config, s: State, e: Event)
    requires Ledger(cfg, s) && Neutral(e.msg) && MsgOk(cfg, s.local, e)
    ensures Ledger(cfg, State(s.local, s.net + [e]))
  {
    var s' := State(s.local, s.net + [e]);
    GrowWellFormed(cfg, s, s');
    OrderSend(s.net, e);
    forall t, k | t in s.local.txns && 0 <= k < |s.local.txns[t].tasks| ensures TaskOk(s', t, k) {
      assert TaskOk(s, t, k);
      CountAppend(s.net, [e], t, k);
      CountSingle(e, t, k);
      SameCounts(s, s', t, k);
    }
  }

  /** Replacing one event by another that stands for the same part of the same call. */
  lemma {:induction false} Replace(cfg: Config, s: State, i: nat, e: Event)
    requires Ledger(cfg, s) && i < |s.net| && MsgOk(cfg, s.local, e)
    requires !(e.msg.TaskCb? && e.msg.status == TaskPending)
    requires forall t, k :: CountOne(e, t, k) == CountOne(s.net[i], t, k)
    ensures Ledger(cfg, State(s.local, Remove(s.net, i) + [e]))
  {
    var s' := State(s.local, Remove(s.net, i) + [e]);
    GrowWellFormed(cfg, s, s');
    OrderRemove(s.net, i);
    OrderSend(Remove(s.net, i), e);
    forall t, k | t in s.local.txns && 0 <= k < |s.local.txns[t].tasks| ensures TaskOk(s', t, k) {
      assert TaskOk(s, t, k);
      CountRemove(s.net, i, t, k);
      CountAppend(Remove(s.net, i), [e], t, k);
      CountSingle(e, t, k);
      SameCounts(s, s', t, k);
    }
  }

  /** The queue element stands for the same part of a call as the event. */
  ghost predicate SameAs(x: SrvTask, e: Event) {
    forall t, k ::
      CountOne(e, t, k) == Counts(QueuedW(t, k)(x), QueuedW(t, k)(x), QueuedJobW(t, k)(x), 0)
  }

  predicate MayQueue(s: State, v: ServiceId, x: SrvTask) {
    v in s.local.svcs && s.local.svcs[v].Valid() && Rw(x.kind) && !s.local.svcs[v].queue.Full(x.kind)
  }

  function Enqueued(s: State, i: nat, v: ServiceId, x: SrvTask): State
    requires MayQueue(s, v, x) && i < |s.net|
  {
    var sv := s.local.svcs[v];
    State(s.local.(svcs := s.local.svcs[v := sv.(queue := Push(sv.queue, x))]), Remove(s.net, i))
  }

  /** An event becomes a queued task of its service. */
  lemma Enqueue(cfg: Config, s: State, i: nat, v: ServiceId, x: SrvTask)
    requires Ledger(cfg, s) && i < |s.net| && MayQueue(s, v, x)
    requires SameAs(x, s.net[i]) && ElemOk(cfg, s.local, v, x)
    ensures Ledger(cfg, Enqueued(s, i, v, x))
  {
    var s' := Enqueued(s, i, v, x);
    forall u, e | u in s'.local.svcs && e in s'.local.svcs[u].queue.Pending()
      ensures e in s.local.svcs[u].queue.Pending() || ElemOk(cfg, s'.local, u, e)
    {
      if u == v {
        PushMembers(s.local.svcs[v].queue, x);
        KeepsElem(cfg, s.local, s'.local, v, x);
      }
    }
    GrowWellFormed(cfg, s, s');
    OrderRemove(s.net, i);
    forall t, k | t in s.local.txns && 0 <= k < |s.local.txns[t].tasks| ensures TaskOk(s', t, k) {
      EnqueueTask(cfg, s, i, v, x, t, k);
    }
  }

  lemma EnqueueTask(cfg: Config, s: State, i: nat, v: ServiceId, x: SrvTask, t: TxnId, k: nat)
    requires i < |s.net| && MayQueue(s, v, x) && SameAs(x, s.net[i]) && ElemOk(cfg, s.local, v, x)
    requires t in s.local.txns && k < |s.local.txns[t].tasks| && TaskOk(s, t, k)
    ensures TaskOk(Enqueued(s, i, v, x), t, k)
  {
    var q := s.local.svcs[v].queue;
    CountRemove(s.net, i, t, k);
    assert CountOne(s.net[i], t, k) == Counts(QueuedW(t, k)(x), QueuedW(t, k)(x), QueuedJobW(t, k)(x), 0);
    if s.local.txns[t].tasks[k].svc == v {
      PushAdds(q, x, QueuedW(t, k));
      PushAdds(q, x, QueuedJobW(t, k));
    } else {
      SameCounts(s, Enqueued(s, i, v, x), t, k);
    }
  }

  lemma {:induction false} PushMembers(q: Queue<Body>, x: SrvTask)
    requires q.Valid() && Accepts(q.mode, x.kind) && !q.Full(x.kind)
    ensures forall e :: e in Push(q, x).Pending() ==> e == x || e in q.Pending()
  {
  }

  /** A queued task and the event that hands it to its engine stand for the same part of a call. */
  lemma RunCounts(cfg: Config, v: ServiceId, x: SrvTask, t: TxnId, k: nat)
    ensures CountOne(ToRun(cfg, v)(x), t, k) == Counts(QueuedW(t, k)(x), QueuedW(t, k)(x), QueuedJobW(t, k)(x), 0)
  {
  }

  lemma {:induction false} BatchCounts(cfg: Config, v: ServiceId, batch: seq<SrvTask>, t: TxnId, k: nat)
    ensures Count(Map(ToRun(cfg, v), batch), t, k) ==
      Counts(Sum(batch, QueuedW(t, k)), Sum(batch, QueuedW(t, k)), Sum(batch, QueuedJobW(t, k)), 0)
  {
    if batch != [] {
      var run := Map(ToRun(cfg, v), batch);
      assert run[0] == ToRun(cfg, v)(batch[0]) && run[1..] == Map(ToRun(cfg, v), batch[1..]);
      BatchCounts(cfg, v, batch[1..], t, k);
      RunCounts(cfg, v, batch[0], t, k);
    }
  }

  function Dispatched(cfg: Config, s: State, v: ServiceId): State
    requires v in s.local.svcs && s.local.svcs[v].Valid()
  {
    var (sv, batch) := Drain(s.local.svcs[v]);
    State(s.local.(svcs := s.local.svcs[v := sv]), s.net + Map(ToRun(cfg, v), batch))
  }

  /** The scheduling loop turns queued tasks into events. */
  lemma Dispatch(cfg: Config, s: State, v: ServiceId)
    requires Ledger(cfg, s) && v in s.local.svcs
    ensures Ledger(cfg, Dispatched(cfg, s, v))
  {
    var s' := Dispatched(cfg, s, v);
    var batch := Drain(s.local.svcs[v]).1;
    var run := Map(ToRun(cfg, v), batch);
    DrainMembers(s.local.svcs[v]);
    DispatchMsgs(cfg, s, v, batch);
    forall e | e in s'.net ensures e in s.net || MsgOk(cfg, s'.local, e) {
      if e !in s.net { assert e in run; KeepsMsg(cfg, s.local, s'.local, e); }
    }
    GrowWellFormed(cfg, s, s');
    OrderSendAll(s.net, run);
    forall t, k | t in s.local.txns && 0 <= k < |s.local.txns[t].tasks| ensures TaskOk(s', t, k) {
      DispatchTask(cfg, s, v, t, k);
    }
  }

  lemma DispatchTask(cfg: Config, s: State, v: ServiceId, t: TxnId, k: nat)
    requires WellFormed(cfg, s) && v in s.local.svcs
    requires t in s.local.txns && k < |s.local.txns[t].tasks| && TaskOk(s, t, k)
    ensures TaskOk(Dispatched(cfg, s, v), t, k)
  {
    var batch := Drain(s.local.svcs[v]).1;
    CountAppend(s.net, Map(ToRun(cfg, v), batch), t, k);
    BatchCounts(cfg, v, batch, t, k);
    if s.local.txns[t].tasks[k].svc == v {
      DrainConserves(s.local.svcs[v], QueuedW(t, k));
      DrainConserves(s.local.svcs[v], QueuedJobW(t, k));
    } else {
      NotInBatch(cfg, s, v, t, k);
      SameCounts(s, Dispatched(cfg, s, v), t, k);
    }
  }

  /** A service schedules no call of another service. */
  lemma NotInBatch(cfg: Config, s: State, v: ServiceId, t: TxnId, k: nat)
    requires WellFormed(cfg, s) && v in s.local.svcs
    requires t in s.local.txns && k < |s.local.txns[t].tasks| && s.local.txns[t].tasks[k].svc != v
    ensures var batch := Drain(s.local.svcs[v]).1; Sum(batch, QueuedW(t, k)) == 0 && Sum(batch, QueuedJobW(t, k)) == 0
  {
    var batch := Drain(s.local.svcs[v]).1;
    DrainMembers(s.local.svcs[v]);
    forall x | x in batch ensures QueuedW(t, k)(x) == 0 && QueuedJobW(t, k)(x) == 0 {
      assert ElemOk(cfg, s.local, v, x);
    }
    SumZero(batch, QueuedW(t, k));
    SumZero(batch, QueuedJobW(t, k));
  }

  lemma {:induction false} DispatchMsgs(cfg: Config, s: State, v: ServiceId, batch: seq<SrvTask>)
    requires WellFormed(cfg, s) && v in s.local.svcs
    requires forall x :: x in batch ==> x in s.local.svcs[v].queue.Pending() && Rw(x.kind)
    ensures forall e :: e in Map(ToRun(cfg, v), batch) ==>
      MsgOk(cfg, s.local, e) && !(e.msg.TaskCb? && e.msg.status == TaskPending)
  {
    var f := ToRun(cfg, v);
    forall e | e in Map(f, batch)
      ensures MsgOk(cfg, s.local, e) && !(e.msg.TaskCb? && e.msg.status == TaskPending)
    {
      var j :| 0 <= j < |batch| && Map(f, batch)[j] == e;
      assert batch[j] in batch;
      assert ElemOk(cfg, s.local, v, batch[j]);
    }
  }

  // ----- steps that change a task -----

  lemma StartedOps(engine: Engine, svc: ServiceId, t: TxnId, k: nat, started: seq<Started>, t': TxnId, k': nat)
    ensures Sum(Map(OpOf(engine, svc, Pend(t, k)), started), OpW(t', k')) == if (t, k) == (t', k') then |started| else 0
  {
    if started != [] {
      var f := OpOf(engine, svc, Pend(t, k));
      assert Map(f, started)[1..] == Map(f, started[1..]);
      StartedOps(engine, svc, t, k, started[1..], t', k');
    }
  }

  lemma StartedOk(cfg: Config, l: Local, engine: Engine, svc: ServiceId, t: TxnId, k: nat, started: seq<Started>)
    requires Names(l, t, k, svc) && engine == Exec(cfg, l, t, k)
    requires forall x :: x in started ==> LegalStart(x)
    ensures forall o :: o in Map(OpOf(engine, svc, Pend(t, k)), started) ==> OpOk(cfg, l, o)
  {
    var f := OpOf(engine, svc, Pend(t, k));
    forall o | o in Map(f, started) ensures OpOk(cfg, l, o) {
      var j :| 0 <= j < |started| && Map(f, started)[j] == o;
      assert started[j] in started;
    }
  }

  /** Changing `pendings` keeps the table in order. */
  lemma PendingsTable(l: Local, t: Txn, k: nat, n: int)
    requires k < |t.tasks| && TableOk(l, t)
    ensures TableOk(l, AddPendings(t, k, n)) && TxnExtends(t, AddPendings(t, k, n))
  {
    UpdateSum(t.tasks, k, t.tasks[k].(pendings := t.tasks[k].pendings + n), DoneWeight());
    UpdateSum(t.tasks, k, t.tasks[k].(pendings := t.tasks[k].pendings + n), WaitWeight());
  }

  lemma UpdateSum<T>(s: seq<T>, k: nat, x: T, w: T -> int)
    requires k < |s|
    ensures Sum(s[k := x], w) == Sum(s, w) - w(s[k]) + w(x)
  {
    SumRemove(s, k, w);
    SumRemove(s[k := x], k, w);
    assert Remove(s[k := x], k) == Remove(s, k);
  }

  /** A service API ran: it started pending work, and its notice goes back to the caller. */
  lemma ApiRan(cfg: Config, s: State, i: nat, started: seq<Started>)
    requires Ledger(cfg, s) && i < |s.net| && s.net[i].msg.TaskRun?
    requires forall x :: x in started ==> LegalStart(x)
    ensures HandleTaskRun(cfg, s.local, s.net[i], started).Effect?
    ensures var eff := HandleTaskRun(cfg, s.local, s.net[i], started);
      Ledger(cfg, State(eff.local, Remove(s.net, i) + eff.sent))
  {
    var m := s.net[i].msg;
    assert MsgOk(cfg, s.local, s.net[i]);
    var eff := HandleTaskRun(cfg, s.local, s.net[i], started);
    var s' := State(eff.local, Remove(s.net, i) + eff.sent);
    ApiRanWellFormed(cfg, s, i, started);
    assert TaskOk(s, m.txn, m.task);
    NoOtherToken(s, i, m.txn, m.task);
    OrderRemove(s.net, i);
    OrderSend(Remove(s.net, i), eff.sent[0]);
    forall t, k | t in s'.local.txns && 0 <= k < |s'.local.txns[t].tasks| ensures TaskOk(s', t, k) {
      assert TaskOk(s, t, k);
      ApiRanTask(cfg, s, i, started, t, k);
    }
  }

  lemma ApiRanWellFormed(cfg: Config, s: State, i: nat, started: seq<Started>)
    requires WellFormed(cfg, s) && i < |s.net| && s.net[i].msg.TaskRun?
    requires forall x :: x in started ==> LegalStart(x)
    ensures HandleTaskRun(cfg, s.local, s.net[i], started).Effect?
    ensures var eff := HandleTaskRun(cfg, s.local, s.net[i], started);
      WellFormed(cfg, State(eff.local, Remove(s.net, i) + eff.sent))
  {
    var e := s.net[i];
    var m := e.msg;
    assert MsgOk(cfg, s.local, e);
    var eff := HandleTaskRun(cfg, s.local, e, started);
    var s' := State(eff.local, Remove(s.net, i) + eff.sent);
    PendingsTable(s.local, s.local.txns[m.txn], m.task, |started|);
    StartedOk(cfg, s'.local, e.dst, m.svc, m.txn, m.task, started);
    assert TxnOk(s.local, m.txn);
    GrowTxn(cfg, s, m.txn, s'.local.txns[m.txn], s'.local.ops, s'.net);
  }

  /** The token of a call is the only event that stands for it. */
  lemma NoOtherToken(s: State, i: nat, t: TxnId, k: nat)
    requires t in s.local.txns && k < |s.local.txns[t].tasks| && TaskOk(s, t, k)
    requires i < |s.net| && IsToken(s.net[i].msg, t, k)
    ensures !s.local.txns[t].tasks[k].Complete() && s.local.txns[t].tasks[k].pendings <= 0
    ensures Count(Remove(s.net, i), t, k).token == 0
    ensures forall x :: x in Remove(s.net, i) ==> !IsToken(x.msg, t, k)
    ensures IsEarly(s.net[i].msg, t, k) ==> Count(s.net, t, k).pendCb == 0
  {
    CountMember(s.net, t, k);
    CountMember(Remove(s.net, i), t, k);
    CountRemove(s.net, i, t, k);
    QueuedNonneg(QueueOf(s.local, s.local.txns[t].tasks[k].svc), t, k);
    forall x | x in Remove(s.net, i) ensures !IsToken(x.msg, t, k) {
      assert Within(CountOne(x, t, k), Count(Remove(s.net, i), t, k));
    }
  }

  lemma QueuedNonneg(q: seq<SrvTask>, t: TxnId, k: nat)
    ensures Sum(q, QueuedW(t, k)) >= 0 && Sum(q, QueuedJobW(t, k)) >= 0
  {
    SumBounds(q, QueuedW(t, k));
    SumBounds(q, QueuedJobW(t, k));
  }

  lemma ApiRanTask(cfg: Config, s: State, i: nat, started: seq<Started>, t: TxnId, k: nat)
    requires i < |s.net| && s.net[i].msg.TaskRun? && MsgOk(cfg, s.local, s.net[i])
    requires t in s.local.txns && k < |s.local.txns[t].tasks| && TaskOk(s, t, k)
    ensures var eff := HandleTaskRun(cfg, s.local, s.net[i], started);
      && eff.Effect? && t in eff.local.txns && k < |eff.local.txns[t].tasks|
      && TaskOk(State(eff.local, Remove(s.net, i) + eff.sent), t, k)
  {
    var e := s.net[i];
    var m := e.msg;
    var eff := HandleTaskRun(cfg, s.local, e, started);
    var s' := State(eff.local, Remove(s.net, i) + eff.sent);
    var ops := Map(OpOf(e.dst, m.svc, Pend(m.txn, m.task)), started);
    CountRemove(s.net, i, t, k);
    CountAppend(Remove(s.net, i), eff.sent, t, k);
    CountSingle(eff.sent[0], t, k);
    SumAppend(s.local.ops, ops, OpW(t, k));
    StartedOps(e.dst, m.svc, m.txn, m.task, started, t, k);
    if (t, k) == (m.txn, m.task) {
      NoOtherToken(s, i, t, k);
      CountMember(Remove(s.net, i), t, k);
      OutstandingNonneg(s, t, k);
    } else {
      SameCounts(s, s', t, k);
    }
  }

  lemma OutstandingNonneg(s: State, t: TxnId, k: nat)
    requires t in s.local.txns && k < |s.local.txns[t].tasks| && TaskOk(s, t, k)
    ensures s.local.txns[t].tasks[k].pendings >= 0
    ensures Sum(s.local.ops, OpW(t, k)) >= 0
  {
    CountMember(s.net, t, k);
    QueuedNonneg(QueueOf(s.local, s.local.txns[t].tasks[k].svc), t, k);
    SumBounds(s.local.ops, OpW(t, k));
  }

  // ----- pending work that finishes -----

  /** The ledger of (t, k), had one more operation been outstanding. */
  predicate ShortBy(s: State, t: TxnId, k: nat, d: int)
    requires t in s.local.txns && k < |s.local.txns[t].tasks|
  {
    var task := s.local.txns[t].tasks[k];
    var q := QueueOf(s.local, task.svc);
    LedgerOk(task, Count(s.net, t, k), Sum(q, QueuedW(t, k)), Sum(q, QueuedJobW(t, k)), Sum(s.local.ops, OpW(t, k)) + d)
  }

  /** `s` is a good ledger but for one finished operation of the call `p`. */
  ghost predicate OneShort(cfg: Config, s: State, p: Pend) {
    && p.Pend? && WellFormed(cfg, s) && OrderOk(s.net)
    && forall t, k | t in s.local.txns && 0 <= k < |s.local.txns[t].tasks| ::
         ShortBy(s, t, k, if p == Pend(t, k) then 1 else 0)
  }

  /** The callback of pending work ran on the call's engine. */
  lemma WorkFinished(cfg: Config, s: State, engine: Engine, svc: ServiceId, p: Pend, started: seq<Started>)
    requires OneShort(cfg, s, p) && Names(s.local, p.txn, p.task, svc) && engine == Exec(cfg, s.local, p.txn, p.task)
    requires forall x :: x in started ==> LegalStart(x)
    ensures FinishPending(s.local, engine, svc, p, started).Effect?
    ensures var eff := FinishPending(s.local, engine, svc, p, started);
      Ledger(cfg, State(eff.local, s.net + eff.sent))
  {
    var eff := FinishPending(s.local, engine, svc, p, started);
    var s' := State(eff.local, s.net + eff.sent);
    WorkFinishedWellFormed(cfg, s, engine, svc, p, started);
    OrderSendAll(s.net, eff.sent);
    forall t, k | t in s'.local.txns && 0 <= k < |s'.local.txns[t].tasks| ensures TaskOk(s', t, k) {
      assert ShortBy(s, t, k, if p == Pend(t, k) then 1 else 0);
      WorkFinishedTask(s, engine, svc, p, started, t, k);
    }
  }

  lemma WorkFinishedWellFormed(cfg: Config, s: State, engine: Engine, svc: ServiceId, p: Pend, started: seq<Started>)
    requires WellFormed(cfg, s) && p.Pend? && Names(s.local, p.txn, p.task, svc)
    requires engine == Exec(cfg, s.local, p.txn, p.task)
    requires forall x :: x in started ==> LegalStart(x)
    ensures var eff := FinishPending(s.local, engine, svc, p, started);
      eff.Effect? && WellFormed(cfg, State(eff.local, s.net + eff.sent))
  {
    var eff := FinishPending(s.local, engine, svc, p, started);
    var s' := State(eff.local, s.net + eff.sent);
    assert TxnOk(s.local, p.txn);
    PendingsTable(s.local, s.local.txns[p.txn], p.task, |started| - 1);
    StartedOk(cfg, s'.local, engine, svc, p.txn, p.task, started);
    GrowTxn(cfg, s, p.txn, s'.local.txns[p.txn], s'.local.ops, s'.net);
  }

  lemma WorkFinishedTask(s: State, engine: Engine, svc: ServiceId, p: Pend, started: seq<Started>, t: TxnId, k: nat)
    requires p.Pend? && Names(s.local, p.txn, p.task, svc)
    requires t in s.local.txns && k < |s.local.txns[t].tasks| && ShortBy(s, t, k, if p == Pend(t, k) then 1 else 0)
    ensures var eff := FinishPending(s.local, engine, svc, p, started);
      && eff.Effect? && t in eff.local.txns && k < |eff.local.txns[t].tasks|
      && TaskOk(State(eff.local, s.net + eff.sent), t, k)
  {
    var eff := FinishPending(s.local, engine, svc, p, started);
    WorkOps(s.local.ops, engine, svc, p, started, t, k);
    if p == Pend(t, k) {
      ThisWorkFinished(s, State(eff.local, s.net + eff.sent), eff.sent, |started|, t, k);
    } else {
      OtherWorkFinished(s, State(eff.local, s.net + eff.sent), eff.sent, t, k);
    }
  }

  lemma WorkOps(ops: seq<Op>, engine: Engine, svc: ServiceId, p: Pend, started: seq<Started>, t: TxnId, k: nat)
    requires p.Pend?
    ensures Sum(ops + Map(OpOf(engine, svc, p), started), OpW(t, k)) ==
      Sum(ops, OpW(t, k)) + if p == Pend(t, k) then |started| else 0
    ensures Sum(ops, OpW(t, k)) >= 0
  {
    SumAppend(ops, Map(OpOf(engine, svc, p), started), OpW(t, k));
    StartedOps(engine, svc, p.txn, p.task, started, t, k);
    SumBounds(ops, OpW(t, k));
  }

  /** Finished work of one call does not concern another. */
  lemma OtherWorkFinished(s: State, s': State, sent: seq<Event>, t: TxnId, k: nat)
    requires t in s.local.txns && k < |s.local.txns[t].tasks| && ShortBy(s, t, k, 0)
    requires t in s'.local.txns && k < |s'.local.txns[t].tasks| && s'.local.txns[t].tasks[k] == s.local.txns[t].tasks[k]
    requires s'.local.svcs == s.local.svcs && s'.net == s.net + sent
    requires |sent| <= 1 && (sent != [] ==> CountOne(sent[0], t, k) == Zero())
    requires Sum(s'.local.ops, OpW(t, k)) == Sum(s.local.ops, OpW(t, k))
    ensures TaskOk(s', t, k)
  {
    assert TaskOk(s, t, k);
    assert Count(sent, t, k) == Zero() by {
      if sent != [] { CountSingle(sent[0], t, k); assert sent == [sent[0]]; }
    }
    assert Count(s'.net, t, k) == Count(s.net, t, k) by { CountAppend(s.net, sent, t, k); }
    SameCounts(s, s', t, k);
  }

  /** Finished work of this call: what it started replaces it, or its completion is sent. */
  lemma ThisWorkFinished(s: State, s': State, sent: seq<Event>, n: nat, t: TxnId, k: nat)
    requires t in s.local.txns && k < |s.local.txns[t].tasks| && ShortBy(s, t, k, 1)
    requires t in s'.local.txns && k < |s'.local.txns[t].tasks|
    requires var task := s.local.txns[t].tasks[k];
      && s'.local.txns[t].tasks[k] == task.(pendings := task.pendings + n - 1)
      && if task.pendings + n - 1 > 0 then sent == []
         else |sent| == 1 && CountOne(sent[0], t, k) == Counts(1, 0, 0, 0)
    requires s'.local.svcs == s.local.svcs && s'.net == s.net + sent
    requires Sum(s'.local.ops, OpW(t, k)) == Sum(s.local.ops, OpW(t, k)) + n && Sum(s.local.ops, OpW(t, k)) >= 0
    ensures TaskOk(s', t, k)
  {
    CountAppend(s.net, sent, t, k);
    if sent != [] { CountSingle(sent[0], t, k); assert sent == [sent[0]]; }
    CountMember(s.net, t, k);
    QueuedNonneg(QueueOf(s.local, s.local.txns[t].tasks[k].svc), t, k);
  }

  /** An endpoint call is answered. */
  lemma EpAnswered(cfg: Config, s: State, op: nat, started: seq<Started>)
    requires Ledger(cfg, s) && op < |s.local.ops| && s.local.ops[op].EpCall?
    requires forall x :: x in started ==> LegalStart(x)
    ensures var o := s.local.ops[op];
      o.pend.Pend? &&
      var eff := FinishPending(s.local.(ops := Remove(s.local.ops, op)), o.engine, o.svc, o.pend, started);
      eff.Effect? && Ledger(cfg, State(eff.local, s.net + eff.sent))
  {
    var o := s.local.ops[op];
    var r := State(s.local.(ops := Remove(s.local.ops, op)), s.net);
    assert OpOk(cfg, s.local, o);
    GrowWellFormed(cfg, s, r);
    forall t, k | t in r.local.txns && 0 <= k < |r.local.txns[t].tasks|
      ensures ShortBy(r, t, k, if o.pend == Pend(t, k) then 1 else 0)
    {
      assert TaskOk(s, t, k);
      SumRemove(s.local.ops, op, OpW(t, k));
    }
    WorkFinished(cfg, r, o.engine, o.svc, o.pend, started);
  }

  /** A job ran; the state after its callback, before its completion notice is sent. */
  lemma JobRan(cfg: Config, s: State, i: nat, started: seq<Started>)
    requires Ledger(cfg, s) && i < |s.net| && s.net[i].msg.TimerRun? && s.net[i].msg.job.pend.Pend?
    requires forall x :: x in started ==> LegalStart(x)
    ensures var e := s.net[i];
      var eff := FinishPending(s.local, e.dst, e.msg.svc, e.msg.job.pend, started);
      eff.Effect? && Ledger(cfg, State(eff.local, Remove(s.net, i) + eff.sent))
  {
    var e := s.net[i];
    var p := e.msg.job.pend;
    var r := State(s.local, Remove(s.net, i));
    assert MsgOk(cfg, s.local, e);
    assert WellFormed(cfg, r) by { GrowWellFormed(cfg, s, r); }
    assert OrderOk(r.net) by { OrderRemove(s.net, i); }
    forall t, k | t in r.local.txns && 0 <= k < |r.local.txns[t].tasks|
      ensures ShortBy(r, t, k, if p == Pend(t, k) then 1 else 0)
    {
      assert TaskOk(s, t, k);
      JobTaken(s, i, t, k);
    }
    WorkFinished(cfg, r, e.dst, e.msg.svc, p, started);
  }

  /** Taking a job's event leaves its own call one short. */
  lemma JobTaken(s: State, i: nat, t: TxnId, k: nat)
    requires i < |s.net| && s.net[i].msg.TimerRun?
    requires t in s.local.txns && k < |s.local.txns[t].tasks| && TaskOk(s, t, k)
    ensures ShortBy(State(s.local, Remove(s.net, i)), t, k, if s.net[i].msg.job.pend == Pend(t, k) then 1 else 0)
  {
    CountRemove(s.net, i, t, k);
  }

  /** A timer of a job fires: the armed operation, unless periodic, becomes an event. */
  lemma JobFired(cfg: Config, s: State, op: nat)
    requires Ledger(cfg, s) && op < |s.local.ops| && s.local.ops[op].Armed?
    ensures var o := s.local.ops[op];
      var l := if o.job.interval > 0 then s.local else s.local.(ops := Remove(s.local.ops, op));
      Ledger(cfg, State(l, s.net + [Event(o.engine, MASTER, TimerEmit(o.svc, o.job))]))
  {
    var o := s.local.ops[op];
    var l := if o.job.interval > 0 then s.local else s.local.(ops := Remove(s.local.ops, op));
    var e := Event(o.engine, MASTER, TimerEmit(o.svc, o.job));
    var s' := State(l, s.net + [e]);
    assert OpOk(cfg, s.local, o);
    KeepsOp(cfg, s.local, l, o);
    GrowWellFormed(cfg, s, s');
    OrderSend(s.net, e);
    forall t, k | t in s'.local.txns && 0 <= k < |s'.local.txns[t].tasks| ensures TaskOk(s', t, k) {
      assert TaskOk(s, t, k);
      JobFiredTask(s, s', op, e, t, k);
    }
  }

  /** An armed job becomes its event; a periodic one stays armed and is nobody's. */
  lemma JobFiredTask(s: State, s': State, op: nat, e: Event, t: TxnId, k: nat)
    requires op < |s.local.ops| && s.local.ops[op].Armed? && e.msg.TimerEmit? && e.msg.job == s.local.ops[op].job
    requires var periodic := e.msg.job.interval > 0;
      && (periodic ==> e.msg.job.pend.NoPend?)
      && s' == State(s.local.(ops := if periodic then s.local.ops else Remove(s.local.ops, op)), s.net + [e])
    requires t in s.local.txns && k < |s.local.txns[t].tasks| && TaskOk(s, t, k)
    ensures TaskOk(s', t, k)
  {
    CountAppend(s.net, [e], t, k);
    CountSingle(e, t, k);
    SumRemove(s.local.ops, op, OpW(t, k));
  }

  /** A job that keeps no call pending is created. */
  lemma JobCreated(cfg: Config, s: State, engine: Engine, svc: ServiceId, job: Job)
    requires Ledger(cfg, s) && svc in s.local.svcs && Rw(job.kind) && job.pend.NoPend? && engine == job.origin
    ensures Ledger(cfg, State(s.local.(ops := s.local.ops + [Armed(engine, svc, job)]), s.net))
  {
    var o := Armed(engine, svc, job);
    var s' := State(s.local.(ops := s.local.ops + [o]), s.net);
    GrowWellFormed(cfg, s, s');
    forall t, k | t in s'.local.txns && 0 <= k < |s'.local.txns[t].tasks| ensures TaskOk(s', t, k) {
      assert TaskOk(s, t, k);
      SumAppend(s.local.ops, [o], OpW(t, k));
      SumOne(o, OpW(t, k));
    }
  }

  // ----- completion -----

  /** When a call's completion can be delivered, its pending notice is gone. */
  lemma NoNoticeBehind(cfg: Config, s: State, i: nat, t: TxnId, k: nat)
    requires Ledger(cfg, s) && Deliverable(s.net, i) && IsFinish(s.net[i].msg, t, k)
    ensures t in s.local.txns && k < |s.local.txns[t].tasks| && Count(s.net, t, k).pendCb == 0
  {
    assert MsgOk(cfg, s.local, s.net[i]);
    assert TaskOk(s, t, k);
    NoOtherToken(s, i, t, k);
    if s.net[i].msg.status == TaskDone {
      forall j | 0 <= j < |s.net| ensures CountW(t, k)(s.net[j]).pendCb == 0 {
        assert MsgOk(cfg, s.local, s.net[j]);
        assert IsPendingCb(s.net[j].msg, t, k) ==> ChannelOf(s.net[j]) == ChannelOf(s.net[i]);
      }
      TallyNoPendCb(s.net, CountW(t, k));
    }
  }

  function Finished(s: State, i: nat, t: TxnId, k: nat, status: TaskStatus): State
    requires i < |s.net| && t in s.local.txns && k < |s.local.txns[t].tasks|
  {
    State(s.local.(txns := s.local.txns[t := SetTaskComplete(s.local.txns[t], k, status)]), Remove(s.net, i))
  }

  lemma CompleteCounted(t: Txn, k: nat, status: TaskStatus)
    requires k < |t.tasks| && Counted(t) && !t.tasks[k].Complete() && (status == TaskDone || status == TaskBusy)
    ensures Counted(SetTaskComplete(t, k, status)) && t.complete < t.total
  {
    var x := t.tasks[k].(status := status);
    UpdateSum(t.tasks, k, x, DoneWeight());
    UpdateSum(t.tasks, k, x, WaitWeight());
    DoneAtMost(SetTaskComplete(t, k, status).tasks);
  }

  lemma {:induction false} DoneAtMost(tasks: seq<Task>)
    ensures 0 <= Sum(tasks, DoneWeight()) <= |tasks|
    ensures Sum(tasks, DoneWeight()) == |tasks| ==> forall k :: 0 <= k < |tasks| ==> tasks[k].Complete()
  {
    if tasks != [] {
      DoneAtMost(tasks[1..]);
      if Sum(tasks, DoneWeight()) == |tasks| {
        forall k | 0 <= k < |tasks| ensures tasks[k].Complete() {
          if k > 0 { assert tasks[k] == tasks[1..][k - 1]; }
        }
      }
    }
  }

  /** A completion notice completes its call, which was not complete before. */
  lemma CallFinished(cfg: Config, s: State, i: nat, t: TxnId, k: nat)
    requires Ledger(cfg, s) && Deliverable(s.net, i) && IsFinish(s.net[i].msg, t, k)
    ensures t in s.local.txns && k < |s.local.txns[t].tasks| && !s.local.txns[t].tasks[k].Complete()
    ensures s.local.txns[t].complete < s.local.txns[t].total
    ensures Ledger(cfg, Finished(s, i, t, k, s.net[i].msg.status))
  {
    assert MsgOk(cfg, s.local, s.net[i]);
    assert TaskOk(s, t, k);
    assert TxnOk(s.local, t);
    NoNoticeBehind(cfg, s, i, t, k);
    NoOtherToken(s, i, t, k);
    CompleteCounted(s.local.txns[t], k, s.net[i].msg.status);
    var s' := Finished(s, i, t, k, s.net[i].msg.status);
    FinishedWellFormed(cfg, s, i, t, k, s.net[i].msg.status);
    OrderRemove(s.net, i);
    forall t', k' | t' in s'.local.txns && 0 <= k' < |s'.local.txns[t'].tasks| ensures TaskOk(s', t', k') {
      assert TaskOk(s, t', k');
      CallFinishedTask(s, i, t, k, t', k');
    }
  }

  lemma FinishedWellFormed(cfg: Config, s: State, i: nat, t: TxnId, k: nat, status: TaskStatus)
    requires WellFormed(cfg, s) && i < |s.net| && t in s.local.txns && k < |s.local.txns[t].tasks|
    requires Counted(SetTaskComplete(s.local.txns[t], k, status)) && (status == TaskDone || status == TaskBusy)
    ensures WellFormed(cfg, Finished(s, i, t, k, status))
  {
    assert TxnOk(s.local, t);
    var s' := Finished(s, i, t, k, status);
    GrowTxn(cfg, s, t, s'.local.txns[t], s.local.ops, s'.net);
  }

  lemma CallFinishedTask(s: State, i: nat, t: TxnId, k: nat, t': TxnId, k': nat)
    requires i < |s.net| && IsFinish(s.net[i].msg, t, k)
    requires t in s.local.txns && k < |s.local.txns[t].tasks| && TaskOk(s, t, k) && Count(s.net, t, k).pendCb == 0
    requires t' in s.local.txns && k' < |s.local.txns[t'].tasks| && TaskOk(s, t', k')
    ensures TaskOk(Finished(s, i, t, k, s.net[i].msg.status), t', k')
  {
    CountRemove(s.net, i, t', k');
    if (t, k) == (t', k') {
      NoOtherToken(s, i, t, k);
      OutstandingNonneg(s, t, k);
      QueuedNonneg(QueueOf(s.local, s.local.txns[t].tasks[k].svc), t, k);
    } else {
      SameCounts(s, Finished(s, i, t, k, s.net[i].msg.status), t', k');
    }
  }

  /** A pending notice is consumed. */
  lemma NoticeConsumed(cfg: Config, s: State, i: nat)
    requires Ledger(cfg, s) && i < |s.net| && s.net[i].msg.TaskCb? && s.net[i].msg.status == TaskPending
    ensures Ledger(cfg, State(s.local, Remove(s.net, i)))
    ensures var m := s.net[i].msg; Names(s.local, m.txn, m.task, m.svc) && !s.local.txns[m.txn].tasks[m.task].Complete()
  {
    var s' := State(s.local, Remove(s.net, i));
    var m := s.net[i].msg;
    assert MsgOk(cfg, s.local, s.net[i]);
    assert TaskOk(s, m.txn, m.task);
    assert Count(s.net, m.txn, m.task).pendCb > 0 by {
      CountMember(s.net, m.txn, m.task);
      assert s.net[i] in s.net && CountOne(s.net[i], m.txn, m.task).pendCb == 1;
    }
    GrowWellFormed(cfg, s, s');
    OrderRemove(s.net, i);
    forall t, k | t in s.local.txns && 0 <= k < |s.local.txns[t].tasks| ensures TaskOk(s', t, k) {
      assert TaskOk(s, t, k);
      NoticeTask(s, i, t, k);
    }
  }

  lemma NoticeTask(s: State, i: nat, t: TxnId, k: nat)
    requires i < |s.net| && s.net[i].msg.TaskCb? && s.net[i].msg.status == TaskPending
    requires t in s.local.txns && k < |s.local.txns[t].tasks| && TaskOk(s, t, k)
    ensures TaskOk(State(s.local, Remove(s.net, i)), t, k)
  {
    CountRemove(s.net, i, t, k);
    CountMember(Remove(s.net, i), t, k);
  }

  // ----- transactions come, make calls, and go -----

  /** Fields of a transaction outside its task table. */
  lemma FieldsChanged(cfg: Config, s: State, id: TxnId, t: Txn)
    requires Ledger(cfg, s) && id in s.local.txns
    requires var x := s.local.txns[id];
      t.home == x.home && t.tasks == x.tasks && t.total == x.total && t.complete == x.complete && t.pending == x.pending
    ensures Ledger(cfg, State(s.local.(txns := s.local.txns[id := t]), s.net))
  {
    FieldsWellFormed(cfg, s, id, t);
    FieldsTasks(s, id, t);
  }

  lemma FieldsWellFormed(cfg: Config, s: State, id: TxnId, t: Txn)
    requires WellFormed(cfg, s) && id in s.local.txns
    requires var x := s.local.txns[id];
      t.home == x.home && t.tasks == x.tasks && t.total == x.total && t.complete == x.complete && t.pending == x.pending
    ensures WellFormed(cfg, State(s.local.(txns := s.local.txns[id := t]), s.net))
  {
    assert TxnOk(s.local, id);
    GrowWellFormed(cfg, s, State(s.local.(txns := s.local.txns[id := t]), s.net));
  }

  lemma FieldsTasks(s: State, id: TxnId, t: Txn)
    requires TasksOk(s) && id in s.local.txns && t.tasks == s.local.txns[id].tasks
    ensures TasksOk(State(s.local.(txns := s.local.txns[id := t]), s.net))
  {
    var s' := State(s.local.(txns := s.local.txns[id := t]), s.net);
    forall u, k | u in s'.local.txns && 0 <= k < |s'.local.txns[u].tasks| ensures TaskOk(s', u, k) {
      assert TaskOk(s, u, k);
    }
  }

  lemma Arrived(cfg: Config, s: State, t: Txn)
    requires Ledger(cfg, s) && Counted(t) && t.tasks == []
    ensures Ledger(cfg, State(NewArrival(s.local, t), s.net))
  {
    var s' := State(NewArrival(s.local, t), s.net);
    ArrivedWellFormed(cfg, s, t);
    forall u, k | u in s'.local.txns && 0 <= k < |s'.local.txns[u].tasks| ensures TaskOk(s', u, k) {
      assert TaskOk(s, u, k);
    }
  }

  /** The transaction gets the next identifier. */
  function NewArrival(l: Local, t: Txn): Local {
    l.(txns := l.txns[l.nextTxn := t], nextTxn := l.nextTxn + 1)
  }

  lemma ArrivedWellFormed(cfg: Config, s: State, t: Txn)
    requires WellFormed(cfg, s) && Counted(t) && t.tasks == []
    ensures s.local.nextTxn !in s.local.txns && WellFormed(cfg, State(NewArrival(s.local, t), s.net))
  {
    var l := NewArrival(s.local, t);
    assert s.local.nextTxn in s.local.txns ==> TxnOk(s.local, s.local.nextTxn);
    forall id | id in l.txns ensures TxnOk(l, id) {
      if id != s.local.nextTxn { assert TxnOk(s.local, id); }
    }
    GrowWellFormed(cfg, s, State(l, s.net));
  }

  /** One event for each task from `from` on. */
  lemma {:induction false} OneEach(sent: seq<Event>, from: nat, t: TxnId, k: nat, here: bool)
    requires forall i :: 0 <= i < |sent| ==>
      CountOne(sent[i], t, k) == if here && k == from + i then Counts(1, 1, 0, 0) else Zero()
    ensures Count(sent, t, k) == if here && from <= k < from + |sent| then Counts(1, 1, 0, 0) else Zero()
  {
    if sent != [] {
      var rest := sent[1..];
      assert sent == [sent[0]] + rest;
      forall i | 0 <= i < |rest| ensures rest[i] == sent[i + 1] {}
      OneEach(rest, from + 1, t, k, here);
      CountAppend([sent[0]], rest, t, k);
      CountSingle(sent[0], t, k);
    }
  }

  lemma IoCallsCount(engine: Engine, id: TxnId, t: Txn, from: nat, id': TxnId, k: nat)
    requires from <= |t.tasks|
    ensures Count(IoCalls(engine, id, t, from), id', k) ==
      if id == id' && from <= k < |t.tasks| then Counts(1, 1, 0, 0) else Zero()
  {
    OneEach(IoCalls(engine, id, t, from), from, id', k, id == id');
  }

  /** No event, queued task or operation names a call beyond the table. */
  lemma NoSuchCall(cfg: Config, s: State, t: TxnId, k: nat, svc: ServiceId)
    requires WellFormed(cfg, s) && t in s.local.txns && k >= |s.local.txns[t].tasks| && svc in s.local.svcs
    ensures Count(s.net, t, k) == Zero() && Sum(s.local.ops, OpW(t, k)) == 0
    ensures Sum(QueueOf(s.local, svc), QueuedW(t, k)) == 0 && Sum(QueueOf(s.local, svc), QueuedJobW(t, k)) == 0
  {
    forall e | e in s.net ensures CountOne(e, t, k) == Zero() { assert MsgOk(cfg, s.local, e); }
    CountNone(s.net, t, k);
    forall o | o in s.local.ops ensures OpW(t, k)(o) == 0 { assert OpOk(cfg, s.local, o); }
    SumZero(s.local.ops, OpW(t, k));
    forall x | x in QueueOf(s.local, svc) ensures QueuedW(t, k)(x) == 0 && QueuedJobW(t, k)(x) == 0 {
      assert ElemOk(cfg, s.local, svc, x);
    }
    SumZero(QueueOf(s.local, svc), QueuedW(t, k));
    SumZero(QueueOf(s.local, svc), QueuedJobW(t, k));
  }

  function Called(s: State, id: TxnId, calls: seq<Call>): State
    requires id in s.local.txns
  {
    var t := s.local.txns[id];
    var t' := AddCalls(t, calls);
    State(s.local.(txns := s.local.txns[id := t']), s.net + IoCalls(t.home, id, t', |t.tasks|))
  }

  lemma CallsCounted(t: Txn, calls: seq<Call>)
    requires Counted(t)
    ensures Counted(AddCalls(t, calls))
  {
    var added := Map(TaskOf(), calls);
    SumAppend(t.tasks, added, DoneWeight());
    SumAppend(t.tasks, added, WaitWeight());
    SumMap(TaskOf(), calls, WaitWeight(), CbWeight());
    SumZero(added, DoneWeight());
  }

  /** A module or a callback makes service calls. */
  lemma CallsMade(cfg: Config, s: State, id: TxnId, calls: seq<Call>)
    requires Ledger(cfg, s) && id in s.local.txns
    requires forall x :: x in calls ==> LegalCall(cfg, s.local, x)
    ensures Ledger(cfg, Called(s, id, calls))
  {
    var s' := Called(s, id, calls);
    CallsWellFormed(cfg, s, id, calls);
    OrderSendAll(s.net, IoCalls(s.local.txns[id].home, id, s'.local.txns[id], |s.local.txns[id].tasks|));
    forall t, k | t in s'.local.txns && 0 <= k < |s'.local.txns[t].tasks| ensures TaskOk(s', t, k) {
      if k < |s.local.txns[t].tasks| { assert TaskOk(s, t, k); }
      CallsMadeTask(cfg, s, id, calls, t, k);
    }
  }

  lemma CallsWellFormed(cfg: Config, s: State, id: TxnId, calls: seq<Call>)
    requires WellFormed(cfg, s) && id in s.local.txns
    requires forall x :: x in calls ==> LegalCall(cfg, s.local, x)
    ensures WellFormed(cfg, Called(s, id, calls))
  {
    var t := s.local.txns[id];
    var s' := Called(s, id, calls);
    var t' := s'.local.txns[id];
    assert TxnOk(s.local, id);
    CallsTable(cfg, s.local, t, calls);
    GrowTxn(cfg, s, id, t', s.local.ops, s'.net);
  }

  lemma CallsTable(cfg: Config, l: Local, t: Txn, calls: seq<Call>)
    requires TableOk(l, t) && forall x :: x in calls ==> LegalCall(cfg, l, x)
    ensures TableOk(l, AddCalls(t, calls)) && TxnExtends(t, AddCalls(t, calls))
  {
    var t' := AddCalls(t, calls);
    CallsCounted(t, calls);
    forall k | 0 <= k < |t'.tasks|
      ensures t'.tasks[k].svc in l.svcs && Rw(t'.tasks[k].kind) && t'.tasks[k].status != TaskPending
    {
      if k >= |t.tasks| { assert LegalCall(cfg, l, calls[k - |t.tasks|]); }
    }
  }

  lemma CallsMadeTask(cfg: Config, s: State, id: TxnId, calls: seq<Call>, t: TxnId, k: nat)
    requires WellFormed(cfg, s) && id in s.local.txns
    requires forall x :: x in calls ==> LegalCall(cfg, s.local, x)
    requires t in Called(s, id, calls).local.txns && k < |Called(s, id, calls).local.txns[t].tasks|
    requires k < |s.local.txns[t].tasks| ==> TaskOk(s, t, k)
    ensures TaskOk(Called(s, id, calls), t, k)
  {
    var x := s.local.txns[id];
    var s' := Called(s, id, calls);
    var sent := IoCalls(x.home, id, s'.local.txns[id], |x.tasks|);
    IoCallsCount(x.home, id, s'.local.txns[id], |x.tasks|, t, k);
    if k < |s.local.txns[t].tasks| {
      OldCall(s, s', sent, t, k);
    } else {
      assert LegalCall(cfg, s.local, calls[k - |x.tasks|]);
      NewCall(cfg, s, s', sent, t, k);
    }
  }

  /** Events that do not concern a call leave its ledger as it is. */
  lemma OldCall(s: State, s': State, sent: seq<Event>, t: TxnId, k: nat)
    requires t in s.local.txns && k < |s.local.txns[t].tasks| && TaskOk(s, t, k)
    requires t in s'.local.txns && k < |s'.local.txns[t].tasks| && s'.local.txns[t].tasks[k] == s.local.txns[t].tasks[k]
    requires s'.local.svcs == s.local.svcs && s'.local.ops == s.local.ops && s'.net == s.net + sent
    requires Count(sent, t, k) == Zero()
    ensures TaskOk(s', t, k)
  {
    assert Count(s'.net, t, k) == Count(s.net, t, k) by { CountAppend(s.net, sent, t, k); }
    SameCounts(s, s', t, k);
  }

  /** A new call starts with its one event. */
  lemma NewCall(cfg: Config, s: State, s': State, sent: seq<Event>, t: TxnId, k: nat)
    requires WellFormed(cfg, s) && t in s.local.txns && k >= |s.local.txns[t].tasks|
    requires t in s'.local.txns && k < |s'.local.txns[t].tasks| && s'.local.txns[t].tasks[k].svc in s.local.svcs
    requires s'.local.txns[t].tasks[k].status == TaskRunning && s'.local.txns[t].tasks[k].pendings == 0
    requires s'.local.svcs == s.local.svcs && s'.local.ops == s.local.ops && s'.net == s.net + sent
    requires Count(sent, t, k) == Counts(1, 1, 0, 0)
    ensures TaskOk(s', t, k)
  {
    CountAppend(s.net, sent, t, k);
    NoSuchCall(cfg, s, t, k, s'.local.txns[t].tasks[k].svc);
  }

  /** A transaction whose calls are all complete is freed: nothing names them any more. */
  lemma Freed(cfg: Config, s: State, id: TxnId)
    requires Ledger(cfg, s) && id in s.local.txns && s.local.txns[id].complete >= s.local.txns[id].total
    ensures Ledger(cfg, State(s.local.(txns := s.local.txns - {id}), s.net))
    ensures forall e :: e in s.net ==> !NamesCallOf(e.msg, id)
    ensures forall o :: o in s.local.ops ==> !(PendOf(o).Pend? && PendOf(o).txn == id)
    ensures forall v, x :: v in s.local.svcs && x in s.local.svcs[v].queue.Pending() ==> !QueuedFor(x, id)
  {
    var s' := State(s.local.(txns := s.local.txns - {id}), s.net);
    FreedNames(cfg, s, id);
    FreedWellFormed(cfg, s, id);
    forall t, k | t in s'.local.txns && 0 <= k < |s'.local.txns[t].tasks| ensures TaskOk(s', t, k) {
      assert TaskOk(s, t, k);
      SameCounts(s, s', t, k);
    }
  }

  lemma FreedWellFormed(cfg: Config, s: State, id: TxnId)
    requires WellFormed(cfg, s) && id in s.local.txns
    requires forall e :: e in s.net ==> !NamesCallOf(e.msg, id)
    requires forall o :: o in s.local.ops ==> !(PendOf(o).Pend? && PendOf(o).txn == id)
    requires forall v, x :: v in s.local.svcs && x in s.local.svcs[v].queue.Pending() ==> !QueuedFor(x, id)
    ensures WellFormed(cfg, State(s.local.(txns := s.local.txns - {id}), s.net))
  {
    var l := s.local.(txns := s.local.txns - {id});
    forall e | e in s.net ensures MsgOk(cfg, l, e) { MsgOutlives(cfg, s.local, id, e); }
    forall o | o in s.local.ops ensures OpOk(cfg, l, o) { OpOutlives(cfg, s.local, id, o); }
    forall v, x | v in s.local.svcs && x in s.local.svcs[v].queue.Pending() ensures ElemOk(cfg, l, v, x) {
      ElemOutlives(cfg, s.local, id, v, x);
    }
    forall t | t in l.txns ensures TxnOk(l, t) { assert TxnOk(s.local, t); }
  }

  lemma MsgOutlives(cfg: Config, l: Local, id: TxnId, e: Event)
    requires MsgOk(cfg, l, e) && !NamesCallOf(e.msg, id)
    ensures MsgOk(cfg, l.(txns := l.txns - {id}), e)
  {
  }

  lemma OpOutlives(cfg: Config, l: Local, id: TxnId, o: Op)
    requires OpOk(cfg, l, o) && !(PendOf(o).Pend? && PendOf(o).txn == id)
    ensures OpOk(cfg, l.(txns := l.txns - {id}), o)
  {
  }

  lemma ElemOutlives(cfg: Config, l: Local, id: TxnId, v: ServiceId, x: SrvTask)
    requires ElemOk(cfg, l, v, x) && !QueuedFor(x, id)
    ensures ElemOk(cfg, l.(txns := l.txns - {id}), v, x)
  {
  }

  /** Nothing names a call of a transaction whose calls are all complete. */
  lemma FreedNames(cfg: Config, s: State, id: TxnId)
    requires Ledger(cfg, s) && id in s.local.txns && s.local.txns[id].complete >= s.local.txns[id].total
    ensures forall e :: e in s.net ==> !NamesCallOf(e.msg, id)
    ensures forall o :: o in s.local.ops ==> !(PendOf(o).Pend? && PendOf(o).txn == id)
    ensures forall v, x :: v in s.local.svcs && x in s.local.svcs[v].queue.Pending() ==> !QueuedFor(x, id)
  {
    assert TxnOk(s.local, id);
    DoneAtMost(s.local.txns[id].tasks);
    forall e | e in s.net ensures !NamesCallOf(e.msg, id) {
      assert MsgOk(cfg, s.local, e);
      FreedMsg(cfg, s, id, e);
    }
    forall o | o in s.local.ops ensures !(PendOf(o).Pend? && PendOf(o).txn == id) {
      assert OpOk(cfg, s.local, o);
      FreedOp(cfg, s, id, o);
    }
    forall v, x | v in s.local.svcs && x in s.local.svcs[v].queue.Pending() ensures !QueuedFor(x, id) {
      assert ElemOk(cfg, s.local, v, x);
      FreedElem(cfg, s, id, v, x);
    }
  }

  /** The event names a service call, or work pending for one, of transaction `id`. */
  predicate NamesCallOf(m: Msg, id: TxnId) {
    match m
    case IoCall(t, _, _, _, _) => t == id
    case TaskRun(t, _, _, _, _) => t == id
    case TaskCb(t, _, _, _, _, _) => t == id
    case TimerEmit(_, job) => job.pend.Pend? && job.pend.txn == id
    case TimerRun(_, job, _) => job.pend.Pend? && job.pend.txn == id
    case _ => false
  }

  predicate QueuedFor(x: SrvTask, id: TxnId) {
    match x.body
    case ApiTask(_, _, t, _) => t == id
    case TimerTask(_, job) => job.pend.Pend? && job.pend.txn == id
  }

  /** Nothing counts towards a completed call. */
  lemma NothingLeft(s: State, t: TxnId, k: nat)
    requires t in s.local.txns && k < |s.local.txns[t].tasks| && TaskOk(s, t, k) && s.local.txns[t].tasks[k].Complete()
    ensures Count(s.net, t, k) == Zero() && Sum(s.local.ops, OpW(t, k)) == 0
    ensures var q := QueueOf(s.local, s.local.txns[t].tasks[k].svc);
      Sum(q, QueuedW(t, k)) == 0 && Sum(q, QueuedJobW(t, k)) == 0
  {
    CountMember(s.net, t, k);
    QueuedNonneg(QueueOf(s.local, s.local.txns[t].tasks[k].svc), t, k);
    OutstandingNonneg(s, t, k);
  }

  ghost predicate AllComplete(s: State, id: TxnId)
    requires id in s.local.txns
  {
    forall k :: 0 <= k < |s.local.txns[id].tasks| ==> s.local.txns[id].tasks[k].Complete()
  }

  lemma FreedMsg(cfg: Config, s: State, id: TxnId, e: Event)
    requires TasksOk(s) && id in s.local.txns && AllComplete(s, id) && e in s.net && MsgOk(cfg, s.local, e)
    ensures !NamesCallOf(e.msg, id)
  {
    forall k | 0 <= k < |s.local.txns[id].tasks| ensures CountOne(e, id, k) == Zero() {
      assert TaskOk(s, id, k);
      NothingLeft(s, id, k);
      CountMember(s.net, id, k);
      assert Within(CountOne(e, id, k), Count(s.net, id, k));
    }
    NotCounted(cfg, s.local, id, e);
  }

  lemma NotCounted(cfg: Config, l: Local, id: TxnId, e: Event)
    requires id in l.txns && MsgOk(cfg, l, e)
    requires forall k :: 0 <= k < |l.txns[id].tasks| ==> CountOne(e, id, k) == Zero()
    ensures !NamesCallOf(e.msg, id)
  {
    var m := e.msg;
    if m.IoCall? || m.TaskRun? || m.TaskCb? {
      assert CountOne(e, m.txn, m.task) != Zero();
    } else if (m.TimerEmit? || m.TimerRun?) && m.job.pend.Pend? {
      assert CountOne(e, m.job.pend.txn, m.job.pend.task) != Zero();
    }
  }

  lemma FreedOp(cfg: Config, s: State, id: TxnId, o: Op)
    requires TasksOk(s) && id in s.local.txns && AllComplete(s, id) && o in s.local.ops && OpOk(cfg, s.local, o)
    ensures !(PendOf(o).Pend? && PendOf(o).txn == id)
  {
    if PendOf(o).Pend? && PendOf(o).txn == id {
      var k := PendOf(o).task;
      assert TaskOk(s, id, k);
      NothingLeft(s, id, k);
      SumBounds(s.local.ops, OpW(id, k));
    }
  }

  lemma FreedElem(cfg: Config, s: State, id: TxnId, v: ServiceId, x: SrvTask)
    requires TasksOk(s) && id in s.local.txns && AllComplete(s, id)
    requires v in s.local.svcs && x in s.local.svcs[v].queue.Pending() && ElemOk(cfg, s.local, v, x)
    ensures !QueuedFor(x, id)
  {
    if QueuedFor(x, id) {
      var k := if x.body.ApiTask? then x.body.task else x.body.job.pend.task;
      var q := s.local.svcs[v].queue.Pending();
      assert TaskOk(s, id, k);
      NothingLeft(s, id, k);
      SumBounds(q, QueuedW(id, k));
      SumBounds(q, QueuedJobW(id, k));
    }
  }
}
