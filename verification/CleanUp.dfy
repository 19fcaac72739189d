/** Clean-up functions that start pending work. */
module CleanUp {
  // The clean-up runs after a call's callback, with a handle that lets it start pending work for
  // the call just completed.

  import opened Seqs
  import opened QueueSpec
  import opened ServiceSpec
  import opened TxnSpec
  import opened Protocol
  import opened Invariants
  import opened LedgerSteps
  import opened ProtocolSteps
  import opened Tokens

  predicate StartsJob(started: seq<Started>) { exists x :: x in started && x.StartJob? }

  /** The callback handler when the clean-up starts `started`. It runs on the module's side of the
      call, where a job must not be created: that aborts. */
  function HandleTaskCbCleaning(cfg: Config, l: Local, e: Event, c: Conduct, started: seq<Started>): Effect
    requires Finishes(e.msg)
  {
    var m := e.msg;
    match HandleTaskCb(cfg, l, e, c)
    case Crash => Crash
    case Effect(l1, sent) =>
      if StartsJob(started) then Crash
      else Effect(l1.(txns := l1.txns[m.txn := AddPendings(l1.txns[m.txn], m.task, |started|)],
                      ops := l1.ops + Map(OpOf(e.dst, m.svc, Pend(m.txn, m.task)), started)), sent)
  }

  /** A clean-up that starts nothing is the handler of the protocol. */
  lemma CleanUpQuiet(cfg: Config, l: Local, e: Event, c: Conduct)
    requires Finishes(e.msg)
    ensures HandleTaskCbCleaning(cfg, l, e, c, []) == HandleTaskCb(cfg, l, e, c)
  {
    var eff := HandleTaskCb(cfg, l, e, c);
    if eff.Effect? {
      var t := eff.local.txns[e.msg.txn];
      assert t.tasks[e.msg.task := t.tasks[e.msg.task]] == t.tasks;
      assert eff.local.txns[e.msg.txn := t] == eff.local.txns;
      assert eff.local.ops + Map(OpOf(e.dst, e.msg.svc, Pend(e.msg.txn, e.msg.task)), []) == eff.local.ops;
    }
  }

  /** A clean-up that starts a job aborts; after any other, the completed call stays accounted for
      if and only if the clean-up started nothing. */
  lemma CleanUpMustStartNothing(cfg: Config, s: State, i: nat, c: Conduct, started: seq<Started>)
    requires Inv(cfg, s) && Deliverable(s.net, i) && Finishes(s.net[i].msg)
    requires forall x :: x in c.calls ==> LegalCall(cfg, s.local, x)
    requires HandleTaskCb(cfg, s.local, s.net[i], c).Effect?
    ensures var (m, eff) := (s.net[i].msg, HandleTaskCbCleaning(cfg, s.local, s.net[i], c, started));
      && (eff.Crash? <==> StartsJob(started))
      && (eff.Effect? ==>
            var s' := After(s, i, eff);
            && m.txn in s'.local.txns && m.task < |s'.local.txns[m.txn].tasks|
            && (TaskOk(s', m.txn, m.task) <==> started == []))
  {
    if !StartsJob(started) { CleanUpEffect(cfg, s, i, c, started); }
  }

  lemma CleanUpEffect(cfg: Config, s: State, i: nat, c: Conduct, started: seq<Started>)
    requires Inv(cfg, s) && Deliverable(s.net, i) && Finishes(s.net[i].msg)
    requires forall x :: x in c.calls ==> LegalCall(cfg, s.local, x)
    requires HandleTaskCb(cfg, s.local, s.net[i], c).Effect? && !StartsJob(started)
    ensures var m := s.net[i].msg;
      var s' := After(s, i, HandleTaskCbCleaning(cfg, s.local, s.net[i], c, started));
      && m.txn in s'.local.txns && m.task < |s'.local.txns[m.txn].tasks|
      && (TaskOk(s', m.txn, m.task) <==> started == [])
  {
    var m := s.net[i].msg;
    var s' := After(s, i, HandleTaskCbCleaning(cfg, s.local, s.net[i], c, started));
    CompletedHere(cfg, s, i, c, started);
    if started == [] {
      CleanUpQuiet(cfg, s.local, s.net[i], c);
      TaskCbLedger(cfg, s, i, c);
    } else {
      CountMember(s'.net, m.txn, m.task);
      QueuedNonneg(QueueOf(s'.local, s'.local.txns[m.txn].tasks[m.task].svc), m.txn, m.task);
    }
  }

  /** The call is complete, and the clean-up's work is all that is pending for it. */
  lemma CompletedHere(cfg: Config, s: State, i: nat, c: Conduct, started: seq<Started>)
    requires Inv(cfg, s) && Deliverable(s.net, i) && Finishes(s.net[i].msg)
    requires HandleTaskCb(cfg, s.local, s.net[i], c).Effect? && !StartsJob(started)
    ensures var m := s.net[i].msg;
      var l := HandleTaskCbCleaning(cfg, s.local, s.net[i], c, started).local;
      && m.txn in l.txns && m.task < |l.txns[m.txn].tasks|
      && l.txns[m.txn].tasks[m.task].Complete() && l.txns[m.txn].tasks[m.task].pendings == |started|
  {
    var m := s.net[i].msg;
    CallFinished(cfg, s, i, m.txn, m.task);
    assert TaskOk(s, m.txn, m.task);
    NoOtherToken(s, i, m.txn, m.task);
    OutstandingNonneg(s, m.txn, m.task);
    CleaningShape(cfg, s.local, s.net[i], c, started);
  }

  lemma CleaningShape(cfg: Config, l: Local, e: Event, c: Conduct, started: seq<Started>)
    requires Finishes(e.msg) && HandleTaskCb(cfg, l, e, c).Effect? && !StartsJob(started)
    ensures var m := e.msg;
      var l' := HandleTaskCbCleaning(cfg, l, e, c, started).local;
      && m.txn in l.txns && m.task < |l.txns[m.txn].tasks| && m.txn in l'.txns && m.task < |l'.txns[m.txn].tasks|
      && l'.txns[m.txn].tasks[m.task].Complete()
      && l'.txns[m.txn].tasks[m.task].pendings == l.txns[m.txn].tasks[m.task].pendings + |started|
  {
  }

  /** One endpoint call started by the clean-up: when it is answered, a second completion of the
      completed call is sent. */
  lemma CleanUpCompletesTwice(cfg: Config, s: State, i: nat, c: Conduct)
    requires Inv(cfg, s) && Deliverable(s.net, i) && Finishes(s.net[i].msg)
    requires HandleTaskCb(cfg, s.local, s.net[i], c).Effect?
    ensures var m := s.net[i].msg;
      var l := HandleTaskCbCleaning(cfg, s.local, s.net[i], c, [StartEp]).local;
      var o := EpCall(s.net[i].dst, m.svc, Pend(m.txn, m.task));
      && o in l.ops && m.txn in l.txns && m.task < |l.txns[m.txn].tasks| && l.txns[m.txn].tasks[m.task].Complete()
      && var eff := FinishPending(l, o.engine, o.svc, o.pend, []);
         eff.Effect? && |eff.sent| == 1 && IsFinish(eff.sent[0].msg, m.txn, m.task)
  {
    var m := s.net[i].msg;
    CompletedHere(cfg, s, i, c, [StartEp]);
    StartedEp(cfg, s.local, s.net[i], c);
    LastWork(HandleTaskCbCleaning(cfg, s.local, s.net[i], c, [StartEp]).local, s.net[i].dst, m.svc, m.txn, m.task);
  }

  lemma StartedEp(cfg: Config, l: Local, e: Event, c: Conduct)
    requires Finishes(e.msg) && HandleTaskCb(cfg, l, e, c).Effect?
    ensures EpCall(e.dst, e.msg.svc, Pend(e.msg.txn, e.msg.task)) in
      HandleTaskCbCleaning(cfg, l, e, c, [StartEp]).local.ops
  {
    var f := OpOf(e.dst, e.msg.svc, Pend(e.msg.txn, e.msg.task));
    assert Map(f, [StartEp])[0] == f(StartEp);
  }

  /** The last pending work of a call sends its completion, complete or not. */
  lemma LastWork(l: Local, engine: Engine, svc: ServiceId, t: TxnId, k: nat)
    requires t in l.txns && k < |l.txns[t].tasks| && l.txns[t].tasks[k].pendings == 1
    ensures var eff := FinishPending(l, engine, svc, Pend(t, k), []);
      eff.Effect? && |eff.sent| == 1 && IsFinish(eff.sent[0].msg, t, k)
  {
  }
}
