/** Transactions with callbacks: resumed exactly once. */
module Resume {
  // In every run, and whatever other transactions do, a transaction whose own service calls carry
  // callbacks has one resume token, its handlers never fail, and nothing names it once freed.

  import opened Seqs
  import opened QueueSpec
  import opened ServiceSpec
  import opened TxnSpec
  import opened WorkflowLaws
  import opened Protocol
  import opened Invariants
  import opened LedgerSteps
  import opened ProtocolSteps
  import opened Runs
  import opened Tokens

  /** All service calls of the transaction so far carry a callback. */
  predicate HasCbs(t: Txn) {
    forall k :: 0 <= k < |t.tasks| ==> t.tasks[k].hasCb
  }

  /** No completion of `t` is behind one that resumes it. */
  ghost predicate DoneInOrder(net: seq<Event>, t: TxnId) {
    forall i, j | 0 <= i < j < |net| ::
      !(net[i].msg.Done? && net[j].msg.Done? && net[i].msg.txn == net[j].msg.txn == t && net[i].msg.resume)
  }

  /** One resume token; a workflow event is the last event that names the transaction. */
  ghost predicate TokenOk(s: State, t: TxnId)
    requires t in s.local.txns
  {
    && OneToken(s, t) && s.local.txns[t].state != Destroyed
    && (WakesOf(s.net, t).run > 0 ==> WakesOf(s.net, t).done == 0)
    && DoneInOrder(s.net, t)
  }

  ghost predicate Resumable(s: State, t: TxnId) {
    t in s.local.txns && HasCbs(s.local.txns[t]) ==> TokenOk(s, t)
  }

  /** No completion and no workflow event names `t`. */
  predicate Forgotten(s: State, t: TxnId) { WakesOf(s.net, t).run == 0 && WakesOf(s.net, t).done == 0 }

  // ----- order of completions -----

  lemma DoneOrderReplace(net: seq<Event>, i: nat, sent: seq<Event>, t: TxnId)
    requires i < |net| && DoneInOrder(net, t)
    requires forall e :: e in sent ==> !(e.msg.Done? && e.msg.txn == t)
    ensures DoneInOrder(Remove(net, i) + sent, t)
  {
    var r := Remove(net, i) + sent;
    forall a, b | 0 <= a < b < |r|
      ensures !(r[a].msg.Done? && r[b].msg.Done? && r[a].msg.txn == r[b].msg.txn == t && r[a].msg.resume)
    {
      if b < |net| - 1 {
        var a' := if a < i then a else a + 1;
        var b' := if b < i then b else b + 1;
        assert r[a] == net[a'] && r[b] == net[b'];
      } else {
        assert r[b] == sent[b - (|net| - 1)] && r[b] in sent;
      }
    }
  }

  lemma DoneOrderAppend(net: seq<Event>, sent: seq<Event>, t: TxnId)
    requires DoneInOrder(net, t)
    requires forall e :: e in sent ==> Silent(e.msg) || e.msg.txn != t
    ensures DoneInOrder(net + sent, t)
  {
    var r := net + sent;
    forall a, b | 0 <= a < b < |r|
      ensures !(r[a].msg.Done? && r[b].msg.Done? && r[a].msg.txn == r[b].msg.txn == t && r[a].msg.resume)
    {
      if b < |net| {
        assert r[a] == net[a] && r[b] == net[b];
      } else {
        assert r[b] == sent[b - |net|] && r[b] in sent;
      }
    }
  }

  /** With no wake-up in flight a completion may be appended. */
  lemma DoneOrderAsleep(net: seq<Event>, t: TxnId)
    requires forall i :: 0 <= i < |net| - 1 ==> !IsWake(net[i].msg, t)
    ensures DoneInOrder(net, t)
  {
  }

  lemma NotDoneSends(cfg: Config, l: Local, e: Event, c: Choice, t: TxnId)
    requires Handle(cfg, l, e, c).Effect? && !(e.msg.TaskCb? && e.msg.txn == t)
    ensures forall x :: x in Handle(cfg, l, e, c).sent ==> !(x.msg.Done? && x.msg.txn == t)
  {
    HandlerSends(cfg, l, e, c, t);
    WakesMember(Handle(cfg, l, e, c).sent, t);
  }

  // ----- a transaction with callbacks -----

  lemma {:induction false} WaitSum(tasks: seq<Task>)
    requires forall k :: 0 <= k < |tasks| ==> tasks[k].hasCb
    ensures Sum(tasks, WaitWeight()) == |tasks| - Sum(tasks, DoneWeight())
  {
    if tasks != [] { WaitSum(tasks[1..]); }
  }

  /** With callbacks a transaction waits exactly while some call is incomplete. */
  lemma WaitsForAll(t: Txn)
    requires Counted(t) && HasCbs(t)
    ensures t.pending == t.total - t.complete >= 0
  {
    WaitSum(t.tasks);
    WaitsAtMost(t);
  }

  /** Calls are only ever added, so earlier the transaction had callbacks too. */
  lemma CbsEarlier(cfg: Config, s: State, i: nat, c: Choice, t: TxnId)
    requires Flows(s) && i < |s.net| && Handle(cfg, s.local, s.net[i], c).Effect? && t in s.local.txns
    requires var l := Handle(cfg, s.local, s.net[i], c).local; t in l.txns && HasCbs(l.txns[t])
    ensures HasCbs(s.local.txns[t])
  {
    var e := s.net[i];
    var (x, y) := (s.local.txns[t], Handle(cfg, s.local, e, c).local.txns[t]);
    if !Concerns(e.msg, t) {
      OthersKept(cfg, s.local, e, c, t);
    } else if e.msg.WorkflowRun? {
      StepFollows(x, c.conduct, 0);
    }
    assert |y.tasks| >= |x.tasks| && forall k :: 0 <= k < |x.tasks| ==> y.tasks[k].hasCb == x.tasks[k].hasCb;
  }

  /** With callbacks no step breaks the token. */
  lemma NeverBreaks(cfg: Config, s: State, i: nat, c: Choice, t: TxnId)
    requires Ledger(cfg, s) && Flows(s) && Deliverable(s.net, i) && Handle(cfg, s.local, s.net[i], c).Effect?
    requires t in s.local.txns && HasCbs(s.local.txns[t]) && OneToken(s, t)
    requires var l := Handle(cfg, s.local, s.net[i], c).local; t in l.txns ==> HasCbs(l.txns[t])
    ensures !BreaksToken(s, Deliver(i, c), t)
  {
    if s.net[i].msg == WorkflowRun(t) {
      assert TxnOk(s.local, t);
      WaitsAtMost(s.local.txns[t]);
      WakesMember(s.net, t);
      assert s.net[i] in s.net;
      WorkflowView(cfg, s, i, c.conduct);
      var o := Run(s.local.txns[t], c.conduct, 0);
      if !o.freed { WaitsForAll(o.txn); }
    }
  }

  // ----- one delivery -----

  lemma CallbackKeeps(cfg: Config, s: State, i: nat, c: Choice, t: TxnId)
    requires Ledger(cfg, s) && Deliverable(s.net, i) && s.net[i].msg.TaskCb? && s.net[i].msg.txn == t
    requires Handle(cfg, s.local, s.net[i], c).Effect?
    requires t in s.local.txns && HasCbs(s.local.txns[t]) && TokenOk(s, t)
    ensures var s' := After(s, i, Handle(cfg, s.local, s.net[i], c));
      && t in s'.local.txns && s'.local.txns[t].state != Destroyed
      && WakesOf(s'.net, t).run == 0 && DoneInOrder(s'.net, t)
  {
    var e := s.net[i];
    var eff := Handle(cfg, s.local, e, c);
    CallbackView(cfg, s, i, c.conduct);
    HandlerSends(cfg, s.local, e, c, t);
    WakesReplace(s.net, i, eff.sent, t);
    WakesMember(s.net, t);
    CallbackOrder(s.net, i, eff.sent, t);
  }

  lemma CallbackOrder(net: seq<Event>, i: nat, sent: seq<Event>, t: TxnId)
    requires i < |net| && WakesOf(net, t).wake == 0 && sent != []
    requires forall j :: 0 <= j < |sent| - 1 ==> Silent(sent[j].msg)
    ensures DoneInOrder(Remove(net, i) + sent, t)
  {
    var r := Remove(net, i) + sent;
    WakesMember(net, t);
    forall a | 0 <= a < |r| - 1 ensures !IsWake(r[a].msg, t) {
      if a < |net| - 1 {
        assert r[a] == net[if a < i then a else a + 1] && r[a] in net;
      } else {
        assert r[a] == sent[a - (|net| - 1)];
      }
    }
    DoneOrderAsleep(r, t);
  }

  /** When a resuming completion is delivered, no other completion names its transaction. */
  lemma NoOtherDone(cfg: Config, s: State, i: nat)
    requires Ledger(cfg, s) && Deliverable(s.net, i) && s.net[i].msg.Done? && s.net[i].msg.resume
    requires s.net[i].msg.txn in s.local.txns && DoneInOrder(s.net, s.net[i].msg.txn)
    ensures WakesOf(s.net, s.net[i].msg.txn).done == 1
  {
    var t := s.net[i].msg.txn;
    SumRemove(s.net, i, DoneW(t));
    var r := Remove(s.net, i);
    assert MsgOk(cfg, s.local, s.net[i]) && s.net[i] in s.net;
    forall a | 0 <= a < |r| ensures DoneW(t)(r[a]) == 0 {
      var (e, x) := (s.net[i], s.net[if a < i then a else a + 1]);
      assert r[a] == x;
      assert MsgOk(cfg, s.local, x);
      assert DoneW(t)(x) == 1 ==> ChannelOf(x) == ChannelOf(e);
    }
    SumZero(r, DoneW(t));
  }

  /** Every other delivery: completions turn into workflow events, steps consume them. */
  lemma OthersKeep(cfg: Config, s: State, i: nat, c: Choice, t: TxnId)
    requires Ledger(cfg, s) && Deliverable(s.net, i) && !(s.net[i].msg.TaskCb? && s.net[i].msg.txn == t)
    requires Handle(cfg, s.local, s.net[i], c).Effect? && t in s.local.txns && TokenOk(s, t)
    ensures var s' := After(s, i, Handle(cfg, s.local, s.net[i], c));
      && (WakesOf(s'.net, t).run > 0 ==> WakesOf(s'.net, t).done == 0) && DoneInOrder(s'.net, t)
      && (s.net[i].msg == WorkflowRun(t) ==> WakesOf(s'.net, t).done == 0 && WakesOf(s'.net, t).run <= 1)
  {
    var e := s.net[i];
    var eff := Handle(cfg, s.local, e, c);
    NotDoneSends(cfg, s.local, e, c, t);
    DoneOrderReplace(s.net, i, eff.sent, t);
    HandlerSends(cfg, s.local, e, c, t);
    WakesReplace(s.net, i, eff.sent, t);
    WakesMember(s.net, t);
    assert e in s.net;
    if e.msg.Done? && e.msg.txn == t && e.msg.resume { NoOtherDone(cfg, s, i); }
  }

  lemma HandleKeeps(cfg: Config, s: State, i: nat, c: Choice, t: TxnId)
    requires Inv(cfg, s) && Deliverable(s.net, i) && LegalChoice(cfg, s.local, c)
    requires Handle(cfg, s.local, s.net[i], c).Effect? && t in s.local.txns && Resumable(s, t)
    ensures Resumable(After(s, i, Handle(cfg, s.local, s.net[i], c)), t)
  {
    var e := s.net[i];
    var s' := After(s, i, Handle(cfg, s.local, e, c));
    if t in s'.local.txns && HasCbs(s'.local.txns[t]) {
      CbsEarlier(cfg, s, i, c, t);
      NeverBreaks(cfg, s, i, c, t);
      assert Next(cfg, s, Deliver(i, c), s');
      TokenLaw(cfg, s, Deliver(i, c), s', t);
      StaysAlive(cfg, s, i, c, t);
      if e.msg.TaskCb? && e.msg.txn == t {
        CallbackKeeps(cfg, s, i, c, t);
      } else {
        OthersKeep(cfg, s, i, c, t);
      }
    }
  }

  lemma StaysAlive(cfg: Config, s: State, i: nat, c: Choice, t: TxnId)
    requires Ledger(cfg, s) && Flows(s) && Deliverable(s.net, i) && Handle(cfg, s.local, s.net[i], c).Effect?
    requires t in s.local.txns && OneToken(s, t) && s.local.txns[t].state != Destroyed
    requires t in Handle(cfg, s.local, s.net[i], c).local.txns && !BreaksToken(s, Deliver(i, c), t)
    ensures Handle(cfg, s.local, s.net[i], c).local.txns[t].state != Destroyed
  {
    if !Concerns(s.net[i].msg, t) {
      OthersKept(cfg, s.local, s.net[i], c, t);
    } else if s.net[i].msg == WorkflowRun(t) {
      assert TxnOk(s.local, t);
      WaitsAtMost(s.local.txns[t]);
      WakesMember(s.net, t);
      assert s.net[i] in s.net;
      WorkflowView(cfg, s, i, c.conduct);
    }
  }

  // ----- every step -----

  lemma ArriveResumable(cfg: Config, s: State, step: Step, s': State, t: TxnId)
    requires Inv(cfg, s) && step.Arrive? && Next(cfg, s, step, s') && t == s.local.nextTxn
    ensures TokenOk(s', t)
  {
    var e := Event(step.from, step.home, WorkflowRun(t));
    assert s'.net == s.net + [e];
    forall x | x in s.net ensures Silent(x.msg) || x.msg.txn != t { assert MsgOk(cfg, s.local, x); }
    WakesAppend(s.net, [e], t);
    WakesNone(s.net, t);
    WakesOne(e, t);
    assert forall i :: 0 <= i < |s'.net| - 1 ==> s'.net[i] in s.net;
    DoneOrderAsleep(s'.net, t);
  }

  /** Every step keeps the token of every transaction that has callbacks. */
  lemma NextResumable(cfg: Config, s: State, step: Step, s': State, t: TxnId)
    requires Inv(cfg, s) && Resumable(s, t) && Next(cfg, s, step, s')
    ensures Resumable(s', t)
  {
    if step.Deliver? {
      if t in s.local.txns {
        HandleKeeps(cfg, s, step.pos, step.choice, t);
      } else {
        NoneBorn(cfg, s.local, s.net[step.pos], step.choice, t);
      }
    } else if step.Arrive? && t == s.local.nextTxn {
      ArriveResumable(cfg, s, step, s', t);
    } else {
      EnvironmentResumable(cfg, s, step, s', t);
    }
  }

  lemma EnvironmentResumable(cfg: Config, s: State, step: Step, s': State, t: TxnId)
    requires Resumable(s, t) && Next(cfg, s, step, s') && !step.Deliver? && (step.Arrive? ==> t != s.local.nextTxn)
    ensures Resumable(s', t)
  {
    EnvironmentKept(cfg, s, step, s', t);
    var sent :| s'.net == s.net + sent && forall e :: e in sent ==> Silent(e.msg) || e.msg.txn != t;
    if t in s.local.txns && TokenOk(s, t) { DoneOrderAppend(s.net, sent, t); }
  }

  /** A transaction freed with callbacks on its calls is forgotten, and stays so. */
  lemma NextForgotten(cfg: Config, s: State, step: Step, s': State, t: TxnId)
    requires Inv(cfg, s) && Next(cfg, s, step, s') && t !in s'.local.txns
    requires if t in s.local.txns then HasCbs(s.local.txns[t]) && TokenOk(s, t) else Forgotten(s, t)
    ensures Forgotten(s', t)
  {
    if !step.Deliver? {
      EnvironmentKept(cfg, s, step, s', t);
    } else if t in s.local.txns {
      FreedForgotten(cfg, s, step.pos, step.choice, t);
    } else {
      var (e, c) := (s.net[step.pos], step.choice);
      WakesMember(s.net, t);
      assert e in s.net;
      HandlerSends(cfg, s.local, e, c, t);
      WakesReplace(s.net, step.pos, Handle(cfg, s.local, e, c).sent, t);
    }
  }

  lemma FreedForgotten(cfg: Config, s: State, i: nat, c: Choice, t: TxnId)
    requires Ledger(cfg, s) && Flows(s) && Deliverable(s.net, i) && Handle(cfg, s.local, s.net[i], c).Effect?
    requires t in s.local.txns && TokenOk(s, t) && t !in Handle(cfg, s.local, s.net[i], c).local.txns
    ensures Forgotten(After(s, i, Handle(cfg, s.local, s.net[i], c)), t)
  {
    var e := s.net[i];
    FreedByStep(cfg, s, i, c, t);
    OthersKeep(cfg, s, i, c, t);
    HandlerSends(cfg, s.local, e, c, t);
    WakesReplace(s.net, i, Handle(cfg, s.local, e, c).sent, t);
    WakesMember(s.net, t);
    assert e in s.net;
  }

  /** A transaction is freed only by its own workflow event, which is then not repeated. */
  lemma FreedByStep(cfg: Config, s: State, i: nat, c: Choice, t: TxnId)
    requires Flows(s) && i < |s.net| && Handle(cfg, s.local, s.net[i], c).Effect?
    requires t in s.local.txns && t !in Handle(cfg, s.local, s.net[i], c).local.txns
    ensures s.net[i].msg == WorkflowRun(t) && !Run(s.local.txns[t], c.conduct, 0).again
  {
    if !Concerns(s.net[i].msg, t) { OthersKept(cfg, s.local, s.net[i], c, t); }
    StepFollows(s.local.txns[t], c.conduct, 0);
  }

  // ----- the theorems -----

  lemma {:induction false} RunResumable(cfg: Config, trace: seq<State>, steps: seq<Step>, n: nat, t: TxnId)
    requires IsRun(cfg, trace, steps) && n < |trace|
    ensures Resumable(trace[n], t)
  {
    if n > 0 {
      RunResumable(cfg, trace, steps, n - 1, t);
      RunInv(cfg, trace, steps, n - 1);
      NextResumable(cfg, trace[n - 1], steps[n - 1], trace[n], t);
    }
  }

  /** As long as it lived, up to state `n`, transaction `t` made only calls with callbacks. */
  ghost predicate AlwaysCbs(trace: seq<State>, n: nat, t: TxnId)
    requires n < |trace|
  {
    forall j :: 0 <= j <= n && t in trace[j].local.txns ==> HasCbs(trace[j].local.txns[t])
  }

  lemma {:induction false} RunForgotten(cfg: Config, trace: seq<State>, steps: seq<Step>, n: nat, t: TxnId)
    requires IsRun(cfg, trace, steps) && n < |trace| && AlwaysCbs(trace, n, t) && t !in trace[n].local.txns
    ensures Forgotten(trace[n], t)
  {
    if n > 0 {
      var (s, s') := (trace[n - 1], trace[n]);
      assert if t in s.local.txns then HasCbs(s.local.txns[t]) && TokenOk(s, t) else Forgotten(s, t) by {
        if t in s.local.txns {
          RunResumable(cfg, trace, steps, n - 1, t);
        } else {
          RunForgotten(cfg, trace, steps, n - 1, t);
        }
      }
      assert Inv(cfg, s) by { RunInv(cfg, trace, steps, n - 1); }
      assert Next(cfg, s, steps[n - 1], s');
      NextForgotten(cfg, s, steps[n - 1], s', t);
    }
  }

  /** Exactly one resume token, in every run: a live transaction whose calls carry callbacks
      waits for them or has exactly one event in flight that resumes it, never both, whatever
      the calls of other transactions carry. */
  lemma OneResumeToken(cfg: Config, trace: seq<State>, steps: seq<Step>, n: nat, t: TxnId)
    requires IsRun(cfg, trace, steps) && n < |trace| && t in trace[n].local.txns && HasCbs(trace[n].local.txns[t])
    ensures var s := trace[n];
      && Sum(s.net, WakeW(t)) in {0, 1}
      && (Sum(s.net, WakeW(t)) == 1 <==> s.local.txns[t].pending == 0)
      && s.local.txns[t].state != Destroyed
  {
    RunResumable(cfg, trace, steps, n, t);
    RunInv(cfg, trace, steps, n);
    assert TxnOk(trace[n].local, t);
    WaitsForAll(trace[n].local.txns[t]);
  }

  /** Without any assumption on callbacks: from one resume token, a step of a run keeps it or
      frees the transaction if and only if it is neither of the two steps that break it. */
  lemma TokenKeptExactly(cfg: Config, trace: seq<State>, steps: seq<Step>, n: nat, t: TxnId)
    requires IsRun(cfg, trace, steps) && n < |steps| && OneToken(trace[n], t)
    ensures (t in trace[n + 1].local.txns ==> OneToken(trace[n + 1], t)) <==> !BreaksToken(trace[n], steps[n], t)
  {
    RunInv(cfg, trace, steps, n);
    TokenLaw(cfg, trace[n], steps[n], trace[n + 1], t);
  }

  /** Without any assumption on callbacks: a step of a run fails an assertion or finds a freed
      transaction if and only if it delivers one of the three events of `Fails`. */
  lemma HandlersFailExactly(cfg: Config, trace: seq<State>, steps: seq<Step>, n: nat, step: Step)
    requires IsRun(cfg, trace, steps) && n < |trace| && Enabled(cfg, trace[n], step)
    ensures Perform(cfg, trace[n], step).0.Crash? <==>
      step.Deliver? && Fails(trace[n].local, trace[n].net[step.pos], step.choice)
  {
    RunInv(cfg, trace, steps, n);
    match step
    case Deliver(pos, choice) => HandlerFails(cfg, trace[n], pos, choice);
    case EpReply(op, started) => EpAnswered(cfg, trace[n], op, started);
    case _ =>
  }

  /** A transaction whose calls carry callbacks never makes a handler fail; nor does any event
      that runs no transaction's user code. */
  lemma NoHandlerFails(cfg: Config, trace: seq<State>, steps: seq<Step>, n: nat, step: Step)
    requires IsRun(cfg, trace, steps) && n < |trace| && Enabled(cfg, trace[n], step)
    requires step.Deliver? ==> forall t :: Concerns(trace[n].net[step.pos].msg, t) ==> AlwaysCbs(trace, n, t)
    ensures Perform(cfg, trace[n], step).0.Effect?
  {
    HandlersFailExactly(cfg, trace, steps, n, step);
    if step.Deliver? {
      var e := trace[n].net[step.pos];
      if e.msg.WorkflowRun? || e.msg.TaskCb? {
        var t := e.msg.txn;
        assert Concerns(e.msg, t);
        if t in trace[n].local.txns {
          OneResumeToken(cfg, trace, steps, n, t);
        } else {
          RunForgotten(cfg, trace, steps, n, t);
          WakesMember(trace[n].net, t);
          assert e in trace[n].net;
        }
      }
    }
  }

  /** The event names transaction `id`. */
  predicate NamesTxn(m: Msg, id: TxnId) {
    NamesCallOf(m, id) || ((m.Done? || m.WorkflowRun?) && m.txn == id)
  }

  /** Nothing in flight, queued or pending names a transaction that is not alive, if its calls
      carried callbacks while it was. */
  lemma NothingDangles(cfg: Config, trace: seq<State>, steps: seq<Step>, n: nat, id: TxnId)
    requires IsRun(cfg, trace, steps) && n < |trace| && id !in trace[n].local.txns && AlwaysCbs(trace, n, id)
    ensures forall e :: e in trace[n].net ==> !NamesTxn(e.msg, id)
    ensures forall o :: o in trace[n].local.ops ==> !(PendOf(o).Pend? && PendOf(o).txn == id)
    ensures forall v, x :: v in trace[n].local.svcs && x in trace[n].local.svcs[v].queue.Pending() ==> !QueuedFor(x, id)
  {
    RunForgotten(cfg, trace, steps, n, id);
    RunInv(cfg, trace, steps, n);
    var s := trace[n];
    WakesMember(s.net, id);
    forall e | e in s.net ensures !NamesTxn(e.msg, id) { assert MsgOk(cfg, s.local, e); }
    forall o | o in s.local.ops ensures !(PendOf(o).Pend? && PendOf(o).txn == id) { assert OpOk(cfg, s.local, o); }
    forall v, x | v in s.local.svcs && x in s.local.svcs[v].queue.Pending() ensures !QueuedFor(x, id) {
      assert ElemOk(cfg, s.local, v, x);
    }
  }
}
