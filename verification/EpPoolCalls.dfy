/** An accepted send is called back exactly once. */
module EpPoolCalls {
  // Outside teardown, by a complete reply, a time-out or an error, if its handler has a callback.

  import opened Seqs
  import opened EpPool
  import opened EpPoolLaws
  import opened EpPoolRuns
  import opened EpPoolWatch

  // ----- a node keeps its handler -----

  /** Every node of `q` was in `p`, with the same send and handler. */
  ghost predicate Carried(p: Pool, q: Pool) {
    forall d :: d in q.eps && q.eps[d].txns != [] ==>
      && d in p.eps && p.eps[d].txns != []
      && q.eps[d].txns[0].send == p.eps[d].txns[0].send && q.eps[d].txns[0].handler == p.eps[d].txns[0].handler
  }

  /** Whichever endpoint carries send `s`, its handler has a callback exactly if `cb`. */
  ghost predicate CbOf(p: Pool, s: SendId, cb: bool) {
    forall d :: d in p.eps && Holds(p.eps[d], s) ==> p.eps[d].txns[0].handler.hasCb == cb
  }

  lemma CarriedCb(p: Pool, q: Pool, s: SendId, cb: bool)
    requires CbOf(p, s, cb) && Carried(p, q)
    ensures CbOf(q, s, cb)
  {
  }

  lemma TransmitCarries(p: Pool, e: EpId, writeOk: bool)
    requires e in p.eps && p.eps[e].txns != []
    ensures Carried(p, Transmit(p, e, writeOk))
  {
    TransmitFrame(p, e, writeOk);
  }

  lemma ErrorCarries(p: Pool, e: EpId)
    requires e in p.eps
    ensures Carried(p, HandleError(p, e))
  {
    FailAllFrame(p, e);
    DelEpFrame(FailAll(p, e), e);
  }

  lemma UndoCarries(p: Pool, e: EpId)
    requires e in p.eps && |p.eps[e].txns| == 1
    ensures Carried(p, Undo(p, e))
  {
    DelEpFrame(EndNode(p, e, NoNotice, false), e);
  }

  lemma PendingCarries(p: Pool, e: EpId, s: SendId)
    requires e in p.eps && |p.eps[e].txns| == 1
    ensures Carried(p, Answer(MarkNode(p, e, NodePending), s, true))
  {
  }

  lemma CarriedOn(p: Pool, q: Pool, r: Pool)
    requires Carried(p, q) && Carried(q, r)
    ensures Carried(p, r)
  {
  }

  lemma AwaitCarries(p: Pool, e: EpId, s: SendId, registered: bool)
    requires e in p.eps && |p.eps[e].txns| == 1
    ensures Carried(p, AwaitConnect(p, e, s, registered))
  {
    var p1 := if p.eps[e].txns[0].handler.timeout > 0 then ArmConn(p, e) else p;
    assert Carried(p, p1);
    if registered { PendingCarries(p1, e, s); } else { UndoCarries(p1, e); }
    CarriedOn(p, p1, AwaitConnect(p, e, s, registered));
  }

  lemma ConnectCarries(p: Pool, e: EpId, s: SendId, late: bool, dial: Dial, writeOk: bool)
    requires e in p.eps && |p.eps[e].txns| == 1
    ensures Carried(p, Connect(p, e, s, late, dial, writeOk))
  {
    if late {
      UndoCarries(p, e);
    } else {
      match dial
      case DialFailed => UndoCarries(SetStatus(p, e, Connecting), e);
      case DialDone => TransmitCarries(SetStatus(p, e, Connected), e, writeOk);
      case DialAsync(registered) => AwaitCarries(SetStatus(p, e, Connecting), e, s, registered);
    }
  }

  /** A new node has the handler its send was made with. */
  lemma NewNodeCb(p: Pool, e: EpId, h: Handler, s: SendId, cb: bool)
    requires e in p.eps && p.eps[e].txns == [] && CbOf(p, s, cb) && (s == p.nextSend ==> cb == h.hasCb)
    ensures CbOf(AddNode(p, e, h), s, cb) && |AddNode(p, e, h).eps[e].txns| == 1
  {
  }

  lemma SendOnCb(p: Pool, e: EpId, h: Handler, w: bool, s: SendId, cb: bool)
    requires e in p.eps && p.eps[e].txns == [] && CbOf(p, s, cb) && (s == p.nextSend ==> cb == h.hasCb)
    ensures CbOf(SendOn(p, e, h, w), s, cb)
  {
    NewNodeCb(p, e, h, s, cb);
    TransmitCarries(AddNode(p, e, h), e, w);
    CarriedCb(AddNode(p, e, h), SendOn(p, e, h, w), s, cb);
  }

  lemma SendNewCb(p: Pool, h: Handler, late: bool, dial: Dial, w: bool, s: SendId, cb: bool)
    requires CbOf(p, s, cb) && (s == p.nextSend ==> cb == h.hasCb)
    ensures CbOf(SendNew(p, h, late, dial, w), s, cb)
  {
    var q := AddNode(CreateEp(p, h), p.nextEp, h);
    NewNodeCb(CreateEp(p, h), p.nextEp, h, s, cb);
    ConnectCarries(q, p.nextEp, p.nextSend, late, dial, w);
    CarriedCb(q, SendNew(p, h, late, dial, w), s, cb);
  }

  /** A send keeps the other nodes' handlers. */
  lemma SendCb(p: Pool, h: Handler, bad: bool, late: bool, dial: Dial, w: bool, s: SendId, cb: bool)
    requires CbOf(p, s, cb) && (s == p.nextSend ==> cb == h.hasCb)
    ensures CbOf(Send(p, h, bad, late, dial, w), s, cb)
  {
    if !Rejects(p, h, bad) {
      var r := FindEp(p, ListOf(p, h.key), h);
      if r.Ref? { SendOnCb(p, r.id, h, w, s, cb); } else { SendNewCb(p, h, late, dial, w, s, cb); }
    }
  }

  lemma OkCarries(p: Pool, e: EpId)
    requires e in p.eps && |p.eps[e].txns| == 1
    ensures Carried(p, HandleOk(p, e))
  {
    ArmShutFrame(DropRecv(p, e), e);
  }

  lemma OnConnectCarries(p: Pool, e: EpId, ok: bool, w: bool)
    requires e in p.eps
    ensures Carried(p, OnConnect(p, e, ok, w))
  {
    ErrorCarries(p, e);
    var q := SetStatus(DropConn(p, e), e, Connected);
    if q.eps[e].txns != [] { TransmitCarries(q, e, w); }
  }

  lemma TimerCarries(p: Pool, t: TimerId)
    requires Shaped(p) && t in p.timers && RunTimer(p, t).Ran?
    ensures Carried(p, RunTimer(p, t).pool)
  {
    if p.timers[t].valid {
      var e := p.timers[t].aim.ep;
      assert EpShape(p.eps[e]);
      match p.timers[t].aim
      case RecvOf(_, _) =>
      case ConnOf(_) => ErrorCarries(DropConn(p, e), e);
      case ShutOf(_) => ErrorCarries(DropShut(p, e), e);
    }
  }

  lemma ReadCarries(p: Pool, e: EpId, u: Unpack)
    requires Shaped(p) && e in p.eps
    ensures Carried(p, OnRead(p, e, u))
  {
    assert EpShape(p.eps[e]);
    if OnRead(p, e, u) != p {
      if u == Malformed { ErrorCarries(p, e); } else { OkCarries(p, e); }
    }
  }

  lemma StepCarries(p: Pool, step: Step)
    requires PoolInv(p) && Enabled(p, step) && Apply(p, step).Ran? && !step.DoSend? && !step.Teardown?
    ensures Carried(p, Apply(p, step).pool)
  {
    match step
    case DoConnect(e, ok, w) => OnConnectCarries(p, e, ok, w);
    case DoRead(e, u) => ReadCarries(p, e, u);
    case DoError(e) => ErrorCarries(p, e);
    case Trigger(t) =>
    case Fire(t) => TimerCarries(p, t);
  }

  lemma StepCb(p: Pool, step: Step, s: SendId, cb: bool)
    requires PoolInv(p) && Enabled(p, step) && Apply(p, step).Ran? && !step.Teardown? && CbOf(p, s, cb)
    requires step.DoSend? && s == p.nextSend ==> cb == step.handler.hasCb
    ensures CbOf(Apply(p, step).pool, s, cb)
  {
    if step.DoSend? {
      SendCb(p, step.handler, step.badArgs, step.late, step.dial, step.writeOk, s, cb);
    } else {
      StepCarries(p, step);
      CarriedCb(p, Apply(p, step).pool, s, cb);
    }
  }

  // ----- what a step says about a send -----

  /** The end of a send whose owner is told `ret`. */
  function Told(s: SendId, cb: bool, ret: EpRet): seq<Obs> {
    if cb then [CalledBack(s, ret), Released(s)] else [Released(s)]
  }

  /** What a step tells the owners of the sends it ends: success for a complete reply, a time-out
      for the receive timer, otherwise an error. */
  function RetOf(p: Pool, step: Step): EpRet {
    match step
    case DoRead(_, u) => if u == Complete then EpOk else EpError
    case Fire(t) => if t in p.timers && p.timers[t].aim.RecvOf? then EpTimeout else EpError
    case _ => EpError
  }

  /** The step says nothing about send `s`, or tells its owner `ret` and releases its data. */
  predicate Tells(p: Pool, q: Pool, s: SendId, cb: bool, ret: EpRet) {
    Quiet(p, q, s) || Life(q.log, s) == Life(p.log, s) + Told(s, cb, ret)
  }

  /** The oldest node of `e` is told and released. */
  lemma NodeTold(p: Pool, q: Pool, e: EpId, s: SendId, cb: bool, ret: EpRet)
    requires e in p.eps && p.eps[e].txns != [] && CbOf(p, s, cb)
    requires q.log == p.log + Said(p.eps[e].txns[0], Notice(ret), true)
    ensures Tells(p, q, s, cb, ret)
  {
    var n := p.eps[e].txns[0];
    SaidOf(p, q, n.send, Said(n, Notice(ret), true), s);
    if n.send == s {
      assert Holds(p.eps[e], s);
      assert Said(n, Notice(ret), true) == Told(s, cb, ret);
    }
  }

  lemma ErrorTells(p: Pool, e: EpId, s: SendId, cb: bool)
    requires Shaped(p) && e in p.eps && CbOf(p, s, cb)
    ensures Tells(p, HandleError(p, e), s, cb, EpError)
  {
    ErrorLog(p, e);
    if p.eps[e].txns == [] || p.eps[e].txns[0].status == NodeInit {
      assert p.log + [] == p.log;
    } else {
      NodeTold(p, HandleError(p, e), e, s, cb, EpError);
    }
  }

  lemma OkTells(p: Pool, e: EpId, s: SendId, cb: bool)
    requires e in p.eps && p.eps[e].txns != [] && CbOf(p, s, cb)
    ensures Tells(p, HandleOk(p, e), s, cb, EpOk)
  {
    ArmShutFrame(DropRecv(p, e), e);
    NodeTold(p, HandleOk(p, e), e, s, cb, EpOk);
  }

  lemma ConnTells(p: Pool, t: TimerId, e: EpId, s: SendId, cb: bool)
    requires Sound(p) && e in p.eps && CbOf(p, s, cb)
    ensures Tells(p, FreeTimer(HandleError(DropConn(p, e), e), t), s, cb, EpError)
  {
    DropConnSound(p, e);
    CarriedCb(p, DropConn(p, e), s, cb);
    ErrorTells(DropConn(p, e), e, s, cb);
  }

  lemma ShutTells(p: Pool, t: TimerId, e: EpId, s: SendId, cb: bool)
    requires Sound(p) && e in p.eps && CbOf(p, s, cb)
    ensures Tells(p, FreeTimer(HandleError(DropShut(p, e), e), t), s, cb, EpError)
  {
    DropShutSound(p, e);
    CarriedCb(p, DropShut(p, e), s, cb);
    ErrorTells(DropShut(p, e), e, s, cb);
  }

  lemma RecvTells(p: Pool, t: TimerId, e: EpId, s: SendId, cb: bool)
    requires e in p.eps && p.eps[e].txns != [] && CbOf(p, s, cb)
    ensures Tells(p, FreeTimer(EndNode(DropRecv(p, e), e, Notice(EpTimeout), true), t), s, cb, EpTimeout)
  {
    NodeTold(p, FreeTimer(EndNode(DropRecv(p, e), e, Notice(EpTimeout), true), t), e, s, cb, EpTimeout);
  }

  lemma TimerTells(p: Pool, t: TimerId, s: SendId, cb: bool)
    requires PoolInv(p) && t in p.timers && RunTimer(p, t).Ran? && CbOf(p, s, cb)
    ensures Tells(p, RunTimer(p, t).pool, s, cb, if p.timers[t].aim.RecvOf? then EpTimeout else EpError)
  {
    if !p.timers[t].valid {
      assert RunTimer(p, t).pool.log == p.log;
    } else {
      var e := p.timers[t].aim.ep;
      match p.timers[t].aim
      case RecvOf(_, _) => RecvTells(p, t, e, s, cb);
      case ConnOf(_) => ConnTells(p, t, e, s, cb);
      case ShutOf(_) => ShutTells(p, t, e, s, cb);
    }
  }

  /** Outside teardown a step never releases a send without telling its owner how it ended. */
  lemma StepTells(p: Pool, step: Step, s: SendId, cb: bool)
    requires PoolInv(p) && Enabled(p, step) && Apply(p, step).Ran? && !step.Teardown? && CbOf(p, s, cb)
    requires s < p.nextSend
    ensures Tells(p, Apply(p, step).pool, s, cb, RetOf(p, step))
  {
    match step
    case DoSend(h, bad, late, dial, w) => SendQuiet(p, h, bad, late, dial, w, s);
    case DoConnect(e, ok, w) => if ok { ConnectQuiet(p, e, w, s); } else { ErrorTells(p, e, s, cb); }
    case DoRead(e, u) =>
      if p.eps[e].txns != [] && p.eps[e].txns[0].handler.unpack && u != NeedMore {
        if u == Malformed { ErrorTells(p, e, s, cb); } else { OkTells(p, e, s, cb); }
      }
    case DoError(e) => ErrorTells(p, e, s, cb);
    case Trigger(t) =>
    case Fire(t) => TimerTells(p, t, s, cb);
  }

  // ----- every run -----

  /** Told or not, the whole life of an accepted send that is gone. */
  predicate Over(l: seq<Obs>, s: SendId, cb: bool) {
    if cb then TakenBack(l, s, true) else l == [Returned(s, true), Released(s)]
  }

  /** The run has sent `s`, with a callback exactly if `cb`; if it was accepted and is gone, its
      owner was told. */
  ghost predicate CallOk(p: Pool, s: SendId, cb: bool) {
    && s < p.nextSend && CbOf(p, s, cb)
    && (!Live(p, s) && Life(p.log, s) != [] && Life(p.log, s)[0] == Returned(s, true) ==> Over(Life(p.log, s), s, cb))
  }

  /** A pool that is not closing was not closing before, and the step was no teardown. */
  lemma NotYetClosing(p: Pool, step: Step, q: Pool)
    requires PoolInv(p) && PoolStep(p, step, q) && !q.closing
    ensures !p.closing && !step.Teardown?
  {
    if step.Teardown? {
      ClosingSound(p);
      DestroyEpSound(p.(closing := true), step.ep);
    }
  }

  lemma SentOk(p: Pool, step: Step, q: Pool)
    requires PoolInv(p) && PoolStep(p, step, q) && step.DoSend? && PoolInv(q)
    ensures CallOk(q, p.nextSend, step.handler.hasCb)
  {
    var s := p.nextSend;
    FreshSend(p);
    assert forall d :: d in p.eps && p.eps[d].txns != [] ==> NodeOk(p, p.eps[d]);
    StepCb(p, step, s, step.handler.hasCb);
    SendLog(p, step.handler, step.badArgs, step.late, step.dial, step.writeOk);
    var ok :| q.log == p.log + [Returned(s, ok)];
    SaidOf(p, q, s, [Returned(s, ok)], s);
    assert Life(p.log, s) == [] && SendOk(q, s);
  }

  /** Accepted, then gone: the one way to settle it is to tell its owner. */
  lemma ToldOnce(l: seq<Obs>, l': seq<Obs>, s: SendId, cb: bool, ret: EpRet)
    requires l == [Returned(s, true)] || Over(l, s, cb)
    requires (l' == l || l' == l + Told(s, cb, ret)) && Settled(l', s)
    ensures Over(l', s, cb)
  {
    if l == [Returned(s, true)] && cb {
      assert l + Told(s, cb, ret) == [Returned(s, true), CalledBack(s, ret), Released(s)];
    }
  }

  lemma StepCallOk(p: Pool, step: Step, q: Pool, s: SendId, cb: bool)
    requires PoolInv(p) && CallOk(p, s, cb) && PoolStep(p, step, q) && !step.Teardown? && PoolInv(q)
    ensures CallOk(q, s, cb)
  {
    StepCb(p, step, s, cb);
    StepTells(p, step, s, cb);
    StillCallOk(p, q, s, cb, RetOf(p, step));
  }

  lemma StillCallOk(p: Pool, q: Pool, s: SendId, cb: bool, ret: EpRet)
    requires PoolInv(p) && CallOk(p, s, cb) && PoolInv(q) && CbOf(q, s, cb) && Tells(p, q, s, cb, ret)
    ensures CallOk(q, s, cb)
  {
    var (l, l') := (Life(p.log, s), Life(q.log, s));
    assert SendOk(p, s) && SendOk(q, s) && l != [];
    if !Live(q, s) && l'[0] == Returned(s, true) {
      assert l[0] == l'[0];
      if Live(p, s) {
        var e :| e in p.eps && Holds(p.eps[e], s);
        assert NodeOk(p, p.eps[e]);
      }
      ToldOnce(l, l', s, cb, ret);
    }
  }

  lemma NextCallOk(trace: seq<Pool>, steps: seq<Step>, max: nat, n: nat, s: SendId, cb: bool)
    requires IsPoolRun(trace, steps, max) && n < |steps| && CallOk(trace[n], s, cb) && !trace[n + 1].closing
    ensures CallOk(trace[n + 1], s, cb)
  {
    RunPoolInv(trace, steps, max, n);
    RunPoolInv(trace, steps, max, n + 1);
    assert PoolStep(trace[n], steps[n], trace[n + 1]);
    NotYetClosing(trace[n], steps[n], trace[n + 1]);
    StepCallOk(trace[n], steps[n], trace[n + 1], s, cb);
  }

  lemma FirstCallOk(trace: seq<Pool>, steps: seq<Step>, max: nat, i: nat)
    requires IsPoolRun(trace, steps, max) && i < |steps| && steps[i].DoSend?
    ensures CallOk(trace[i + 1], trace[i].nextSend, steps[i].handler.hasCb)
  {
    RunPoolInv(trace, steps, max, i);
    RunPoolInv(trace, steps, max, i + 1);
    assert PoolStep(trace[i], steps[i], trace[i + 1]);
    SentOk(trace[i], steps[i], trace[i + 1]);
  }

  lemma OpenBefore(trace: seq<Pool>, steps: seq<Step>, max: nat, n: nat)
    requires IsPoolRun(trace, steps, max) && n < |steps| && !trace[n + 1].closing
    ensures !trace[n].closing
  {
    RunPoolInv(trace, steps, max, n);
    assert PoolStep(trace[n], steps[n], trace[n + 1]);
    NotYetClosing(trace[n], steps[n], trace[n + 1]);
  }

  lemma {:induction false} RunCallOk(trace: seq<Pool>, steps: seq<Step>, max: nat, i: nat, n: nat)
    requires IsPoolRun(trace, steps, max) && i < n < |trace| && steps[i].DoSend? && !trace[n].closing
    ensures CallOk(trace[n], trace[i].nextSend, steps[i].handler.hasCb)
  {
    if i == n - 1 {
      FirstCallOk(trace, steps, max, i);
    } else {
      OpenBefore(trace, steps, max, n - 1);
      RunCallOk(trace, steps, max, i, n - 1);
      NextCallOk(trace, steps, max, n - 1, trace[i].nextSend, steps[i].handler.hasCb);
    }
  }

  /** Outside teardown, the send made by step `i` is answered; if accepted, it is in the pool with
      nothing more said, or it is gone, called back exactly once if its handler has a callback,
      and then released exactly once. */
  lemma CalledBackExactlyOnce(trace: seq<Pool>, steps: seq<Step>, max: nat, i: nat, n: nat)
    requires IsPoolRun(trace, steps, max) && i < n < |trace| && steps[i].DoSend? && !trace[n].closing
    ensures var s := trace[i].nextSend;
      var l := Life(trace[n].log, s);
      && |l| > 0 && l[0].Returned?
      && (l[0].ok ==>
            if Live(trace[n], s) then l == [Returned(s, true)]
            else if steps[i].handler.hasCb then TakenBack(l, s, true)
            else l == [Returned(s, true), Released(s)])
  {
    RunCallOk(trace, steps, max, i, n);
    ObligationsMet(trace, steps, max, n, trace[i].nextSend);
  }

  /** What a callback is told: outside teardown each later step says nothing about the send made by
      step `i`, or tells its owner success for a complete reply, a time-out for the receive timer,
      an error otherwise, and releases its data. */
  lemma CallbackTellsWhy(trace: seq<Pool>, steps: seq<Step>, max: nat, i: nat, n: nat)
    requires IsPoolRun(trace, steps, max) && i < n < |steps| && steps[i].DoSend? && !trace[n + 1].closing
    ensures Tells(trace[n], trace[n + 1], trace[i].nextSend, steps[i].handler.hasCb, RetOf(trace[n], steps[n]))
  {
    OpenBefore(trace, steps, max, n);
    RunCallOk(trace, steps, max, i, n);
    RunPoolInv(trace, steps, max, n);
    assert PoolStep(trace[n], steps[n], trace[n + 1]);
    NotTeardown(trace, steps, max, n);
    StepTells(trace[n], steps[n], trace[i].nextSend, steps[i].handler.hasCb);
  }

  lemma NotTeardown(trace: seq<Pool>, steps: seq<Step>, max: nat, n: nat)
    requires IsPoolRun(trace, steps, max) && n < |steps| && !trace[n + 1].closing
    ensures !steps[n].Teardown?
  {
    RunPoolInv(trace, steps, max, n);
    assert PoolStep(trace[n], steps[n], trace[n + 1]);
    NotYetClosing(trace[n], steps[n], trace[n + 1]);
  }
}
