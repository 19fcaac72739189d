/** The endpoint pool's promises, and where a failed send escapes them. */
module EpPoolRuns {
  import opened Seqs
  import opened EpPool
  import opened EpPoolLaws

  /** Bounded, ping-pong, indexed: every endpoint carries at most one transaction, the index
      lists each live endpoint once under its key, and their number is the count and stays
      within the limit. */
  lemma EndpointsBounded(trace: seq<Pool>, steps: seq<Step>, max: nat, n: nat)
    requires IsPoolRun(trace, steps, max) && n < |trace|
    ensures var p := trace[n];
      && (forall e :: e in p.eps ==> |p.eps[e].txns| <= 1 && p.eps[e].ntxn == |p.eps[e].txns|)
      && (forall k :: Once(ListOf(p, k)))
      && (forall k, e :: e in ListOf(p, k) <==> e in p.eps && p.eps[e].key == k)
      && (!p.closing ==> p.nep == |p.eps.Keys| <= max)
  {
    RunPoolInv(trace, steps, max, n);
    assert forall e :: e in trace[n].eps ==> EpShape(trace[n].eps[e]);
  }

  /** Obligations: every send is answered; one answered OK is in the pool with nothing more
      said, or it is gone, released exactly once, after at most one callback. */
  lemma ObligationsMet(trace: seq<Pool>, steps: seq<Step>, max: nat, n: nat, s: SendId)
    requires IsPoolRun(trace, steps, max) && n < |trace| && s < trace[n].nextSend
    ensures var l := Life(trace[n].log, s);
      && |l| > 0 && l[0].Returned?
      && (l[0].ok ==>
            if Live(trace[n], s) then l == [Returned(s, true)]
            else l == [Returned(s, true), Released(s)] || TakenBack(l, s, true))
  {
    RunPoolInv(trace, steps, max, n);
    var p := trace[n];
    assert SendOk(p, s);
    if Live(p, s) {
      var e :| e in p.eps && Holds(p.eps[e], s);
      assert NodeOk(p, p.eps[e]);
    }
  }

  /** Timer safety: a valid timer has a live target that holds it, every held pointer is to a
      valid timer, a held connect timer means the connection is under way, and no event or
      timer callback fails. */
  lemma TimersSafe(trace: seq<Pool>, steps: seq<Step>, max: nat, n: nat)
    requires IsPoolRun(trace, steps, max) && n < |trace|
    ensures var p := trace[n];
      && (forall t :: t in p.timers && p.timers[t].valid ==>
            p.timers[t].aim.ep in p.eps && Held(p, p.timers[t].aim) == Ref(t))
      && (forall aim :: Held(p, aim).Ref? ==> Held(p, aim).id in p.timers && p.timers[Held(p, aim).id].valid)
      && (forall e :: e in p.eps && p.eps[e].conn.Ref? ==> p.eps[e].status == Connecting)
      && (forall step :: Enabled(p, step) ==> Apply(p, step).Ran?)
  {
    RunPoolInv(trace, steps, max, n);
    var p := trace[n];
    assert forall e :: e in p.eps ==> EpShape(p.eps[e]);
    forall step | Enabled(p, step) ensures Apply(p, step).Ran? { StepInv(p, step); }
  }

  // ----- what each step says about a send -----

  /** The step said nothing new about send `s`. */
  predicate Quiet(p: Pool, q: Pool, s: SendId) { Life(q.log, s) == Life(p.log, s) }

  lemma SaidOf(p: Pool, q: Pool, about: SendId, more: seq<Obs>, s: SendId)
    requires q.log == p.log + more && forall o :: o in more ==> o.send == about
    ensures if s == about then Life(q.log, s) == Life(p.log, s) + more else Quiet(p, q, s)
  {
    LogGrows(p.log, more, about);
  }

  lemma DestroyLog(p: Pool, e: EpId)
    requires Shaped(p) && e in p.eps
    ensures var n := p.eps[e].txns;
      DestroyEp(p, e).log == p.log + if n == [] then [] else [Released(n[0].send)]
  {
    assert EpShape(p.eps[e]);
    var q := DropShut(DropConn(p, e), e);
    if q.eps[e].txns == [] {
      ReleaseNone(q, e);
    } else {
      var r := EndNode(q, e, NoNotice, true);
      assert ReleaseAll(q, e) == ReleaseAll(r, e);
      assert r.eps[e].txns == [];
      ReleaseNone(r, e);
    }
  }

  /** An error tells and releases an accepted send, and says nothing about a refused one. */
  lemma ErrorLog(p: Pool, e: EpId)
    requires Shaped(p) && e in p.eps
    ensures var n := p.eps[e].txns;
      HandleError(p, e).log == p.log +
        if n == [] || n[0].status == NodeInit then []
        else Said(n[0], Notice(EpError), true)
  {
    assert EpShape(p.eps[e]);
    var q := FailAll(p, e);
    if p.eps[e].txns != [] {
      var told := p.eps[e].txns[0].status != NodeInit;
      var r := EndNode(p, e, FailNotice(p.eps[e].txns[0]), told);
      assert r.eps[e].txns == [];
      assert FailAll(r, e) == r;
      assert q == r;
    }
    DestroyLogEmpty(q, e);
  }

  lemma DestroyLogEmpty(p: Pool, e: EpId)
    requires e in p.eps && p.eps[e].txns == []
    ensures DestroyEp(p, e).log == p.log
  {
    ReleaseNone(DropShut(DropConn(p, e), e), e);
  }

  lemma UndoLog(p: Pool, e: EpId)
    requires e in p.eps && |p.eps[e].txns| == 1
    ensures Undo(p, e).log == p.log
  {
    var q := EndNode(p, e, NoNotice, false);
    assert q.log == p.log && q.eps[e].txns == [];
    DestroyLogEmpty(q, e);
  }

  lemma ConnectLog(p: Pool, e: EpId, s: SendId, late: bool, dial: Dial, writeOk: bool)
    requires e in p.eps && |p.eps[e].txns| == 1
    ensures exists ok :: Connect(p, e, s, late, dial, writeOk).log == p.log + [Returned(s, ok)]
  {
    var q := Connect(p, e, s, late, dial, writeOk);
    if late {
      UndoLog(p, e);
      assert q.log == p.log + [Returned(s, false)];
    } else {
      match dial
      case DialFailed =>
        UndoLog(SetStatus(p, e, Connecting), e);
        assert q.log == p.log + [Returned(s, false)];
      case DialDone =>
        TransmitFrame(SetStatus(p, e, Connected), e, writeOk);
        assert q.log == p.log + [Returned(s, writeOk)];
      case DialAsync(registered) => AwaitLog(SetStatus(p, e, Connecting), e, s, registered);
    }
  }

  lemma AwaitLog(p: Pool, e: EpId, s: SendId, registered: bool)
    requires e in p.eps && |p.eps[e].txns| == 1
    ensures AwaitConnect(p, e, s, registered).log == p.log + [Returned(s, registered)]
  {
    var p1 := if p.eps[e].txns[0].handler.timeout > 0 then ArmConn(p, e) else p;
    assert p1.log == p.log && |p1.eps[e].txns| == 1;
    UndoLog(p1, e);
  }

  /** A send only adds its own answer to the log. */
  lemma SendLog(p: Pool, h: Handler, badArgs: bool, late: bool, dial: Dial, writeOk: bool)
    requires PoolInv(p)
    ensures exists ok :: Send(p, h, badArgs, late, dial, writeOk).log == p.log + [Returned(p.nextSend, ok)]
  {
    var q := Send(p, h, badArgs, late, dial, writeOk);
    if Rejects(p, h, badArgs) {
      assert q.log == p.log + [Returned(p.nextSend, false)];
    } else {
      var r := FindEp(p, ListOf(p, h.key), h);
      if r.Ref? {
        TransmitFrame(AddNode(p, r.id, h), r.id, writeOk);
        assert q.log == p.log + [Returned(p.nextSend, writeOk)];
      } else {
        NewLog(p, h, late, dial, writeOk);
      }
    }
  }

  lemma NewLog(p: Pool, h: Handler, late: bool, dial: Dial, writeOk: bool)
    ensures exists ok :: SendNew(p, h, late, dial, writeOk).log == p.log + [Returned(p.nextSend, ok)]
  {
    var q := AddNode(CreateEp(p, h), p.nextEp, h);
    assert q.log == p.log && |q.eps[p.nextEp].txns| == 1;
    ConnectLog(q, p.nextEp, p.nextSend, late, dial, writeOk);
  }

  /** The one way a refused send is touched again: its node was left behind by a failed write
      on a connected endpoint, and that endpoint is torn down or receives a complete reply. */
  predicate TouchesRefused(p: Pool, step: Step, s: SendId) {
    || (step.Teardown? && step.ep in p.eps && Holds(p.eps[step.ep], s))
    || (step.DoRead? && step.unpack == Complete && step.ep in p.eps && Holds(p.eps[step.ep], s)
        && p.eps[step.ep].txns[0].handler.unpack)
  }

  lemma ErrorQuiet(p: Pool, e: EpId, s: SendId)
    requires PoolInv(p) && e in p.eps && Life(p.log, s) == [Returned(s, false)]
    ensures Quiet(p, HandleError(p, e), s)
  {
    ErrorLog(p, e);
    assert p.log + [] == p.log;
    if p.eps[e].txns != [] {
      assert NodeOk(p, p.eps[e]);
      var n := p.eps[e].txns[0];
      if n.status != NodeInit {
        SaidOf(p, HandleError(p, e), n.send, Said(n, Notice(EpError), true), s);
      }
    }
  }

  lemma ReadSays(p: Pool, e: EpId, s: SendId)
    requires PoolInv(p) && e in p.eps && p.eps[e].txns != []
    ensures Quiet(p, HandleOk(p, e), s) <==> !Holds(p.eps[e], s)
  {
    var n := p.eps[e].txns[0];
    var more := Said(n, Notice(EpOk), true);
    ArmShutFrame(DropRecv(p, e), e);
    assert HandleOk(p, e).log == p.log + more;
    SaidOf(p, HandleOk(p, e), n.send, more, s);
  }

  lemma RecvQuiet(p: Pool, t: TimerId, e: EpId, s: SendId)
    requires PoolInv(p) && e in p.eps && p.eps[e].txns != [] && p.eps[e].txns[0].recv.Ref?
    requires Life(p.log, s) == [Returned(s, false)]
    ensures Quiet(p, FreeTimer(EndNode(DropRecv(p, e), e, Notice(EpTimeout), true), t), s)
  {
    assert EpShape(p.eps[e]) && NodeOk(p, p.eps[e]);
    var n := p.eps[e].txns[0];
    var more := Said(n, Notice(EpTimeout), true);
    var q := FreeTimer(EndNode(DropRecv(p, e), e, Notice(EpTimeout), true), t);
    assert q.log == p.log + more;
    SaidOf(p, q, n.send, more, s);
  }

  lemma TimerQuiet(p: Pool, t: TimerId, s: SendId)
    requires PoolInv(p) && t in p.timers && Life(p.log, s) == [Returned(s, false)] && RunTimer(p, t).Ran?
    ensures Quiet(p, RunTimer(p, t).pool, s)
  {
    var tm := p.timers[t];
    if tm.valid {
      assert Held(p, tm.aim) == Ref(t);
      var e := tm.aim.ep;
      match tm.aim
      case RecvOf(_, x) => RecvQuiet(p, t, e, s);
      case ConnOf(_) =>
        DropConnSound(p, e);
        StillAnswered(p, DropConn(p, e));
        ErrorQuiet(DropConn(p, e), e, s);
      case ShutOf(_) =>
        DropShutSound(p, e);
        StillAnswered(p, DropShut(p, e));
        ErrorQuiet(DropShut(p, e), e, s);
    }
  }

  /** A refused send, whose sender has already released its data, is called back or released
      by a step of the pool if and only if the step touches its left-over node. */
  lemma RefusedIsLeftAlone(p: Pool, step: Step, s: SendId)
    requires PoolInv(p) && Enabled(p, step) && Apply(p, step).Ran? && s < p.nextSend
    requires Life(p.log, s) == [Returned(s, false)]
    ensures !Quiet(p, Apply(p, step).pool, s) <==> TouchesRefused(p, step, s)
  {
    match step
    case DoSend(h, bad, late, dial, w) => SendQuiet(p, h, bad, late, dial, w, s);
    case DoConnect(e, ok, w) => if ok { ConnectQuiet(p, e, w, s); } else { ErrorQuiet(p, e, s); }
    case DoRead(e, u) =>
      if p.eps[e].txns != [] && p.eps[e].txns[0].handler.unpack && u != NeedMore {
        if u == Malformed { ErrorQuiet(p, e, s); } else { ReadSays(p, e, s); }
      }
    case DoError(e) => ErrorQuiet(p, e, s);
    case Trigger(t) =>
    case Fire(t) => TimerQuiet(p, t, s);
    case Teardown(e) => TeardownSays(p, e, s);
  }

  lemma SendQuiet(p: Pool, h: Handler, bad: bool, late: bool, dial: Dial, w: bool, s: SendId)
    requires PoolInv(p) && s < p.nextSend
    ensures Quiet(p, Send(p, h, bad, late, dial, w), s)
  {
    var q := Send(p, h, bad, late, dial, w);
    SendLog(p, h, bad, late, dial, w);
    var ok :| q.log == p.log + [Returned(p.nextSend, ok)];
    SaidOf(p, q, p.nextSend, [Returned(p.nextSend, ok)], s);
  }

  lemma ConnectQuiet(p: Pool, e: EpId, w: bool, s: SendId)
    requires e in p.eps
    ensures Quiet(p, OnConnect(p, e, true, w), s)
  {
    var c := SetStatus(DropConn(p, e), e, Connected);
    if c.eps[e].txns != [] { TransmitFrame(c, e, w); }
    assert OnConnect(p, e, true, w).log == p.log;
  }

  lemma TeardownSays(p: Pool, e: EpId, s: SendId)
    requires Shaped(p) && e in p.eps
    ensures !Quiet(p, DestroyEp(p.(closing := true), e), s) <==> Holds(p.eps[e], s)
  {
    var q := DestroyEp(p.(closing := true), e);
    DestroyLog(p.(closing := true), e);
    if p.eps[e].txns != [] {
      var x := p.eps[e].txns[0].send;
      SaidOf(p, q, x, [Released(x)], s);
    } else {
      assert q.log == p.log;
    }
  }

  // ----- it does happen -----

  function H(): Handler { Handler(0, 0, 0, true, true) }

  function Stale(): Pool {
    Pool(map[0 := Ep(0, 0, Connected, [Node(0, NodeInit, Null, H())], 1, Null, Null)], map[0 := [0]], 1, 1,
         map[], [Returned(0, false)], 1, 0, 1, false)
  }

  lemma WriteFails()
    ensures Send(NewPool(1), H(), false, false, DialDone, false) == Stale()
  {
    var p := NewPool(1);
    assert FindEp(p, ListOf(p, 0), H()) == Null;
    var p1 := CreateEp(p, H());
    var none: seq<EpId> := [];
    assert ListOf(p, 0) == none && none + [0] == [0];
    assert p1.index == map[0 := [0]];
    var p2 := AddNode(p1, 0, H());
    var node := Node(0, NodeInit, Null, H());
    assert p1.eps[0].txns + [node] == [node];
    assert p2.eps == map[0 := Ep(0, 0, EpInit, [Node(0, NodeInit, Null, H())], 1, Null, Null)];
    var p3 := SetStatus(p2, 0, Connected);
    assert p3.eps == Stale().eps;
    assert Transmit(p3, 0, false) == p3;
  }

  lemma TornDown()
    ensures Life(DestroyEp(Stale().(closing := true), 0).log, 0) == [Returned(0, false), Released(0)]
  {
    var p := Stale().(closing := true);
    assert Shaped(p);
    DestroyLog(p, 0);
    var log := DestroyEp(p, 0).log;
    assert log == [Returned(0, false), Released(0)];
    AllAbout(log, 0, 0);
  }

  lemma TwoSteps()
    ensures PoolStep(NewPool(1), DoSend(H(), false, false, DialDone, false), Stale())
    ensures PoolStep(Stale(), Teardown(0), DestroyEp(Stale().(closing := true), 0))
  {
    WriteFails();
  }

  /** A send whose write fails on a fresh connection is reported failed, and the pool releases
      its data all the same when it is torn down. */
  lemma RefusedYetReleased() returns (trace: seq<Pool>, steps: seq<Step>)
    ensures IsPoolRun(trace, steps, 1) && |steps| == 2
    ensures Life(trace[2].log, 0) == [Returned(0, false), Released(0)]
  {
    TwoSteps();
    TornDown();
    steps := [DoSend(H(), false, false, DialDone, false), Teardown(0)];
    trace := [NewPool(1), Stale(), DestroyEp(Stale().(closing := true), 0)];
  }
}
