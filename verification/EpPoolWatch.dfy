/** Who watches an accepted send with a time limit, and the one case in which nobody does. */
module EpPoolWatch {
  import opened Seqs
  import opened EpPool
  import opened EpPoolLaws

  /** What the timers of an endpoint are, by the state of its transaction. */
  predicate EpWatch(x: Ep) {
    if x.txns == [] then x.status == Connected && x.shut.Ref?
    else
      var n := x.txns[0];
      && x.status != EpInit && (n.handler.timeout > 0 ==> n.handler.unpack)
      && (n.status == NodePending ==> x.shut == Null)
      && (n.status == NodePending && x.status == Connecting && n.handler.timeout > 0 ==> x.conn.Ref?)
      && (x.conn.Ref? ==> n.handler.timeout > 0)
      && (n.recv.Ref? <==> n.status == NodeSent && n.handler.timeout > 0)
      && (n.status == NodeSent && (n.handler.timeout > 0 || !n.handler.unpack) ==> x.shut.Ref?)
  }

  ghost predicate Watch(p: Pool) { forall e :: e in p.eps ==> EpWatch(p.eps[e]) }

  /** Other endpoints are as they were; endpoint `e` is gone or keeps the law. */
  ghost predicate OnlyEp(p: Pool, q: Pool, e: EpId) {
    && (forall d :: d in q.eps && d != e ==> d in p.eps && q.eps[d] == p.eps[d])
    && (e in q.eps ==> EpWatch(q.eps[e]))
  }

  lemma OnlyEpWatch(p: Pool, q: Pool, e: EpId)
    requires Watch(p) && OnlyEp(p, q, e)
    ensures Watch(q)
  {
  }

  // ----- frames -----

  lemma {:induction false} FailAllFrame(p: Pool, e: EpId)
    requires e in p.eps
    ensures forall d :: d in FailAll(p, e).eps && d != e ==> d in p.eps && FailAll(p, e).eps[d] == p.eps[d]
    decreases |p.eps[e].txns|
  {
    if p.eps[e].txns != [] {
      var told := p.eps[e].txns[0].status != NodeInit;
      FailAllFrame(EndNode(p, e, FailNotice(p.eps[e].txns[0]), told), e);
    }
  }

  lemma ErrorFrame(p: Pool, e: EpId)
    requires e in p.eps
    ensures OnlyEp(p, HandleError(p, e), e)
  {
    FailAllFrame(p, e);
    DelEpFrame(FailAll(p, e), e);
  }

  lemma UndoFrame(p: Pool, e: EpId)
    requires e in p.eps && p.eps[e].txns != []
    ensures OnlyEp(p, Undo(p, e), e)
  {
    DelEpFrame(EndNode(p, e, NoNotice, false), e);
  }

  lemma DestroyFrame(p: Pool, e: EpId)
    requires e in p.eps
    ensures OnlyEp(p, DestroyEp(p, e), e)
  {
    ReleaseAllFrame(DropShut(DropConn(p, e), e), e);
  }

  // ----- events -----

  /** A request written with a time limit is watched by its receive timer. */
  lemma TransmitWatch(p: Pool, e: EpId, writeOk: bool)
    requires e in p.eps && |p.eps[e].txns| == 1 && p.eps[e].status == Connected && p.eps[e].conn == Null
    requires var n := p.eps[e].txns[0];
      && n.recv == Null && (n.handler.timeout > 0 ==> n.handler.unpack)
      && (n.status == NodePending ==> p.eps[e].shut == Null) && n.status != NodeSent
    ensures OnlyEp(p, Transmit(p, e, writeOk), e)
  {
    TransmitFrame(p, e, writeOk);
    if writeOk { ArmShutFrame(MarkNode(p, e, NodeSent), e); }
  }

  lemma SendOnWatch(p: Pool, e: EpId, h: Handler, writeOk: bool)
    requires e in p.eps && p.eps[e].txns == [] && p.eps[e].status == Connected && (h.timeout > 0 ==> h.unpack)
    requires p.eps[e].conn == Null
    ensures OnlyEp(p, SendOn(p, e, h, writeOk), e)
  {
    TransmitWatch(AddNode(p, e, h), e, writeOk);
  }

  lemma AwaitWatch(p: Pool, e: EpId, s: SendId, registered: bool)
    requires e in p.eps && |p.eps[e].txns| == 1 && p.eps[e].status == Connecting && p.eps[e].shut == Null
    requires p.eps[e].conn == Null && p.eps[e].txns[0].recv == Null
    requires p.eps[e].txns[0].handler.timeout > 0 ==> p.eps[e].txns[0].handler.unpack
    ensures OnlyEp(p, AwaitConnect(p, e, s, registered), e)
  {
    var p1 := if p.eps[e].txns[0].handler.timeout > 0 then ArmConn(p, e) else p;
    if !registered { UndoFrame(p1, e); }
  }

  lemma ConnectWatch(p: Pool, e: EpId, s: SendId, late: bool, dial: Dial, writeOk: bool)
    requires e in p.eps && |p.eps[e].txns| == 1 && p.eps[e].shut == Null && p.eps[e].conn == Null
    requires var n := p.eps[e].txns[0];
      n.status == NodeInit && n.recv == Null && (n.handler.timeout > 0 ==> n.handler.unpack)
    ensures OnlyEp(p, Connect(p, e, s, late, dial, writeOk), e)
  {
    if late {
      UndoFrame(p, e);
    } else {
      DialWatch(p, SetStatus(p, e, Connecting), e, s, dial, writeOk);
    }
  }

  lemma DialWatch(p: Pool, c: Pool, e: EpId, s: SendId, dial: Dial, writeOk: bool)
    requires e in p.eps && |p.eps[e].txns| == 1 && p.eps[e].shut == Null && p.eps[e].conn == Null
    requires var n := p.eps[e].txns[0];
      n.status == NodeInit && n.recv == Null && (n.handler.timeout > 0 ==> n.handler.unpack)
    requires c == SetStatus(p, e, Connecting)
    ensures OnlyEp(p, Connect(p, e, s, false, dial, writeOk), e)
  {
    match dial
    case DialFailed => UndoFrame(c, e);
    case DialDone => TransmitWatch(SetStatus(p, e, Connected), e, writeOk);
    case DialAsync(registered) => AwaitWatch(c, e, s, registered);
  }

  lemma SendWatch(p: Pool, h: Handler, badArgs: bool, late: bool, dial: Dial, writeOk: bool)
    requires Watch(p) && Shaped(p)
    ensures Watch(Send(p, h, badArgs, late, dial, writeOk))
  {
    if !Rejects(p, h, badArgs) {
      var r := FindEp(p, ListOf(p, h.key), h);
      if r.Ref? {
        assert EpShape(p.eps[r.id]);
        SendOnWatch(p, r.id, h, writeOk);
        OnlyEpWatch(p, SendOn(p, r.id, h, writeOk), r.id);
      } else {
        SendNewWatch(p, h, late, dial, writeOk);
        OnlyEpWatch(p, SendNew(p, h, late, dial, writeOk), p.nextEp);
      }
    }
  }

  lemma SendNewWatch(p: Pool, h: Handler, late: bool, dial: Dial, writeOk: bool)
    requires h.timeout > 0 ==> h.unpack
    ensures OnlyEp(p, SendNew(p, h, late, dial, writeOk), p.nextEp)
  {
    var p1 := AddNode(CreateEp(p, h), p.nextEp, h);
    assert p1.eps[p.nextEp].txns == [Node(p.nextSend, NodeInit, Null, h)];
    ConnectWatch(p1, p.nextEp, p.nextSend, late, dial, writeOk);
  }

  lemma OnConnectWatch(p: Pool, e: EpId, ok: bool, writeOk: bool)
    requires PoolInv(p) && Watch(p) && e in p.eps && p.eps[e].status == Connecting
    ensures OnlyEp(p, OnConnect(p, e, ok, writeOk), e)
  {
    assert EpShape(p.eps[e]) && EpWatch(p.eps[e]);
    if !ok {
      ErrorFrame(p, e);
    } else {
      WaitingNode(p, e);
      ConnectedWatch(p, e, writeOk);
    }
  }

  lemma ConnectedWatch(p: Pool, e: EpId, writeOk: bool)
    requires e in p.eps && |p.eps[e].txns| == 1 && p.eps[e].shut == Null && p.eps[e].txns[0].status == NodePending
    requires p.eps[e].txns[0].recv == Null
    requires p.eps[e].txns[0].handler.timeout > 0 ==> p.eps[e].txns[0].handler.unpack
    ensures OnlyEp(p, OnConnect(p, e, true, writeOk), e)
  {
    TransmitWatch(SetStatus(DropConn(p, e), e, Connected), e, writeOk);
  }

  lemma OnReadWatch(p: Pool, e: EpId, u: Unpack)
    requires Shaped(p) && Watch(p) && e in p.eps && p.eps[e].status == Connected
    ensures OnlyEp(p, OnRead(p, e, u), e)
  {
    assert EpWatch(p.eps[e]);
    if OnRead(p, e, u) != p {
      if u == Malformed {
        ErrorFrame(p, e);
      } else {
        assert EpShape(p.eps[e]);
        OkFrame(p, e);
      }
    }
  }

  lemma OkFrame(p: Pool, e: EpId)
    requires e in p.eps && |p.eps[e].txns| == 1 && p.eps[e].status == Connected
    ensures OnlyEp(p, HandleOk(p, e), e)
  {
    ArmShutFrame(DropRecv(p, e), e);
  }

  /** A time-out leaves its endpoint with the shutdown timer it already had. */
  lemma RecvWatch(p: Pool, t: TimerId, e: EpId)
    requires PoolInv(p) && Watch(p) && e in p.eps && p.eps[e].txns != [] && p.eps[e].txns[0].recv.Ref?
    ensures Watch(FreeTimer(EndNode(DropRecv(p, e), e, Notice(EpTimeout), true), t))
  {
    assert EpShape(p.eps[e]) && EpWatch(p.eps[e]);
    OnlyEpWatch(p, FreeTimer(EndNode(DropRecv(p, e), e, Notice(EpTimeout), true), t), e);
  }

  lemma ConnWatch(p: Pool, t: TimerId, e: EpId)
    requires Watch(p) && e in p.eps
    ensures Watch(FreeTimer(HandleError(DropConn(p, e), e), t))
  {
    ErrorFrame(DropConn(p, e), e);
    OnlyEpWatch(p, FreeTimer(HandleError(DropConn(p, e), e), t), e);
  }

  lemma ShutWatch(p: Pool, t: TimerId, e: EpId)
    requires Watch(p) && e in p.eps
    ensures Watch(FreeTimer(HandleError(DropShut(p, e), e), t))
  {
    ErrorFrame(DropShut(p, e), e);
    OnlyEpWatch(p, FreeTimer(HandleError(DropShut(p, e), e), t), e);
  }

  lemma RunTimerWatch(p: Pool, t: TimerId)
    requires PoolInv(p) && Watch(p) && t in p.timers && RunTimer(p, t).Ran?
    ensures Watch(RunTimer(p, t).pool)
  {
    if p.timers[t].valid {
      assert Held(p, p.timers[t].aim) == Ref(t);
      match p.timers[t].aim
      case RecvOf(e, _) => RecvWatch(p, t, e);
      case ConnOf(e) => ConnWatch(p, t, e);
      case ShutOf(e) => ShutWatch(p, t, e);
    }
  }

  lemma StepWatch(p: Pool, step: Step)
    requires PoolInv(p) && Watch(p) && Enabled(p, step) && Apply(p, step).Ran?
    ensures Watch(Apply(p, step).pool)
  {
    var q := Apply(p, step).pool;
    match step
    case DoSend(h, bad, late, dial, w) => SendWatch(p, h, bad, late, dial, w);
    case DoConnect(e, ok, w) =>
      OnConnectWatch(p, e, ok, w);
      OnlyEpWatch(p, q, e);
    case DoRead(e, u) =>
      OnReadWatch(p, e, u);
      OnlyEpWatch(p, q, e);
    case DoError(e) =>
      ErrorFrame(p, e);
      OnlyEpWatch(p, q, e);
    case Trigger(t) =>
    case Fire(t) => RunTimerWatch(p, t);
    case Teardown(e) =>
      DestroyFrame(p.(closing := true), e);
      OnlyEpWatch(p, q, e);
  }

  lemma {:induction false} RunWatch(trace: seq<Pool>, steps: seq<Step>, max: nat, n: nat)
    requires IsPoolRun(trace, steps, max) && n < |trace|
    ensures Watch(trace[n])
  {
    if n > 0 {
      RunWatch(trace, steps, max, n - 1);
      RunPoolInv(trace, steps, max, n - 1);
      assert PoolStep(trace[n - 1], steps[n - 1], trace[n]);
      StepWatch(trace[n - 1], steps[n - 1]);
    }
  }

  /** Some valid timer will end the transaction of endpoint `e` or fail the endpoint. */
  ghost predicate Watched(p: Pool, e: EpId) {
    exists t :: t in p.timers && p.timers[t].valid && p.timers[t].aim.ep == e
  }

  /** In every run an accepted send with a time limit is watched by a valid timer, unless and only
      unless its request could not be written when its connection came up. */
  lemma AcceptedSendsAreWatched(trace: seq<Pool>, steps: seq<Step>, max: nat, n: nat, e: EpId)
    requires IsPoolRun(trace, steps, max) && n < |trace| && e in trace[n].eps && trace[n].eps[e].txns != []
    requires var nd := trace[n].eps[e].txns[0]; nd.status != NodeInit && nd.handler.timeout > 0
    ensures var x := trace[n].eps[e];
      Watched(trace[n], e) <==> !(x.status == Connected && x.txns[0].status == NodePending)
  {
    RunPoolInv(trace, steps, max, n);
    RunWatch(trace, steps, max, n);
    var p := trace[n];
    var x := p.eps[e];
    assert EpShape(x) && EpWatch(x);
    var aim := if x.status == Connecting then ConnOf(e) else RecvOf(e, x.txns[0].send);
    if !(x.status == Connected && x.txns[0].status == NodePending) {
      assert Held(p, aim).Ref?;
      assert p.timers[Held(p, aim).id].aim.ep == e;
    } else {
      forall t | t in p.timers && p.timers[t].valid ensures p.timers[t].aim.ep != e {
        assert Held(p, p.timers[t].aim) == Ref(t);
      }
    }
  }

  /** An idle endpoint will be closed: in every run an endpoint without a transaction is connected
      and its shutdown timer is valid and aimed at it. */
  lemma IdleIsClosed(trace: seq<Pool>, steps: seq<Step>, max: nat, n: nat, e: EpId)
    requires IsPoolRun(trace, steps, max) && n < |trace| && e in trace[n].eps && trace[n].eps[e].txns == []
    ensures var (p, x) := (trace[n], trace[n].eps[e]);
      && x.status == Connected && x.shut.Ref? && x.shut.id in p.timers
      && p.timers[x.shut.id].valid && p.timers[x.shut.id].aim == ShutOf(e)
  {
    RunPoolInv(trace, steps, max, n);
    RunWatch(trace, steps, max, n);
    var p := trace[n];
    assert EpWatch(p.eps[e]) && Held(p, ShutOf(e)) == p.eps[e].shut;
  }

  /** Only sends with a time limit are timed: a receive timer is held exactly by a written request
      with a time limit, a connect timer only for one. */
  lemma TimedAsAsked(trace: seq<Pool>, steps: seq<Step>, max: nat, n: nat, e: EpId)
    requires IsPoolRun(trace, steps, max) && n < |trace| && e in trace[n].eps && trace[n].eps[e].txns != []
    ensures var (x, nd) := (trace[n].eps[e], trace[n].eps[e].txns[0]);
      && (nd.recv.Ref? <==> nd.status == NodeSent && nd.handler.timeout > 0)
      && (x.conn.Ref? ==> x.status == Connecting && nd.handler.timeout > 0)
  {
    RunPoolInv(trace, steps, max, n);
    RunWatch(trace, steps, max, n);
    assert EpWatch(trace[n].eps[e]) && EpShape(trace[n].eps[e]);
  }

  /** A complete reply leaves the endpoint with a shutdown timer that has not gone off yet. */
  lemma ReplyRearms(p: Pool, e: EpId)
    requires PoolInv(p) && e in p.eps && p.eps[e].txns != []
    ensures var q := HandleOk(p, e);
      && e in q.eps && q.eps[e].shut.Ref? && q.eps[e].shut.id in q.timers
      && var tm := q.timers[q.eps[e].shut.id]; tm.valid && !tm.triggered && tm.aim == ShutOf(e)
  {
    DropRecvSound(p, e);
    ArmShutFresh(DropRecv(p, e), e);
    ArmShutFrame(DropRecv(p, e), e);
    assert EpShape(p.eps[e]);
  }

  lemma ArmShutFresh(p: Pool, e: EpId)
    requires Sound(p) && e in p.eps
    ensures var q := ArmShut(p, e);
      && q.eps[e].shut.Ref? && q.eps[e].shut.id in q.timers
      && var tm := q.timers[q.eps[e].shut.id]; tm.valid && !tm.triggered && tm.aim == ShutOf(e)
  {
    assert Held(p, ShutOf(e)) == p.eps[e].shut;
  }

  // ----- the exception happens -----

  function Timed5(): Handler { Handler(0, 0, 5, true, true) }

  function Lone(status: EpStatus, conn: Ref, timers: map<TimerId, Timer>): Pool {
    Pool(map[0 := Ep(0, 0, status, [Node(0, NodePending, Null, Timed5())], 1, conn, Null)], map[0 := [0]], 1, 1,
         timers, [Returned(0, true)], 1, 1, 1, false)
  }

  lemma AcceptedOnTheWay()
    ensures Send(NewPool(1), Timed5(), false, false, DialAsync(true), true)
         == Lone(Connecting, Ref(0), map[0 := Timer(ConnOf(0), true, false)])
  {
    var p := NewPool(1);
    var node := Node(0, NodeInit, Null, Timed5());
    var none: seq<EpId> := [];
    assert FindEp(p, ListOf(p, 0), Timed5()) == Null;
    assert ListOf(p, 0) == none && none + [0] == [0];
    var p1 := CreateEp(p, Timed5());
    assert p1.eps[0].txns + [node] == [node];
    var p2 := AddNode(p1, 0, Timed5());
    assert p2.eps == map[0 := Ep(0, 0, EpInit, [node], 1, Null, Null)];
    var p3 := ArmConn(SetStatus(p2, 0, Connecting), 0);
    assert p3.eps == map[0 := Ep(0, 0, Connecting, [node], 1, Ref(0), Null)];
    assert [node][0 := node.(status := NodePending)] == [node.(status := NodePending)];
    assert MarkNode(p3, 0, NodePending).eps == Lone(Connecting, Ref(0), p3.timers).eps;
  }

  lemma WriteFailsOnConnect()
    ensures OnConnect(Lone(Connecting, Ref(0), map[0 := Timer(ConnOf(0), true, false)]), 0, true, false)
         == Lone(Connected, Null, map[0 := Timer(ConnOf(0), false, false)])
  {
    var p := Lone(Connecting, Ref(0), map[0 := Timer(ConnOf(0), true, false)]);
    var q := SetStatus(DropConn(p, 0), 0, Connected);
    assert q == Lone(Connected, Null, map[0 := Timer(ConnOf(0), false, false)]);
  }

  /** A send with a time limit is accepted, its connection comes up, the write fails: it stays
      in the pool and no timer watches it. */
  lemma UnwatchedSend() returns (trace: seq<Pool>, steps: seq<Step>)
    ensures IsPoolRun(trace, steps, 1) && |steps| == 2
    ensures Life(trace[2].log, 0) == [Returned(0, true)] && Live(trace[2], 0)
    ensures 0 in trace[2].eps && Holds(trace[2].eps[0], 0) && trace[2].eps[0].txns[0].handler.timeout > 0
    ensures !Watched(trace[2], 0)
  {
    AcceptedOnTheWay();
    WriteFailsOnConnect();
    var a := Lone(Connecting, Ref(0), map[0 := Timer(ConnOf(0), true, false)]);
    var b := Lone(Connected, Null, map[0 := Timer(ConnOf(0), false, false)]);
    steps := [DoSend(Timed5(), false, false, DialAsync(true), true), DoConnect(0, true, false)];
    trace := [NewPool(1), a, b];
    assert PoolStep(trace[0], steps[0], trace[1]) && PoolStep(trace[1], steps[1], trace[2]);
    AllAbout(b.log, 0, 0);
    assert Holds(b.eps[0], 0);
  }
}
