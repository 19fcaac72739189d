/** What becomes of endpoints and sends. */
module EpPoolFates {
  // Which step deletes an endpoint, ends or writes a request, and how a send is answered.

  import opened Seqs
  import opened EpPool
  import opened EpPoolLaws
  import opened EpPoolRuns

  // ----- what small steps leave -----

  lemma {:induction false} FailAllEps(p: Pool, e: EpId)
    requires e in p.eps
    ensures FailAll(p, e).eps == p.eps[e := FailAll(p, e).eps[e]]
    decreases |p.eps[e].txns|
  {
    if p.eps[e].txns != [] {
      var told := p.eps[e].txns[0].status != NodeInit;
      FailAllEps(EndNode(p, e, FailNotice(p.eps[e].txns[0]), told), e);
    }
  }

  lemma {:induction false} ReleaseAllEps(p: Pool, e: EpId)
    requires e in p.eps
    ensures ReleaseAll(p, e).eps == p.eps[e := ReleaseAll(p, e).eps[e]]
    decreases |p.eps[e].txns|
  {
    if p.eps[e].txns != [] { ReleaseAllEps(EndNode(p, e, NoNotice, true), e); }
  }

  lemma DestroyEps(p: Pool, e: EpId)
    requires e in p.eps
    ensures DestroyEp(p, e).eps == p.eps - {e}
  {
    ReleaseAllEps(DropShut(DropConn(p, e), e), e);
  }

  lemma ErrorEps(p: Pool, e: EpId)
    requires e in p.eps
    ensures HandleError(p, e).eps == p.eps - {e}
  {
    FailAllEps(p, e);
    DestroyEps(FailAll(p, e), e);
  }

  lemma UndoEps(p: Pool, e: EpId)
    requires e in p.eps && p.eps[e].txns != []
    ensures Undo(p, e).eps == p.eps - {e}
  {
    DestroyEps(EndNode(p, e, NoNotice, false), e);
  }

  lemma OkEps(p: Pool, e: EpId)
    requires e in p.eps && |p.eps[e].txns| == 1
    ensures var q := HandleOk(p, e);
      && e in q.eps && q.eps == p.eps[e := q.eps[e]] && q.eps[e].txns == [] && q.eps[e].status == p.eps[e].status
      && q.eps[e].key == p.eps[e].key && q.eps[e].shut.Ref?
  {
    ArmShutFrame(DropRecv(p, e), e);
  }

  lemma TransmitEps(p: Pool, e: EpId, w: bool)
    requires e in p.eps && p.eps[e].txns != []
    ensures var q := Transmit(p, e, w);
      && e in q.eps && q.eps == p.eps[e := q.eps[e]]
      && q.eps[e].key == p.eps[e].key && q.eps[e].status == p.eps[e].status && |q.eps[e].txns| == |p.eps[e].txns|
      && q.eps[e].txns[0].send == p.eps[e].txns[0].send && q.eps[e].txns[0].handler == p.eps[e].txns[0].handler
      && q.eps[e].txns[0].status == if w then NodeSent else p.eps[e].txns[0].status
  {
    TransmitFrame(p, e, w);
  }

  // ----- endpoints -----

  /** Data that arrives on the endpoint is unpacked by its transaction. */
  predicate Unpacks(p: Pool, e: EpId) { e in p.eps && p.eps[e].txns != [] && p.eps[e].txns[0].handler.unpack }

  /** The step fails endpoint `e`: its connection or its data is bad, its connect or shutdown timer
      runs out, or it is torn down. */
  predicate FailsEp(p: Pool, step: Step, e: EpId) {
    match step
    case DoConnect(d, ok, _) => d == e && !ok
    case DoRead(d, u) => d == e && u == Malformed && Unpacks(p, e)
    case DoError(d) => d == e
    case Fire(t) => t in p.timers && p.timers[t].valid && p.timers[t].aim in {ConnOf(e), ShutOf(e)}
    case Teardown(d) => d == e
    case _ => false
  }

  /** The step ends the transaction of endpoint `e`, which stays: a complete reply, or a time-out. */
  predicate EndsTxn(p: Pool, step: Step, e: EpId) {
    match step
    case DoRead(d, u) => d == e && u == Complete && Unpacks(p, e)
    case Fire(t) => t in p.timers && p.timers[t].valid && p.timers[t].aim.RecvOf? && p.timers[t].aim.ep == e
    case _ => false
  }

  /** The step establishes the connection of endpoint `e`. */
  predicate Connects(step: Step, e: EpId) { step.DoConnect? && step.ep == e && step.ok }

  /** What a step that is no send does to endpoint `e`. */
  ghost predicate Fate(p: Pool, step: Step, q: Pool, e: EpId)
    requires e in p.eps
  {
    && (e in q.eps <==> !FailsEp(p, step, e))
    && (e in q.eps ==>
          var (x, y) := (p.eps[e], q.eps[e]);
          && y.key == x.key && y.status == (if Connects(step, e) then Connected else x.status)
          && if EndsTxn(p, step, e) then y.txns == []
             else
               && |y.txns| == |x.txns|
               && (x.txns != [] ==>
                     && y.txns[0].send == x.txns[0].send && y.txns[0].handler == x.txns[0].handler
                     && y.txns[0].status == if Connects(step, e) && step.writeOk then NodeSent else x.txns[0].status))
  }

  lemma SameFate(p: Pool, step: Step, q: Pool, e: EpId)
    requires e in p.eps && e in q.eps && q.eps[e] == p.eps[e]
    requires !FailsEp(p, step, e) && !EndsTxn(p, step, e) && !Connects(step, e)
    ensures Fate(p, step, q, e)
  {
  }

  /** The step deletes endpoint `d` only. */
  lemma FailFate(p: Pool, step: Step, q: Pool, d: EpId, e: EpId)
    requires d in p.eps && e in p.eps && q.eps == p.eps - {d} && FailsEp(p, step, d)
    requires e != d ==> !FailsEp(p, step, e) && !EndsTxn(p, step, e) && !Connects(step, e)
    ensures Fate(p, step, q, e)
  {
  }

  lemma ConnectFate(p: Pool, d: EpId, ok: bool, w: bool, e: EpId)
    requires Shaped(p) && d in p.eps && e in p.eps
    ensures Fate(p, DoConnect(d, ok, w), OnConnect(p, d, ok, w), e)
  {
    if ok {
      EstablishedFate(p, d, w, e);
    } else {
      ErrorEps(p, d);
      FailFate(p, DoConnect(d, ok, w), HandleError(p, d), d, e);
    }
  }

  lemma EstablishedFate(p: Pool, d: EpId, w: bool, e: EpId)
    requires d in p.eps && e in p.eps
    ensures Fate(p, DoConnect(d, true, w), OnConnect(p, d, true, w), e)
  {
    var c := SetStatus(DropConn(p, d), d, Connected);
    if c.eps[d].txns != [] {
      TransmitEps(c, d, w);
      ConnectedFate(p, DoConnect(d, true, w), c, Transmit(c, d, w), d, e);
    } else {
      ConnectedFate(p, DoConnect(d, true, w), c, c, d, e);
    }
  }

  /** The connection of endpoint `d` is up, and its request written if that went well. */
  lemma ConnectedFate(p: Pool, step: Step, c: Pool, q: Pool, d: EpId, e: EpId)
    requires d in p.eps && e in p.eps && Connects(step, d) && c == SetStatus(DropConn(p, d), d, Connected)
    requires d in q.eps && q.eps == c.eps[d := q.eps[d]]
    requires q.eps[d].key == p.eps[d].key && q.eps[d].status == Connected && |q.eps[d].txns| == |p.eps[d].txns|
    requires p.eps[d].txns != [] ==>
      var (n, m) := (p.eps[d].txns[0], q.eps[d].txns[0]);
      m.send == n.send && m.handler == n.handler && m.status == if step.writeOk then NodeSent else n.status
    ensures Fate(p, step, q, e)
  {
    if e != d { SameFate(p, step, q, e); }
  }

  lemma ReadFate(p: Pool, d: EpId, u: Unpack, e: EpId)
    requires Shaped(p) && d in p.eps && e in p.eps
    ensures Fate(p, DoRead(d, u), OnRead(p, d, u), e)
  {
    var (x, step, q) := (p.eps[d], DoRead(d, u), OnRead(p, d, u));
    if x.txns == [] || !x.txns[0].handler.unpack || u == NeedMore {
      SameFate(p, step, q, e);
    } else if u == Malformed {
      ErrorEps(p, d);
      FailFate(p, step, q, d, e);
    } else {
      assert EpShape(x);
      OkEps(p, d);
      EndedFate(p, step, q, d, e);
    }
  }

  /** The step ends the transaction of endpoint `d` only. */
  lemma EndedFate(p: Pool, step: Step, q: Pool, d: EpId, e: EpId)
    requires d in p.eps && e in p.eps && d in q.eps && q.eps == p.eps[d := q.eps[d]] && EndsTxn(p, step, d)
    requires q.eps[d].txns == [] && q.eps[d].key == p.eps[d].key && q.eps[d].status == p.eps[d].status
    ensures Fate(p, step, q, e)
  {
    if e != d { SameFate(p, step, q, e); }
  }

  lemma RecvFate(p: Pool, t: TimerId, d: EpId, e: EpId)
    requires Shaped(p) && t in p.timers && d in p.eps && e in p.eps && p.eps[d].txns != [] && EndsTxn(p, Fire(t), d)
    ensures Fate(p, Fire(t), FreeTimer(EndNode(DropRecv(p, d), d, Notice(EpTimeout), true), t), e)
  {
    assert EpShape(p.eps[d]);
    EndedFate(p, Fire(t), FreeTimer(EndNode(DropRecv(p, d), d, Notice(EpTimeout), true), t), d, e);
  }

  lemma ConnFate(p: Pool, t: TimerId, d: EpId, e: EpId)
    requires t in p.timers && d in p.eps && e in p.eps && p.timers[t].aim == ConnOf(d) && p.timers[t].valid
    ensures Fate(p, Fire(t), FreeTimer(HandleError(DropConn(p, d), d), t), e)
  {
    ErrorEps(DropConn(p, d), d);
    FailFate(p, Fire(t), FreeTimer(HandleError(DropConn(p, d), d), t), d, e);
  }

  lemma ShutFate(p: Pool, t: TimerId, d: EpId, e: EpId)
    requires t in p.timers && d in p.eps && e in p.eps && p.timers[t].aim == ShutOf(d) && p.timers[t].valid
    ensures Fate(p, Fire(t), FreeTimer(HandleError(DropShut(p, d), d), t), e)
  {
    ErrorEps(DropShut(p, d), d);
    FailFate(p, Fire(t), FreeTimer(HandleError(DropShut(p, d), d), t), d, e);
  }

  lemma FireFate(p: Pool, t: TimerId, e: EpId)
    requires Shaped(p) && t in p.timers && e in p.eps && RunTimer(p, t).Ran?
    ensures Fate(p, Fire(t), RunTimer(p, t).pool, e)
  {
    if p.timers[t].valid {
      match p.timers[t].aim
      case RecvOf(d, _) => RecvFate(p, t, d, e);
      case ConnOf(d) => ConnFate(p, t, d, e);
      case ShutOf(d) => ShutFate(p, t, d, e);
    } else {
      SameFate(p, Fire(t), RunTimer(p, t).pool, e);
    }
  }

  /** An endpoint is deleted, its transaction ended, its connection established or its request
      written exactly by the steps that say so; everything else leaves it as it is. */
  lemma EndpointFate(p: Pool, step: Step, e: EpId)
    requires PoolInv(p) && Enabled(p, step) && Apply(p, step).Ran? && !step.DoSend? && e in p.eps
    ensures Fate(p, step, Apply(p, step).pool, e)
  {
    match step
    case DoConnect(d, ok, w) => ConnectFate(p, d, ok, w, e);
    case DoRead(d, u) => ReadFate(p, d, u, e);
    case DoError(d) => ErrorEps(p, d);
    case Trigger(_) =>
    case Fire(t) => FireFate(p, t, e);
    case Teardown(d) => DestroyEps(p.(closing := true), d);
  }

  // ----- sends -----

  /** The endpoint can carry the send at once. */
  predicate FreeFor(p: Pool, h: Handler, e: EpId) {
    && e in p.eps && p.eps[e].key == h.key && p.eps[e].flags == h.flags
    && p.eps[e].status == Connected && p.eps[e].txns == []
  }

  ghost predicate HasFree(p: Pool, h: Handler) { exists e :: FreeFor(p, h, e) }

  /** The send can be tried at all: good arguments, no time limit without an unpack function, and
      an endpoint to spare. */
  predicate Tried(p: Pool, h: Handler, bad: bool) { !bad && (h.timeout > 0 ==> h.unpack) && p.nep != p.max }

  /** The send is answered OK. */
  ghost predicate Accepted(p: Pool, h: Handler, bad: bool, late: bool, dial: Dial, w: bool) {
    && Tried(p, h, bad)
    && if HasFree(p, h) then w
       else !late && (dial == DialAsync(true) || (dial == DialDone && w))
  }

  /** Endpoint `e` carries send `s`, its request written, pending, or neither. */
  predicate CarriesSend(p: Pool, e: EpId, s: SendId, h: Handler, status: EpStatus, node: NodeStatus) {
    && e in p.eps && p.eps[e].key == h.key && p.eps[e].status == status
    && Holds(p.eps[e], s) && p.eps[e].txns[0].handler == h && p.eps[e].txns[0].status == node
  }

  /** The pool after a send: only the endpoint that carries it is new or changed. */
  ghost predicate Sending(p: Pool, h: Handler, bad: bool, late: bool, dial: Dial, w: bool, q: Pool) {
    var (s, written) := (p.nextSend, if w then NodeSent else NodeInit);
    if !Tried(p, h, bad) then q.eps == p.eps
    else if HasFree(p, h) then
      exists e :: FreeFor(p, h, e) && e in q.eps && q.eps == p.eps[e := q.eps[e]]
        && CarriesSend(q, e, s, h, Connected, written)
    else if late || dial == DialFailed || dial == DialAsync(false) then q.eps == p.eps
    else
      && p.nextEp in q.eps && q.eps == p.eps[p.nextEp := q.eps[p.nextEp]]
      && if dial == DialDone then CarriesSend(q, p.nextEp, s, h, Connected, written)
         else CarriesSend(q, p.nextEp, s, h, Connecting, NodePending)
  }

  lemma FindsFree(p: Pool, h: Handler)
    requires Indexed(p)
    ensures var r := FindEp(p, ListOf(p, h.key), h);
      if r.Ref? then FreeFor(p, h, r.id) else !HasFree(p, h)
  {
  }

  lemma SendOnFate(p: Pool, e: EpId, h: Handler, w: bool)
    requires FreeFor(p, h, e)
    ensures var q := SendOn(p, e, h, w);
      && q.log == p.log + [Returned(p.nextSend, w)] && e in q.eps && q.eps == p.eps[e := q.eps[e]]
      && CarriesSend(q, e, p.nextSend, h, Connected, if w then NodeSent else NodeInit)
  {
    TransmitFrame(AddNode(p, e, h), e, w);
    TransmitEps(AddNode(p, e, h), e, w);
  }

  /** A new endpoint given up leaves no trace. */
  lemma GivenUp(p: Pool, p1: Pool, e: EpId, s: SendId)
    requires e !in p.eps && e in p1.eps && p1.eps == p.eps[e := p1.eps[e]] && |p1.eps[e].txns| == 1 && p1.log == p.log
    ensures Answer(Undo(p1, e), s, false).eps == p.eps
    ensures Answer(Undo(p1, e), s, false).log == p.log + [Returned(s, false)]
  {
    UndoEps(p1, e);
    UndoLog(p1, e);
  }

  lemma AwaitFate(p: Pool, p1: Pool, e: EpId, s: SendId, h: Handler, registered: bool)
    requires e !in p.eps && e in p1.eps && p1.eps == p.eps[e := p1.eps[e]] && |p1.eps[e].txns| == 1 && p1.log == p.log
    requires CarriesSend(p1, e, s, h, Connecting, NodeInit)
    ensures var q := AwaitConnect(p1, e, s, registered);
      && q.log == p.log + [Returned(s, registered)]
      && if !registered then q.eps == p.eps
         else e in q.eps && q.eps == p.eps[e := q.eps[e]] && CarriesSend(q, e, s, h, Connecting, NodePending)
  {
    var p2 := if h.timeout > 0 then ArmConn(p1, e) else p1;
    if registered {
      assert AwaitConnect(p1, e, s, registered) == Answer(MarkNode(p2, e, NodePending), s, true);
    } else {
      GivenUp(p, p2, e, s);
    }
  }

  lemma DialedFate(p: Pool, p1: Pool, e: EpId, s: SendId, h: Handler, w: bool)
    requires e !in p.eps && e in p1.eps && p1.eps == p.eps[e := p1.eps[e]] && |p1.eps[e].txns| == 1 && p1.log == p.log
    requires CarriesSend(p1, e, s, h, Connected, NodeInit)
    ensures var q := Answer(Transmit(p1, e, w), s, w);
      && q.log == p.log + [Returned(s, w)] && e in q.eps && q.eps == p.eps[e := q.eps[e]]
      && CarriesSend(q, e, s, h, Connected, if w then NodeSent else NodeInit)
  {
    TransmitFrame(p1, e, w);
    TransmitEps(p1, e, w);
  }

  /** The outcome of a send on the new endpoint `e`. */
  predicate Opened(p: Pool, q: Pool, e: EpId, s: SendId, h: Handler, late: bool, dial: Dial, w: bool) {
    && q.log == p.log + [Returned(s, !late && (dial == DialAsync(true) || (dial == DialDone && w)))]
    && if late || dial == DialFailed || dial == DialAsync(false) then q.eps == p.eps
       else
         && e in q.eps && q.eps == p.eps[e := q.eps[e]]
         && if dial == DialDone then CarriesSend(q, e, s, h, Connected, if w then NodeSent else NodeInit)
            else CarriesSend(q, e, s, h, Connecting, NodePending)
  }

  lemma OpenFate(p: Pool, p1: Pool, e: EpId, s: SendId, h: Handler, late: bool, dial: Dial, w: bool)
    requires e !in p.eps && e in p1.eps && p1.eps == p.eps[e := p1.eps[e]] && |p1.eps[e].txns| == 1 && p1.log == p.log
    requires CarriesSend(p1, e, s, h, EpInit, NodeInit)
    ensures Opened(p, Connect(p1, e, s, late, dial, w), e, s, h, late, dial, w)
  {
    if late {
      GivenUp(p, p1, e, s);
    } else {
      match dial
      case DialFailed => GivenUp(p, SetStatus(p1, e, Connecting), e, s);
      case DialDone => DialedFate(p, SetStatus(p1, e, Connected), e, s, h, w);
      case DialAsync(registered) => AwaitFate(p, SetStatus(p1, e, Connecting), e, s, h, registered);
    }
  }

  lemma SendNewFate(p: Pool, h: Handler, late: bool, dial: Dial, w: bool)
    requires PoolInv(p)
    ensures Opened(p, SendNew(p, h, late, dial, w), p.nextEp, p.nextSend, h, late, dial, w)
  {
    var (e, s) := (p.nextEp, p.nextSend);
    assert e !in p.eps;
    var p1 := AddNode(CreateEp(p, h), e, h);
    assert p1.eps[e].txns == [Node(s, NodeInit, Null, h)];
    OpenFate(p, p1, e, s, h, late, dial, w);
  }

  /** How a send is answered, and where it is then: on an endpoint that was free for it if there is
      one, else on a new one, or nowhere. */
  lemma SendFate(p: Pool, h: Handler, bad: bool, late: bool, dial: Dial, w: bool)
    requires PoolInv(p)
    ensures var q := Send(p, h, bad, late, dial, w);
      && q.log == p.log + [Returned(p.nextSend, Accepted(p, h, bad, late, dial, w))]
      && Sending(p, h, bad, late, dial, w, q)
  {
    if Tried(p, h, bad) {
      FindsFree(p, h);
      var r := FindEp(p, ListOf(p, h.key), h);
      if r.Ref? {
        SendOnFate(p, r.id, h, w);
        assert FreeFor(p, h, r.id);
      } else {
        SendNewFate(p, h, late, dial, w);
      }
    }
  }
}
