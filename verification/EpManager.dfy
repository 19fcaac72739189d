/** The endpoint manager object: the loops and updates of the pool, in place. */
module EpManager {
  import opened Seqs
  import opened EpPool

  class Manager {
    const max: nat
    var eps: map<EpId, Ep>
    var index: map<Key, seq<EpId>>
    var nep: int
    var timers: map<TimerId, Timer>
    var log: seq<Obs>
    var nextEp: EpId
    var nextTimer: TimerId
    var nextSend: SendId
    var closing: bool

    /** The pool as a value. */
    ghost function Model(): Pool
      reads this
    {
      Pool(eps, index, nep, max, timers, log, nextEp, nextTimer, nextSend, closing)
    }

    constructor (max: nat)
      ensures Model() == NewPool(max)
    {
      this.max := max;
      eps, index, nep, timers, log := map[], map[], 0, map[], [];
      nextEp, nextTimer, nextSend, closing := 0, 0, 0, false;
    }

    // ----- timers -----

    method CancelTimer(r: Ref)
      modifies this`timers
      ensures timers == Cancel(old(timers), r)
    {
      if r.Ref? && r.id in timers { timers := timers[r.id := timers[r.id].(valid := false)]; }
    }

    method CreateTimer(aim: Aim) returns (r: Ref)
      modifies this`timers, this`nextTimer
      ensures r == Ref(old(nextTimer)) && Model() == NewTimer(old(Model()), aim)
    {
      r := Ref(nextTimer);
      timers := timers[nextTimer := Timer(aim, true, false)];
      nextTimer := nextTimer + 1;
    }

    /** Refresh the shutdown timer; one that is already on the fly is cancelled and replaced. */
    method CreateShutdownTimer(e: EpId)
      requires e in eps
      modifies this
      ensures Model() == ArmShut(old(Model()), e) && e in eps && eps[e].txns == old(eps[e].txns)
    {
      var r := eps[e].shut;
      if r.Ref? && r.id in timers && !timers[r.id].triggered { return; }
      CancelTimer(r);
      eps := eps[e := eps[e].(shut := Null)];
      assert Model() == DropShut(old(Model()), e);
      var t := CreateTimer(ShutOf(e));
      eps := eps[e := eps[e].(shut := t)];
    }

    // ----- nodes -----

    /** Run the callback if asked, cancel the receive timer, release, unlink. */
    method NodeDestroy(e: EpId, tell: Notice, release: bool)
      requires e in eps && eps[e].txns != []
      modifies this
      ensures Model() == EndNode(old(Model()), e, tell, release) && e in eps && eps[e].txns == old(eps[e].txns[1..])
    {
      var n := eps[e].txns[0];
      ghost var was := log;
      if tell.Notice? && n.handler.hasCb { log := log + [CalledBack(n.send, tell.ret)]; }
      CancelTimer(n.recv);
      if release { log := log + [Released(n.send)]; }
      assert log == was + Said(n, tell, release);
      eps := eps[e := eps[e].(txns := eps[e].txns[1..], ntxn := eps[e].ntxn - 1)];
    }

    /** The first endpoint in the list that is connected and free. */
    method Find(list: seq<EpId>, h: Handler) returns (r: Ref)
      ensures r == FindEp(Model(), list, h)
    {
      for i := 0 to |list|
        invariant FindEp(Model(), list, h) == FindEp(Model(), list[i..], h)
      {
        if list[i] in eps && Usable(eps[list[i]], h) { return Ref(list[i]); }
        assert list[i..][1..] == list[i + 1..];
      }
      r := Null;
    }

    /** Pop everything, keep all but `e` aside, push it back: the order of the others stays. */
    static method Remove(list: seq<EpId>, e: EpId) returns (r: seq<EpId>)
      ensures r == Without(list, e)
    {
      var tmp: seq<EpId> := [];
      r := list;
      while r != []
        invariant tmp + Without(r, e) == Without(list, e)
        decreases |r|
      {
        var t := r[0];
        assert Without(r, e) == (if t != e then [t] else []) + Without(r[1..], e);
        r := r[1..];
        if t != e { tmp := tmp + [t]; }
      }
      ghost var kept := tmp;
      while tmp != []
        invariant r + tmp == kept
        decreases |tmp|
      {
        r, tmp := r + [tmp[0]], tmp[1..];
      }
    }

    // ----- endpoints -----

    method Destroy(e: EpId)
      requires e in eps
      modifies this
      ensures Model() == DestroyEp(old(Model()), e)
    {
      CancelTimer(eps[e].conn);
      eps := eps[e := eps[e].(conn := Null)];
      assert Model() == DropConn(old(Model()), e);
      ghost var mid := Model();
      CancelTimer(eps[e].shut);
      eps := eps[e := eps[e].(shut := Null)];
      assert Model() == DropShut(mid, e);
      ghost var start := Model();
      while eps[e].txns != []
        invariant e in eps && ReleaseAll(Model(), e) == ReleaseAll(start, e)
        decreases |eps[e].txns|
      {
        NodeDestroy(e, NoNotice, true);
      }
      var key := eps[e].key;
      var rest := Remove(if key in index then index[key] else [], e);
      index := index[key := rest];
      eps := eps - {e};
    }

    method Delete(e: EpId)
      requires e in eps
      modifies this
      ensures Model() == DelEp(old(Model()), e)
    {
      Destroy(e);
      nep := nep - 1;
    }

    /** Tell and release the accepted transactions, drop the refused ones, delete. */
    method HandleError(e: EpId)
      requires e in eps
      modifies this
      ensures Model() == EpPool.HandleError(old(Model()), e)
    {
      while eps[e].txns != []
        invariant e in eps && FailAll(Model(), e) == FailAll(old(Model()), e)
        decreases |eps[e].txns|
      {
        var told := eps[e].txns[0].status != NodeInit;
        NodeDestroy(e, if told then Notice(EpError) else NoNotice, told);
      }
      Delete(e);
    }

    method HandleOk(e: EpId)
      requires e in eps && eps[e].txns != []
      modifies this
      ensures Model() == EpPool.HandleOk(old(Model()), e)
    {
      var n := eps[e].txns[0];
      CancelTimer(n.recv);
      eps := eps[e := eps[e].(txns := eps[e].txns[0 := n.(recv := Null)])];
      assert Model() == DropRecv(old(Model()), e);
      CreateShutdownTimer(e);
      NodeDestroy(e, Notice(EpOk), true);
    }

    /** Write the request and arm the timers of the transaction. */
    method Write(e: EpId, writeOk: bool)
      requires e in eps && eps[e].txns != []
      modifies this
      ensures Model() == Transmit(old(Model()), e, writeOk)
    {
      var n := eps[e].txns[0];
      if !writeOk { return; }
      eps := eps[e := eps[e].(txns := eps[e].txns[0 := n.(status := NodeSent)])];
      if n.handler.timeout > 0 {
        CreateShutdownTimer(e);
        if n.handler.unpack {
          var m := eps[e].txns[0];
          var t := CreateTimer(RecvOf(e, m.send));
          eps := eps[e := eps[e].(txns := eps[e].txns[0 := m.(recv := t)])];
        }
      } else if !n.handler.unpack {
        CreateShutdownTimer(e);
      }
    }

    method AnswerSend(s: SendId, ok: bool)
      modifies this`log
      ensures Model() == Answer(old(Model()), s, ok)
    {
      log := log + [Returned(s, ok)];
    }

    method NewNode(e: EpId, h: Handler)
      requires e in eps
      modifies this
      ensures Model() == AddNode(old(Model()), e, h) && e in eps
    {
      eps := eps[e := eps[e].(txns := eps[e].txns + [Node(nextSend, NodeInit, Null, h)], ntxn := eps[e].ntxn + 1)];
      nextSend := nextSend + 1;
    }

    method GiveUp(e: EpId, s: SendId)
      requires e in eps && eps[e].txns != []
      modifies this
      ensures Model() == Answer(Undo(old(Model()), e), s, false)
    {
      NodeDestroy(e, NoNotice, false);
      Delete(e);
      AnswerSend(s, false);
    }

    /** Open the connection of a new endpoint; `dial` is what the socket layer said. */
    method Open(e: EpId, s: SendId, late: bool, dial: Dial, writeOk: bool)
      requires e in eps && eps[e].txns != []
      modifies this
      ensures Model() == Connect(old(Model()), e, s, late, dial, writeOk)
    {
      if late {
        GiveUp(e, s);
        return;
      }
      eps := eps[e := eps[e].(status := Connecting)];
      assert Model() == SetStatus(old(Model()), e, Connecting);
      match dial
      case DialFailed => GiveUp(e, s);
      case DialDone =>
        eps := eps[e := eps[e].(status := Connected)];
        assert eps == old(eps)[e := old(eps)[e].(status := Connected)];
        assert Model() == SetStatus(old(Model()), e, Connected);
        Write(e, writeOk);
        AnswerSend(s, writeOk);
      case DialAsync(registered) => Await(e, s, registered);
    }

    method Await(e: EpId, s: SendId, registered: bool)
      requires e in eps && eps[e].txns != []
      modifies this
      ensures Model() == AwaitConnect(old(Model()), e, s, registered)
    {
      if eps[e].txns[0].handler.timeout > 0 {
        var t := CreateTimer(ConnOf(e));
        eps := eps[e := eps[e].(conn := t)];
      }
      if registered {
        eps := eps[e := eps[e].(txns := eps[e].txns[0 := eps[e].txns[0].(status := NodePending)])];
        AnswerSend(s, true);
      } else {
        GiveUp(e, s);
      }
    }

    /** Send a request: on a free connected endpoint, or on a new one. */
    method Send(h: Handler, badArgs: bool, late: bool, dial: Dial, writeOk: bool)
      modifies this
      ensures Model() == EpPool.Send(old(Model()), h, badArgs, late, dial, writeOk)
    {
      var s := nextSend;
      if badArgs || (h.timeout > 0 && !h.unpack) || nep == max {
        AnswerSend(s, false);
        nextSend := nextSend + 1;
        return;
      }
      var list := if h.key in index then index[h.key] else [];
      var r := Find(list, h);
      if r.Ref? {
        SendReused(r.id, h, writeOk);
      } else {
        SendFresh(h, late, dial, writeOk);
      }
    }

    method SendReused(e: EpId, h: Handler, writeOk: bool)
      requires e in eps && eps[e].txns == []
      modifies this
      ensures Model() == SendOn(old(Model()), e, h, writeOk)
    {
      var s := nextSend;
      NewNode(e, h);
      Write(e, writeOk);
      AnswerSend(s, writeOk);
    }

    method SendFresh(h: Handler, late: bool, dial: Dial, writeOk: bool)
      modifies this
      ensures Model() == SendNew(old(Model()), h, late, dial, writeOk)
    {
      var e, s := nextEp, nextSend;
      var list := if h.key in index then index[h.key] else [];
      eps := eps[e := Ep(h.key, 0, EpInit, [], 0, Null, Null)];
      index := index[h.key := list + [e]];
      nep := nep + 1;
      nextEp := nextEp + 1;
      assert Model() == CreateEp(old(Model()), h);
      NewNode(e, h);
      Open(e, s, late, dial, writeOk);
    }

    /** The connection was established or failed. */
    method OnConnect(e: EpId, ok: bool, writeOk: bool)
      requires e in eps
      modifies this
      ensures Model() == EpPool.OnConnect(old(Model()), e, ok, writeOk)
    {
      if !ok {
        HandleError(e);
        return;
      }
      CancelTimer(eps[e].conn);
      eps := eps[e := eps[e].(conn := Null)];
      assert Model() == DropConn(old(Model()), e);
      eps := eps[e := eps[e].(status := Connected)];
      assert Model() == SetStatus(DropConn(old(Model()), e), e, Connected);
      if eps[e].txns != [] { Write(e, writeOk); }
    }

    /** Data arrived; `u` is what the transaction's unpack function said about it. */
    method OnRead(e: EpId, u: Unpack)
      requires e in eps
      modifies this
      ensures Model() == EpPool.OnRead(old(Model()), e, u)
    {
      if eps[e].txns == [] || !eps[e].txns[0].handler.unpack || u == NeedMore { return; }
      if u == Malformed {
        HandleError(e);
      } else {
        HandleOk(e);
      }
    }

    /** The callback of a triggered timer. */
    method RunTimer(t: TimerId)
      requires t in timers && EpPool.RunTimer(Model(), t).Ran?
      modifies this
      ensures EpPool.RunTimer(old(Model()), t) == Ran(Model())
    {
      var tm := timers[t];
      if tm.valid {
        match tm.aim
        case RecvOf(e, s) =>
          var n := eps[e].txns[0];
          CancelTimer(n.recv);
          eps := eps[e := eps[e].(txns := eps[e].txns[0 := n.(recv := Null)])];
          assert Model() == DropRecv(old(Model()), e);
          NodeDestroy(e, Notice(EpTimeout), true);
        case ConnOf(e) =>
          CancelTimer(eps[e].conn);
          eps := eps[e := eps[e].(conn := Null)];
          assert Model() == DropConn(old(Model()), e);
          HandleError(e);
        case ShutOf(e) =>
          CancelTimer(eps[e].shut);
          eps := eps[e := eps[e].(shut := Null)];
          assert Model() == DropShut(old(Model()), e);
          HandleError(e);
      }
      timers := timers - {t};
    }
  }
}
