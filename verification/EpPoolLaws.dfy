/** The invariant of the endpoint pool. It has five independent parts, so that each small step
    of the pool has to be looked at only where it matters: the shape of each endpoint (at most one
    transaction), held timer pointers against valid timers (one to one), the life of each send
    against the log of what its owner observed, the index of endpoints by key, and their count.
    The lemmas go from small steps (a timer armed or dropped, a node added or ended, an endpoint
    created or unlisted) to events, and from events to every run. */
module EpPoolLaws {
  import opened Seqs
  import opened EpPool

  // ----- the life of one send -----

  function About(s: SendId): Obs -> bool { (o: Obs) => o.send == s }

  function Life(log: seq<Obs>, s: SendId): seq<Obs> { Filter(log, About(s)) }

  /** The whole life of a send that is no longer in the pool: an accepted one was called back
      at most once, then released once. */
  predicate Settled(l: seq<Obs>, s: SendId) {
    || l == [] || l == [Returned(s, false)]
    || l == [Returned(s, true), Released(s)] || TakenBack(l, s, true)
    || l == [Returned(s, false), Released(s)] || TakenBack(l, s, false)
  }

  /** Answered, called back, released. */
  predicate TakenBack(l: seq<Obs>, s: SendId, ok: bool) {
    |l| == 3 && l[0] == Returned(s, ok) && l[1].CalledBack? && l[1].send == s && l[2] == Released(s)
  }

  /** The life so far of a send whose node is in the pool. */
  predicate Open(l: seq<Obs>, n: Node) {
    l == [] || l == [Returned(n.send, n.status != NodeInit)]
  }

  predicate Holds(x: Ep, s: SendId) { x.txns != [] && x.txns[0].send == s }

  // ----- the invariant -----

  /** Each endpoint carries at most one transaction, and waits for a connection only while
      connecting. */
  predicate EpShape(x: Ep) {
    && x.flags == 0 && |x.txns| <= 1 && x.ntxn == |x.txns| && (x.conn.Ref? ==> x.status == Connecting)
    && (x.txns != [] && x.txns[0].recv.Ref? ==> x.txns[0].status == NodeSent)
    && (x.txns != [] && x.status == Connecting ==> x.txns[0].status != NodeSent)
  }

  ghost predicate Shaped(p: Pool) {
    forall e :: e in p.eps ==> e < p.nextEp && EpShape(p.eps[e])
  }

  /** The timer pointer that belongs to an aim. */
  function Held(p: Pool, aim: Aim): Ref {
    if aim.ep !in p.eps then Null
    else match aim
      case ConnOf(e) => p.eps[e].conn
      case ShutOf(e) => p.eps[e].shut
      case RecvOf(e, s) => if Holds(p.eps[e], s) then p.eps[e].txns[0].recv else Null
  }

  /** Held pointers and valid timers correspond one to one. */
  ghost predicate Timed(p: Pool) {
    && (forall aim :: Held(p, aim).Ref? ==>
          var t := Held(p, aim).id; t in p.timers && p.timers[t].valid && p.timers[t].aim == aim)
    && (forall t :: t in p.timers ==> t < p.nextTimer && (p.timers[t].valid ==> Held(p, p.timers[t].aim) == Ref(t)))
  }

  ghost predicate Live(p: Pool, s: SendId) {
    exists e :: e in p.eps && Holds(p.eps[e], s)
  }

  /** The node of an endpoint and its life so far; while the connection is under way the send
      has not been refused. */
  predicate NodeOk(p: Pool, x: Ep)
    requires x.txns != []
  {
    var n := x.txns[0];
    && n.send < p.nextSend && Open(Life(p.log, n.send), n)
    && (x.status == Connecting && n.status == NodeInit ==> Life(p.log, n.send) == [])
  }

  ghost predicate SendOk(p: Pool, s: SendId) {
    && (s >= p.nextSend ==> Life(p.log, s) == [])
    && (!Live(p, s) ==> Settled(Life(p.log, s), s))
  }

  ghost predicate Sends(p: Pool) {
    && (forall e :: e in p.eps && p.eps[e].txns != [] ==> NodeOk(p, p.eps[e]))
    && (forall s :: SendOk(p, s))
    && (forall e1, e2, s :: e1 in p.eps && e2 in p.eps && Holds(p.eps[e1], s) && Holds(p.eps[e2], s) ==> e1 == e2)
  }

  ghost predicate Once(s: seq<EpId>) { forall i, j :: 0 <= i < j < |s| ==> s[i] != s[j] }

  /** The index lists exactly the live endpoints, each once, under its key; outside teardown
      the count is their number and within the limit. */
  ghost predicate Indexed(p: Pool) {
    && (forall k :: Once(ListOf(p, k)))
    && (forall k, e :: e in ListOf(p, k) <==> e in p.eps && p.eps[e].key == k)
  }

  ghost predicate Counted(p: Pool) { !p.closing ==> p.nep == |p.eps.Keys| }

  /** What every small step keeps. */
  ghost predicate Sound(p: Pool) {
    Shaped(p) && Timed(p) && Sends(p) && Indexed(p) && Counted(p)
  }

  /** Every send was answered. */
  ghost predicate Answered(p: Pool) { forall s :: 0 <= s < p.nextSend ==> Life(p.log, s) != [] }

  lemma LifeAppend(log: seq<Obs>, more: seq<Obs>, s: SendId)
    ensures Life(log + more, s) == Life(log, s) + Life(more, s)
  {
    FilterAppend(log, more, About(s));
  }

  // ----- small steps that keep the nodes -----

  predicate SameNode(x: Ep, y: Ep) {
    && x.key == y.key && |x.txns| == |y.txns|
    && (x.txns != [] ==> x.txns[0].send == y.txns[0].send)
  }

  /** The record of one endpoint changes, but not its node. */
  predicate Retouched(p: Pool, q: Pool, e: EpId) {
    && e in p.eps && e in q.eps && q.eps == p.eps[e := q.eps[e]] && SameNode(p.eps[e], q.eps[e])
    && q.index == p.index && q.nep == p.nep && q.log == p.log && q.nextSend == p.nextSend && q.closing == p.closing
    && q.nextEp == p.nextEp
  }

  lemma TouchedIndex(p: Pool, q: Pool, e: EpId)
    requires Indexed(p) && Counted(p) && Retouched(p, q, e)
    ensures Indexed(q) && Counted(q)
  {
    assert q.eps.Keys == p.eps.Keys;
    assert forall k :: ListOf(q, k) == ListOf(p, k);
  }

  lemma TouchedSends(p: Pool, q: Pool, e: EpId)
    requires Sends(p) && Retouched(p, q, e) && (q.eps[e].txns != [] ==> NodeOk(q, q.eps[e]))
    ensures Sends(q)
  {
    forall d | d in q.eps && q.eps[d].txns != [] ensures NodeOk(q, q.eps[d]) {
      if d != e { assert NodeOk(p, p.eps[d]); }
    }
    assert forall d, s :: d in q.eps ==> Holds(q.eps[d], s) == Holds(p.eps[d], s);
    forall s ensures SendOk(q, s) {
      assert SendOk(p, s);
      if Live(p, s) {
        var d :| d in p.eps && Holds(p.eps[d], s);
        assert d in q.eps && Holds(q.eps[d], s);
      }
    }
  }

  /** Nodes, index and count are kept; only the timers remain to be looked at. */
  lemma Touched(p: Pool, q: Pool, e: EpId)
    requires Sound(p) && Retouched(p, q, e) && EpShape(q.eps[e]) && Timed(q)
    requires q.eps[e].txns != [] ==> NodeOk(q, q.eps[e])
    ensures Sound(q)
  {
    TouchedIndex(p, q, e);
    TouchedSends(p, q, e);
    assert Shaped(q);
  }

  lemma Dropped(p: Pool, q: Pool, aim: Aim)
    requires Timed(p) && q.nextTimer == p.nextTimer && q.timers == Cancel(p.timers, Held(p, aim))
    requires forall a :: Held(q, a) == if a == aim then Null else Held(p, a)
    ensures Timed(q)
  {
    forall t | t in q.timers ensures t < q.nextTimer && (q.timers[t].valid ==> Held(q, q.timers[t].aim) == Ref(t)) {
      assert t in p.timers;
    }
  }

  lemma Armed(p: Pool, q: Pool, aim: Aim)
    requires Timed(p) && Held(p, aim) == Null
    requires q.nextTimer == p.nextTimer + 1 && q.timers == p.timers[p.nextTimer := Timer(aim, true, false)]
    requires forall a :: Held(q, a) == if a == aim then Ref(p.nextTimer) else Held(p, a)
    ensures Timed(q)
  {
    forall t | t in q.timers ensures t < q.nextTimer && (q.timers[t].valid ==> Held(q, q.timers[t].aim) == Ref(t)) {
      if t != p.nextTimer { assert t in p.timers; }
    }
  }

  lemma DropConnTimed(p: Pool, e: EpId)
    requires Timed(p) && e in p.eps
    ensures Timed(DropConn(p, e))
  {
    Dropped(p, DropConn(p, e), ConnOf(e));
  }

  lemma DropConnSound(p: Pool, e: EpId)
    requires Sound(p) && e in p.eps
    ensures Sound(DropConn(p, e))
  {
    DropConnTimed(p, e);
    assert p.eps[e].txns != [] ==> NodeOk(p, p.eps[e]);
    Touched(p, DropConn(p, e), e);
  }

  lemma DropShutTimed(p: Pool, e: EpId)
    requires Timed(p) && e in p.eps
    ensures Timed(DropShut(p, e))
  {
    Dropped(p, DropShut(p, e), ShutOf(e));
  }

  lemma DropShutSound(p: Pool, e: EpId)
    requires Sound(p) && e in p.eps
    ensures Sound(DropShut(p, e))
  {
    DropShutTimed(p, e);
    assert p.eps[e].txns != [] ==> NodeOk(p, p.eps[e]);
    Touched(p, DropShut(p, e), e);
  }

  lemma DropRecvTimed(p: Pool, e: EpId)
    requires Timed(p) && e in p.eps && p.eps[e].txns != []
    ensures Timed(DropRecv(p, e))
  {
    Dropped(p, DropRecv(p, e), RecvOf(e, p.eps[e].txns[0].send));
  }

  lemma DropRecvSound(p: Pool, e: EpId)
    requires Sound(p) && e in p.eps && p.eps[e].txns != []
    ensures Sound(DropRecv(p, e))
  {
    DropRecvTimed(p, e);
    assert p.eps[e].txns != [] ==> NodeOk(p, p.eps[e]);
    Touched(p, DropRecv(p, e), e);
  }

  lemma ArmConnTimed(p: Pool, e: EpId)
    requires Timed(p) && e in p.eps && p.eps[e].conn == Null
    ensures Timed(ArmConn(p, e))
  {
    Armed(p, ArmConn(p, e), ConnOf(e));
  }

  lemma ArmConnSound(p: Pool, e: EpId)
    requires Sound(p) && e in p.eps && p.eps[e].conn == Null && p.eps[e].status == Connecting
    ensures Sound(ArmConn(p, e))
  {
    ArmConnTimed(p, e);
    assert p.eps[e].txns != [] ==> NodeOk(p, p.eps[e]);
    Touched(p, ArmConn(p, e), e);
  }

  lemma ArmRecvTimed(p: Pool, e: EpId)
    requires Timed(p) && e in p.eps && p.eps[e].txns != [] && p.eps[e].txns[0].recv == Null
    ensures Timed(ArmRecv(p, e))
  {
    Armed(p, ArmRecv(p, e), RecvOf(e, p.eps[e].txns[0].send));
  }

  lemma ArmRecvSound(p: Pool, e: EpId)
    requires Sound(p) && e in p.eps && p.eps[e].txns != [] && p.eps[e].txns[0].recv == Null
    requires p.eps[e].txns[0].status == NodeSent
    ensures Sound(ArmRecv(p, e))
  {
    ArmRecvTimed(p, e);
    assert p.eps[e].txns != [] ==> NodeOk(p, p.eps[e]);
    Touched(p, ArmRecv(p, e), e);
  }

  lemma ArmShutTimed(p: Pool, e: EpId)
    requires Timed(p) && e in p.eps && p.eps[e].shut == Null
    ensures Timed(SetEp(NewTimer(p, ShutOf(e)), e, p.eps[e].(shut := Ref(p.nextTimer))))
  {
    Armed(p, SetEp(NewTimer(p, ShutOf(e)), e, p.eps[e].(shut := Ref(p.nextTimer))), ShutOf(e));
  }

  lemma ArmShutSound(p: Pool, e: EpId)
    requires Sound(p) && e in p.eps
    ensures Sound(ArmShut(p, e))
  {
    var q := ArmShut(p, e);
    if q != p {
      var d := DropShut(p, e);
      DropShutSound(p, e);
      ArmShutTimed(d, e);
      assert d.eps[e].txns != [] ==> NodeOk(d, d.eps[e]);
      Touched(d, q, e);
    }
  }

  lemma SameTimed(p: Pool, q: Pool)
    requires Timed(p) && q.timers == p.timers && q.nextTimer == p.nextTimer && forall a :: Held(q, a) == Held(p, a)
    ensures Timed(q)
  {
  }

  lemma SetStatusSound(p: Pool, e: EpId, st: EpStatus)
    requires Sound(p) && e in p.eps && (p.eps[e].conn.Ref? ==> st == Connecting)
    requires st == Connecting && p.eps[e].txns != [] ==>
      p.eps[e].txns[0].status == NodeInit && Life(p.log, p.eps[e].txns[0].send) == []
    ensures Sound(SetStatus(p, e, st))
  {
    var q := SetStatus(p, e, st);
    SameTimed(p, q);
    assert p.eps[e].txns != [] ==> NodeOk(p, p.eps[e]);
    Touched(p, q, e);
  }

  // ----- small steps on nodes and endpoints -----

  /** The log of one send grows; the others' do not. */
  lemma LogGrows(log: seq<Obs>, more: seq<Obs>, s: SendId)
    requires forall o :: o in more ==> o.send == s
    ensures forall x :: Life(log + more, x) == Life(log, x) + if x == s then more else []
  {
    forall x ensures Life(log + more, x) == Life(log, x) + if x == s then more else [] {
      LifeAppend(log, more, x);
      AllAbout(more, s, x);
    }
  }

  lemma {:induction false} AllAbout(more: seq<Obs>, s: SendId, x: SendId)
    requires forall o :: o in more ==> o.send == s
    ensures Life(more, x) == if x == s then more else []
  {
    if more != [] { AllAbout(more[1..], s, x); }
  }

  /** The node of send `s` leaves the pool, its life settled. */
  lemma NodeGone(p: Pool, q: Pool, e: EpId, s: SendId)
    requires Sends(p) && e in p.eps && e in q.eps && Holds(p.eps[e], s)
    requires q.eps == p.eps[e := q.eps[e]] && q.eps[e].txns == [] && q.nextSend == p.nextSend
    requires forall x :: x != s ==> Life(q.log, x) == Life(p.log, x)
    requires Settled(Life(q.log, s), s)
    ensures Sends(q)
  {
    assert NodeOk(p, p.eps[e]);
    forall d | d in q.eps && q.eps[d].txns != [] ensures NodeOk(q, q.eps[d]) {
      assert d != e && NodeOk(p, p.eps[d]);
      assert Holds(p.eps[d], p.eps[d].txns[0].send);
    }
    forall x ensures SendOk(q, x) {
      assert SendOk(p, x);
      if x != s && Live(p, x) {
        var d :| d in p.eps && Holds(p.eps[d], x);
        assert d in q.eps && Holds(q.eps[d], x);
      }
    }
    assert forall d, x :: d in q.eps && Holds(q.eps[d], x) ==> Holds(p.eps[d], x);
  }

  /** When a node may be ended this way. */
  predicate MayEnd(p: Pool, n: Node, tell: Notice, release: bool) {
    && (tell.Notice? ==> release) && (n.status != NodeInit ==> release)
    && (release ==> Life(p.log, n.send) != [])
    && (n.status != NodeInit ==> Life(p.log, n.send) != [])
  }

  lemma SettledBy(l: seq<Obs>, n: Node, tell: Notice, release: bool)
    requires Open(l, n) && (tell.Notice? ==> release) && (release ==> l != [])
    requires n.status != NodeInit ==> release && l != []
    ensures Settled(l + Said(n, tell, release), n.send)
  {
    if l != [] {
      if tell.Notice? {
        var c := CalledBack(n.send, tell.ret);
        assert [l[0]] + ([c] + [Released(n.send)]) == [l[0], c, Released(n.send)];
      }
      assert [l[0]] + ([] + [Released(n.send)]) == [l[0], Released(n.send)];
    }
  }

  lemma EndNodeSends(p: Pool, e: EpId, tell: Notice, release: bool)
    requires Sends(p) && Shaped(p) && e in p.eps && p.eps[e].txns != [] && MayEnd(p, p.eps[e].txns[0], tell, release)
    ensures Sends(EndNode(p, e, tell, release))
  {
    var q := EndNode(p, e, tell, release);
    var n := p.eps[e].txns[0];
    assert NodeOk(p, p.eps[e]) && EpShape(p.eps[e]);
    var more := Said(n, tell, release);
    LogGrows(p.log, more, n.send);
    SettledBy(Life(p.log, n.send), n, tell, release);
    NodeGone(p, q, e, n.send);
  }

  lemma EndNodeTimed(p: Pool, e: EpId, tell: Notice, release: bool)
    requires Timed(p) && Shaped(p) && e in p.eps && p.eps[e].txns != []
    ensures Timed(EndNode(p, e, tell, release))
  {
    var q := EndNode(p, e, tell, release);
    assert EpShape(p.eps[e]);
    DropRecvTimed(p, e);
    SameTimed(DropRecv(p, e), q);
  }

  lemma SameIndex(p: Pool, q: Pool)
    requires Indexed(p) && Counted(p) && q.index == p.index && q.nep == p.nep && q.closing == p.closing
    requires q.eps.Keys == p.eps.Keys && forall e :: e in p.eps ==> q.eps[e].key == p.eps[e].key
    ensures Indexed(q) && Counted(q)
  {
    assert forall k :: ListOf(q, k) == ListOf(p, k);
  }

  lemma EndNodeSound(p: Pool, e: EpId, tell: Notice, release: bool)
    requires Sound(p) && e in p.eps && p.eps[e].txns != [] && MayEnd(p, p.eps[e].txns[0], tell, release)
    ensures Sound(EndNode(p, e, tell, release))
  {
    EndNodeSends(p, e, tell, release);
    EndNodeTimed(p, e, tell, release);
    EndNodeIndex(p, e, tell, release);
  }

  lemma EndNodeIndex(p: Pool, e: EpId, tell: Notice, release: bool)
    requires Indexed(p) && Counted(p) && Shaped(p) && e in p.eps && p.eps[e].txns != []
    ensures var q := EndNode(p, e, tell, release); Indexed(q) && Counted(q) && Shaped(q)
  {
    SameIndex(p, EndNode(p, e, tell, release));
    assert EpShape(p.eps[e]);
  }

  lemma AddNodeSends(p: Pool, e: EpId, h: Handler)
    requires Sends(p) && e in p.eps && p.eps[e].txns == []
    ensures Sends(AddNode(p, e, h))
  {
    var q := AddNode(p, e, h);
    assert SendOk(p, p.nextSend);
    forall d | d in q.eps && q.eps[d].txns != [] ensures NodeOk(q, q.eps[d]) {
      if d != e { assert NodeOk(p, p.eps[d]); }
    }
    forall d, x | d in q.eps && Holds(q.eps[d], x) ensures if x == p.nextSend then d == e else Holds(p.eps[d], x) {
      if d != e { assert NodeOk(p, p.eps[d]); }
    }
    forall x ensures SendOk(q, x) {
      assert SendOk(p, x);
      if Live(p, x) {
        var d :| d in p.eps && Holds(p.eps[d], x);
        assert d in q.eps && Holds(q.eps[d], x);
      }
    }
  }

  lemma AddNodeSound(p: Pool, e: EpId, h: Handler)
    requires Sound(p) && e in p.eps && p.eps[e].txns == []
    ensures Sound(AddNode(p, e, h))
  {
    AddNodeSends(p, e, h);
    AddNodeTimed(p, e, h);
    AddNodeIndex(p, e, h);
  }

  lemma AddNodeTimed(p: Pool, e: EpId, h: Handler)
    requires Timed(p) && e in p.eps && p.eps[e].txns == []
    ensures Timed(AddNode(p, e, h))
  {
    SameTimed(p, AddNode(p, e, h));
  }

  lemma AddNodeIndex(p: Pool, e: EpId, h: Handler)
    requires Indexed(p) && Counted(p) && Shaped(p) && e in p.eps && p.eps[e].txns == []
    ensures Indexed(AddNode(p, e, h)) && Counted(AddNode(p, e, h)) && Shaped(AddNode(p, e, h))
  {
    SameIndex(p, AddNode(p, e, h));
    assert EpShape(p.eps[e]);
  }

  lemma CreateEpSends(p: Pool, h: Handler)
    requires Sends(p) && Shaped(p)
    ensures Sends(CreateEp(p, h))
  {
    var q := CreateEp(p, h);
    assert p.nextEp !in p.eps;
    forall d | d in q.eps && q.eps[d].txns != [] ensures NodeOk(q, q.eps[d]) {
      assert NodeOk(p, p.eps[d]);
    }
    forall x ensures SendOk(q, x) {
      assert SendOk(p, x);
      if Live(p, x) {
        var d :| d in p.eps && Holds(p.eps[d], x);
        assert d in q.eps && Holds(q.eps[d], x);
      }
    }
    assert forall d, x :: d in q.eps && Holds(q.eps[d], x) ==> d in p.eps && Holds(p.eps[d], x);
  }

  lemma CreateEpIndex(p: Pool, h: Handler)
    requires Indexed(p) && Counted(p) && Shaped(p)
    ensures Indexed(CreateEp(p, h)) && Counted(CreateEp(p, h))
  {
    var q := CreateEp(p, h);
    assert p.nextEp !in p.eps;
    assert q.eps.Keys == p.eps.Keys + {p.nextEp};
    forall k ensures Once(ListOf(q, k)) && forall e :: e in ListOf(q, k) <==> e in q.eps && q.eps[e].key == k {
      CreateEpList(p, h, k);
    }
  }

  lemma CreateEpList(p: Pool, h: Handler, k: Key)
    requires p.nextEp !in p.eps && Once(ListOf(p, k))
    requires forall e :: e in ListOf(p, k) <==> e in p.eps && p.eps[e].key == k
    ensures var q := CreateEp(p, h);
      Once(ListOf(q, k)) && forall e :: e in ListOf(q, k) <==> e in q.eps && q.eps[e].key == k
  {
    assert p.nextEp !in ListOf(p, k);
  }

  lemma CreateEpSound(p: Pool, h: Handler)
    requires Sound(p)
    ensures Sound(CreateEp(p, h))
  {
    CreateEpSends(p, h);
    CreateEpIndex(p, h);
    CreateEpTimed(p, h);
    assert Shaped(CreateEp(p, h));
  }

  lemma CreateEpTimed(p: Pool, h: Handler)
    requires Timed(p) && Shaped(p)
    ensures Timed(CreateEp(p, h))
  {
    assert p.nextEp !in p.eps;
    SameTimed(p, CreateEp(p, h));
  }

  lemma {:induction false} WithoutOnce(s: seq<EpId>, e: EpId)
    requires Once(s)
    ensures Once(Without(s, e)) && forall x :: x in Without(s, e) <==> x in s && x != e
  {
    FilterMembers(s, x => x != e);
    if s != [] {
      var tail := s[1..];
      assert Once(tail);
      WithoutOnce(tail, e);
      assert Without(s, e) == (if s[0] != e then [s[0]] else []) + Without(tail, e);
      assert s[0] !in tail;
    }
  }

  lemma UnlistedIndex(p: Pool, e: EpId)
    requires Indexed(p) && e in p.eps
    ensures Indexed(Unlisted(p, e)) && |Unlisted(p, e).eps.Keys| == |p.eps.Keys| - 1
  {
    var q := Unlisted(p, e);
    assert q.eps.Keys == p.eps.Keys - {e};
    forall k ensures Once(ListOf(q, k)) && forall d :: d in ListOf(q, k) <==> d in q.eps && q.eps[d].key == k {
      assert Once(ListOf(p, k));
      WithoutOnce(ListOf(p, k), e);
    }
  }

  lemma UnlistedSends(p: Pool, e: EpId)
    requires Sends(p) && e in p.eps && p.eps[e].txns == []
    ensures Sends(Unlisted(p, e))
  {
    var q := Unlisted(p, e);
    forall d | d in q.eps && q.eps[d].txns != [] ensures NodeOk(q, q.eps[d]) {
      assert NodeOk(p, p.eps[d]);
    }
    forall x ensures SendOk(q, x) {
      assert SendOk(p, x);
      if Live(p, x) {
        var d :| d in p.eps && Holds(p.eps[d], x);
        assert d in q.eps && Holds(q.eps[d], x);
      }
    }
    assert forall d, x :: d in q.eps && Holds(q.eps[d], x) ==> Holds(p.eps[d], x);
  }

  lemma UnlistedTimed(p: Pool, e: EpId)
    requires Timed(p) && e in p.eps && p.eps[e].txns == [] && p.eps[e].conn == Null && p.eps[e].shut == Null
    ensures Timed(Unlisted(p, e))
  {
    SameTimed(p, Unlisted(p, e));
  }

  // ----- larger steps -----

  /** The step kept the invariant and only added to the log. */
  ghost predicate Kept(p: Pool, q: Pool) {
    Sound(q) && p.log <= q.log && q.nextSend == p.nextSend && q.closing == p.closing && q.max == p.max
    && q.nep <= p.nep
  }

  lemma StillAnswered(p: Pool, q: Pool)
    requires Answered(p) && p.log <= q.log && q.nextSend == p.nextSend
    ensures Answered(q)
  {
    assert q.log == p.log + q.log[|p.log|..];
    forall s | 0 <= s < q.nextSend ensures Life(q.log, s) != [] {
      LifeAppend(p.log, q.log[|p.log|..], s);
    }
  }

  lemma AnsweredNode(p: Pool, e: EpId)
    requires Sound(p) && Answered(p) && e in p.eps && p.eps[e].txns != []
    ensures Life(p.log, p.eps[e].txns[0].send) != []
  {
    assert NodeOk(p, p.eps[e]);
  }

  lemma {:induction false} ReleaseAllSound(p: Pool, e: EpId)
    requires Sound(p) && e in p.eps && (p.eps[e].txns != [] ==> Answered(p))
    ensures var q := ReleaseAll(p, e);
      Kept(p, q) && e in q.eps && q.eps[e].conn == p.eps[e].conn && q.eps[e].shut == p.eps[e].shut && q.nep == p.nep
      && q.eps.Keys == p.eps.Keys
    decreases |p.eps[e].txns|
  {
    if p.eps[e].txns != [] {
      AnsweredNode(p, e);
      EndNodeSound(p, e, NoNotice, true);
      StillAnswered(p, EndNode(p, e, NoNotice, true));
      ReleaseAllSound(EndNode(p, e, NoNotice, true), e);
    }
  }

  /** Both endpoint timers are cancelled; nothing else changes. */
  lemma Disarmed(p: Pool, e: EpId)
    requires Sound(p) && e in p.eps
    ensures var q := DropShut(DropConn(p, e), e);
      && Sound(q) && q.eps.Keys == p.eps.Keys && q.eps[e].txns == p.eps[e].txns
      && q.eps[e].conn == Null && q.eps[e].shut == Null
      && q == p.(eps := q.eps, timers := q.timers)
  {
    DropConnSound(p, e);
    DropShutSound(DropConn(p, e), e);
  }

  /** Everything but the count, which the caller adjusts. */
  ghost predicate Destroyed(p: Pool, q: Pool) {
    && Shaped(q) && Timed(q) && Sends(q) && Indexed(q)
    && p.log <= q.log && q.nextSend == p.nextSend && q.closing == p.closing && q.max == p.max && q.nep == p.nep
    && |q.eps.Keys| == |p.eps.Keys| - 1
  }

  lemma UnlistedDestroyed(p: Pool, e: EpId)
    requires Sound(p) && e in p.eps && p.eps[e].txns == [] && p.eps[e].conn == Null && p.eps[e].shut == Null
    ensures Destroyed(p, Unlisted(p, e))
  {
    UnlistedIndex(p, e);
    UnlistedSends(p, e);
    UnlistedTimed(p, e);
    assert Shaped(Unlisted(p, e));
  }

  lemma DestroyEpSound(p: Pool, e: EpId)
    requires Sound(p) && e in p.eps && (p.eps[e].txns != [] ==> Answered(p))
    ensures Destroyed(p, DestroyEp(p, e))
  {
    Disarmed(p, e);
    var p2 := DropShut(DropConn(p, e), e);
    if p.eps[e].txns != [] { StillAnswered(p, p2); }
    ReleaseAllSound(p2, e);
    UnlistedDestroyed(ReleaseAll(p2, e), e);
  }

  lemma SoundCount(p: Pool, n: int)
    requires Shaped(p) && Timed(p) && Sends(p) && Indexed(p) && (!p.closing ==> n == |p.eps.Keys|)
    ensures Sound(p.(nep := n))
  {
    var q := p.(nep := n);
    SameTimed(p, q);
    SameSends(p, q);
    assert forall k :: ListOf(q, k) == ListOf(p, k);
  }

  lemma SameSends(p: Pool, q: Pool)
    requires Sends(p) && q.eps == p.eps && q.log == p.log && q.nextSend == p.nextSend
    ensures Sends(q)
  {
    forall d | d in q.eps && q.eps[d].txns != [] ensures NodeOk(q, q.eps[d]) {
      assert NodeOk(p, p.eps[d]);
    }
    forall x ensures SendOk(q, x) {
      assert SendOk(p, x);
      if Live(p, x) {
        var d :| d in p.eps && Holds(p.eps[d], x);
        assert d in q.eps && Holds(q.eps[d], x);
      }
    }
  }

  lemma DelEpSound(p: Pool, e: EpId)
    requires Sound(p) && e in p.eps && (p.eps[e].txns != [] ==> Answered(p))
    ensures Kept(p, DelEp(p, e))
  {
    DestroyEpSound(p, e);
    SoundCount(DestroyEp(p, e), p.nep - 1);
  }

  lemma {:induction false} FailAllSound(p: Pool, e: EpId)
    requires Sound(p) && Answered(p) && e in p.eps
    ensures Kept(p, FailAll(p, e)) && e in FailAll(p, e).eps
    decreases |p.eps[e].txns|
  {
    if p.eps[e].txns != [] {
      var told := p.eps[e].txns[0].status != NodeInit;
      AnsweredNode(p, e);
      EndNodeSound(p, e, FailNotice(p.eps[e].txns[0]), told);
      StillAnswered(p, EndNode(p, e, FailNotice(p.eps[e].txns[0]), told));
      FailAllSound(EndNode(p, e, FailNotice(p.eps[e].txns[0]), told), e);
    }
  }

  lemma HandleErrorSound(p: Pool, e: EpId)
    requires Sound(p) && Answered(p) && e in p.eps
    ensures Kept(p, HandleError(p, e))
  {
    FailAllSound(p, e);
    DelEpSound(FailAll(p, e), e);
  }

  lemma ArmShutFrame(p: Pool, e: EpId)
    requires e in p.eps
    ensures var q := ArmShut(p, e);
      && q == p.(eps := q.eps, timers := q.timers, nextTimer := q.nextTimer) && q.eps.Keys == p.eps.Keys
      && q.eps[e] == p.eps[e].(shut := q.eps[e].shut) && forall d :: d in p.eps && d != e ==> q.eps[d] == p.eps[d]
  {
  }

  lemma HandleOkSound(p: Pool, e: EpId)
    requires Sound(p) && Answered(p) && e in p.eps && p.eps[e].txns != []
    ensures Kept(p, HandleOk(p, e))
  {
    AnsweredNode(p, e);
    DropRecvSound(p, e);
    var p1 := DropRecv(p, e);
    ArmShutSound(p1, e);
    ArmShutFrame(p1, e);
    EndNodeSound(ArmShut(p1, e), e, Notice(EpOk), true);
  }

  lemma MarkNodeSound(p: Pool, e: EpId, st: NodeStatus)
    requires Sound(p) && e in p.eps && p.eps[e].txns != [] && st != NodeInit && p.eps[e].txns[0].recv == Null
    requires Life(p.log, p.eps[e].txns[0].send) == [] || p.eps[e].txns[0].status != NodeInit
    requires st == NodeSent ==> p.eps[e].status != Connecting
    ensures Kept(p, MarkNode(p, e, st))
  {
    var q := MarkNode(p, e, st);
    SameTimed(p, q);
    assert NodeOk(p, p.eps[e]) && EpShape(p.eps[e]);
    Touched(p, q, e);
  }

  /** What writing a request leaves alone. */
  lemma TransmitFrame(p: Pool, e: EpId, writeOk: bool)
    requires e in p.eps && p.eps[e].txns != []
    ensures var q := Transmit(p, e, writeOk);
      && q == p.(eps := q.eps, timers := q.timers, nextTimer := q.nextTimer) && q.eps.Keys == p.eps.Keys
      && q.eps[e].txns != [] && q.eps[e].txns[0].send == p.eps[e].txns[0].send
      && q.eps[e].txns[0].handler == p.eps[e].txns[0].handler
      && q.eps[e].txns[0].status == (if writeOk then NodeSent else p.eps[e].txns[0].status)
      && q.eps[e].status == p.eps[e].status
      && forall d :: d in p.eps && d != e ==> q.eps[d] == p.eps[d]
  {
    if writeOk { ArmShutFrame(MarkNode(p, e, NodeSent), e); }
  }

  lemma TransmitSound(p: Pool, e: EpId, writeOk: bool)
    requires Sound(p) && e in p.eps && p.eps[e].txns != [] && p.eps[e].txns[0].recv == Null
    requires Life(p.log, p.eps[e].txns[0].send) == [] || p.eps[e].txns[0].status != NodeInit
    requires p.eps[e].status != Connecting
    ensures Sound(Transmit(p, e, writeOk))
  {
    if writeOk {
      MarkNodeSound(p, e, NodeSent);
      SentSound(MarkNode(p, e, NodeSent), e);
    }
  }

  /** The timers of a request just written. */
  lemma SentSound(p: Pool, e: EpId)
    requires Sound(p) && e in p.eps && p.eps[e].txns != [] && p.eps[e].txns[0].recv == Null
    requires p.eps[e].txns[0].status == NodeSent
    ensures Sound(ArmShut(p, e)) && e in ArmShut(p, e).eps && ArmShut(p, e).eps[e].txns != []
    ensures Sound(ArmRecv(ArmShut(p, e), e))
  {
    ArmShutSound(p, e);
    ArmShutFrame(p, e);
    ArmRecvSound(ArmShut(p, e), e);
  }

  lemma AnswerSends(p: Pool, s: SendId, ok: bool)
    requires Sends(p) && s < p.nextSend && Life(p.log, s) == []
    requires forall e :: e in p.eps && Holds(p.eps[e], s) ==>
      ok == (p.eps[e].txns[0].status != NodeInit) && (!ok ==> p.eps[e].status != Connecting)
    requires ok ==> Live(p, s)
    ensures Sends(Answer(p, s, ok))
  {
    var q := Answer(p, s, ok);
    LogGrows(p.log, [Returned(s, ok)], s);
    forall d | d in q.eps && q.eps[d].txns != [] ensures NodeOk(q, q.eps[d]) {
      assert NodeOk(p, p.eps[d]);
      assert Holds(p.eps[d], p.eps[d].txns[0].send);
    }
    forall x ensures SendOk(q, x) {
      assert SendOk(p, x);
      if Live(p, x) {
        var d :| d in p.eps && Holds(p.eps[d], x);
        assert d in q.eps && Holds(q.eps[d], x);
      }
    }
  }

  lemma AnswerSound(p: Pool, s: SendId, ok: bool)
    requires Sound(p) && s < p.nextSend && Life(p.log, s) == []
    requires forall e :: e in p.eps && Holds(p.eps[e], s) ==>
      ok == (p.eps[e].txns[0].status != NodeInit) && (!ok ==> p.eps[e].status != Connecting)
    requires ok ==> Live(p, s)
    ensures Kept(p, Answer(p, s, ok)) && Life(Answer(p, s, ok).log, s) != []
  {
    AnswerSends(p, s, ok);
    LogGrows(p.log, [Returned(s, ok)], s);
    SameIndex(p, Answer(p, s, ok));
    SameTimed(p, Answer(p, s, ok));
  }

  // ----- sends -----

  lemma AnswerLast(p: Pool, s: SendId, ok: bool)
    requires Sound(p) && s + 1 == p.nextSend && Life(p.log, s) == []
    requires forall x :: 0 <= x < s ==> Life(p.log, x) != []
    requires forall e :: e in p.eps && Holds(p.eps[e], s) ==>
      ok == (p.eps[e].txns[0].status != NodeInit) && (!ok ==> p.eps[e].status != Connecting)
    requires ok ==> Live(p, s)
    ensures Sound(Answer(p, s, ok)) && Answered(Answer(p, s, ok))
  {
    AnswerSound(p, s, ok);
    LogGrows(p.log, [Returned(s, ok)], s);
  }

  lemma FreshSend(p: Pool)
    requires Sound(p)
    ensures Life(p.log, p.nextSend) == [] && !Live(p, p.nextSend)
  {
    assert SendOk(p, p.nextSend);
    assert forall e :: e in p.eps && p.eps[e].txns != [] ==> NodeOk(p, p.eps[e]);
  }

  /** A new node is the only one of its send. */
  lemma OnlyHolder(p: Pool, e: EpId, s: SendId)
    requires Sends(p) && e in p.eps && Holds(p.eps[e], s)
    ensures forall d :: d in p.eps && Holds(p.eps[d], s) ==> d == e
  {
  }

  lemma TransmitAnswered(p: Pool, e: EpId, writeOk: bool)
    requires Sound(p) && e in p.eps && p.eps[e].txns != [] && p.eps[e].txns[0].recv == Null
    requires p.eps[e].txns[0].status == NodeInit && p.eps[e].txns[0].send + 1 == p.nextSend
    requires p.eps[e].status != Connecting
    requires Life(p.log, p.eps[e].txns[0].send) == []
    requires forall x :: 0 <= x < p.nextSend - 1 ==> Life(p.log, x) != []
    ensures var q := Answer(Transmit(p, e, writeOk), p.nextSend - 1, writeOk);
      Sound(q) && Answered(q) && q.nep == p.nep && q.max == p.max
  {
    var s := p.nextSend - 1;
    TransmitSound(p, e, writeOk);
    TransmitFrame(p, e, writeOk);
    var q := Transmit(p, e, writeOk);
    assert Holds(q.eps[e], s);
    OnlyHolder(q, e, s);
    AnswerLast(q, s, writeOk);
  }

  lemma SendOnSound(p: Pool, e: EpId, h: Handler, writeOk: bool)
    requires Sound(p) && Answered(p) && e in p.eps && p.eps[e].txns == [] && p.eps[e].status == Connected
    ensures var q := SendOn(p, e, h, writeOk); Sound(q) && Answered(q) && q.nep == p.nep && q.max == p.max
  {
    FreshSend(p);
    AddNodeSound(p, e, h);
    TransmitAnswered(AddNode(p, e, h), e, writeOk);
  }

  lemma {:induction false} ReleaseAllFrame(p: Pool, e: EpId)
    requires e in p.eps
    ensures forall d :: d in ReleaseAll(p, e).eps && d != e ==> d in p.eps && ReleaseAll(p, e).eps[d] == p.eps[d]
    decreases |p.eps[e].txns|
  {
    if p.eps[e].txns != [] { ReleaseAllFrame(EndNode(p, e, NoNotice, true), e); }
  }

  lemma DelEpFrame(p: Pool, e: EpId)
    requires e in p.eps
    ensures var q := DelEp(p, e); e !in q.eps && forall d :: d in q.eps ==> d in p.eps && q.eps[d] == p.eps[d]
  {
    ReleaseAllFrame(DropShut(DropConn(p, e), e), e);
  }

  /** Endpoint `e` carries the node of the newest send, which has no answer yet. */
  ghost predicate Unanswered(p: Pool, e: EpId, s: SendId) {
    && Sound(p) && p.nep <= p.max && e in p.eps && Holds(p.eps[e], s)
    && p.eps[e].txns[0].status == NodeInit && p.eps[e].txns[0].recv == Null
    && s + 1 == p.nextSend && Life(p.log, s) == []
    && forall x :: 0 <= x < s ==> Life(p.log, x) != []
  }

  /** A connection given up leaves no trace of the send. */
  lemma UndoSound(p: Pool, e: EpId, s: SendId)
    requires Unanswered(p, e, s)
    ensures PoolInv(Answer(Undo(p, e), s, false))
  {
    EndNodeSound(p, e, NoNotice, false);
    var p1 := EndNode(p, e, NoNotice, false);
    assert p1.log == p.log;
    assert p1.eps[e].txns == [] by { assert EpShape(p.eps[e]); }
    DelEpSound(p1, e);
    DelEpFrame(p1, e);
    OnlyHolder(p, e, s);
    var q := DelEp(p1, e);
    assert q.log == p.log by { ReleaseNone(DropShut(DropConn(p1, e), e), e); }
    AnswerLast(q, s, false);
  }

  lemma ReleaseNone(p: Pool, e: EpId)
    requires e in p.eps && p.eps[e].txns == []
    ensures ReleaseAll(p, e) == p
  {
  }

  /** A new endpoint with the node of a new send. */
  lemma Created(p: Pool, h: Handler)
    requires PoolInv(p) && p.nep < p.max
    ensures var q := AddNode(CreateEp(p, h), p.nextEp, h);
      Unanswered(q, p.nextEp, p.nextSend) && q.eps[p.nextEp].conn == Null
  {
    FreshSend(p);
    CreateEpSound(p, h);
    AddNodeSound(CreateEp(p, h), p.nextEp, h);
  }

  lemma StatusUnanswered(p: Pool, e: EpId, s: SendId, st: EpStatus)
    requires Unanswered(p, e, s) && p.eps[e].conn == Null
    ensures SetStatus(p, e, st).eps[e].conn == Null
    ensures Unanswered(SetStatus(p, e, st), e, s)
  {
    SetStatusSound(p, e, st);
  }

  lemma PendingAnswered(p: Pool, e: EpId, s: SendId)
    requires Unanswered(p, e, s)
    ensures PoolInv(Answer(MarkNode(p, e, NodePending), s, true))
  {
    MarkNodeSound(p, e, NodePending);
    var q := MarkNode(p, e, NodePending);
    assert Holds(q.eps[e], s);
    OnlyHolder(q, e, s);
    AnswerLast(q, s, true);
  }

  /** The connection is under way, or could not be registered. */
  lemma AwaitConnectSound(p: Pool, e: EpId, s: SendId, registered: bool)
    requires Unanswered(p, e, s) && p.eps[e].conn == Null && p.eps[e].status == Connecting
    ensures PoolInv(AwaitConnect(p, e, s, registered))
  {
    ArmConnSound(p, e);
    var p1 := if p.eps[e].txns[0].handler.timeout > 0 then ArmConn(p, e) else p;
    assert Unanswered(p1, e, s);
    if registered {
      PendingAnswered(p1, e, s);
    } else {
      UndoSound(p1, e, s);
    }
  }

  lemma ConnectSound(p: Pool, e: EpId, s: SendId, late: bool, dial: Dial, writeOk: bool)
    requires Unanswered(p, e, s) && p.eps[e].conn == Null
    ensures PoolInv(Connect(p, e, s, late, dial, writeOk))
  {
    StatusUnanswered(p, e, s, Connecting);
    StatusUnanswered(p, e, s, Connected);
    if late {
      UndoSound(p, e, s);
    } else {
      match dial
      case DialFailed => UndoSound(SetStatus(p, e, Connecting), e, s);
      case DialDone => TransmitAnswered(SetStatus(p, e, Connected), e, writeOk);
      case DialAsync(registered) => AwaitConnectSound(SetStatus(p, e, Connecting), e, s, registered);
    }
  }

  lemma SendNewSound(p: Pool, h: Handler, late: bool, dial: Dial, writeOk: bool)
    requires PoolInv(p) && p.nep < p.max
    ensures PoolInv(SendNew(p, h, late, dial, writeOk))
  {
    Created(p, h);
    ConnectSound(AddNode(CreateEp(p, h), p.nextEp, h), p.nextEp, p.nextSend, late, dial, writeOk);
  }

  ghost predicate PoolInv(p: Pool) {
    Sound(p) && Answered(p) && p.nep <= p.max
  }

  lemma RejectSound(p: Pool)
    requires PoolInv(p)
    ensures PoolInv(Answer(p, p.nextSend, false).(nextSend := p.nextSend + 1))
  {
    var q := p.(nextSend := p.nextSend + 1);
    FreshSend(p);
    SkipSound(p);
    assert forall e :: e in q.eps ==> !Holds(q.eps[e], p.nextSend);
    AnswerLast(q, p.nextSend, false);
  }

  /** A send that never got a node. */
  lemma SkipSound(p: Pool)
    requires Sound(p)
    ensures Sound(p.(nextSend := p.nextSend + 1))
  {
    var q := p.(nextSend := p.nextSend + 1);
    SameTimed(p, q);
    SameIndex(p, q);
    SkipSends(p);
    assert Shaped(q);
  }

  lemma SkipSends(p: Pool)
    requires Sends(p)
    ensures Sends(p.(nextSend := p.nextSend + 1))
  {
    var q := p.(nextSend := p.nextSend + 1);
    forall d | d in q.eps && q.eps[d].txns != [] ensures NodeOk(q, q.eps[d]) {
      assert NodeOk(p, p.eps[d]);
    }
    forall x ensures SendOk(q, x) {
      assert SendOk(p, x);
      if Live(p, x) {
        var d :| d in p.eps && Holds(p.eps[d], x);
        assert d in q.eps && Holds(q.eps[d], x);
      }
    }
  }

  lemma SendInv(p: Pool, h: Handler, badArgs: bool, late: bool, dial: Dial, writeOk: bool)
    requires PoolInv(p)
    ensures PoolInv(Send(p, h, badArgs, late, dial, writeOk))
  {
    if Rejects(p, h, badArgs) {
      RejectSound(p);
    } else {
      var r := FindEp(p, ListOf(p, h.key), h);
      if r.Ref? {
        SendOnSound(p, r.id, h, writeOk);
      } else {
        SendNewSound(p, h, late, dial, writeOk);
      }
    }
  }

  // ----- every step, every run -----

  /** A connection under way carries an accepted send. */
  lemma WaitingNode(p: Pool, e: EpId)
    requires PoolInv(p) && e in p.eps && p.eps[e].status == Connecting && p.eps[e].txns != []
    ensures p.eps[e].txns[0].status == NodePending && p.eps[e].txns[0].recv == Null
  {
    assert NodeOk(p, p.eps[e]) && EpShape(p.eps[e]);
  }

  lemma OnConnectInv(p: Pool, e: EpId, ok: bool, writeOk: bool)
    requires PoolInv(p) && e in p.eps && p.eps[e].status == Connecting
    ensures PoolInv(OnConnect(p, e, ok, writeOk))
  {
    if !ok {
      HandleErrorSound(p, e);
      StillAnswered(p, HandleError(p, e));
    } else {
      if p.eps[e].txns != [] { WaitingNode(p, e); }
      DropConnSound(p, e);
      ConnectedSound(DropConn(p, e), e, writeOk);
      StillAnswered(p, OnConnect(p, e, ok, writeOk));
    }
  }

  lemma ConnectedSound(p: Pool, e: EpId, writeOk: bool)
    requires Sound(p) && e in p.eps && p.eps[e].conn == Null
    requires p.eps[e].txns != [] ==> p.eps[e].txns[0].status == NodePending && p.eps[e].txns[0].recv == Null
    ensures var q := SetStatus(p, e, Connected);
      Kept(p, if q.eps[e].txns == [] then q else Transmit(q, e, writeOk))
  {
    SetStatusSound(p, e, Connected);
    var q := SetStatus(p, e, Connected);
    if q.eps[e].txns != [] {
      TransmitSound(q, e, writeOk);
      TransmitFrame(q, e, writeOk);
    }
  }

  lemma OnReadInv(p: Pool, e: EpId, u: Unpack)
    requires PoolInv(p) && e in p.eps
    ensures PoolInv(OnRead(p, e, u))
  {
    if OnRead(p, e, u) != p {
      if u == Malformed {
        HandleErrorSound(p, e);
      } else {
        HandleOkSound(p, e);
      }
      StillAnswered(p, OnRead(p, e, u));
    }
  }

  lemma FreeSound(p: Pool, t: TimerId)
    requires Sound(p) && (t in p.timers ==> !p.timers[t].valid)
    ensures Sound(FreeTimer(p, t))
  {
    var q := FreeTimer(p, t);
    SameSends(p, q);
    SameIndex(p, q);
    FreeTimed(p, t);
  }

  lemma FreeTimed(p: Pool, t: TimerId)
    requires Timed(p) && (t in p.timers ==> !p.timers[t].valid)
    ensures Timed(FreeTimer(p, t))
  {
    var q := FreeTimer(p, t);
    assert forall a :: Held(q, a) == Held(p, a);
  }

  /** Timer safety: a valid timer that runs finds its target, a connect timer finds its
      endpoint still connecting, and the step keeps the invariant. */
  lemma RunTimerInv(p: Pool, t: TimerId)
    requires PoolInv(p) && t in p.timers
    ensures RunTimer(p, t).Ran? && PoolInv(RunTimer(p, t).pool)
  {
    var tm := p.timers[t];
    if !tm.valid {
      FreeSound(p, t);
      StillAnswered(p, FreeTimer(p, t));
    } else {
      assert Held(p, tm.aim) == Ref(t);
      match tm.aim
      case RecvOf(e, s) => RecvRuns(p, t, e, s);
      case ConnOf(e) =>
        assert EpShape(p.eps[e]);
        ConnRuns(p, t, e);
      case ShutOf(e) => ShutRuns(p, t, e);
    }
  }

  lemma RecvRuns(p: Pool, t: TimerId, e: EpId, s: SendId)
    requires PoolInv(p) && e in p.eps && Holds(p.eps[e], s) && p.eps[e].txns[0].recv == Ref(t)
    ensures PoolInv(FreeTimer(EndNode(DropRecv(p, e), e, Notice(EpTimeout), true), t))
  {
    DropRecvSound(p, e);
    var q := DropRecv(p, e);
    AnsweredNode(p, e);
    EndNodeSound(q, e, Notice(EpTimeout), true);
    var r := EndNode(q, e, Notice(EpTimeout), true);
    assert r.timers == q.timers;
    FreeSound(r, t);
    StillAnswered(p, FreeTimer(r, t));
  }

  lemma {:induction false} FailAllTimers(p: Pool, e: EpId, t: TimerId)
    requires e in p.eps && (t in p.timers ==> !p.timers[t].valid)
    ensures t in FailAll(p, e).timers ==> !FailAll(p, e).timers[t].valid
    decreases |p.eps[e].txns|
  {
    if p.eps[e].txns != [] {
      var told := p.eps[e].txns[0].status != NodeInit;
      FailAllTimers(EndNode(p, e, FailNotice(p.eps[e].txns[0]), told), e, t);
    }
  }

  lemma {:induction false} ReleaseAllTimers(p: Pool, e: EpId, t: TimerId)
    requires e in p.eps && (t in p.timers ==> !p.timers[t].valid)
    ensures t in ReleaseAll(p, e).timers ==> !ReleaseAll(p, e).timers[t].valid
    decreases |p.eps[e].txns|
  {
    if p.eps[e].txns != [] { ReleaseAllTimers(EndNode(p, e, NoNotice, true), e, t); }
  }

  /** Handling an error revives no timer. */
  lemma ErrorTimers(p: Pool, e: EpId, t: TimerId)
    requires e in p.eps && (t in p.timers ==> !p.timers[t].valid)
    ensures t in HandleError(p, e).timers ==> !HandleError(p, e).timers[t].valid
  {
    FailAllTimers(p, e, t);
    ReleaseAllTimers(DropShut(DropConn(FailAll(p, e), e), e), e, t);
  }

  lemma ErrorThenFree(p: Pool, e: EpId, t: TimerId)
    requires PoolInv(p) && e in p.eps && (t in p.timers ==> !p.timers[t].valid)
    ensures PoolInv(FreeTimer(HandleError(p, e), t))
  {
    HandleErrorSound(p, e);
    ErrorTimers(p, e, t);
    var r := HandleError(p, e);
    FreeSound(r, t);
    StillAnswered(p, FreeTimer(r, t));
  }

  lemma ConnRuns(p: Pool, t: TimerId, e: EpId)
    requires PoolInv(p) && e in p.eps && p.eps[e].conn == Ref(t)
    ensures PoolInv(FreeTimer(HandleError(DropConn(p, e), e), t))
  {
    DropConnSound(p, e);
    StillAnswered(p, DropConn(p, e));
    ErrorThenFree(DropConn(p, e), e, t);
  }

  lemma ShutRuns(p: Pool, t: TimerId, e: EpId)
    requires PoolInv(p) && e in p.eps && p.eps[e].shut == Ref(t)
    ensures PoolInv(FreeTimer(HandleError(DropShut(p, e), e), t))
  {
    DropShutSound(p, e);
    StillAnswered(p, DropShut(p, e));
    ErrorThenFree(DropShut(p, e), e, t);
  }

  lemma TriggerInv(p: Pool, t: TimerId)
    requires PoolInv(p) && t in p.timers
    ensures PoolInv(p.(timers := p.timers[t := p.timers[t].(triggered := true)]))
  {
    var q := p.(timers := p.timers[t := p.timers[t].(triggered := true)]);
    SameSends(p, q);
    SameIndex(p, q);
    assert forall a :: Held(q, a) == Held(p, a);
    assert Timed(q);
  }

  lemma TeardownInv(p: Pool, e: EpId)
    requires PoolInv(p) && e in p.eps
    ensures PoolInv(DestroyEp(p.(closing := true), e))
  {
    var q := p.(closing := true);
    ClosingSound(p);
    DestroyEpSound(q, e);
    StillAnswered(q, DestroyEp(q, e));
  }

  lemma ClosingSound(p: Pool)
    requires Sound(p)
    ensures Sound(p.(closing := true))
  {
    var q := p.(closing := true);
    SameSends(p, q);
    SameTimed(p, q);
    ClosingIndex(p);
    assert Shaped(q) && Counted(q);
  }

  lemma ClosingIndex(p: Pool)
    requires Indexed(p)
    ensures Indexed(p.(closing := true))
  {
    assert forall k :: ListOf(p.(closing := true), k) == ListOf(p, k);
  }

  /** No step fails, and every step keeps the invariant. */
  lemma StepInv(p: Pool, step: Step)
    requires PoolInv(p) && Enabled(p, step)
    ensures Apply(p, step).Ran? && PoolInv(Apply(p, step).pool)
  {
    match step
    case DoSend(h, bad, late, dial, w) => SendInv(p, h, bad, late, dial, w);
    case DoConnect(e, ok, w) => OnConnectInv(p, e, ok, w);
    case DoRead(e, u) => OnReadInv(p, e, u);
    case DoError(e) =>
      HandleErrorSound(p, e);
      StillAnswered(p, HandleError(p, e));
    case Trigger(t) => TriggerInv(p, t);
    case Fire(t) => RunTimerInv(p, t);
    case Teardown(e) => TeardownInv(p, e);
  }

  lemma StepMax(p: Pool, step: Step)
    requires Enabled(p, step) && Apply(p, step).Ran?
    ensures Apply(p, step).pool.max == p.max
  {
  }

  lemma InitialPool(max: nat)
    ensures PoolInv(NewPool(max))
  {
    var p := NewPool(max);
    assert forall s :: Life(p.log, s) == [];
    assert Sends(p) && Timed(p) && Indexed(p);
  }

  lemma {:induction false} RunPoolInv(trace: seq<Pool>, steps: seq<Step>, max: nat, n: nat)
    requires IsPoolRun(trace, steps, max) && n < |trace|
    ensures PoolInv(trace[n]) && trace[n].max == max
  {
    if n == 0 {
      InitialPool(max);
    } else {
      RunPoolInv(trace, steps, max, n - 1);
      assert PoolStep(trace[n - 1], steps[n - 1], trace[n]);
      StepInv(trace[n - 1], steps[n - 1]);
      StepMax(trace[n - 1], steps[n - 1]);
    }
  }
}
