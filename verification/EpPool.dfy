/** The endpoint pool: connections, the transaction each one carries, and three kinds of timer. */
module EpPool {
  import opened Seqs

  type EpId = nat
  type TimerId = nat
  type SendId = nat
  type Key = nat      // owner entity and address of an endpoint

  /** A timer pointer. */
  datatype Ref = Null | Ref(id: TimerId)

  datatype Handler = Handler(key: Key, flags: nat, timeout: nat, unpack: bool, hasCb: bool)

  datatype NodeStatus = NodeInit | NodePending | NodeSent
  datatype Node = Node(send: SendId, status: NodeStatus, recv: Ref, handler: Handler)

  datatype EpStatus = EpInit | Connecting | Connected
  datatype Ep = Ep(key: Key, flags: nat, status: EpStatus, txns: seq<Node>, ntxn: int, conn: Ref, shut: Ref)

  /** Whom a timer calls back. */
  datatype Aim = RecvOf(ep: EpId, send: SendId) | ConnOf(ep: EpId) | ShutOf(ep: EpId)

  /** Cancelling a timer only clears `valid`; it still triggers, runs and is freed then. */
  datatype Timer = Timer(aim: Aim, valid: bool, triggered: bool)

  /** What the owner of a send observes. */
  datatype Obs =
    | Returned(send: SendId, ok: bool)
    | CalledBack(send: SendId, ret: EpRet)
    | Released(send: SendId)

  /** What a callback is told. */
  datatype EpRet = EpOk | EpError | EpTimeout

  /** Whether the owner of a node is told how it ended. */
  datatype Notice = NoNotice | Notice(ret: EpRet)

  datatype Pool = Pool(
    eps: map<EpId, Ep>, index: map<Key, seq<EpId>>, nep: int, max: nat,
    timers: map<TimerId, Timer>, log: seq<Obs>,
    nextEp: EpId, nextTimer: TimerId, nextSend: SendId, closing: bool)

  function NewPool(max: nat): Pool {
    Pool(map[], map[], 0, max, map[], [], 0, 0, 0, false)
  }

  // ----- small steps -----

  function SetEp(p: Pool, e: EpId, x: Ep): Pool { p.(eps := p.eps[e := x]) }

  function Cancel(timers: map<TimerId, Timer>, r: Ref): map<TimerId, Timer> {
    if r.Ref? && r.id in timers then timers[r.id := timers[r.id].(valid := false)] else timers
  }

  function DropConn(p: Pool, e: EpId): Pool
    requires e in p.eps
  {
    SetEp(p, e, p.eps[e].(conn := Null)).(timers := Cancel(p.timers, p.eps[e].conn))
  }

  function DropShut(p: Pool, e: EpId): Pool
    requires e in p.eps
  {
    SetEp(p, e, p.eps[e].(shut := Null)).(timers := Cancel(p.timers, p.eps[e].shut))
  }

  function DropRecv(p: Pool, e: EpId): Pool
    requires e in p.eps && p.eps[e].txns != []
  {
    var n := p.eps[e].txns[0];
    SetEp(p, e, p.eps[e].(txns := p.eps[e].txns[0 := n.(recv := Null)])).(timers := Cancel(p.timers, n.recv))
  }

  function NewTimer(p: Pool, aim: Aim): Pool {
    p.(timers := p.timers[p.nextTimer := Timer(aim, true, false)], nextTimer := p.nextTimer + 1)
  }

  function ArmConn(p: Pool, e: EpId): Pool
    requires e in p.eps
  {
    SetEp(NewTimer(p, ConnOf(e)), e, p.eps[e].(conn := Ref(p.nextTimer)))
  }

  function ArmRecv(p: Pool, e: EpId): Pool
    requires e in p.eps && p.eps[e].txns != []
  {
    var n := p.eps[e].txns[0];
    SetEp(NewTimer(p, RecvOf(e, n.send)), e, p.eps[e].(txns := p.eps[e].txns[0 := n.(recv := Ref(p.nextTimer))]))
  }

  /** Refresh the shutdown timer, or replace one that has already triggered. */
  function ArmShut(p: Pool, e: EpId): Pool
    requires e in p.eps
  {
    var r := p.eps[e].shut;
    if r.Ref? && r.id in p.timers && !p.timers[r.id].triggered then p
    else
      var q := DropShut(p, e);
      SetEp(NewTimer(q, ShutOf(e)), e, q.eps[e].(shut := Ref(q.nextTimer)))
  }

  /** What the owner of a node observes when it ends. */
  function Said(n: Node, tell: Notice, release: bool): seq<Obs> {
    (if tell.Notice? && n.handler.hasCb then [CalledBack(n.send, tell.ret)] else []) +
    (if release then [Released(n.send)] else [])
  }

  /** Destroy the oldest node, after its callback if it is told, releasing the user's data. */
  function EndNode(p: Pool, e: EpId, tell: Notice, release: bool): Pool
    requires e in p.eps && p.eps[e].txns != []
  {
    var n := p.eps[e].txns[0];
    var q := DropRecv(p, e);
    SetEp(q, e, q.eps[e].(txns := q.eps[e].txns[1..], ntxn := q.eps[e].ntxn - 1)).(
      log := p.log + Said(n, tell, release))
  }

  function ListOf(p: Pool, k: Key): seq<EpId> { if k in p.index then p.index[k] else [] }

  /** The list without `e`, in the old order. */
  function Without(s: seq<EpId>, e: EpId): seq<EpId> { Filter(s, x => x != e) }

  /** Destroy an endpoint: its timers are cancelled, its nodes released. */
  function DestroyEp(p: Pool, e: EpId): (q: Pool)
    requires e in p.eps
    ensures q.max == p.max && q.nep == p.nep
  {
    Unlisted(ReleaseAll(DropShut(DropConn(p, e), e), e), e)
  }

  function ReleaseAll(p: Pool, e: EpId): (q: Pool)
    requires e in p.eps
    ensures e in q.eps && q.eps[e].txns == [] && q.max == p.max && q.nep == p.nep
    decreases |p.eps[e].txns|
  {
    if p.eps[e].txns == [] then p else ReleaseAll(EndNode(p, e, NoNotice, true), e)
  }

  function Unlisted(p: Pool, e: EpId): Pool
    requires e in p.eps
  {
    p.(eps := p.eps - {e}, index := p.index[p.eps[e].key := Without(ListOf(p, p.eps[e].key), e)])
  }

  /** Remove an endpoint from the index and the count, and destroy it. */
  function DelEp(p: Pool, e: EpId): (q: Pool)
    requires e in p.eps
    ensures q.max == p.max
  {
    DestroyEp(p, e).(nep := p.nep - 1)
  }

  // ----- events -----

  /** An error is told only to those whose send was accepted. */
  function FailNotice(n: Node): Notice { if n.status != NodeInit then Notice(EpError) else NoNotice }

  /** Tell every transaction that was accepted, release it, then delete the endpoint. A node
      whose send already failed is dropped without a word. */
  function FailAll(p: Pool, e: EpId): (q: Pool)
    requires e in p.eps
    ensures e in q.eps && q.eps[e].txns == [] && q.max == p.max
    decreases |p.eps[e].txns|
  {
    if p.eps[e].txns == [] then p
    else
      var told := p.eps[e].txns[0].status != NodeInit;
      FailAll(EndNode(p, e, FailNotice(p.eps[e].txns[0]), told), e)
  }

  function HandleError(p: Pool, e: EpId): (q: Pool)
    requires e in p.eps
    ensures q.max == p.max
  {
    DelEp(FailAll(p, e), e)
  }

  function HandleOk(p: Pool, e: EpId): (q: Pool)
    requires e in p.eps && p.eps[e].txns != []
    ensures q.max == p.max
  {
    EndNode(ArmShut(DropRecv(p, e), e), e, Notice(EpOk), true)
  }

  /** Write the request of the oldest node: the status and the answer to the sender. */
  function Transmit(p: Pool, e: EpId, writeOk: bool): (q: Pool)
    requires e in p.eps && p.eps[e].txns != []
    ensures q.max == p.max
  {
    var n := p.eps[e].txns[0];
    if !writeOk then p
    else
      var p1 := SetEp(p, e, p.eps[e].(txns := p.eps[e].txns[0 := n.(status := NodeSent)]));
      if n.handler.timeout > 0 then
        var p2 := ArmShut(p1, e);
        if n.handler.unpack then ArmRecv(p2, e) else p2
      else if !n.handler.unpack then ArmShut(p1, e)
      else p1
  }

  /** Outcomes of opening a connection. */
  datatype Dial = DialFailed | DialDone | DialAsync(registered: bool)

  predicate Usable(x: Ep, h: Handler) {
    h.flags == x.flags && x.status == Connected && x.txns == []
  }

  /** The first endpoint of the list that can carry a new transaction. */
  function FindEp(p: Pool, list: seq<EpId>, h: Handler): (r: Ref)
    ensures r.Ref? ==> r.id in list && r.id in p.eps && Usable(p.eps[r.id], h)
    ensures r.Null? ==> forall e :: e in list && e in p.eps ==> !Usable(p.eps[e], h)
  {
    if list == [] then Null
    else if list[0] in p.eps && Usable(p.eps[list[0]], h) then Ref(list[0])
    else FindEp(p, list[1..], h)
  }

  function AddNode(p: Pool, e: EpId, h: Handler): Pool
    requires e in p.eps
  {
    var x := p.eps[e];
    var n := Node(p.nextSend, NodeInit, Null, h);
    SetEp(p, e, x.(txns := x.txns + [n], ntxn := x.ntxn + 1)).(nextSend := p.nextSend + 1)
  }

  function CreateEp(p: Pool, h: Handler): Pool {
    p.(eps := p.eps[p.nextEp := Ep(h.key, 0, EpInit, [], 0, Null, Null)],
       index := p.index[h.key := ListOf(p, h.key) + [p.nextEp]],
       nep := p.nep + 1, nextEp := p.nextEp + 1)
  }

  function Answer(p: Pool, s: SendId, ok: bool): Pool { p.(log := p.log + [Returned(s, ok)]) }

  /** Give up a connection that could not be opened; the sender keeps its own data. */
  function Undo(p: Pool, e: EpId): (q: Pool)
    requires e in p.eps && p.eps[e].txns != []
    ensures q.max == p.max
  {
    DelEp(EndNode(p, e, NoNotice, false), e)
  }

  function SetStatus(p: Pool, e: EpId, st: EpStatus): Pool
    requires e in p.eps
  {
    SetEp(p, e, p.eps[e].(status := st))
  }

  function MarkNode(p: Pool, e: EpId, st: NodeStatus): Pool
    requires e in p.eps && p.eps[e].txns != []
  {
    var n := p.eps[e].txns[0];
    SetEp(p, e, p.eps[e].(txns := p.eps[e].txns[0 := n.(status := st)]))
  }

  /** Refused before the pool is touched. */
  predicate Rejects(p: Pool, h: Handler, badArgs: bool) {
    badArgs || (h.timeout > 0 && !h.unpack) || p.nep == p.max
  }

  /** A send on a connected endpoint that is free. */
  function SendOn(p: Pool, e: EpId, h: Handler, writeOk: bool): (q: Pool)
    requires e in p.eps && p.eps[e].txns == []
    ensures q.max == p.max
  {
    Answer(Transmit(AddNode(p, e, h), e, writeOk), p.nextSend, writeOk)
  }

  /** Connect a new endpoint and send, or leave the request pending until connected. */
  function Connect(p: Pool, e: EpId, s: SendId, late: bool, dial: Dial, writeOk: bool): (q: Pool)
    requires e in p.eps && p.eps[e].txns != []
    ensures q.max == p.max
  {
    if late then Answer(Undo(p, e), s, false)
    else
      match dial
      case DialFailed => Answer(Undo(SetStatus(p, e, Connecting), e), s, false)
      case DialDone => Answer(Transmit(SetStatus(p, e, Connected), e, writeOk), s, writeOk)
      case DialAsync(registered) => AwaitConnect(SetStatus(p, e, Connecting), e, s, registered)
  }

  function AwaitConnect(p: Pool, e: EpId, s: SendId, registered: bool): (q: Pool)
    requires e in p.eps && p.eps[e].txns != []
    ensures q.max == p.max
  {
    var p1 := if p.eps[e].txns[0].handler.timeout > 0 then ArmConn(p, e) else p;
    if registered then Answer(MarkNode(p1, e, NodePending), s, true) else Answer(Undo(p1, e), s, false)
  }

  /** A send on a new endpoint. */
  function SendNew(p: Pool, h: Handler, late: bool, dial: Dial, writeOk: bool): (q: Pool)
    ensures q.max == p.max
  {
    Connect(AddNode(CreateEp(p, h), p.nextEp, h), p.nextEp, p.nextSend, late, dial, writeOk)
  }

  function Send(p: Pool, h: Handler, badArgs: bool, late: bool, dial: Dial, writeOk: bool): (q: Pool)
    ensures q.max == p.max
  {
    if Rejects(p, h, badArgs) then Answer(p, p.nextSend, false).(nextSend := p.nextSend + 1)
    else
      var r := FindEp(p, ListOf(p, h.key), h);
      if r.Ref? then SendOn(p, r.id, h, writeOk)
      else SendNew(p, h, late, dial, writeOk)
  }

  /** The connection was established or failed. */
  function OnConnect(p: Pool, e: EpId, ok: bool, writeOk: bool): (q: Pool)
    requires e in p.eps
    ensures q.max == p.max
  {
    if !ok then HandleError(p, e)
    else
      var q := SetStatus(DropConn(p, e), e, Connected);
      if q.eps[e].txns == [] then q else Transmit(q, e, writeOk)
  }

  /** Data arrived and was offered to the transaction's unpack function. */
  datatype Unpack = NeedMore | Malformed | Complete

  function OnRead(p: Pool, e: EpId, u: Unpack): (q: Pool)
    requires e in p.eps
    ensures q.max == p.max
  {
    var x := p.eps[e];
    if x.txns == [] || !x.txns[0].handler.unpack || u == NeedMore then p
    else if u == Malformed then HandleError(p, e)
    else HandleOk(p, e)
  }

  datatype Ran = Crash | Ran(pool: Pool)

  function FreeTimer(p: Pool, t: TimerId): Pool { p.(timers := p.timers - {t}) }

  /** The callback of a triggered timer, then the timer is freed. An invalid timer does
      nothing. A valid one uses its target without asking whether it still exists. */
  function RunTimer(p: Pool, t: TimerId): (r: Ran)
    requires t in p.timers
    ensures r.Ran? ==> r.pool.max == p.max
  {
    var tm := p.timers[t];
    if !tm.valid then Ran(FreeTimer(p, t))
    else match tm.aim
      case RecvOf(e, s) =>
        if e !in p.eps || p.eps[e].txns == [] || p.eps[e].txns[0].send != s then Crash
        else Ran(FreeTimer(EndNode(DropRecv(p, e), e, Notice(EpTimeout), true), t))
      case ConnOf(e) =>
        if e !in p.eps || p.eps[e].status != Connecting then Crash
        else Ran(FreeTimer(HandleError(DropConn(p, e), e), t))
      case ShutOf(e) =>
        if e !in p.eps then Crash
        else Ran(FreeTimer(HandleError(DropShut(p, e), e), t))
  }

  // ----- runs -----

  datatype Step =
    | DoSend(handler: Handler, badArgs: bool, late: bool, dial: Dial, writeOk: bool)
    | DoConnect(ep: EpId, ok: bool, writeOk: bool)
    | DoRead(ep: EpId, unpack: Unpack)
    | DoError(ep: EpId)
    | Trigger(timer: TimerId)
    | Fire(timer: TimerId)
    | Teardown(ep: EpId)

  predicate Enabled(p: Pool, step: Step) {
    match step
    case DoSend(_, _, _, _, _) => !p.closing
    case DoConnect(e, _, _) => !p.closing && e in p.eps && p.eps[e].status == Connecting
    case DoRead(e, _) => !p.closing && e in p.eps && p.eps[e].status == Connected
    case DoError(e) => !p.closing && e in p.eps && p.eps[e].status == Connected
    case Trigger(t) => !p.closing && t in p.timers && !p.timers[t].triggered
    case Fire(t) => !p.closing && t in p.timers && p.timers[t].triggered
    case Teardown(e) => e in p.eps
  }

  function Apply(p: Pool, step: Step): Ran
    requires Enabled(p, step)
  {
    match step
    case DoSend(h, bad, late, dial, w) => Ran(Send(p, h, bad, late, dial, w))
    case DoConnect(e, ok, w) => Ran(OnConnect(p, e, ok, w))
    case DoRead(e, u) => Ran(OnRead(p, e, u))
    case DoError(e) => Ran(HandleError(p, e))
    case Trigger(t) => Ran(p.(timers := p.timers[t := p.timers[t].(triggered := true)]))
    case Fire(t) => RunTimer(p, t)
    case Teardown(e) => Ran(DestroyEp(p.(closing := true), e))
  }

  ghost predicate PoolStep(p: Pool, step: Step, q: Pool) {
    Enabled(p, step) && Apply(p, step) == Ran(q)
  }

  ghost predicate IsPoolRun(trace: seq<Pool>, steps: seq<Step>, max: nat) {
    && |trace| == |steps| + 1 && trace[0] == NewPool(max)
    && forall i :: 0 <= i < |steps| ==> PoolStep(trace[i], steps[i], trace[i + 1])
  }
}
