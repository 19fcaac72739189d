/** What a task queue promises over any history of pushes, pulls and state changes. */
module QueueHistory {
  import opened Seqs
  import opened QueueSpec

  datatype Op<T> = Put(elem: Elem<T>) | Take(n: nat) | Mark(state: QState)

  /** A queue with its past: the accepted elements in order of arrival, and the pulls in
      order, each with the state and the reads it found. */
  datatype Trip<T> = Trip(state: QState, readsQueued: nat, batch: seq<Elem<T>>)
  datatype Past<T> = Past(queue: Queue<T>, arrived: seq<Elem<T>>, trips: seq<Trip<T>>)

  /** Operations the queue answers; every other one aborts. */
  predicate Allowed<T>(q: Queue<T>, op: Op<T>) {
    match op
    case Put(e) => Accepts(q.mode, e.kind)
    case Take(n) => n > 0 && q.Pullable()
    case Mark(s) => if q.mode.ExclusiveMode? then s == Idle || s == Lock else s != Lock
  }

  function IsKind<T>(k: Kind): Elem<T> -> bool { (e: Elem<T>) => e.kind == k }

  function Apply<T>(h: Past<T>, op: Op<T>): Past<T>
    requires h.queue.Valid() && Allowed(h.queue, op)
  {
    var q := h.queue;
    match op
    case Put(e) => if q.Full(e.kind) then h else h.(queue := Push(q, e), arrived := h.arrived + [e])
    case Take(n) =>
      var (q1, batch) := Pull(q, n);
      h.(queue := q1, trips := h.trips + [Trip(q.state, |Filter(q.Pending(), IsKind(Read))|, batch)])
    case Mark(s) => h.(queue := q.(state := s))
  }

  /** `h` is what the operations `ops` make of a new queue. */
  ghost predicate Reached<T(!new)>(mode: Mode, slots: nat, ops: seq<Op<T>>, h: Past<T>)
    requires slots > 0
    decreases |ops|
  {
    if ops == [] then h == Past(Create(mode, slots), [], [])
    else
      exists g: Past<T> ::
        && Reached(mode, slots, ops[..|ops| - 1], g)
        && g.queue.Valid() && Allowed(g.queue, ops[|ops| - 1])
        && h == Apply(g, ops[|ops| - 1])
  }

  /** Everything handed out, in order. */
  function Handed<T>(trips: seq<Trip<T>>): seq<Elem<T>> {
    if trips == [] then [] else Handed(trips[..|trips| - 1]) + trips[|trips| - 1].batch
  }

  /** What one pull may hand out. */
  ghost predicate TripOk<T>(mode: Mode, t: Trip<T>) {
    && Compatible(t.batch)
    && (!mode.ExclusiveMode? && (exists e :: e in t.batch && e.kind == Write) ==> t.state == Idle)
    && (mode.PreferRead? && (exists e :: e in t.batch && e.kind == Write) ==> t.readsQueued == 0)
    && (!mode.ExclusiveMode? && t.state == Writing ==> t.batch == [])
  }

  /** Per buffer: what was handed out, then what is queued, is what arrived, in order. */
  ghost predicate InOrder<T>(h: Past<T>) {
    match h.queue.store
    case Single(mq) => Handed(h.trips) + mq == h.arrived
    case Split(rmq, wmq) =>
      && Filter(Handed(h.trips), IsKind(Read)) + rmq == Filter(h.arrived, IsKind(Read))
      && Filter(Handed(h.trips), IsKind(Write)) + wmq == Filter(h.arrived, IsKind(Write))
  }

  ghost predicate PastOk<T>(mode: Mode, h: Past<T>) {
    && h.queue.Valid() && h.queue.mode == mode
    && InOrder(h)
    && forall i :: 0 <= i < |h.trips| ==> TripOk(mode, h.trips[i])
  }

  lemma {:induction false} FilterAll<T>(s: seq<Elem<T>>, k: Kind, other: Kind)
    requires k != other && forall e :: e in s ==> e.kind == k
    ensures Filter(s, IsKind(k)) == s && Filter(s, IsKind(other)) == []
  {
    if s != [] { FilterAll(s[1..], k, other); }
  }

  lemma HandedOne<T>(trips: seq<Trip<T>>, t: Trip<T>)
    ensures Handed(trips + [t]) == Handed(trips) + t.batch
  {
    assert (trips + [t])[..|trips|] == trips;
  }

  lemma PutKeeps<T>(mode: Mode, h: Past<T>, e: Elem<T>)
    requires PastOk(mode, h) && Accepts(mode, e.kind)
    ensures PastOk(mode, Apply(h, Put(e)))
  {
    if !h.queue.Full(e.kind) {
      match h.queue.store
      case Single(mq) => Regroup(Handed(h.trips), mq, [e]);
      case Split(rmq, wmq) => PutLanes(Handed(h.trips), h.arrived, h.queue, e);
    }
  }

  /** A pushed element joins the end of its own lane and no other. */
  lemma PutLanes<T>(gone: seq<Elem<T>>, arrived: seq<Elem<T>>, q: Queue<T>, e: Elem<T>)
    requires q.store.Split? && e.kind in {Read, Write}
    requires forall k :: k in {Read, Write} ==> Filter(gone, IsKind(k)) + q.Target(k) == Filter(arrived, IsKind(k))
    ensures forall k :: k in {Read, Write} ==>
      Filter(gone, IsKind(k)) + (q.Target(k) + if k == e.kind then [e] else []) == Filter(arrived + [e], IsKind(k))
  {
    forall k | k in {Read, Write}
      ensures Filter(gone, IsKind(k)) + (q.Target(k) + if k == e.kind then [e] else [])
           == Filter(arrived + [e], IsKind(k))
    {
      FilterAppend(arrived, [e], IsKind(k));
      FilterAll([e], e.kind, if e.kind == Read then Write else Read);
      Regroup(Filter(gone, IsKind(k)), q.Target(k), if k == e.kind then [e] else []);
    }
  }

  lemma SingleTake<T>(q: Queue<T>, n: nat)
    requires q.Valid() && q.Pullable() && n > 0 && q.store.Single?
    ensures Pull(q, n).0.store == Single(q.store.mq[|Pull(q, n).1|..])
    ensures Pull(q, n).1 <= q.store.mq
  {
  }

  /** The kind a prefer-read queue hands out. */
  function TakenKind<T>(q: Queue<T>, n: nat): Kind
    requires q.Valid() && q.Pullable() && n > 0
  {
    if Granted(q, n).FromWrites? then Write else Read
  }

  lemma SplitTake<T>(q: Queue<T>, n: nat)
    requires q.Valid() && q.Pullable() && n > 0 && q.store.Split?
    ensures var (k, c) := (TakenKind(q, n), |Pull(q, n).1|);
      && Pull(q, n).1 <= q.Target(k)
      && Pull(q, n).0.store == if k == Write then Split(q.store.rmq, q.store.wmq[c..])
                               else Split(q.store.rmq[c..], q.store.wmq)
  {
  }

  /** The lane of one kind in a prefer-read queue stays in order when it hands out a prefix. */
  lemma LaneInOrder<T>(
    was: seq<Elem<T>>, batch: seq<Elem<T>>, lane: seq<Elem<T>>, arrived: seq<Elem<T>>, k: Kind, other: Kind)
    requires k != other && batch <= lane && forall e :: e in lane ==> e.kind == k
    requires Filter(was, IsKind(k)) + lane == Filter(arrived, IsKind(k))
    ensures Filter(was + batch, IsKind(k)) + lane[|batch|..] == Filter(arrived, IsKind(k))
    ensures Filter(was + batch, IsKind(other)) == Filter(was, IsKind(other))
  {
    var rest := lane[|batch|..];
    assert lane == batch + rest;
    FilterAll(batch, k, other);
    assert Filter(was + batch, IsKind(k)) == Filter(was, IsKind(k)) + batch by { FilterAppend(was, batch, IsKind(k)); }
    assert Filter(was + batch, IsKind(other)) == Filter(was, IsKind(other)) by {
      FilterAppend(was, batch, IsKind(other));
    }
    Regroup(Filter(was, IsKind(k)), batch, rest);
  }

  lemma TakeInOrder<T>(mode: Mode, h: Past<T>, n: nat)
    requires PastOk(mode, h) && n > 0 && h.queue.Pullable()
    ensures InOrder(Apply(h, Take(n)))
  {
    var batch := Pull(h.queue, n).1;
    HandedOne(h.trips, Trip(h.queue.state, |Filter(h.queue.Pending(), IsKind(Read))|, batch));
    match h.queue.store
    case Single(mq) => SingleInOrder(h, n);
    case Split(rmq, wmq) => SplitInOrder(h, n);
  }

  lemma SingleInOrder<T>(h: Past<T>, n: nat)
    requires h.queue.Valid() && h.queue.Pullable() && n > 0 && h.queue.store.Single?
    requires Handed(h.trips) + h.queue.store.mq == h.arrived
    ensures var (q, batch) := Pull(h.queue, n);
      q.store.Single? && (Handed(h.trips) + batch) + q.store.mq == h.arrived
  {
    var batch := Pull(h.queue, n).1;
    var mq := h.queue.store.mq;
    SingleTake(h.queue, n);
    assert mq == batch + mq[|batch|..];
    Regroup(Handed(h.trips), batch, mq[|batch|..]);
  }

  lemma SplitInOrder<T>(h: Past<T>, n: nat)
    requires h.queue.Valid() && h.queue.Pullable() && n > 0 && h.queue.store.Split?
    requires forall k :: k in {Read, Write} ==>
      Filter(Handed(h.trips), IsKind(k)) + h.queue.Target(k) == Filter(h.arrived, IsKind(k))
    ensures var (q, batch) := Pull(h.queue, n);
      && q.store.Split?
      && Filter(Handed(h.trips) + batch, IsKind(Read)) + q.store.rmq == Filter(h.arrived, IsKind(Read))
      && Filter(Handed(h.trips) + batch, IsKind(Write)) + q.store.wmq == Filter(h.arrived, IsKind(Write))
  {
    var batch := Pull(h.queue, n).1;
    SplitTake(h.queue, n);
    if TakenKind(h.queue, n) == Write {
      LaneInOrder(Handed(h.trips), batch, h.queue.Target(Write), h.arrived, Write, Read);
    } else {
      LaneInOrder(Handed(h.trips), batch, h.queue.Target(Read), h.arrived, Read, Write);
    }
  }

  lemma TakeTripOk<T>(mode: Mode, h: Past<T>, n: nat)
    requires PastOk(mode, h) && n > 0 && h.queue.Pullable()
    ensures TripOk(mode, Apply(h, Take(n)).trips[|h.trips|])
  {
    var t := Apply(h, Take(n)).trips[|h.trips|];
    BatchCompatible(h.queue, n);
    if mode.PreferRead? && exists e :: e in t.batch && e.kind == Write {
      var rmq, wmq := h.queue.store.rmq, h.queue.store.wmq;
      assert Granted(h.queue, n).FromWrites?;
      assert rmq == [];
      FilterAll(wmq, Write, Read);
      FilterAppend(rmq, wmq, IsKind(Read));
    }
  }

  lemma ApplyKeeps<T>(mode: Mode, h: Past<T>, op: Op<T>)
    requires PastOk(mode, h) && Allowed(h.queue, op)
    ensures PastOk(mode, Apply(h, op))
  {
    match op
    case Put(e) => PutKeeps(mode, h, e);
    case Take(n) =>
      TakeInOrder(mode, h, n);
      TakeTripOk(mode, h, n);
    case Mark(s) =>
  }

  lemma {:induction false} PastKept<T(!new)>(mode: Mode, slots: nat, ops: seq<Op<T>>, h: Past<T>)
    requires slots > 0 && Reached(mode, slots, ops, h)
    ensures PastOk(mode, h)
    decreases |ops|
  {
    if ops != [] {
      var last := ops[|ops| - 1];
      var g: Past<T> :| && Reached(mode, slots, ops[..|ops| - 1], g)
        && g.queue.Valid() && Allowed(g.queue, last) && h == Apply(g, last);
      PastKept(mode, slots, ops[..|ops| - 1], g);
      ApplyKeeps(mode, g, last);
    }
  }

  /** Exclusive and prefer-write queues hand elements out in exact order of arrival: the
      i-th element out is the i-th that arrived, so no read overtakes an earlier write. */
  lemma ArrivalOrder<T(!new)>(mode: Mode, slots: nat, ops: seq<Op<T>>, h: Past<T>)
    requires slots > 0 && !mode.PreferRead? && Reached(mode, slots, ops, h)
    ensures Handed(h.trips) <= h.arrived
    ensures |h.arrived| == |Handed(h.trips)| + |h.queue.Pending()|
  {
    PastKept(mode, slots, ops, h);
  }

  /** A prefer-read queue keeps the order of arrival among reads and among writes. */
  lemma OrderPerKind<T(!new)>(slots: nat, ops: seq<Op<T>>, h: Past<T>, k: Kind)
    requires slots > 0 && Reached(PreferRead, slots, ops, h) && k != Exclusive
    ensures Filter(Handed(h.trips), IsKind(k)) <= Filter(h.arrived, IsKind(k))
  {
    PastKept(PreferRead, slots, ops, h);
  }

  /** Whatever the policy, every pulled batch is all reads or one element; a write leaves a
      read/write queue only when it is idle and, under prefer-read, with no read queued. */
  lemma BatchesNeverConflict<T(!new)>(mode: Mode, slots: nat, ops: seq<Op<T>>, h: Past<T>, i: nat)
    requires slots > 0 && Reached(mode, slots, ops, h) && i < |h.trips|
    ensures TripOk(mode, h.trips[i])
  {
    PastKept(mode, slots, ops, h);
  }
}
