/** The task queue's three policies, on values. */
module QueueSpec {
  import opened Seqs

  datatype Kind = Exclusive | Read | Write
  datatype Mode = ExclusiveMode | PreferRead | PreferWrite
  datatype QState = Init | Destroy | Idle | Lock | Reading | Writing

  /** Every element starts with its type; the rest is the caller's. */
  datatype Elem<T> = Elem(kind: Kind, body: T)

  /** Exclusive and prefer-write queues hold one buffer, prefer-read queues two. */
  datatype Store<T> = Single(mq: seq<Elem<T>>) | Split(rmq: seq<Elem<T>>, wmq: seq<Elem<T>>)

  datatype Queue<T> = Queue(mode: Mode, state: QState, maxSlots: nat, store: Store<T>)
  {
    predicate Valid() {
      && maxSlots > 0
      && (mode.PreferRead? <==> store.Split?)
      && match store
         case Single(mq) =>
           && |mq| <= maxSlots
           && (forall i :: 0 <= i < |mq| ==> Accepts(mode, mq[i].kind))
         case Split(rmq, wmq) =>
           && |rmq| <= maxSlots && |wmq| <= maxSlots
           && (forall i :: 0 <= i < |rmq| ==> rmq[i].kind == Read)
           && (forall i :: 0 <= i < |wmq| ==> wmq[i].kind == Write)
    }

    /** The states in which the policy answers a pull instead of aborting. */
    predicate Pullable() {
      mode.ExclusiveMode? || state in {Idle, Reading, Writing}
    }

    /** Everything queued, in no particular order between the two buffers. */
    function Pending(): seq<Elem<T>> {
      match store
      case Single(mq) => mq
      case Split(rmq, wmq) => rmq + wmq
    }

    /** The buffer an element of kind `k` goes to. */
    function Target(k: Kind): seq<Elem<T>> {
      match store
      case Single(mq) => mq
      case Split(rmq, wmq) => if k == Read then rmq else wmq
    }

    predicate Full(k: Kind) {
      |Target(k)| >= maxSlots
    }
  }

  predicate Accepts(mode: Mode, k: Kind) {
    if mode.ExclusiveMode? then k == Exclusive else k == Read || k == Write
  }

  function Create<T>(mode: Mode, maxSlots: nat): (q: Queue<T>)
    requires maxSlots > 0
    ensures q.Valid() && q.Pending() == [] && q.state == Idle
  {
    Queue(mode, Idle, maxSlots, if mode.PreferRead? then Split([], []) else Single([]))
  }

  /** A push that found room. */
  function Push<T>(q: Queue<T>, e: Elem<T>): (r: Queue<T>)
    requires q.Valid() && Accepts(q.mode, e.kind) && !q.Full(e.kind)
    ensures r.Valid() && r.mode == q.mode && r.state == q.state && r.maxSlots == q.maxSlots
  {
    match q.store
    case Single(mq) => q.(store := Single(mq + [e]))
    case Split(rmq, wmq) =>
      if e.kind == Read then q.(store := Split(rmq + [e], wmq))
      else q.(store := Split(rmq, wmq + [e]))
  }

  /** How many leading elements of `s`, at most `n`, have kind `k`. */
  function Leading<T>(s: seq<Elem<T>>, k: Kind, n: nat): (c: nat)
    ensures c <= |s| && c <= n
    ensures forall i :: 0 <= i < c ==> s[i].kind == k
    ensures c < n && c < |s| ==> s[c].kind != k
  {
    if n == 0 || s == [] || s[0].kind != k then 0 else 1 + Leading(s[1..], k, n - 1)
  }

  function Least(a: nat, b: nat): nat { if a < b then a else b }

  /** How many elements a pull of at most `n` hands out, and from which buffer. */
  datatype Grant = Nothing | FromSingle(count: nat) | FromReads(count: nat) | FromWrites(count: nat)

  function Granted<T>(q: Queue<T>, n: nat): Grant
    requires q.Valid() && q.Pullable() && n > 0
  {
    var m := Least(n, q.maxSlots);
    match q.store
    case Single(mq) =>
      if q.mode.ExclusiveMode? then
        if q.state == Lock || mq == [] then Nothing else FromSingle(1)
      else if q.state == Idle then
        if mq == [] then Nothing
        else if m == 1 || mq[0].kind == Write then FromSingle(1)
        else FromSingle(1 + Leading(mq[1..], Read, m - 1))
      else if q.state == Reading then FromSingle(Leading(mq, Read, m))
      else Nothing
    case Split(rmq, wmq) =>
      if q.state == Idle then
        if rmq != [] then FromReads(Leading(rmq, Read, m))
        else FromWrites(Leading(wmq, Write, 1))
      else if q.state == Reading then FromReads(Leading(rmq, Read, m))
      else Nothing
  }

  /** One pull: what is left, and the batch handed out. */
  function Pull<T>(q: Queue<T>, n: nat): (r: (Queue<T>, seq<Elem<T>>))
    requires q.Valid() && q.Pullable() && n > 0
    ensures r.0.Valid() && r.0.mode == q.mode && r.0.state == q.state && r.0.maxSlots == q.maxSlots
    ensures |r.1| + |r.0.Pending()| == |q.Pending()|
  {
    match Granted(q, n)
    case Nothing => (q, [])
    case FromSingle(c) => (q.(store := Single(q.store.mq[c..])), q.store.mq[..c])
    case FromReads(c) => (q.(store := Split(q.store.rmq[c..], q.store.wmq)), q.store.rmq[..c])
    case FromWrites(c) => (q.(store := Split(q.store.rmq, q.store.wmq[c..])), q.store.wmq[..c])
  }

  /** A batch handed to the service may run together. */
  ghost predicate Compatible<T>(batch: seq<Elem<T>>) {
    || (forall e :: e in batch ==> e.kind == Read)
    || (|batch| == 1 && batch[0].kind != Read)
  }

  lemma {:induction false} SumSplit<T>(s: seq<Elem<T>>, c: nat, w: Elem<T> -> int)
    requires c <= |s|
    ensures Sum(s, w) == Sum(s[..c], w) + Sum(s[c..], w)
  {
    assert s == s[..c] + s[c..];
    SumAppend(s[..c], s[c..], w);
  }

  /** A pull conserves the queued elements: every weight splits between batch and rest. */
  lemma {:induction false} PullConserves<T>(q: Queue<T>, n: nat, w: Elem<T> -> int)
    requires q.Valid() && q.Pullable() && n > 0
    ensures Sum(q.Pending(), w) == Sum(Pull(q, n).0.Pending(), w) + Sum(Pull(q, n).1, w)
  {
    match Granted(q, n)
    case Nothing =>
    case FromSingle(c) => SumSplit(q.store.mq, c, w);
    case FromReads(c) => SplitLanes(q.store.rmq, q.store.wmq, c, 0, w);
    case FromWrites(c) => SplitLanes(q.store.rmq, q.store.wmq, 0, c, w);
  }

  lemma {:induction false} SplitLanes<T>(r: seq<Elem<T>>, s: seq<Elem<T>>, c: nat, d: nat, w: Elem<T> -> int)
    requires c <= |r| && d <= |s|
    ensures Sum(r + s, w) == Sum(r[c..] + s[d..], w) + Sum(r[..c], w) + Sum(s[..d], w)
    ensures r[0..] == r && s[0..] == s && Sum(r[..0], w) == 0 && Sum(s[..0], w) == 0
  {
    SumSplit(r, c, w);
    SumSplit(s, d, w);
    SumAppend(r, s, w);
    SumAppend(r[c..], s[d..], w);
  }

  lemma {:induction false} PushAdds<T>(q: Queue<T>, e: Elem<T>, w: Elem<T> -> int)
    requires q.Valid() && Accepts(q.mode, e.kind) && !q.Full(e.kind)
    ensures Sum(Push(q, e).Pending(), w) == Sum(q.Pending(), w) + w(e)
  {
    SumOne(e, w);
    match q.store
    case Single(mq) => SumAppend(mq, [e], w);
    case Split(rmq, wmq) =>
      SumAppend(rmq, wmq, w);
      if e.kind == Read {
        SumAppend(rmq, [e], w);
        SumAppend(rmq + [e], wmq, w);
      } else {
        SumAppend(wmq, [e], w);
        SumAppend(rmq, wmq + [e], w);
      }
  }

  /** A batch is all reads, or a single write or exclusive element; its kind fits the state. */
  lemma {:induction false} BatchCompatible<T>(q: Queue<T>, n: nat)
    requires q.Valid() && q.Pullable() && n > 0
    ensures var b := Pull(q, n).1;
      && |b| <= n
      && Compatible(b)
      && (!q.mode.ExclusiveMode? && q.state == Reading ==> forall e :: e in b ==> e.kind == Read)
      && (!q.mode.ExclusiveMode? && q.state == Writing ==> b == [])
  {
    var b := Pull(q, n).1;
    match Granted(q, n)
    case Nothing =>
    case FromSingle(c) =>
      if !q.mode.ExclusiveMode? && c > 1 {
        forall i | 0 <= i < |b| ensures b[i].kind == Read {
          if i == 0 {
            assert b[0] in q.store.mq;
          } else {
            assert b[i] == q.store.mq[1..][i - 1];
          }
        }
      } else if c == 1 {
        assert b == [q.store.mq[0]];
      }
    case FromReads(c) =>
    case FromWrites(c) =>
      if c > 0 {
        assert b == [q.store.wmq[0]];
        assert b[0] in q.store.wmq;
      }
  }

  /** When a pull hands out nothing: the queue is empty, or the state blocks its head. */
  lemma {:induction false} PullNothing<T>(q: Queue<T>, n: nat)
    requires q.Valid() && q.Pullable() && n > 0 && !q.mode.ExclusiveMode?
    ensures Pull(q, n).1 == [] <==>
      || q.Pending() == []
      || q.state == Writing
      || (q.state == Reading && match q.store
                                case Single(mq) => mq[0].kind == Write
                                case Split(rmq, wmq) => rmq == [])
  {
    match q.store
    case Single(mq) =>
      if mq != [] { assert mq[0] in mq; }
    case Split(rmq, wmq) =>
      if rmq != [] { assert rmq[0] in rmq; }
      if wmq != [] { assert wmq[0] in wmq; }
  }

  /** A pull of reads stops only at its limit or where no read follows; any other batch is one
      element. */
  lemma PullMaximal<T>(q: Queue<T>, n: nat)
    requires q.Valid() && q.Pullable() && n > 0 && Pull(q, n).1 != []
    ensures var (rest, b) := Pull(q, n);
      if b[0].kind == Read then
        |b| < Least(n, q.maxSlots) ==> rest.Target(Read) == [] || rest.Target(Read)[0].kind != Read
      else |b| == 1
  {
    BatchCompatible(q, n);
    var (rest, b) := Pull(q, n);
    assert b[0] in b;
    match q.store
    case Single(mq) =>
      if q.mode.ExclusiveMode? { assert mq[0] in mq; }
    case Split(rmq, wmq) =>
      if wmq != [] { assert wmq[0] in wmq; }
  }
}
