/** The task queue object: byte-sized buffers that grow by doubling, and the pull loops. */
module TaskQueueImpl {
  import opened Seqs
  import opened QueueSpec

  const WORD: nat := 0x1_0000_0000_0000_0000   // size_t arithmetic is modulo 2^64
  const HALF: nat := 0x8000_0000_0000_0000

  function Doubled(n: nat): nat { (2 * n) % WORD }
  function Minus(a: nat, b: nat): nat { (a - b) % WORD }

  /** A buffer of `size` bytes holding `items` of `elemSz` bytes each. The bytes of a full queue
      can be counted in a word; a buffer or an element that exists is smaller than 2^63 bytes. */
  predicate Fits(size: nat, items: nat, elemSz: nat, maxSlots: nat) {
    && 0 < elemSz < HALF && maxSlots > 0 && maxSlots * elemSz < WORD
    && items * elemSz <= size <= maxSlots * elemSz && size < HALF
  }

  lemma SlotArithmetic(items: nat, maxSlots: nat, elemSz: nat)
    requires elemSz > 0
    ensures items >= maxSlots ==> items * elemSz >= maxSlots * elemSz
    ensures items < maxSlots ==> (items + 1) * elemSz <= maxSlots * elemSz
    ensures (items + 1) * elemSz == items * elemSz + elemSz
  {
  }

  lemma FitsFewer(size: nat, items: nat, fewer: nat, elemSz: nat, maxSlots: nat)
    requires Fits(size, items, elemSz, maxSlots) && fewer <= items
    ensures Fits(size, fewer, elemSz, maxSlots)
  {
    SlotArithmetic(items, fewer, elemSz);
  }

  /** The size to grow to: doubled until `need` more bytes fit, then capped. The doubling
      and the subtraction wrap; below 2^63 bytes they are exact. */
  method GetNewSize(size: nat, used: nat, need: nat, cap: nat) returns (r: nat)
    requires used <= size <= cap < WORD && 0 < need <= cap && size < HALF && need < HALF
    requires used > 0 ==> size >= need
    ensures r == cap || r - used >= need
    ensures size <= r <= cap && (r <= 2 * size || r <= 2 * need)
    ensures r == size <==> size == cap
  {
    var n := if size != 0 then size else 1;
    ghost var first := true;
    while n > 0
      invariant first ==> n == if size != 0 then size else 1
      invariant !first ==> used == 0 && size < n < need
      decreases if first then WORD else HALF - n
    {
      n := Doubled(n);
      if Minus(n, used) >= need { break; }
      first := false;
    }
    r := if n > cap then cap else n;
  }

  /** From 2^63 bytes on the doubling wraps to nothing, and the engine's assertion on the new
      size fails. */
  lemma DoublingWraps()
    ensures Doubled(HALF) == 0
    ensures forall n: nat :: n < HALF ==> Doubled(n) == 2 * n
  {
  }

  lemma IdlePreferWrite<T>(q: Queue<T>, n: nat)
    requires q.Valid() && q.mode.PreferWrite? && q.state == Idle && 0 < n <= q.maxSlots && q.store.mq != []
    ensures var was := q.store.mq;
      var c := if n == 1 || was[0].kind == Write then 1 else 1 + Leading(was[1..], Read, n - 1);
      Pull(q, n) == (q.(store := Single(was[c..])), was[..c])
  {
  }

  /** What a prefer-read queue hands out: reads first, one write when idle without reads. */
  lemma PreferReadTakes<T>(q: Queue<T>, n: nat)
    requires q.Valid() && q.mode.PreferRead? && q.Pullable() && 0 < n <= q.maxSlots
    ensures Granted(q, n) == SplitGrant(q.state, q.store.rmq, q.store.wmq, n)
  {
    var rmq := q.store.rmq;
    if rmq != [] {
      assert rmq[0].kind == Read;
      assert Leading(rmq, Read, n) > 0;
    }
  }

  function SplitGrant<T>(state: QState, rmq: seq<Elem<T>>, wmq: seq<Elem<T>>, n: nat): Grant {
    if state == Idle && Leading(rmq, Read, n) == 0 then FromWrites(Leading(wmq, Write, 1))
    else if state == Idle || state == Reading then FromReads(Leading(rmq, Read, n))
    else Nothing
  }

  lemma Cut<T>(batch: seq<T>, rest: seq<T>, whole: seq<T>)
    requires batch + rest == whole
    ensures batch == whole[..|batch|] && rest == whole[|batch|..]
  {
  }

  lemma PullCapped<T>(q: Queue<T>, n: nat)
    requires q.Valid() && q.Pullable() && n > 0
    ensures Pull(q, Least(n, q.maxSlots)) == Pull(q, n)
    ensures q.mode.ExclusiveMode? ==> Pull(q, 1) == Pull(q, n)
  {
    assert Granted(q, Least(n, q.maxSlots)) == Granted(q, n);
  }

  datatype PushResult = Pushed | Busy | NoMemory

  class TaskQueue<T> {
    const mode: Mode
    const elemSz: nat
    const maxSlots: nat
    ghost const cap: nat       // the bytes of a full buffer
    var state: QState
    var mq: seq<Elem<T>>       // the only buffer, or the read buffer of a prefer-read queue
    var mqSize: nat
    var wmq: seq<Elem<T>>      // the write buffer of a prefer-read queue
    var wmqSize: nat

    ghost predicate Valid()
      reads this
    {
      && Fits(mqSize, |mq|, elemSz, maxSlots)
      && Fits(wmqSize, |wmq|, elemSz, maxSlots)
      && cap == maxSlots * elemSz
      && (!mode.PreferRead? ==> wmq == [])
      && Model().Valid()
    }

    /** The queue as a value. */
    ghost function Model(): Queue<T>
      reads this
    {
      Queue(mode, state, maxSlots, if mode.PreferRead? then Split(mq, wmq) else Single(mq))
    }

    constructor (mode: Mode, elemSz: nat, initSlots: nat, maxSlots: nat)
      requires 0 < elemSz < HALF && 0 < maxSlots && initSlots <= maxSlots
      requires maxSlots * elemSz < WORD && initSlots * elemSz < HALF
      ensures Valid() && Model() == Create(mode, maxSlots) && this.elemSz == elemSz && cap == maxSlots * elemSz
    {
      SlotArithmetic(initSlots, maxSlots, elemSz);
      SlotArithmetic(0, maxSlots, elemSz);
      this.mode, this.elemSz, this.maxSlots, cap := mode, elemSz, maxSlots, maxSlots * elemSz;
      state := Idle;
      mq, mqSize := [], initSlots * elemSz;
      wmq, wmqSize := [], elemSz;
    }

    /** Append to a buffer of the queue, growing it at most once. Busy exactly when it already
        holds `maxSlots` elements; the second push never fails. Memory runs out only when the
        buffer has to grow to 2^63 bytes or more, which no allocation can give. */
    static method PushTo(items: seq<Elem<T>>, size: nat, maxSlots: nat, elemSz: nat, e: Elem<T>)
      returns (r: PushResult, items': seq<Elem<T>>, size': nat)
      requires Fits(size, |items|, elemSz, maxSlots)
      ensures r.Busy? <==> |items| == maxSlots
      ensures items' == if r.Pushed? then items + [e] else items
      ensures size <= size' && Fits(size', |items'|, elemSz, maxSlots)
      ensures r.NoMemory? ==> maxSlots * elemSz >= HALF && (2 * size >= HALF || 2 * elemSz >= HALF)
    {
      SlotArithmetic(|items|, maxSlots, elemSz);
      items', size' := items, size;
      if size - |items| * elemSz >= elemSz {
        return Pushed, items + [e], size;
      }
      if |items| > 0 { SlotArithmetic(0, |items|, elemSz); }
      var grown := GetNewSize(size, |items| * elemSz, elemSz, maxSlots * elemSz);
      if grown == size {
        return Busy, items, size;
      }
      if grown >= HALF {
        return NoMemory, items, size;
      }
      assert grown - |items| * elemSz >= elemSz;
      return Pushed, items + [e], grown;
    }

    /** Pop leading elements of the wanted kind, at most `n`. */
    static method PullFrom(items: seq<Elem<T>>, any: bool, kind: Kind, n: nat)
      returns (batch: seq<Elem<T>>, rest: seq<Elem<T>>)
      ensures batch + rest == items
      ensures |batch| == if any then Least(|items|, n) else Leading(items, kind, n)
    {
      batch, rest := [], items;
      var count := 0;
      while count < n
        invariant count == |batch| <= n && batch + rest == items
        invariant !any ==> Leading(items, kind, n) == count + Leading(rest, kind, n - count)
      {
        if rest == [] { break; }
        if !any && rest[0].kind != kind { break; }
        assert items == (batch + [rest[0]]) + rest[1..];
        batch, rest := batch + [rest[0]], rest[1..];
        count := count + 1;
      }
    }

    /** Busy exactly when the target buffer is full; otherwise the element joins it, unless the
        buffer would have to grow beyond any allocation. */
    method Push(e: Elem<T>) returns (r: PushResult)
      requires Valid() && Accepts(mode, e.kind)
      modifies this
      ensures Valid()
      ensures r.Busy? <==> old(Model()).Full(e.kind)
      ensures Model() == if r.Pushed? then QueueSpec.Push(old(Model()), e) else old(Model())
      ensures r.NoMemory? ==> cap >= HALF
    {
      if mode.PreferRead? && e.kind != Read {
        r, wmq, wmqSize := PushTo(wmq, wmqSize, maxSlots, elemSz, e);
      } else {
        r, mq, mqSize := PushTo(mq, mqSize, maxSlots, elemSz, e);
      }
    }

    method PullExclusive() returns (batch: seq<Elem<T>>)
      requires Valid() && mode.ExclusiveMode?
      modifies this`mq
      ensures (Model(), batch) == QueueSpec.Pull(old(Model()), 1)
      ensures Valid()
    {
      if state == Lock { return []; }
      batch, mq := PullFrom(mq, true, Read, 1);
      Shrunk(batch, mq, mqSize, maxSlots, elemSz);
    }

    static lemma Shrunk(batch: seq<Elem<T>>, rest: seq<Elem<T>>, size: nat, maxSlots: nat, elemSz: nat)
      requires Fits(size, |batch + rest|, elemSz, maxSlots)
      ensures Fits(size, |rest|, elemSz, maxSlots)
    {
      assert |batch + rest| * elemSz == |batch| * elemSz + |rest| * elemSz;
    }

    /** The idle prefer-write queue: one element first, then the reads right behind a read. */
    static method TakeIdle(items: seq<Elem<T>>, n: nat) returns (batch: seq<Elem<T>>, rest: seq<Elem<T>>)
      requires 0 < n && forall i :: 0 <= i < |items| ==> Accepts(PreferWrite, items[i].kind)
      ensures batch + rest == items
      ensures |batch| == if items == [] then 0
                         else if n == 1 || items[0].kind == Write then 1
                         else 1 + Leading(items[1..], Read, n - 1)
    {
      batch, rest := PullFrom(items, true, Read, 1);
      if batch == [] || n == 1 || batch[0].kind == Write { return; }
      assert batch[0] == items[0] && rest == items[1..];
      var more;
      more, rest := PullFrom(rest, false, batch[0].kind, n - 1);
      assert items == (batch + more) + rest;
      batch := batch + more;
    }

    method PullPreferWrite(n: nat) returns (batch: seq<Elem<T>>)
      requires Valid() && mode.PreferWrite? && Model().Pullable() && 0 < n <= maxSlots
      modifies this`mq
      ensures (Model(), batch) == QueueSpec.Pull(old(Model()), n)
      ensures Valid()
    {
      batch := [];
      if state == Idle {
        if mq != [] { IdlePreferWrite(Model(), n); }
        batch, mq := TakeIdle(mq, n);
        Shrunk(batch, mq, mqSize, maxSlots, elemSz);
      } else if state == Reading {
        batch, mq := PullFrom(mq, false, Read, n);
        Shrunk(batch, mq, mqSize, maxSlots, elemSz);
      }
    }

    /** The prefer-read policy on its two buffers. */
    static method TakeSplit(state: QState, rmq: seq<Elem<T>>, wmq: seq<Elem<T>>, n: nat)
      returns (batch: seq<Elem<T>>, rmq': seq<Elem<T>>, wmq': seq<Elem<T>>)
      ensures match SplitGrant(state, rmq, wmq, n)
              case FromReads(c) => batch == rmq[..c] && rmq' == rmq[c..] && wmq' == wmq
              case FromWrites(c) => batch == wmq[..c] && rmq' == rmq && wmq' == wmq[c..]
              case _ => batch == [] && rmq' == rmq && wmq' == wmq
    {
      batch, rmq', wmq' := [], rmq, wmq;
      if state == Idle {
        batch, rmq' := PullFrom(rmq, false, Read, n);
        Cut(batch, rmq', rmq);
        if batch != [] { return; }
        batch, wmq' := PullFrom(wmq, false, Write, 1);
        Cut(batch, wmq', wmq);
      } else if state == Reading {
        batch, rmq' := PullFrom(rmq, false, Read, n);
        Cut(batch, rmq', rmq);
      }
    }

    method PullPreferRead(n: nat) returns (batch: seq<Elem<T>>)
      requires Valid() && mode.PreferRead? && Model().Pullable() && 0 < n <= maxSlots
      modifies this`mq, this`wmq
      ensures (Model(), batch) == QueueSpec.Pull(old(Model()), n)
      ensures Valid()
    {
      PreferReadTakes(Model(), n);
      batch, mq, wmq := TakeSplit(state, mq, wmq, n);
      FitsFewer(mqSize, |old(mq)|, |mq|, elemSz, maxSlots);
      FitsFewer(wmqSize, |old(wmq)|, |wmq|, elemSz, maxSlots);
    }

    method Pull(n: nat) returns (batch: seq<Elem<T>>)
      requires Valid() && Model().Pullable() && n > 0
      modifies this`mq, this`wmq
      ensures (Model(), batch) == QueueSpec.Pull(old(Model()), n)
      ensures Valid()
    {
      PullCapped(Model(), n);
      var m := if n > maxSlots then maxSlots else n;
      match mode
      case ExclusiveMode => batch := PullExclusive();
      case PreferWrite => batch := PullPreferWrite(m);
      case PreferRead => batch := PullPreferRead(m);
    }

    method SetState(s: QState)
      requires Valid() && (if mode.ExclusiveMode? then s == Idle || s == Lock else s != Lock)
      modifies this`state
      ensures Valid() && Model() == old(Model()).(state := s)
    {
      state := s;
    }

    method Empty() returns (b: bool)
      requires Valid()
      ensures b <==> Model().Pending() == []
    {
      b := if mode.PreferRead? then mq == [] && wmq == [] else mq == [];
    }
  }

  /** No queue is made without slots or with more initial slots than the maximum. */
  method CreateQueue<T>(mode: Mode, elemSz: nat, initSlots: nat, maxSlots: nat) returns (q: TaskQueue?<T>)
    requires 0 < elemSz < HALF && maxSlots * elemSz < WORD && initSlots * elemSz < HALF
    ensures q == null <==> maxSlots == 0 || initSlots > maxSlots
    ensures q != null ==> fresh(q) && q.Valid() && q.Model() == Create(mode, maxSlots) && q.elemSz == elemSz
  {
    if maxSlots == 0 || initSlots > maxSlots { return null; }
    q := new TaskQueue<T>(mode, elemSz, initSlots, maxSlots);
  }
}
