/** A service's task scheduler on the master, on values. */
module ServiceSpec {
  import opened Seqs
  import opened QueueSpec

  type Engine = nat
  type ServiceId = nat
  type TxnId = nat

  /** The transaction task that an endpoint call or a job keeps pending, if any. */
  datatype Pend = NoPend | Pend(txn: TxnId, task: nat)

  /** A job; `origin` is the engine that created it, which no handler reads. */
  datatype Job = Job(kind: Kind, bidx: int, pend: Pend, interval: nat, origin: Engine)

  datatype Body =
    | ApiTask(src: Engine, bidx: int, txn: TxnId, task: nat)
    | TimerTask(src: Engine, job: Job)

  type SrvTask = Elem<Body>

  datatype Service = Service(queue: Queue<Body>, running: int)
  {
    predicate Valid() {
      queue.Valid() && !queue.mode.ExclusiveMode? && queue.Pullable()
    }
  }

  /** Queue and count after one popped task was handed to an engine. */
  function Scheduled(s: Service, q: Queue<Body>, k: Kind): Service {
    Service(q.(state := if k == Read then Reading else Writing), s.running + 1)
  }

  /** Pop and schedule until nothing more can be popped. */
  function Drain(s: Service): (r: (Service, seq<SrvTask>))
    requires s.Valid()
    ensures r.0.Valid() && r.0.queue.mode == s.queue.mode && r.0.queue.maxSlots == s.queue.maxSlots
    decreases |s.queue.Pending()|
  {
    var (q, popped) := Pull(s.queue, 1);
    if popped == [] then (s, [])
    else
      var (rest, more) := Drain(Scheduled(s, q, popped[0].kind));
      (rest, popped + more)
  }

  /** Release of one slot. */
  function SetComplete(s: Service): Service {
    var n := s.running - 1;
    Service(if n == 0 then s.queue.(state := Idle) else s.queue, n)
  }

  function KindWeight(k: Kind): SrvTask -> int {
    (e: SrvTask) => if e.kind == k then 1 else 0
  }

  /** State and count agree with `r` read slots and `w` write slots held by tasks. */
  ghost predicate Consistent(s: Service, r: int, w: int) {
    && s.running == r + w
    && match s.queue.state
       case Idle => r == 0 && w == 0
       case Reading => r > 0 && w == 0
       case Writing => r == 0 && w == 1
       case _ => false
  }

  /** Queued work never waits on an idle service. */
  ghost predicate Saturated(s: Service) {
    s.queue.Pending() != [] ==> s.queue.state != Idle
  }

  lemma {:induction false} OnePopped(s: Service)
    requires s.Valid()
    ensures |Pull(s.queue, 1).1| <= 1
    ensures Pull(s.queue, 1).1 != [] ==>
      var k := Pull(s.queue, 1).1[0].kind;
      && (k == Read || k == Write)
      && (k == Read ==> s.queue.state in {Idle, Reading})
      && (k == Write ==> s.queue.state == Idle)
  {
    BatchCompatible(s.queue, 1);
    var b := Pull(s.queue, 1).1;
    if b != [] {
      assert b[0] in b;
      PoppedWasPending(s);
    }
  }

  lemma {:induction false} PoppedWasPending(s: Service)
    requires s.Valid()
    ensures forall e :: e in Pull(s.queue, 1).1 ==> e in s.queue.Pending() && e.kind in {Read, Write}
  {
  }

  lemma {:induction false} DrainConserves(s: Service, w: SrvTask -> int)
    requires s.Valid()
    ensures Sum(s.queue.Pending(), w) == Sum(Drain(s).0.queue.Pending(), w) + Sum(Drain(s).1, w)
    decreases |s.queue.Pending()|
  {
    var (q, popped) := Pull(s.queue, 1);
    PullConserves(s.queue, 1, w);
    if popped != [] {
      var s1 := Scheduled(s, q, popped[0].kind);
      DrainConserves(s1, w);
      SumAppend(popped, Drain(s1).1, w);
    }
  }

  lemma {:induction false} DrainConsistent(s: Service, r: int, w: int)
    requires s.Valid() && Consistent(s, r, w)
    ensures Consistent(Drain(s).0, r + Sum(Drain(s).1, KindWeight(Read)), w + Sum(Drain(s).1, KindWeight(Write)))
    decreases |s.queue.Pending()|
  {
    var (q, popped) := Pull(s.queue, 1);
    OnePopped(s);
    if popped != [] {
      var k := popped[0].kind;
      assert popped == [popped[0]];
      var s1 := Scheduled(s, q, k);
      DrainConsistent(s1, r + (if k == Read then 1 else 0), w + (if k == Write then 1 else 0));
      forall kind | kind in {Read, Write} ensures
        Sum(popped + Drain(s1).1, KindWeight(kind)) == (if k == kind then 1 else 0) + Sum(Drain(s1).1, KindWeight(kind))
      {
        SumAppend(popped, Drain(s1).1, KindWeight(kind));
        SumOne(popped[0], KindWeight(kind));
      }
    }
  }

  /** The scheduling loop stops only on an empty queue or with a task running. */
  lemma {:induction false} DrainSaturates(s: Service)
    requires s.Valid()
    ensures Saturated(Drain(s).0)
    decreases |s.queue.Pending()|
  {
    var (q, popped) := Pull(s.queue, 1);
    PullNothing(s.queue, 1);
    if popped != [] {
      DrainSaturates(Scheduled(s, q, popped[0].kind));
    }
  }

  lemma {:induction false} DrainMembers(s: Service)
    requires s.Valid()
    ensures forall e :: e in Drain(s).1 ==> e in s.queue.Pending() && e.kind in {Read, Write}
    ensures forall e :: e in Drain(s).0.queue.Pending() ==> e in s.queue.Pending()
    decreases |s.queue.Pending()|
  {
    var (q, popped) := Pull(s.queue, 1);
    PoppedWasPending(s);
    if popped != [] {
      PullRest(s.queue);
      DrainMembers(Scheduled(s, q, popped[0].kind));
    }
  }

  lemma {:induction false} PullRest(q: Queue<Body>)
    requires q.Valid() && q.Pullable()
    ensures forall e :: e in Pull(q, 1).0.Pending() ==> e in q.Pending()
  {
  }

  lemma {:induction false} CompleteConsistent(s: Service, r: int, w: int, k: Kind)
    requires Consistent(s, r, w) && k in {Read, Write}
    requires if k == Read then r > 0 else w > 0
    ensures Consistent(SetComplete(s), if k == Read then r - 1 else r, if k == Write then w - 1 else w)
  {
  }
}
