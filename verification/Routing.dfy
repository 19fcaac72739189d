/** The scheduler's loops: choosing a bridge, emptying output queues, copying bridges, and
    the growing event queues they work on. */
module Routing {
  import opened Seqs
  import opened ServiceSpec
  import opened Protocol
  import opened TaskQueueImpl
  import opened Star

  // ----- round robin -----

  /** The routable indices among `n` met from `idx` on, wrapping at the end. */
  function Scan(routable: seq<bool>, idx: nat, n: nat): seq<nat>
    requires idx < |routable|
    decreases n
  {
    if n == 0 then []
    else
      var rest := Scan(routable, Succ(routable, idx), n - 1);
      if routable[idx] then [idx] + rest else rest
  }

  /** The next `k` picks. */
  function Picks(routable: seq<bool>, last: nat, k: nat): seq<Pick>
    requires last < |routable|
    decreases k
  {
    if k == 0 then []
    else
      var p := RoundRobin(routable, last, |routable|);
      [p] + Picks(routable, if p.Bridge? then Succ(routable, p.index) else last, k - 1)
  }

  /** The routable indices in [a, b). */
  function Lin(routable: seq<bool>, a: nat, b: nat): seq<nat>
    requires a <= b <= |routable|
    decreases b - a
  {
    if a == b then []
    else if routable[a] then [a] + Lin(routable, a + 1, b)
    else Lin(routable, a + 1, b)
  }

  lemma {:induction false} LinMembers(routable: seq<bool>, a: nat, b: nat)
    requires a <= b <= |routable|
    ensures forall x :: x in Lin(routable, a, b) <==> a <= x < b && routable[x]
    decreases b - a
  {
    if a < b {
      LinMembers(routable, a + 1, b);
    }
  }

  /** No element occurs twice. */
  predicate Distinct(s: seq<nat>) { s == [] || (s[0] !in s[1..] && Distinct(s[1..])) }

  lemma {:induction false} LinDistinct(routable: seq<bool>, a: nat, b: nat)
    requires a <= b <= |routable|
    ensures Distinct(Lin(routable, a, b))
    decreases b - a
  {
    if a < b {
      LinDistinct(routable, a + 1, b);
      LinMembers(routable, a + 1, b);
      ConsDistinct(a, Lin(routable, a + 1, b));
    }
  }

  lemma ConsDistinct(a: nat, tail: seq<nat>)
    requires a !in tail && Distinct(tail)
    ensures Distinct([a] + tail)
  {
    assert ([a] + tail)[1..] == tail;
  }

  lemma {:induction false} DistinctAppend(x: seq<nat>, y: seq<nat>)
    requires Distinct(x) && Distinct(y) && forall e :: e in x ==> e !in y
    ensures Distinct(x + y)
  {
    if x == [] {
      assert x + y == y;
    } else {
      assert x + y == [x[0]] + (x[1..] + y);
      DistinctAppend(x[1..], y);
      ConsDistinct(x[0], x[1..] + y);
    }
  }

  lemma {:induction false} DistinctAt(s: seq<nat>, i: nat, j: nat)
    requires Distinct(s) && i < j < |s|
    ensures s[i] != s[j]
  {
    if i == 0 {
      assert s[j] == s[1..][j - 1];
    } else {
      DistinctAt(s[1..], i - 1, j - 1);
    }
  }

  /** A scan that does not reach the end, and one that wraps. */
  lemma {:induction false} ScanInside(routable: seq<bool>, idx: nat, n: nat)
    requires idx < |routable| && idx + n <= |routable|
    ensures Scan(routable, idx, n) == Lin(routable, idx, idx + n)
    decreases n
  {
    if n > 0 {
      if n > 1 { ScanInside(routable, idx + 1, n - 1); }
    }
  }

  lemma {:induction false} ScanWraps(routable: seq<bool>, idx: nat, n: nat)
    requires idx < |routable| && n <= |routable| < idx + n
    ensures Scan(routable, idx, n) == Lin(routable, idx, |routable|) + Lin(routable, 0, idx + n - |routable|)
    decreases |routable| - idx
  {
    var len := |routable|;
    var turn := Lin(routable, 0, idx + n - len);
    if idx + 1 == len {
      ScanInside(routable, 0, n - 1);
      assert Lin(routable, len, len) == [];
      assert [idx] + [] == [idx] && [] + turn == turn;
    } else {
      ScanWraps(routable, idx + 1, n - 1);
      Regroup([idx], Lin(routable, idx + 1, len), turn);
    }
  }

  /** A full search finds the first routable index met, and fails only when none is. */
  lemma {:induction false} SearchFinds(routable: seq<bool>, idx: nat, n: nat)
    requires idx < |routable|
    ensures var s := Scan(routable, idx, n);
      RoundRobin(routable, idx, n) == if s == [] then NoBridge else Bridge(s[0])
    decreases n
  {
    if n > 0 { SearchFinds(routable, Succ(routable, idx), n - 1); }
  }

  lemma {:induction false} ScanMore(routable: seq<bool>, idx: nat, n: nat, more: nat)
    requires idx < |routable| && n <= more
    ensures Scan(routable, idx, n) <= Scan(routable, idx, more)
    decreases n
  {
    if n > 0 { ScanMore(routable, Succ(routable, idx), n - 1, more - 1); }
  }

  function AsPicks(s: seq<nat>): (r: seq<Pick>)
    ensures |r| == |s| && forall i :: 0 <= i < |s| ==> r[i] == Bridge(s[i])
  {
    seq(|s|, i requires 0 <= i < |s| => Bridge(s[i]))
  }

  /** Consecutive picks follow one scan. */
  lemma {:induction false} PicksScan(routable: seq<bool>, last: nat, n: nat, k: nat)
    requires last < |routable| && n <= |routable| && k <= |Scan(routable, last, n)|
    ensures Picks(routable, last, k) == AsPicks(Scan(routable, last, n)[..k])
    decreases n
  {
    if k > 0 {
      var N := |routable|;
      var next := Succ(routable, last);
      var s := Scan(routable, last, n);
      SearchFinds(routable, last, N);
      ScanMore(routable, last, n, N);
      if routable[last] {
        assert s == [last] + Scan(routable, next, n - 1);
        assert s[..k] == [last] + Scan(routable, next, n - 1)[..k - 1];
        PicksScan(routable, next, n - 1, k - 1);
      } else {
        assert s == Scan(routable, next, n - 1);
        SearchFinds(routable, next, N);
        ScanMore(routable, next, n - 1, N);
        PicksScan(routable, next, n - 1, k);
      }
    }
  }

  /** Round-robin fairness: with m routable bridges, any m consecutive picks are distinct and
      are exactly the routable bridges; a search fails exactly when there is none. */
  lemma RoundRobinFair(routable: seq<bool>, last: nat)
    requires last < |routable|
    ensures var m := |Lin(routable, 0, |routable|)|;
      var picks := Picks(routable, last, m);
      && |picks| == m
      && (forall i, j :: 0 <= i < j < m ==> picks[i] != picks[j])
      && (forall p :: p in picks <==> p.Bridge? && p.index < |routable| && routable[p.index])
      && (RoundRobin(routable, last, |routable|).NoBridge? <==> m == 0)
  {
    var n := |routable|;
    var s := Scan(routable, last, n);
    FullScan(routable, last);
    PicksScan(routable, last, n, |s|);
    assert s[..|s|] == s;
    SearchFinds(routable, last, n);
    PicksMembers(s);
    assert Picks(routable, last, |s|) == AsPicks(s);
  }

  /** A table of bridges of which exactly the first `m` are routable. */
  lemma {:induction false} LeadingRoutable(routable: seq<bool>, a: nat, m: nat)
    requires a <= |routable| && m <= |routable| && forall i :: 0 <= i < |routable| ==> (routable[i] <==> i < m)
    ensures |Lin(routable, a, |routable|)| == if a < m then m - a else 0
    decreases |routable| - a
  {
    if a < |routable| { LeadingRoutable(routable, a + 1, m); }
  }

  /** The bridge over which the master leaves by a pick. */
  function Far(cfg: Config, p: Pick): Engine {
    if p.Bridge? && p.index < |Bridges(cfg, MASTER)| then Bridges(cfg, MASTER)[p.index] else MASTER
  }

  predicate Served(cfg: Config, picks: seq<Pick>, w: Engine) { exists p :: p in picks && Far(cfg, p) == w }

  /** Events without a destination go to the workers in turn: as many consecutive picks at the
      master as there are workers are each worker once, and never a background engine. */
  lemma WorkersTakeTurns(cfg: Config, last: nat)
    requires last < |Bridges(cfg, MASTER)|
    ensures var picks := Picks(RoutableBridges(cfg, MASTER), last, cfg.workers);
      && |picks| == cfg.workers
      && (forall i :: 0 <= i < cfg.workers ==> 1 <= Far(cfg, picks[i]) <= cfg.workers)
      && (forall i, j :: 0 <= i < j < cfg.workers ==> Far(cfg, picks[i]) != Far(cfg, picks[j]))
      && (forall w: nat :: 1 <= w <= cfg.workers ==> Served(cfg, picks, w))
    ensures RoundRobin(RoutableBridges(cfg, MASTER), last, |Bridges(cfg, MASTER)|).NoBridge? <==> cfg.workers == 0
  {
    var routable := RoutableBridges(cfg, MASTER);
    LeadingRoutable(routable, 0, cfg.workers);
    RoundRobinFair(routable, last);
    PickedWorkers(cfg, Picks(routable, last, cfg.workers));
  }

  /** Distinct picks that are exactly the bridges to the workers. */
  lemma PickedWorkers(cfg: Config, picks: seq<Pick>)
    requires |picks| == cfg.workers && forall i, j :: 0 <= i < j < |picks| ==> picks[i] != picks[j]
    requires forall p :: p in picks <==> p.Bridge? && p.index < cfg.workers
    ensures forall i :: 0 <= i < cfg.workers ==> 1 <= Far(cfg, picks[i]) <= cfg.workers
    ensures forall i, j :: 0 <= i < j < cfg.workers ==> Far(cfg, picks[i]) != Far(cfg, picks[j])
    ensures forall w: nat :: 1 <= w <= cfg.workers ==> Served(cfg, picks, w)
  {
    forall p | p in picks ensures Far(cfg, p) == p.index + 1 {}
    forall i | 0 <= i < cfg.workers ensures picks[i].Bridge? && Far(cfg, picks[i]) == picks[i].index + 1 {
      assert picks[i] in picks;
    }
    forall w: nat | 1 <= w <= cfg.workers ensures Served(cfg, picks, w) {
      assert Bridge(w - 1) in picks && Far(cfg, Bridge(w - 1)) == w;
    }
  }

  lemma PicksMembers(s: seq<nat>)
    ensures forall p :: p in AsPicks(s) <==> p.Bridge? && p.index in s
  {
    forall p: Pick | p.Bridge? && p.index in s ensures p in AsPicks(s) {
      var i :| 0 <= i < |s| && s[i] == p.index;
      assert AsPicks(s)[i] == p;
    }
  }

  /** One full turn meets every routable index once. */
  lemma FullScan(routable: seq<bool>, last: nat)
    requires last < |routable|
    ensures var s := Scan(routable, last, |routable|);
      && |s| == |Lin(routable, 0, |routable|)|
      && (forall i, j :: 0 <= i < j < |s| ==> s[i] != s[j])
      && (forall x: nat :: x in s <==> x < |routable| && routable[x])
  {
    var n := |routable|;
    var a, b := Lin(routable, last, n), Lin(routable, 0, last);
    if last == 0 {
      ScanInside(routable, 0, n);
      assert a + b == a;
    } else {
      ScanWraps(routable, last, n);
    }
    LinMembers(routable, last, n);
    LinMembers(routable, 0, last);
    LinDistinct(routable, last, n);
    LinDistinct(routable, 0, last);
    LinSplit(routable, 0, last);
    DistinctAppend(a, b);
    forall i, j | 0 <= i < j < |a + b| ensures (a + b)[i] != (a + b)[j] { DistinctAt(a + b, i, j); }
  }

  lemma {:induction false} LinSplit(routable: seq<bool>, a: nat, mid: nat)
    requires a <= mid <= |routable|
    ensures |Lin(routable, a, |routable|)| == |Lin(routable, a, mid)| + |Lin(routable, mid, |routable|)|
    decreases mid - a
  {
    if a < mid {
      LinSplit(routable, a + 1, mid);
    }
  }

  // ----- event queues -----

  /** The size an event queue of `slots` events grows to, in bytes. It ends, never wraps
      below 2^63 bytes, and leaves room for the new events. */
  method EventQueueSize(slots: nat, used: nat, events: nat, eventSz: nat) returns (r: nat)
    requires eventSz > 0 && events > 0 && used <= slots
    requires (if slots == 0 then 1 else slots) * eventSz < HALF && used * eventSz + events * eventSz < HALF
    ensures r >= used * eventSz + events * eventSz && r >= slots * eventSz
  {
    var usedSz, need := used * eventSz, events * eventSz;
    var cnt := if slots != 0 then slots else 1;
    var n := cnt * eventSz;
    Monotone(used, cnt, eventSz);
    Monotone(1, cnt, eventSz);
    r := GrowFor(n, usedSz, need);
  }

  lemma Monotone(a: nat, b: nat, k: nat)
    requires a <= b
    ensures a * k <= b * k
  {
  }

  method GrowFor(start: nat, used: nat, need: nat) returns (n: nat)
    requires 0 < start < HALF && used <= start && used + need < HALF
    ensures n >= used + need && n >= start
  {
    n := start;
    ghost var first := true;
    while n > 0
      invariant start <= n < HALF
      invariant !first ==> n < used + need
      decreases HALF - n
    {
      n := Doubled(n);
      if Minus(n, used) >= need { break; }
      first := false;
    }
  }

  /** An engine's input or output queue of one priority. */
  class EventQueue {
    const eventSz: nat
    var events: seq<Packet>
    var slots: nat

    ghost predicate Valid()
      reads this
    {
      eventSz > 0 && |events| <= slots
    }

    constructor (eventSz: nat, slots: nat)
      requires eventSz > 0
      ensures Valid() && events == [] && this.eventSz == eventSz
    {
      this.eventSz, this.slots, events := eventSz, slots, [];
    }

    /** A push always succeeds, growing the queue when it is full, and keeps the order. */
    method Push(more: seq<Packet>)
      requires Valid() && more != []
      requires (if slots == 0 then 1 else slots) * eventSz < HALF && |events| * eventSz + |more| * eventSz < HALF
      modifies this
      ensures Valid() && events == old(events) + more && slots >= old(slots)
    {
      if slots - |events| < |more| {
        var bytes := EventQueueSize(slots, |events|, |more|, eventSz);
        SlotsIn(bytes, |events| + |more|, slots, eventSz);
        slots := bytes / eventSz;
      }
      events := events + more;
    }

    /** A pull takes the oldest events, at most `n`. */
    method Pull(n: nat) returns (taken: seq<Packet>)
      requires Valid()
      modifies this`events
      ensures Valid() && taken + events == old(events)
      ensures |taken| == if n > |old(events)| then |old(events)| else n
    {
      var cnt := if n > |events| then |events| else n;
      taken, events := events[..cnt], events[cnt..];
    }
  }

  lemma SlotsIn(bytes: nat, a: nat, b: nat, k: nat)
    requires k > 0 && bytes >= a * k && bytes >= b * k
    ensures bytes / k >= a && bytes / k >= b
  {
    if bytes / k < a { Monotone(bytes / k + 1, a, k); }
    if bytes / k < b { Monotone(bytes / k + 1, b, k); }
  }

  // ----- the scheduler's loops over the network -----

  /** Move until the queue or bridge is empty. */
  ghost function Emptied(net: Net, loc: Loc): Net
    requires !loc.In?
    decreases |At(net, loc)|
  {
    if CanMove(net, loc) then Emptied(Moved(net, loc), loc) else net
  }

  /** Emptying keeps every channel's events and their order. */
  lemma {:induction false} EmptiedFlight(net: Net, loc: Loc, c: Channel)
    requires !loc.In? && Placed(net)
    ensures Placed(Emptied(net, loc)) && Flight(Emptied(net, loc), c) == Flight(net, c)
    ensures At(Emptied(net, loc), loc) == []
    decreases |At(net, loc)|
  {
    if At(net, loc) != [] {
      assert At(net, loc)[0].hop == Crossed(loc, ChannelOf(At(net, loc)[0].event));
      MovedPlaced(net, loc);
      MovedFlight(net, loc, c);
      EmptiedFlight(Moved(net, loc), loc, c);
    }
  }

  /** The search loop: it ends after at most one turn. */
  method Search(routable: seq<bool>, end: nat) returns (p: Pick)
    requires end < |routable|
    ensures p == RoundRobin(routable, end, |routable|)
  {
    var n := |routable|;
    var idx := end;
    ghost var looked := 0;
    while true
      invariant looked < n && idx < n
      invariant idx == if end + looked < n then end + looked else end + looked - n
      invariant RoundRobin(routable, end, n) == RoundRobin(routable, idx, n - looked)
      decreases n - looked
    {
      if routable[idx] { return Bridge(idx); }
      idx := Succ(routable, idx);
      looked := looked + 1;
      if idx == end { break; }
    }
    p := NoBridge;
  }

  class Fabric {
    const cfg: Config
    var net: Net
    var last: map<Engine, nat>   // the round-robin position of each engine

    ghost predicate Valid()
      reads this
    {
      && cfg.workers > 0
      && (forall e :: e in last ==> last[e] < |Bridges(cfg, e)|)
      && (forall e :: Engines(cfg, e) ==> e in last)
      && (forall loc, i :: 0 <= i < |At(net, loc)| ==> Engines(cfg, At(net, loc)[i].event.dst))
    }

    constructor (cfg: Config)
      requires cfg.workers > 0
      ensures Valid() && net == map[] && this.cfg == cfg
    {
      this.cfg, net := cfg, map[];
      last := map e: Engine | 0 <= e <= cfg.workers + cfg.bios && Engines(cfg, e) :: 0;
    }

    /** The bridge that leads straight to `dst`, if any. */
    method FindAffinity(x: Engine, dst: Engine) returns (p: Pick)
      ensures p == Affinity(Bridges(cfg, x), dst)
    {
      var b := Bridges(cfg, x);
      for i := 0 to |b|
        invariant Affinity(b, dst) == match Affinity(b[i..], dst)
                                      case NoBridge => NoBridge
                                      case Bridge(k) => Bridge(k + i)
      {
        if b[i] == dst { return Bridge(i); }
        assert b[i..][1..] == b[i + 1..];
      }
      p := NoBridge;
    }

    /** Look from the last position for a routable bridge, at most once around. */
    method FindRoundRobin(x: Engine) returns (p: Pick)
      requires Valid() && x in last
      modifies this`last
      ensures p == RoundRobin(RoutableBridges(cfg, x), old(last[x]), |Bridges(cfg, x)|)
      ensures last == if p.Bridge? then old(last)[x := (p.index + 1) % |Bridges(cfg, x)|] else old(last)
      ensures Valid()
    {
      p := Search(RoutableBridges(cfg, x), last[x]);
      if p.Bridge? {
        SuccWraps(RoutableBridges(cfg, x), p.index);
        last := last[x := Succ(RoutableBridges(cfg, x), p.index)];
      }
    }

    /** Move the oldest event of an output queue onto the bridge chosen for it. */
    method DeliverEvent(x: Engine, p: nat)
      requires Valid() && Placed(net) && Engines(cfg, x) && At(net, Out(x, p)) != []
      modifies this
      ensures CanMove(old(net), Out(x, p)) && net == Moved(old(net), Out(x, p))
      ensures Valid()
    {
      var e := At(net, Out(x, p))[0];
      assert Out(x, p) in Route(ChannelOf(e.event)) && e.hop == Crossed(Out(x, p), ChannelOf(e.event));
      assert e.hop != MAX_HOP;
      ViaStar(cfg, x, e.event.dst, last[x]);
      var pick := FindAffinity(x, e.event.dst);
      if pick.NoBridge? { pick := FindRoundRobin(x); }
      var to := Wire(x, Bridges(cfg, x)[pick.index]);
      assert to == NextLoc(Out(x, p), e.event);
      Cross(Out(x, p), to);
    }

    /** The oldest event leaves an output queue over the bridge `to`. */
    method Cross(from: Loc, to: Loc)
      requires Valid() && from.Out? && CanMove(net, from) && to == NextLoc(from, At(net, from)[0].event)
      modifies this`net
      ensures net == Moved(old(net), from)
      ensures Valid()
    {
      ghost var before := net;
      var q := At(net, from);
      net := net[from := q[1..]];
      net := net[to := At(net, to) + [q[0].(hop := q[0].hop + 1)]];
      assert net == Moved(before, from);
      StaysKnown(cfg, before, from);
    }

    /** Empty one output queue onto the bridges: affinity first, else round robin. */
    method DeliverOneIo(x: Engine, p: nat)
      requires Valid() && Placed(net) && Engines(cfg, x)
      modifies this
      ensures Valid() && net == Emptied(old(net), Out(x, p)) && At(net, Out(x, p)) == []
    {
      ghost var was := net;
      while At(net, Out(x, p)) != []
        invariant Valid() && Placed(net)
        invariant Emptied(was, Out(x, p)) == Emptied(net, Out(x, p))
        decreases |At(net, Out(x, p))|
      {
        ghost var before := net;
        DeliverEvent(x, p);
        MovedPlaced(before, Out(x, p));
      }
    }

    static lemma StaysKnown(cfg: Config, net: Net, loc: Loc)
      requires CanMove(net, loc)
      requires forall l, i :: 0 <= i < |At(net, l)| ==> Engines(cfg, At(net, l)[i].event.dst)
      ensures forall l, i :: 0 <= i < |At(Moved(net, loc), l)| ==> Engines(cfg, At(Moved(net, loc), l)[i].event.dst)
    {
      var net' := Moved(net, loc);
      forall l, i | 0 <= i < |At(net', l)| ensures Engines(cfg, At(net', l)[i].event.dst) {
        assert At(net', l)[i].event == At(net, loc)[0].event || (i < |At(net, l)| && At(net', l)[i] == At(net, l)[i])
          || (l == loc && At(net', l)[i] == At(net, l)[i + 1]);
      }
    }

    /** Take the oldest event off a bridge: into the input queue of its priority when it is for
        this engine, else into the output queue. */
    method CopyEvent(a: Engine, b: Engine)
      requires Valid() && At(net, Wire(a, b)) != []
      modifies this`net
      ensures net == Moved(old(net), Wire(a, b))
      ensures Valid()
    {
      ghost var before := net;
      var q := At(net, Wire(a, b));
      var e := q[0];
      var pri := Priority(e.event.msg);
      var to := if e.event.dst == b then In(b, pri) else Out(b, pri);
      net := net[Wire(a, b) := q[1..]];
      net := net[to := At(net, to) + [e]];
      assert net == Moved(before, Wire(a, b));
      StaysKnown(cfg, before, Wire(a, b));
    }

    /** Empty a bridge at its far end. */
    method CopyEvents(a: Engine, b: Engine)
      requires Valid() && Placed(net)
      modifies this`net
      ensures Valid() && net == Emptied(old(net), Wire(a, b)) && At(net, Wire(a, b)) == []
    {
      ghost var was := net;
      while At(net, Wire(a, b)) != []
        invariant Valid() && Placed(net)
        invariant Emptied(was, Wire(a, b)) == Emptied(net, Wire(a, b))
        decreases |At(net, Wire(a, b))|
      {
        ghost var before := net;
        CopyEvent(a, b);
        MovedPlaced(before, Wire(a, b));
      }
    }

    /** Send an event: to its own input queue, or to the output queue of its priority. */
    method Emit(e: Event)
      requires Valid() && Engines(cfg, e.dst)
      modifies this`net
      ensures net == Sent(old(net), e)
      ensures Valid()
    {
      var loc := if e.src == e.dst then In(e.src, Priority(e.msg)) else Out(e.src, Priority(e.msg));
      ghost var before := net;
      net := net[loc := At(net, loc) + [Packet(e, 0)]];
      forall l, i | 0 <= i < |At(net, l)| ensures Engines(cfg, At(net, l)[i].event.dst) {
        assert At(net, l)[i].event == e || (i < |At(before, l)| && At(net, l)[i] == At(before, l)[i]);
      }
    }
  }
}
