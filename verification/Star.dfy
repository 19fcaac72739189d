/** The network between the engines: priority queues at every engine and one-way bridges
    between the master and each other engine. */
module Star {
  import opened Seqs
  import opened QueueSpec
  import opened ServiceSpec
  import opened Protocol

  const MAX_HOP: nat := 255

  /** An event on its way, with the number of bridges it crossed. */
  datatype Packet = Packet(event: Event, hop: nat)

  /** Where a packet can be: an engine's input or output queue of one priority, or a bridge. */
  datatype Loc = In(engine: Engine, pri: nat) | Out(engine: Engine, pri: nat) | Wire(from: Engine, to: Engine)

  type Net = map<Loc, seq<Packet>>

  function At(net: Net, loc: Loc): seq<Packet> {
    if loc in net then net[loc] else []
  }

  // ----- topology -----

  /** The far ends of an engine's bridges, in table order: the master has one to every other
      engine, any other engine has one, to the master. */
  function Bridges(cfg: Config, e: Engine): (b: seq<Engine>) {
    if e == MASTER then seq(cfg.workers + cfg.bios, i => i + 1) else [MASTER]
  }

  predicate Engines(cfg: Config, e: Engine) { e <= cfg.workers + cfg.bios }

  /** Background engines take no round-robin traffic. */
  predicate Routable(cfg: Config, e: Engine) { e <= cfg.workers }

  datatype Pick = NoBridge | Bridge(index: nat)

  /** The first bridge that leads to `dst`. */
  function Affinity(bridges: seq<Engine>, dst: Engine): (p: Pick)
    ensures p.Bridge? ==> p.index < |bridges| && bridges[p.index] == dst
    ensures p.NoBridge? <==> dst !in bridges
  {
    if bridges == [] then NoBridge
    else if bridges[0] == dst then Bridge(0)
    else match Affinity(bridges[1..], dst)
      case NoBridge => NoBridge
      case Bridge(i) => Bridge(i + 1)
  }

  function RoutableBridges(cfg: Config, x: Engine): (r: seq<bool>)
    ensures |r| == |Bridges(cfg, x)|
  {
    var b := Bridges(cfg, x);
    seq(|b|, i requires 0 <= i < |b| => Routable(cfg, b[i]))
  }

  /** The bridge an event leaves `e` by: affinity first, else round robin from `last`. */
  function Via(cfg: Config, e: Engine, dst: Engine, last: nat): (p: Pick)
    requires last < |Bridges(cfg, e)|
  {
    var b := Bridges(cfg, e);
    match Affinity(b, dst)
    case Bridge(i) => Bridge(i)
    case NoBridge => RoundRobin(RoutableBridges(cfg, e), last, |b|)
  }

  /** The next position of a table, from the last back to the first. */
  function Succ(routable: seq<bool>, idx: nat): (r: nat)
    requires idx < |routable|
    ensures r < |routable|
  {
    if idx + 1 == |routable| then 0 else idx + 1
  }

  lemma SuccWraps(routable: seq<bool>, idx: nat)
    requires idx < |routable|
    ensures Succ(routable, idx) == (idx + 1) % |routable|
  {
  }

  /** The next routable bridge from `idx` on, looking at `n` of them. */
  function RoundRobin(routable: seq<bool>, idx: nat, n: nat): (p: Pick)
    requires idx < |routable|
    ensures p.Bridge? ==> p.index < |routable| && routable[p.index]
    decreases n
  {
    if n == 0 then NoBridge
    else if routable[idx] then Bridge(idx)
    else RoundRobin(routable, Succ(routable, idx), n - 1)
  }

  /** In the star an event leaves the master towards its destination and every other engine
      towards the master, whatever the round-robin position. */
  lemma ViaStar(cfg: Config, e: Engine, dst: Engine, last: nat)
    requires Engines(cfg, e) && Engines(cfg, dst) && e != dst && last < |Bridges(cfg, e)|
    ensures Via(cfg, e, dst, last).Bridge?
    ensures var b := Bridges(cfg, e);
      var i := Via(cfg, e, dst, last).index;
      i < |b| && b[i] == if e == MASTER then dst else MASTER
  {
    var b := Bridges(cfg, e);
    if e == MASTER {
      assert b[dst - 1] == dst;
    } else {
      assert b[last] == MASTER && Routable(cfg, b[last]);
    }
  }

  // ----- steps of the network -----

  /** Where the head of a queue goes next. */
  function NextLoc(loc: Loc, e: Event): Loc
    requires !loc.In?
  {
    match loc
    case Out(x, p) => Wire(x, if x == MASTER then e.dst else MASTER)
    case Wire(_, b) => if e.dst == b then In(b, Priority(e.msg)) else Out(b, Priority(e.msg))
  }

  /** Where an event starts. */
  function Source(e: Event): Loc {
    if e.src == e.dst then In(e.src, Priority(e.msg)) else Out(e.src, Priority(e.msg))
  }

  /** Emit an event: to the engine's own input queue when it is its own destination. */
  function Sent(net: Net, e: Event): Net {
    var loc := Source(e);
    net[loc := At(net, loc) + [Packet(e, 0)]]
  }

  function SentAll(net: Net, sent: seq<Event>): Net
    decreases |sent|
  {
    if sent == [] then net else SentAll(Sent(net, sent[0]), sent[1..])
  }

  predicate CanMove(net: Net, loc: Loc) {
    !loc.In? && At(net, loc) != [] && (loc.Out? ==> At(net, loc)[0].hop != MAX_HOP)
  }

  /** Move the oldest packet of an output queue onto its bridge, or of a bridge into the
      queue at its far end. Crossing a bridge counts one hop. */
  function Moved(net: Net, loc: Loc): Net
    requires CanMove(net, loc)
  {
    var x := At(net, loc)[0];
    var to := NextLoc(loc, x.event);
    var y := if loc.Out? then x.(hop := x.hop + 1) else x;
    net[loc := At(net, loc)[1..]][to := At(net, to) + [y]]
  }

  /** The engine takes the oldest event of an input queue. */
  function Taken(net: Net, e: Engine, p: nat): Net
    requires At(net, In(e, p)) != []
  {
    net[In(e, p) := At(net, In(e, p))[1..]]
  }

  // ----- the events of one channel, oldest first -----

  function OnChannel(c: Channel): Event -> bool { (e: Event) => ChannelOf(e) == c }

  function Payload(): Packet -> Event { (q: Packet) => q.event }

  /** The way from source to destination, from the far end back. */
  function Route(c: Channel): seq<Loc> {
    var (s, d, p) := c;
    if s == d then [In(d, p)]
    else if d == MASTER then [In(d, p), Wire(s, d), Out(s, p)]
    else if s == MASTER then [In(d, p), Wire(s, d), Out(s, p)]
    else [In(d, p), Wire(MASTER, d), Out(MASTER, p), Wire(s, MASTER), Out(s, p)]
  }

  function Lane(q: seq<Packet>, c: Channel): seq<Event> {
    Filter(Map(Payload(), q), OnChannel(c))
  }

  function Along(net: Net, locs: seq<Loc>, c: Channel): seq<Event> {
    if locs == [] then [] else Lane(At(net, locs[0]), c) + Along(net, locs[1..], c)
  }

  /** Everything of channel `c` in flight, oldest first. */
  function Flight(net: Net, c: Channel): seq<Event> { Along(net, Route(c), c) }

  /** How many bridges a packet of channel `c` has crossed when it is at `loc`. */
  function Crossed(loc: Loc, c: Channel): nat {
    var (s, d, p) := c;
    match loc
    case Out(e, _) => if e == s then 0 else 1
    case Wire(a, _) => if a == s then 1 else 2
    case In(_, _) => if s == d then 0 else if s == MASTER || d == MASTER then 1 else 2
  }

  /** Every packet is on its route and has crossed the bridges behind it. */
  ghost predicate Placed(net: Net) {
    forall loc, i | 0 <= i < |At(net, loc)| ::
      var q := At(net, loc)[i];
      loc in Route(ChannelOf(q.event)) && q.hop == Crossed(loc, ChannelOf(q.event))
  }

  // ----- lanes -----

  lemma LaneAppend(q: seq<Packet>, x: Packet, c: Channel)
    ensures Lane(q + [x], c) == Lane(q, c) + (if ChannelOf(x.event) == c then [x.event] else [])
  {
    assert Map(Payload(), q + [x]) == Map(Payload(), q) + [x.event];
    FilterAppend(Map(Payload(), q), [x.event], OnChannel(c));
    assert [x.event][1..] == [];
  }

  lemma LaneHead(q: seq<Packet>, c: Channel)
    requires q != []
    ensures Lane(q, c) == (if ChannelOf(q[0].event) == c then [q[0].event] else []) + Lane(q[1..], c)
  {
    assert Map(Payload(), q)[1..] == Map(Payload(), q[1..]);
  }

  /** Two networks with the same lanes have the same flight. */
  lemma {:induction false} AlongSame(net: Net, net': Net, locs: seq<Loc>, c: Channel)
    requires forall i :: 0 <= i < |locs| ==> Lane(At(net, locs[i]), c) == Lane(At(net', locs[i]), c)
    ensures Along(net, locs, c) == Along(net', locs, c)
  {
    if locs != [] { AlongSame(net, net', locs[1..], c); }
  }

  lemma {:induction false} AlongSplit(net: Net, a: seq<Loc>, b: seq<Loc>, c: Channel)
    ensures Along(net, a + b, c) == Along(net, a, c) + Along(net, b, c)
  {
    if a == [] {
      assert a + b == b;
    } else {
      assert (a + b)[1..] == a[1..] + b;
      AlongSplit(net, a[1..], b, c);
    }
  }

  lemma AlongTwo(net: Net, x: Loc, y: Loc, c: Channel)
    ensures Along(net, [x, y], c) == Lane(At(net, x), c) + Lane(At(net, y), c)
  {
    assert [x, y][1..] == [y] && [y][1..] == [];
    assert Along(net, [y], c) == Lane(At(net, y), c);
  }

  /** A location occurs once on a route, and the next location is right before it. */
  lemma RouteStep(e: Event, loc: Loc) returns (i: nat)
    requires !loc.In? && loc in Route(ChannelOf(e))
    ensures var r := Route(ChannelOf(e));
      && 0 < i < |r| && r[i] == loc && r[i - 1] == NextLoc(loc, e)
      && (forall j :: 0 <= j < |r| && j != i ==> r[j] != loc)
      && (forall j :: 0 <= j < |r| && j != i - 1 ==> r[j] != NextLoc(loc, e))
      && Crossed(NextLoc(loc, e), ChannelOf(e)) == Crossed(loc, ChannelOf(e)) + if loc.Out? then 1 else 0
  {
    var r := Route(ChannelOf(e));
    i :| 0 <= i < |r| && r[i] == loc;
  }

  /** Moving a packet changes no lane of another channel. */
  lemma MovedOther(net: Net, loc: Loc, c: Channel)
    requires CanMove(net, loc) && ChannelOf(At(net, loc)[0].event) != c
    ensures Flight(Moved(net, loc), c) == Flight(net, c)
  {
    var net' := Moved(net, loc);
    var x := At(net, loc)[0];
    forall i | 0 <= i < |Route(c)| ensures Lane(At(net', Route(c)[i]), c) == Lane(At(net, Route(c)[i]), c) {
      LaneHead(At(net, loc), c);
      var to := NextLoc(loc, x.event);
      LaneAppend(At(net, to), x.(hop := x.hop + 1), c);
      LaneAppend(At(net, to), x, c);
    }
    AlongSame(net', net, Route(c), c);
  }

  /** A packet passes from one lane of the way to the next. */
  lemma AlongPair(net: Net, net': Net, to: Loc, loc: Loc, c: Channel, e: Event)
    requires Lane(At(net', to), c) == Lane(At(net, to), c) + [e]
    requires Lane(At(net, loc), c) == [e] + Lane(At(net', loc), c)
    ensures Along(net', [to, loc], c) == Along(net, [to, loc], c)
  {
    AlongTwo(net, to, loc, c);
    AlongTwo(net', to, loc, c);
    Regroup(Lane(At(net, to), c), [e], Lane(At(net', loc), c));
  }

  lemma AlongMiddle(net: Net, net': Net, a: seq<Loc>, m: seq<Loc>, b: seq<Loc>, c: Channel)
    requires forall i :: 0 <= i < |a| ==> At(net, a[i]) == At(net', a[i])
    requires forall i :: 0 <= i < |b| ==> At(net, b[i]) == At(net', b[i])
    requires Along(net, m, c) == Along(net', m, c)
    ensures Along(net, a + (m + b), c) == Along(net', a + (m + b), c)
  {
    AlongSame(net', net, a, c);
    AlongSame(net', net, b, c);
    AlongSplit(net, a, m + b, c);
    AlongSplit(net, m, b, c);
    AlongSplit(net', a, m + b, c);
    AlongSplit(net', m, b, c);
  }

  /** One event passes from place `i` of the way to the place before it. */
  ghost predicate Passed(net: Net, net': Net, locs: seq<Loc>, i: nat, c: Channel, e: Event) {
    && 0 < i < |locs|
    && (forall j :: 0 <= j < |locs| && j != i && j != i - 1 ==> At(net, locs[j]) == At(net', locs[j]))
    && Lane(At(net', locs[i - 1]), c) == Lane(At(net, locs[i - 1]), c) + [e]
    && Lane(At(net, locs[i]), c) == [e] + Lane(At(net', locs[i]), c)
  }

  lemma AlongPassed(net: Net, net': Net, locs: seq<Loc>, i: nat, c: Channel, e: Event)
    requires Passed(net, net', locs, i, c, e)
    ensures Along(net, locs, c) == Along(net', locs, c)
  {
    var a, m, b := locs[..i - 1], [locs[i - 1], locs[i]], locs[i + 1..];
    assert locs == a + (m + b);
    AlongPair(net, net', locs[i - 1], locs[i], c, e);
    AlongMiddle(net, net', a, m, b, c);
  }

  /** A move passes its packet one place along its route. */
  lemma MovedPasses(net: Net, loc: Loc, i: nat)
    requires CanMove(net, loc)
    requires var r := Route(ChannelOf(At(net, loc)[0].event));
      && 0 < i < |r| && r[i] == loc && r[i - 1] == NextLoc(loc, At(net, loc)[0].event)
      && (forall j :: 0 <= j < |r| && j != i ==> r[j] != loc)
      && (forall j :: 0 <= j < |r| && j != i - 1 ==> r[j] != NextLoc(loc, At(net, loc)[0].event))
    ensures var e := At(net, loc)[0].event;
      Passed(net, Moved(net, loc), Route(ChannelOf(e)), i, ChannelOf(e), e)
  {
    var x := At(net, loc)[0];
    var c := ChannelOf(x.event);
    LaneHead(At(net, loc), c);
    LaneAppend(At(net, NextLoc(loc, x.event)), if loc.Out? then x.(hop := x.hop + 1) else x, c);
  }

  /** Moving a packet one place along its route keeps the order of its channel. */
  lemma MovedOwn(net: Net, loc: Loc)
    requires CanMove(net, loc) && Placed(net)
    ensures var c := ChannelOf(At(net, loc)[0].event); Flight(Moved(net, loc), c) == Flight(net, c)
  {
    var e := At(net, loc)[0].event;
    var i := RouteStep(e, loc);
    MovedPasses(net, loc, i);
    AlongPassed(net, Moved(net, loc), Route(ChannelOf(e)), i, ChannelOf(e), e);
  }

  /** No move loses, duplicates or reorders an event of any channel. */
  lemma MovedFlight(net: Net, loc: Loc, c: Channel)
    requires CanMove(net, loc) && Placed(net)
    ensures Flight(Moved(net, loc), c) == Flight(net, c)
  {
    var e := At(net, loc)[0].event;
    if ChannelOf(e) == c {
      MovedOwn(net, loc);
    } else {
      MovedOther(net, loc, c);
    }
  }

  lemma MovedPlaced(net: Net, loc: Loc)
    requires CanMove(net, loc) && Placed(net)
    ensures Placed(Moved(net, loc))
  {
    var net' := Moved(net, loc);
    var x := At(net, loc)[0];
    var k := RouteStep(x.event, loc);
    var to := NextLoc(loc, x.event);
    forall l, i | 0 <= i < |At(net', l)| ensures
      l in Route(ChannelOf(At(net', l)[i].event)) && At(net', l)[i].hop == Crossed(l, ChannelOf(At(net', l)[i].event))
    {
      if l == loc {
        assert At(net', l)[i] == At(net, loc)[i + 1];
      } else if l == to && i == |At(net, to)| {
        assert to == Route(ChannelOf(x.event))[k - 1];
      } else {
        assert At(net', l)[i] == At(net, l)[i];
      }
    }
  }

  lemma RouteEnds(e: Event)
    ensures var r := Route(ChannelOf(e));
      && r != []
      && r[|r| - 1] == Source(e) && (forall j :: 0 <= j < |r| - 1 ==> r[j] != Source(e))
      && r[0] == In(e.dst, Priority(e.msg)) && (forall j :: 0 < j < |r| ==> r[j] != In(e.dst, Priority(e.msg)))
  {
  }

  /** A lane at one end of the way grows or shrinks. */
  lemma AlongLast(net: Net, net': Net, a: seq<Loc>, loc: Loc, c: Channel, more: seq<Event>)
    requires forall i :: 0 <= i < |a| ==> At(net, a[i]) == At(net', a[i])
    requires Lane(At(net', loc), c) == Lane(At(net, loc), c) + more
    ensures Along(net', a + [loc], c) == Along(net, a + [loc], c) + more
  {
    AlongSame(net', net, a, c);
    AlongSplit(net, a, [loc], c);
    AlongSplit(net', a, [loc], c);
    AlongOne(net, loc, c);
    AlongOne(net', loc, c);
    Regroup(Along(net, a, c), Lane(At(net, loc), c), more);
  }

  lemma AlongOne(net: Net, loc: Loc, c: Channel)
    ensures Along(net, [loc], c) == Lane(At(net, loc), c)
  {
    assert [loc][1..] == [];
  }

  lemma AlongFirst(net: Net, net': Net, r: seq<Loc>, c: Channel, more: seq<Event>)
    requires r != [] && forall i :: 0 < i < |r| ==> At(net, r[i]) == At(net', r[i])
    requires Lane(At(net, r[0]), c) == more + Lane(At(net', r[0]), c)
    ensures Along(net, r, c) == more + Along(net', r, c)
  {
    AlongSame(net', net, r[1..], c);
    Regroup(more, Lane(At(net', r[0]), c), Along(net, r[1..], c));
  }

  /** Emitting an event puts it at the end of its channel. */
  lemma SentFlight(net: Net, e: Event, c: Channel)
    ensures Flight(Sent(net, e), c) == Flight(net, c) + if ChannelOf(e) == c then [e] else []
  {
    var net' := Sent(net, e);
    var r := Route(c);
    LaneAppend(At(net, Source(e)), Packet(e, 0), c);
    if ChannelOf(e) == c {
      RouteEnds(e);
      assert r == r[..|r| - 1] + [Source(e)];
      AlongLast(net, net', r[..|r| - 1], Source(e), c, [e]);
    } else {
      assert Lane(At(net', Source(e)), c) == Lane(At(net, Source(e)), c);
      AlongSame(net', net, r, c);
    }
  }

  lemma SentPlaced(net: Net, e: Event)
    requires Placed(net)
    ensures Placed(Sent(net, e))
  {
    var net' := Sent(net, e);
    var loc := Source(e);
    forall l, i | 0 <= i < |At(net', l)| ensures
      l in Route(ChannelOf(At(net', l)[i].event)) && At(net', l)[i].hop == Crossed(l, ChannelOf(At(net', l)[i].event))
    {
      if l == loc && i == |At(net, loc)| {
        assert loc == Route(ChannelOf(e))[|Route(ChannelOf(e))| - 1];
      } else {
        assert At(net', l)[i] == At(net, l)[i];
      }
    }
  }

  /** The event an engine takes is the oldest of its channel. */
  lemma TakenFlight(net: Net, d: Engine, p: nat, c: Channel)
    requires At(net, In(d, p)) != [] && Placed(net)
    ensures var e := At(net, In(d, p))[0].event;
      Flight(net, c) == (if ChannelOf(e) == c then [e] else []) + Flight(Taken(net, d, p), c)
  {
    var e := At(net, In(d, p))[0].event;
    var net' := Taken(net, d, p);
    var r := Route(c);
    LaneHead(At(net, In(d, p)), c);
    if ChannelOf(e) == c {
      assert r[0] == In(d, p) by { RouteArrival(e, In(d, p)); }
      RouteEnds(e);
      AlongFirst(net, net', r, c, [e]);
    } else {
      assert Lane(At(net', In(d, p)), c) == Lane(At(net, In(d, p)), c);
      AlongSame(net', net, r, c);
    }
  }

  lemma RouteArrival(e: Event, loc: Loc)
    requires loc.In? && loc in Route(ChannelOf(e))
    ensures loc == In(e.dst, Priority(e.msg))
  {
  }

  lemma TakenPlaced(net: Net, d: Engine, p: nat)
    requires At(net, In(d, p)) != [] && Placed(net)
    ensures Placed(Taken(net, d, p))
  {
    var net' := Taken(net, d, p);
    forall l, i | 0 <= i < |At(net', l)| ensures
      l in Route(ChannelOf(At(net', l)[i].event)) && At(net', l)[i].hop == Crossed(l, ChannelOf(At(net', l)[i].event))
    {
      assert At(net', l)[i] == At(net, l)[if l == In(d, p) then i + 1 else i];
    }
  }
}
