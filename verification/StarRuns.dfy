/** What the star network promises over every run. */
module StarRuns {
  import opened Seqs
  import opened ServiceSpec
  import opened Protocol
  import opened Star

  datatype NetStep = Emit(event: Event) | Move(loc: Loc) | Take(engine: Engine, pri: nat)

  /** A network with its past: emitted events, moves (by the event moved) and taken events. */
  datatype Traffic = Traffic(net: Net, sent: seq<Event>, moves: seq<Event>, received: seq<Event>)

  predicate Possible(cfg: Config, t: Traffic, step: NetStep) {
    match step
    case Emit(e) => Engines(cfg, e.src) && Engines(cfg, e.dst)
    case Move(loc) => CanMove(t.net, loc)
    case Take(d, p) => At(t.net, In(d, p)) != []
  }

  function Performed(cfg: Config, t: Traffic, step: NetStep): Traffic
    requires Possible(cfg, t, step)
  {
    match step
    case Emit(e) => t.(net := Sent(t.net, e), sent := t.sent + [e])
    case Move(loc) => t.(net := Moved(t.net, loc), moves := t.moves + [At(t.net, loc)[0].event])
    case Take(d, p) => t.(net := Taken(t.net, d, p), received := t.received + [At(t.net, In(d, p))[0].event])
  }

  /** The last of `steps` leads from `u` to `t`. */
  ghost predicate LastStep(cfg: Config, u: Traffic, steps: seq<NetStep>, t: Traffic) {
    steps != [] && Possible(cfg, u, steps[|steps| - 1]) && t == Performed(cfg, u, steps[|steps| - 1])
  }

  /** `t` is what the steps make of an empty network. */
  ghost predicate Reaches(cfg: Config, steps: seq<NetStep>, t: Traffic)
    decreases |steps|
  {
    if steps == [] then t == Traffic(map[], [], [], [])
    else exists u :: LastStep(cfg, u, steps, t) && Reaches(cfg, steps[..|steps| - 1], u)
  }

  function Of(s: seq<Event>, c: Channel): seq<Event> { Filter(s, OnChannel(c)) }

  lemma OfOne(s: seq<Event>, e: Event, c: Channel)
    ensures Of(s + [e], c) == Of(s, c) + if ChannelOf(e) == c then [e] else []
  {
    FilterAppend(s, [e], OnChannel(c));
    assert [e][1..] == [];
  }

  // ----- how far the packets still have to go -----

  /** The moves the packets along the way still need: each counts its distance. */
  function Toil(net: Net, locs: seq<Loc>, c: Channel): nat {
    if locs == [] then 0 else |Along(net, locs[1..], c)| + Toil(net, locs[1..], c)
  }

  function Remaining(net: Net, c: Channel): nat { Toil(net, Route(c), c) }

  /** The moves each event of the channel takes. */
  function Distance(c: Channel): nat { |Route(c)| - 1 }

  lemma {:induction false} ToilSame(net: Net, net': Net, locs: seq<Loc>, c: Channel)
    requires forall i :: 0 < i < |locs| ==> Lane(At(net, locs[i]), c) == Lane(At(net', locs[i]), c)
    ensures Toil(net, locs, c) == Toil(net', locs, c)
  {
    if locs != [] {
      AlongSame(net, net', locs[1..], c);
      ToilSame(net, net', locs[1..], c);
    }
  }

  lemma {:induction false} ToilPassed(net: Net, net': Net, locs: seq<Loc>, i: nat, c: Channel, e: Event)
    requires Passed(net, net', locs, i, c, e)
    ensures Toil(net, locs, c) == Toil(net', locs, c) + 1
    decreases i
  {
    var rest := locs[1..];
    if i == 1 {
      AlongFirst(net, net', rest, c, [e]);
      ToilSame(net, net', rest, c);
    } else {
      assert Passed(net, net', rest, i - 1, c, e);
      AlongPassed(net, net', rest, i - 1, c, e);
      ToilPassed(net, net', rest, i - 1, c, e);
    }
  }

  lemma MovedToilOwn(net: Net, loc: Loc)
    requires CanMove(net, loc) && Placed(net)
    ensures var c := ChannelOf(At(net, loc)[0].event); Remaining(net, c) == Remaining(Moved(net, loc), c) + 1
  {
    var e := At(net, loc)[0].event;
    var i := RouteStep(e, loc);
    MovedPasses(net, loc, i);
    ToilPassed(net, Moved(net, loc), Route(ChannelOf(e)), i, ChannelOf(e), e);
  }

  lemma MovedToilOther(net: Net, loc: Loc, c: Channel)
    requires CanMove(net, loc) && ChannelOf(At(net, loc)[0].event) != c
    ensures Remaining(net, c) == Remaining(Moved(net, loc), c)
  {
    var x := At(net, loc)[0];
    var to := NextLoc(loc, x.event);
    var net' := Moved(net, loc);
    LaneHead(At(net, loc), c);
    LaneAppend(At(net, to), if loc.Out? then x.(hop := x.hop + 1) else x, c);
    assert Lane(At(net', loc), c) == Lane(At(net, loc), c);
    assert Lane(At(net', to), c) == Lane(At(net, to), c);
    ToilSame(net, net', Route(c), c);
  }

  lemma {:induction false} ToilLast(net: Net, net': Net, a: seq<Loc>, loc: Loc, c: Channel, e: Event)
    requires forall i :: 0 <= i < |a| ==> At(net, a[i]) == At(net', a[i])
    requires Lane(At(net', loc), c) == Lane(At(net, loc), c) + [e]
    ensures Toil(net', a + [loc], c) == Toil(net, a + [loc], c) + |a|
  {
    if a == [] {
      assert a + [loc] == [loc] && [loc][1..] == [];
    } else {
      assert (a + [loc])[1..] == a[1..] + [loc];
      AlongLast(net, net', a[1..], loc, c, [e]);
      ToilLast(net, net', a[1..], loc, c, e);
    }
  }

  lemma SentToil(net: Net, e: Event, c: Channel)
    ensures Remaining(Sent(net, e), c) == Remaining(net, c) + if ChannelOf(e) == c then Distance(c) else 0
  {
    var net' := Sent(net, e);
    var r := Route(c);
    LaneAppend(At(net, Source(e)), Packet(e, 0), c);
    if ChannelOf(e) == c {
      RouteEnds(e);
      assert r == r[..|r| - 1] + [Source(e)];
      ToilLast(net, net', r[..|r| - 1], Source(e), c, e);
    } else {
      assert Lane(At(net', Source(e)), c) == Lane(At(net, Source(e)), c);
      ToilSame(net, net', r, c);
    }
  }

  /** No place of a route but the first is an input queue, so taking costs no moves. */
  lemma TakenToil(net: Net, d: Engine, p: nat, c: Channel)
    requires At(net, In(d, p)) != []
    ensures Remaining(Taken(net, d, p), c) == Remaining(net, c)
  {
    ToilSame(net, Taken(net, d, p), Route(c), c);
  }

  // ----- the theorems -----

  ghost predicate TrafficOk(t: Traffic, c: Channel) {
    && Of(t.sent, c) == Of(t.received, c) + Flight(t.net, c)
    && |Of(t.moves, c)| + Remaining(t.net, c) == Distance(c) * |Of(t.sent, c)|
  }

  lemma EmitOk(t: Traffic, e: Event, c: Channel)
    requires TrafficOk(t, c)
    ensures TrafficOk(t.(net := Sent(t.net, e), sent := t.sent + [e]), c)
  {
    EmitFlight(t, e, c);
    EmitToil(t, e, c);
  }

  lemma EmitFlight(t: Traffic, e: Event, c: Channel)
    requires Of(t.sent, c) == Of(t.received, c) + Flight(t.net, c)
    ensures Of(t.sent + [e], c) == Of(t.received, c) + Flight(Sent(t.net, e), c)
  {
    SentFlight(t.net, e, c);
    OfOne(t.sent, e, c);
    Regroup(Of(t.received, c), Flight(t.net, c), if ChannelOf(e) == c then [e] else []);
  }

  lemma EmitToil(t: Traffic, e: Event, c: Channel)
    requires |Of(t.moves, c)| + Remaining(t.net, c) == Distance(c) * |Of(t.sent, c)|
    ensures |Of(t.moves, c)| + Remaining(Sent(t.net, e), c) == Distance(c) * |Of(t.sent + [e], c)|
  {
    SentToil(t.net, e, c);
    OfOne(t.sent, e, c);
    OneMore(Distance(c), |Of(t.sent, c)|);
  }

  lemma OneMore(d: nat, n: nat)
    ensures d * (n + 1) == d * n + d
  {
  }

  lemma MoveOk(t: Traffic, loc: Loc, c: Channel)
    requires Placed(t.net) && TrafficOk(t, c) && CanMove(t.net, loc)
    ensures TrafficOk(t.(net := Moved(t.net, loc), moves := t.moves + [At(t.net, loc)[0].event]), c)
  {
    MovedFlight(t.net, loc, c);
    OfOne(t.moves, At(t.net, loc)[0].event, c);
    if ChannelOf(At(t.net, loc)[0].event) == c {
      MovedToilOwn(t.net, loc);
    } else {
      MovedToilOther(t.net, loc, c);
    }
  }

  lemma TakeOk(t: Traffic, d: Engine, p: nat, c: Channel)
    requires Placed(t.net) && TrafficOk(t, c) && At(t.net, In(d, p)) != []
    ensures TrafficOk(t.(net := Taken(t.net, d, p), received := t.received + [At(t.net, In(d, p))[0].event]), c)
  {
    TakenFlight(t.net, d, p, c);
    TakenToil(t.net, d, p, c);
    var e := At(t.net, In(d, p))[0].event;
    OfOne(t.received, e, c);
    Regroup(Of(t.received, c), if ChannelOf(e) == c then [e] else [], Flight(Taken(t.net, d, p), c));
  }

  /** Every packet names engines of the star. */
  ghost predicate Known(cfg: Config, net: Net) {
    forall loc, i | 0 <= i < |At(net, loc)| ::
      Engines(cfg, At(net, loc)[i].event.src) && Engines(cfg, At(net, loc)[i].event.dst)
  }

  lemma KnownStep(cfg: Config, t: Traffic, step: NetStep)
    requires Known(cfg, t.net) && Possible(cfg, t, step)
    ensures Known(cfg, Performed(cfg, t, step).net)
  {
    var net, net' := t.net, Performed(cfg, t, step).net;
    forall l, i | 0 <= i < |At(net', l)| ensures
      Engines(cfg, At(net', l)[i].event.src) && Engines(cfg, At(net', l)[i].event.dst)
    {
      var q := At(net', l)[i].event;
      match step
      case Emit(e) => assert q == e || (i < |At(net, l)| && q == At(net, l)[i].event);
      case Move(loc) =>
        assert q == At(net, loc)[0].event || (i < |At(net, l)| && q == At(net, l)[i].event)
          || (l == loc && q == At(net, l)[i + 1].event);
      case Take(d, p) =>
        assert if l == In(d, p) then q == At(net, l)[i + 1].event else q == At(net, l)[i].event;
    }
  }

  lemma {:induction false} PlacedAlways(cfg: Config, steps: seq<NetStep>, t: Traffic)
    requires Reaches(cfg, steps, t)
    ensures Placed(t.net) && Known(cfg, t.net)
    decreases |steps|
  {
    if steps != [] {
      var last := steps[|steps| - 1];
      var u :| LastStep(cfg, u, steps, t) && Reaches(cfg, steps[..|steps| - 1], u);
      PlacedAlways(cfg, steps[..|steps| - 1], u);
      KnownStep(cfg, u, last);
      match last
      case Emit(e) => SentPlaced(u.net, e);
      case Move(loc) => MovedPlaced(u.net, loc);
      case Take(d, p) => TakenPlaced(u.net, d, p);
    }
  }

  /** Exactly once and in order: on every channel (source, destination, priority) the
      events taken at the destination, followed by those in flight, are the events emitted. */
  lemma {:induction false} DeliveredInOrder(cfg: Config, steps: seq<NetStep>, t: Traffic, c: Channel)
    requires Reaches(cfg, steps, t)
    ensures Of(t.sent, c) == Of(t.received, c) + Flight(t.net, c)
    ensures |Of(t.moves, c)| + Remaining(t.net, c) == Distance(c) * |Of(t.sent, c)|
    decreases |steps|
  {
    if steps != [] {
      var last := steps[|steps| - 1];
      var u :| LastStep(cfg, u, steps, t) && Reaches(cfg, steps[..|steps| - 1], u);
      DeliveredInOrder(cfg, steps[..|steps| - 1], u, c);
      PlacedAlways(cfg, steps[..|steps| - 1], u);
      match last
      case Emit(e) => EmitOk(u, e, c);
      case Move(loc) => MoveOk(u, loc, c);
      case Take(d, p) => TakeOk(u, d, p, c);
    } else {
      EmptyFlight(Route(c), c);
    }
  }

  lemma {:induction false} EmptyFlight(locs: seq<Loc>, c: Channel)
    ensures Along(map[], locs, c) == [] && Toil(map[], locs, c) == 0
  {
    if locs != [] { EmptyFlight(locs[1..], c); }
  }

  /** A packet is only ever taken at its destination, at its own priority, after at most two
      bridge crossings, and never reaches the hop limit. */
  lemma HopsBounded(cfg: Config, steps: seq<NetStep>, t: Traffic, loc: Loc, i: nat)
    requires Reaches(cfg, steps, t) && i < |At(t.net, loc)|
    ensures At(t.net, loc)[i].hop <= 2 < MAX_HOP
    ensures var e := At(t.net, loc)[i].event;
      && (loc.In? ==> loc == In(e.dst, Priority(e.msg)))
      && (loc.Out? ==> loc.engine != e.dst && loc.pri == Priority(e.msg))
  {
    PlacedAlways(cfg, steps, t);
    var e := At(t.net, loc)[i].event;
    assert loc in Route(ChannelOf(e));
    if loc.In? { RouteArrival(e, loc); }
  }

  /** The network never jams: what has not arrived can move, and when nothing can move every
      event in flight waits in the input queue of its destination. */
  lemma NeverJams(cfg: Config, steps: seq<NetStep>, t: Traffic, c: Channel)
    requires Reaches(cfg, steps, t)
    requires forall loc :: !CanMove(t.net, loc)
    ensures Remaining(t.net, c) == 0 && Flight(t.net, c) == Lane(At(t.net, In(c.1, c.2)), c)
  {
    forall loc: Loc | !loc.In? ensures At(t.net, loc) == [] {
      if At(t.net, loc) != [] {
        HopsBounded(cfg, steps, t, loc, 0);
        assert CanMove(t.net, loc);
      }
    }
    var r := Route(c);
    assert r[0] == In(c.1, c.2) && forall i :: 0 < i < |r| ==> !r[i].In?;
    Empty(t.net, r[1..], c);
  }

  lemma {:induction false} Empty(net: Net, locs: seq<Loc>, c: Channel)
    requires forall i :: 0 <= i < |locs| ==> At(net, locs[i]) == []
    ensures Along(net, locs, c) == [] && Toil(net, locs, c) == 0
  {
    if locs != [] { Empty(net, locs[1..], c); }
  }

  /** The scheduler's own choice of bridge is the move of the model. */
  lemma MovesAsRouted(cfg: Config, steps: seq<NetStep>, t: Traffic, x: Engine, p: nat, last: nat)
    requires Reaches(cfg, steps, t) && At(t.net, Out(x, p)) != []
    requires last < |Bridges(cfg, x)|
    ensures var e := At(t.net, Out(x, p))[0].event;
      var pick := Via(cfg, x, e.dst, last);
      && CanMove(t.net, Out(x, p))
      && pick.Bridge? && pick.index < |Bridges(cfg, x)|
      && NextLoc(Out(x, p), e) == Wire(x, Bridges(cfg, x)[pick.index])
  {
    HopsBounded(cfg, steps, t, Out(x, p), 0);
    PlacedAlways(cfg, steps, t);
    assert Out(x, p) in Route(ChannelOf(At(t.net, Out(x, p))[0].event));
    ViaStar(cfg, x, At(t.net, Out(x, p))[0].event.dst, last);
  }
}
