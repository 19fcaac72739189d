/** The protocol on top of the star network. */
module OnStar {
  // Its runs are runs of the protocol over abstract FIFO channels, so every theorem about those
  // holds on the real topology.

  import opened Seqs
  import opened QueueSpec
  import opened ServiceSpec
  import opened TxnSpec
  import opened Protocol
  import opened Invariants
  import opened Star
  import opened StarRuns
  import opened Runs
  import opened Tokens
  import opened Resume

  datatype Whole = Whole(local: Local, net: Net)

  datatype WholeStep =
    | Environment(step: Step)                          // an arrival, an endpoint reply, a timer, a new job
    | Consume(engine: Engine, pri: nat, choice: Choice)   // an engine runs its oldest event of one priority
    | Shift(loc: Loc)                                  // a packet moves one place

  ghost predicate WholeEnabled(cfg: Config, w: Whole, step: WholeStep) {
    match step
    case Environment(st) => !st.Deliver? && Enabled(cfg, State(w.local, []), st)
    case Consume(d, p, choice) => At(w.net, In(d, p)) != [] && LegalChoice(cfg, w.local, choice)
    case Shift(loc) => CanMove(w.net, loc)
  }

  ghost function WholeEffect(cfg: Config, w: Whole, step: WholeStep): Effect
    requires WholeEnabled(cfg, w, step)
  {
    match step
    case Environment(st) => Perform(cfg, State(w.local, []), st).0
    case Consume(d, p, choice) => Handle(cfg, w.local, At(w.net, In(d, p))[0].event, choice)
    case Shift(loc) => Effect(w.local, [])
  }

  ghost predicate WholeNext(cfg: Config, w: Whole, step: WholeStep, w': Whole) {
    && WholeEnabled(cfg, w, step)
    && var eff := WholeEffect(cfg, w, step);
       && eff.Effect? && w'.local == eff.local
       && match step
          case Environment(_) => w'.net == SentAll(w.net, eff.sent)
          case Consume(d, p, _) => w'.net == SentAll(Taken(w.net, d, p), eff.sent)
          case Shift(loc) => w'.net == Moved(w.net, loc)
  }

  ghost predicate IsWholeRun(cfg: Config, trace: seq<Whole>, steps: seq<WholeStep>) {
    && |trace| == |steps| + 1
    && trace[0].net == map[] && Initial(State(trace[0].local, []))
    && forall i :: 0 <= i < |steps| ==> WholeNext(cfg, trace[i], steps[i], trace[i + 1])
  }

  /** The network holds, channel by channel, the same events in the same order. */
  ghost predicate Matches(net: Net, events: seq<Event>) {
    forall c :: Of(events, c) == Flight(net, c)
  }

  lemma {:induction false} SentAllFlight(net: Net, sent: seq<Event>, c: Channel)
    ensures Flight(SentAll(net, sent), c) == Flight(net, c) + Of(sent, c)
    decreases |sent|
  {
    if sent != [] {
      SentFlight(net, sent[0], c);
      SentAllFlight(Sent(net, sent[0]), sent[1..], c);
      Regroup(Flight(net, c), if ChannelOf(sent[0]) == c then [sent[0]] else [], Of(sent[1..], c));
    }
  }

  lemma {:induction false} SentAllPlaced(net: Net, sent: seq<Event>)
    requires Placed(net)
    ensures Placed(SentAll(net, sent))
    decreases |sent|
  {
    if sent != [] {
      SentPlaced(net, sent[0]);
      SentAllPlaced(Sent(net, sent[0]), sent[1..]);
    }
  }

  /** The first event of a channel can be delivered. */
  lemma {:induction false} Oldest(events: seq<Event>, c: Channel) returns (i: nat)
    requires Of(events, c) != []
    ensures Deliverable(events, i) && events[i] == Of(events, c)[0] && ChannelOf(events[i]) == c
  {
    if ChannelOf(events[0]) == c {
      i := 0;
    } else {
      var j := Oldest(events[1..], c);
      i := j + 1;
      forall k | 0 <= k < i ensures ChannelOf(events[k]) != c {
        if k > 0 { assert events[k] == events[1..][k - 1]; }
      }
    }
  }

  /** Delivering it leaves the rest of its channel and every other channel as they were. */
  lemma OldestRemoved(events: seq<Event>, i: nat, c: Channel)
    requires Deliverable(events, i)
    ensures Of(events, c) == (if ChannelOf(events[i]) == c then [events[i]] else []) + Of(Remove(events, i), c)
  {
    var a, b := events[..i], events[i + 1..];
    assert events == a + ([events[i]] + b);
    FilterAppend(a, [events[i]] + b, OnChannel(c));
    FilterAppend([events[i]], b, OnChannel(c));
    FilterAppend(a, b, OnChannel(c));
    assert Of([events[i]], c) == if ChannelOf(events[i]) == c then [events[i]] else [] by {
      assert [events[i]][1..] == [];
    }
    if ChannelOf(events[i]) == c {
      FilterNone(a, OnChannel(c));
    }
  }

  lemma MatchesSent(net: Net, events: seq<Event>, sent: seq<Event>)
    requires Matches(net, events)
    ensures Matches(SentAll(net, sent), events + sent)
  {
    forall c ensures Of(events + sent, c) == Flight(SentAll(net, sent), c) {
      FilterAppend(events, sent, OnChannel(c));
      SentAllFlight(net, sent, c);
    }
  }

  /** Taking an event from an input queue is delivering the oldest of its channel. */
  lemma MatchesTaken(net: Net, events: seq<Event>, d: Engine, p: nat) returns (i: nat)
    requires Matches(net, events) && Placed(net) && At(net, In(d, p)) != []
    ensures Deliverable(events, i) && events[i] == At(net, In(d, p))[0].event
    ensures Matches(Taken(net, d, p), Remove(events, i))
  {
    var e := At(net, In(d, p))[0].event;
    TakenFlight(net, d, p, ChannelOf(e));
    i := Oldest(events, ChannelOf(e));
    forall c ensures Of(Remove(events, i), c) == Flight(Taken(net, d, p), c) {
      OldestRemoved(events, i, c);
      TakenFlight(net, d, p, c);
      var first := if ChannelOf(e) == c then [e] else [];
      assert first + Of(Remove(events, i), c) == first + Flight(Taken(net, d, p), c);
      assert (first + Of(Remove(events, i), c))[|first|..] == Of(Remove(events, i), c);
      assert (first + Flight(Taken(net, d, p), c))[|first|..] == Flight(Taken(net, d, p), c);
    }
  }

  lemma EnabledAnywhere(cfg: Config, s: State, step: Step)
    requires !step.Deliver?
    ensures Enabled(cfg, s, step) <==> Enabled(cfg, State(s.local, []), step)
    ensures Enabled(cfg, s, step) ==> Perform(cfg, s, step) == (Perform(cfg, State(s.local, []), step).0, s.net)
  {
  }

  /** One step on the star is one step of the protocol, or none. */
  lemma Simulates(cfg: Config, w: Whole, step: WholeStep, w': Whole, events: seq<Event>)
    returns (more: seq<Step>, events': seq<Event>)
    requires WholeNext(cfg, w, step, w') && Placed(w.net) && Matches(w.net, events)
    ensures Placed(w'.net) && Matches(w'.net, events')
    ensures more == [] ==> w'.local == w.local && events' == events
    ensures more != [] ==> |more| == 1 && Next(cfg, State(w.local, events), more[0], State(w'.local, events'))
  {
    var eff := WholeEffect(cfg, w, step);
    match step
    case Environment(st) =>
      EnabledAnywhere(cfg, State(w.local, events), st);
      MatchesSent(w.net, events, eff.sent);
      SentAllPlaced(w.net, eff.sent);
      return [st], events + eff.sent;
    case Consume(d, p, choice) =>
      var i := MatchesTaken(w.net, events, d, p);
      TakenPlaced(w.net, d, p);
      MatchesSent(Taken(w.net, d, p), Remove(events, i), eff.sent);
      SentAllPlaced(Taken(w.net, d, p), eff.sent);
      return [Deliver(i, choice)], Remove(events, i) + eff.sent;
    case Shift(loc) =>
      forall c ensures Of(events, c) == Flight(w'.net, c) { MovedFlight(w.net, loc, c); }
      MovedPlaced(w.net, loc);
      return [], events;
  }

  /** The services, transactions and pending work `l` occur in the run up to state `n`. */
  ghost predicate Seen(trace: seq<Whole>, n: nat, l: Local) {
    exists m :: 0 <= m <= n && m < |trace| && trace[m].local == l
  }

  /** Every run on the star refines a run of the protocol over FIFO channels: same services,
      transactions and pending work, same events in flight channel by channel. */
  lemma {:induction false} StarRefines(cfg: Config, trace: seq<Whole>, steps: seq<WholeStep>, n: nat)
    returns (states: seq<State>, taken: seq<Step>)
    requires IsWholeRun(cfg, trace, steps) && n < |trace|
    ensures IsRun(cfg, states, taken)
    ensures states[|taken|].local == trace[n].local && Matches(trace[n].net, states[|taken|].net)
    ensures Placed(trace[n].net)
    ensures forall j :: 0 <= j < |states| ==> Seen(trace, n, states[j].local)
  {
    if n == 0 {
      states, taken := [State(trace[0].local, [])], [];
      MatchesEmpty();
      assert trace[0].local == states[0].local;
    } else {
      var before, did := StarRefines(cfg, trace, steps, n - 1);
      assert WholeNext(cfg, trace[n - 1], steps[n - 1], trace[n]);
      states, taken := RefineStep(cfg, trace[n - 1], steps[n - 1], trace[n], before, did);
      forall j | 0 <= j < |states| ensures Seen(trace, n, states[j].local) {
        if j < |before| {
          assert states[j] == before[j];
          SeenLater(trace, n - 1, states[j].local);
        } else {
          assert trace[n].local == states[j].local;
        }
      }
    }
  }

  lemma SeenLater(trace: seq<Whole>, n: nat, l: Local)
    requires Seen(trace, n, l)
    ensures Seen(trace, n + 1, l)
  {
  }

  lemma MatchesEmpty()
    ensures Matches(map[], []) && Placed(map[])
  {
    forall c ensures Of([], c) == Flight(map[], c) { EmptyFlight(Route(c), c); }
  }

  lemma RefineStep(cfg: Config, w: Whole, step: WholeStep, w': Whole, states: seq<State>, taken: seq<Step>)
    returns (states': seq<State>, taken': seq<Step>)
    requires WholeNext(cfg, w, step, w') && Placed(w.net) && IsRun(cfg, states, taken)
    requires states[|taken|].local == w.local && Matches(w.net, states[|taken|].net)
    ensures IsRun(cfg, states', taken') && Placed(w'.net)
    ensures states'[|taken'|].local == w'.local && Matches(w'.net, states'[|taken'|].net)
    ensures states' == states || states' == states + [State(w'.local, states'[|taken'|].net)]
  {
    var more, events := Simulates(cfg, w, step, w', states[|taken|].net);
    states', taken' := states, taken;
    if more != [] {
      assert State(w.local, states[|taken|].net) == states[|taken|];
      ExtendRun(cfg, states, taken, more[0], State(w'.local, events));
      states', taken' := states + [State(w'.local, events)], taken + [more[0]];
    }
  }

  lemma {:induction false} LaneMember(q: seq<Packet>, i: nat, c: Channel)
    requires i < |q| && ChannelOf(q[i].event) == c
    ensures q[i].event in Lane(q, c)
  {
    assert Map(Payload(), q)[i] == q[i].event;
    FilterMembers(Map(Payload(), q), OnChannel(c));
  }

  lemma {:induction false} AlongMember(net: Net, locs: seq<Loc>, loc: Loc, c: Channel, e: Event)
    requires loc in locs && e in Lane(At(net, loc), c)
    ensures e in Along(net, locs, c)
  {
    if locs[0] != loc { AlongMember(net, locs[1..], loc, c, e); }
  }

  /** A packet anywhere in the network is an event in flight of the protocol. */
  lemma PacketInFlight(net: Net, events: seq<Event>, loc: Loc, i: nat)
    requires Matches(net, events) && Placed(net) && i < |At(net, loc)|
    ensures At(net, loc)[i].event in events
  {
    var e := At(net, loc)[i].event;
    var c := ChannelOf(e);
    assert e in Flight(net, c) by {
      assert loc in Route(c);
      LaneMember(At(net, loc), i, c);
      AlongMember(net, Route(c), loc, c, e);
    }
    assert Of(events, c) == Flight(net, c);
    MemberOf(events, c, e);
  }

  lemma MemberOf(events: seq<Event>, c: Channel, e: Event)
    requires e in Of(events, c)
    ensures e in events
  {
    FilterMembers(events, OnChannel(c));
  }

  /** Exclusion on the star: while a packet anywhere carries a write slot of a service, that
      task is the only scheduled one; while one carries a read slot, only readers are. */
  lemma ExclusionOnStar(cfg: Config, trace: seq<Whole>, steps: seq<WholeStep>, n: nat, loc: Loc, i: nat, v: ServiceId)
    requires IsWholeRun(cfg, trace, steps) && n < |trace| && i < |At(trace[n].net, loc)| && v in trace[n].local.svcs
    ensures var m := At(trace[n].net, loc)[i].event.msg;
      var sv := trace[n].local.svcs[v];
      && (HoldsSlot(m, v, Write) ==> sv.queue.state == Writing && sv.running == 1)
      && (HoldsSlot(m, v, Read) ==> sv.queue.state == Reading && sv.running >= 1)
  {
    var states, taken := StarRefines(cfg, trace, steps, n);
    var s := states[|taken|];
    PacketInFlight(trace[n].net, s.net, loc, i);
    ReaderWriterExclusion(cfg, states, taken, |taken|, v);
    SlotConservation(cfg, states, taken, |taken|, v);
    SumBounds(s.net, SlotW(v, Read));
    SumBounds(s.net, SlotW(v, Write));
    var e := At(trace[n].net, loc)[i].event;
    assert SlotW(v, Read)(e) <= Held(s.net, v, Read);
    assert SlotW(v, Write)(e) <= Held(s.net, v, Write);
  }

  /** On the star too a step fails if and only if it runs one of the three events of `Fails`. */
  lemma HandlersFailExactlyOnStar(cfg: Config, trace: seq<Whole>, steps: seq<WholeStep>, n: nat, step: WholeStep)
    requires IsWholeRun(cfg, trace, steps) && n < |trace| && WholeEnabled(cfg, trace[n], step)
    ensures WholeEffect(cfg, trace[n], step).Crash? <==>
      step.Consume? && Fails(trace[n].local, At(trace[n].net, In(step.engine, step.pri))[0].event, step.choice)
  {
    var states, taken := StarRefines(cfg, trace, steps, n);
    var s := states[|taken|];
    match step
    case Environment(st) =>
      EnabledAnywhere(cfg, s, st);
      HandlersFailExactly(cfg, states, taken, |taken|, st);
    case Consume(d, p, choice) =>
      var i := MatchesTaken(trace[n].net, s.net, d, p);
      HandlersFailExactly(cfg, states, taken, |taken|, Deliver(i, choice));
    case Shift(loc) =>
  }

  /** As long as it lived, up to state `n`, transaction `t` made only calls with callbacks. */
  ghost predicate AlwaysCbsOnStar(trace: seq<Whole>, n: nat, t: TxnId)
    requires n < |trace|
  {
    forall j :: 0 <= j <= n && t in trace[j].local.txns ==> HasCbs(trace[j].local.txns[t])
  }

  lemma SameHistory(trace: seq<Whole>, n: nat, states: seq<State>, t: TxnId)
    requires n < |trace| && states != [] && AlwaysCbsOnStar(trace, n, t)
    requires forall j :: 0 <= j < |states| ==> Seen(trace, n, states[j].local)
    ensures AlwaysCbs(states, |states| - 1, t)
  {
    forall j | 0 <= j < |states| && t in states[j].local.txns ensures HasCbs(states[j].local.txns[t]) {
      assert Seen(trace, n, states[j].local);
    }
  }

  /** On the star too a transaction whose calls carry callbacks never makes a handler fail. */
  lemma NoHandlerFailsOnStar(cfg: Config, trace: seq<Whole>, steps: seq<WholeStep>, n: nat, step: WholeStep)
    requires IsWholeRun(cfg, trace, steps) && n < |trace| && WholeEnabled(cfg, trace[n], step)
    requires step.Consume? ==>
      forall t :: Concerns(At(trace[n].net, In(step.engine, step.pri))[0].event.msg, t) ==> AlwaysCbsOnStar(trace, n, t)
    ensures WholeEffect(cfg, trace[n], step).Effect?
  {
    HandlersFailExactlyOnStar(cfg, trace, steps, n, step);
    if step.Consume? {
      var states, taken := StarRefines(cfg, trace, steps, n);
      var i := MatchesTaken(trace[n].net, states[|taken|].net, step.engine, step.pri);
      forall t | Concerns(states[|taken|].net[i].msg, t) ensures AlwaysCbs(states, |taken|, t) {
        SameHistory(trace, n, states, t);
      }
      NoHandlerFails(cfg, states, taken, |taken|, Deliver(i, step.choice));
    }
  }
}
