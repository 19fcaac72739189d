/** The resume token needs callbacks: one run for each way a call without one breaks it. */
module Counterexamples {
  import opened Seqs
  import opened QueueSpec
  import opened ServiceSpec
  import opened TxnSpec
  import opened Protocol
  import opened Invariants
  import opened Tokens
  import WorkflowLaws

  function Cfg(): Config { Config(1, 0) }

  function Quiet(): Conduct { Conduct(false, [], []) }

  function NoChoice(): Choice { Choice([], Quiet()) }

  /** A prefer-write service with one slot. */
  function Fresh(): Service { Service(Queue(PreferWrite, Idle, 1, Single([])), 0) }

  function Busy(st: QState): Service { Service(Queue(PreferWrite, st, 1, Single([])), 1) }

  function Start(): State { State(Local(map[0 := Fresh()], map[], [], 0), []) }

  lemma DrainNone(st: QState, n: int)
    requires st in {Idle, Reading, Writing}
    ensures var s := Service(Queue(PreferWrite, st, 1, Single([])), n); Drain(s) == (s, [])
  {
  }

  lemma DrainOne(x: SrvTask)
    requires x.kind in {Read, Write}
    ensures Drain(Service(Queue(PreferWrite, Idle, 1, Single([x])), 0)) ==
      (Busy(if x.kind == Read then Reading else Writing), [x])
  {
    var s := Service(Queue(PreferWrite, Idle, 1, Single([x])), 0);
    var st := if x.kind == Read then Reading else Writing;
    assert [x][1..] == [] && [x][..1] == [x];
    assert Pull(s.queue, 1) == (Queue(PreferWrite, Idle, 1, Single([])), [x]);
    DrainNone(st, 1);
    assert [x] + [] == [x];
  }

  // ----- a service call without a callback -----

  function T0(): Txn { NewTxn(1, 2, false, 0) }

  function NoCb(): Call { Call(0, Read, 0, false) }

  function Task0(st: TaskStatus): Task { Task(0, Read, 0, false, st, 0) }

  function T1(): Txn { T0().(state := Running, next := 1, log := [Ran(0)], tasks := [Task0(TaskRunning)], total := 1) }

  function T2(): Txn { T1().(tasks := [Task0(TaskDone)], complete := 1) }

  function Wf(): Event { Event(1, 1, WorkflowRun(0)) }

  function N(l: seq<Event>, sv: Service, t: Txn): State { State(Local(map[0 := sv], map[0 := t], [], 1), l) }

  function Call0(): Event { Event(1, MASTER, IoCall(0, 0, 0, Read, 0)) }
  function Run0(): Event { Event(MASTER, 1, TaskRun(0, 0, 0, Read, 1)) }
  function Cb0(): Event { Event(1, 1, TaskCb(0, 0, 0, Read, TaskDone, true)) }
  function Done0(): Event { Event(1, MASTER, Done(0, 0, Read, true, true)) }

  lemma S1()
    ensures Next(Cfg(), Start(), Arrive(1, 1, 2, false, 0), N([Wf()], Fresh(), T0()))
  {
    assert [] + [Wf()] == [Wf()];
  }

  /** The transaction after its next module ran and made `calls`. */
  function Made(t: Txn, calls: seq<Call>): Txn {
    AddCalls(t.(state := Running, next := t.next + 1, log := t.log + [Ran(t.next)]), calls)
  }

  /** A first module that returns well: the workflow goes on, or waits for its calls. */
  lemma FirstModule(t: Txn, calls: seq<Call>)
    requires t.state == Unpacked && t.timeout <= 0 && t.next < t.modules
    ensures Made(t, calls).pending != 0 ==>
      Run(t, Conduct(false, calls, []), 0) == Ended(Made(t, calls).(state := Suspended), false, false)
    ensures Made(t, calls).pending == 0 && t.next + 1 != t.modules ==>
      Run(t, Conduct(false, calls, []), 0) == Ended(Made(t, calls), true, false)
  {
    var c := Conduct(false, calls, []);
    var r := t.(state := Running);
    assert Run(t, c, 0) == Run(r, c, 1);
    assert Run(r, c, 1) == ModuleRun(r, c, 1);
  }

  lemma MadeNoCb()
    ensures Made(T0(), [NoCb()]) == T1()
  {
    assert Map(TaskOf(), [NoCb()]) == [Task0(TaskRunning)];
    assert T0().tasks + [Task0(TaskRunning)] == [Task0(TaskRunning)];
    SumOne(NoCb(), CbWeight());
    assert T0().log + [Ran(0)] == [Ran(0)];
  }

  lemma SendsCall0()
    ensures IoCalls(1, 0, T1(), 0) + [Wf()] == [Call0(), Wf()]
  {
    assert IoCalls(1, 0, T1(), 0) == [Call0()];
  }

  lemma S2()
    ensures Next(Cfg(), N([Wf()], Fresh(), T0()), Deliver(0, Choice([], Conduct(false, [NoCb()], []))),
                 N([Call0(), Wf()], Fresh(), T1()))
  {
    MadeNoCb();
    SendsCall0();
    assert map[0 := T0()][0 := T1()] == map[0 := T1()];
    ModuleDelivered(N([Wf()], Fresh(), T0()), [NoCb()], T1(), N([Call0(), Wf()], Fresh(), T1()));
  }

  /** A step that runs a first module: its calls are sent; then the workflow waits for them,
      or goes on when there is nothing to wait for. */
  lemma ModuleDelivered(s: State, calls: seq<Call>, t1: Txn, s': State)
    requires s.net == [Wf()] && LegalChoice(Cfg(), s.local, Choice([], Conduct(false, calls, []))) && 0 in s.local.txns
    requires var t := s.local.txns[0]; t.state == Unpacked && t.timeout <= 0 && t.next < t.modules
    requires var m := Made(s.local.txns[0], calls);
      t1 == (if m.pending != 0 then m.(state := Suspended) else m) && (m.pending == 0 ==> m.next != m.modules)
    requires s'.local == s.local.(txns := s.local.txns[0 := t1])
    requires s'.net == IoCalls(1, 0, t1, |s.local.txns[0].tasks|) + (if t1.pending == 0 then [Wf()] else [])
    ensures Next(Cfg(), s, Deliver(0, Choice([], Conduct(false, calls, []))), s')
  {
    FirstModule(s.local.txns[0], calls);
    DeliverOnly(s, Choice([], Conduct(false, calls, [])), s');
  }

  /** The only event in flight is delivered. */
  lemma DeliverOnly(s: State, c: Choice, s': State)
    requires |s.net| == 1 && LegalChoice(Cfg(), s.local, c)
    requires Handle(Cfg(), s.local, s.net[0], c) == Effect(s'.local, s'.net)
    ensures Next(Cfg(), s, Deliver(0, c), s')
  {
    assert Remove(s.net, 0) == [];
    assert [] + s'.net == s'.net;
  }

  lemma S3()
    ensures Next(Cfg(), N([Call0(), Wf()], Fresh(), T1()), Deliver(0, NoChoice()),
                 N([Wf(), Run0()], Busy(Reading), T1()))
  {
    var x := Elem(Read, ApiTask(1, 0, 0, 0));
    assert Push(Fresh().queue, x) == Queue(PreferWrite, Idle, 1, Single([x]));
    DrainOne(x);
    assert Map(ToRun(Cfg(), 0), [x]) == [Run0()];
    assert Remove([Call0(), Wf()], 0) == [Wf()];
    assert [Wf()] + ([] + [Run0()]) == [Wf(), Run0()];
    assert map[0 := Fresh()][0 := Busy(Reading)] == map[0 := Busy(Reading)];
  }

  lemma S4()
    ensures Next(Cfg(), N([Wf(), Run0()], Busy(Reading), T1()), Deliver(1, NoChoice()),
                 N([Wf(), Cb0()], Busy(Reading), T1()))
  {
    assert AddPendings(T1(), 0, 0) == T1();
    assert Remove([Wf(), Run0()], 1) == [Wf()];
    assert [Wf()] + [Cb0()] == [Wf(), Cb0()];
    assert map[0 := T1()][0 := T1()] == map[0 := T1()];
  }

  lemma S5()
    ensures Next(Cfg(), N([Wf(), Cb0()], Busy(Reading), T1()), Deliver(1, NoChoice()),
                 N([Wf(), Done0()], Busy(Reading), T2()))
  {
    assert SetTaskComplete(T1(), 0, TaskDone) == T2();
    assert map[0 := T1()][0 := T2()] == map[0 := T2()];
    CompletionDelivered(N([Wf(), Cb0()], Busy(Reading), T1()), N([Wf(), Done0()], Busy(Reading), T2()));
  }

  /** The completion of a call without a callback, when it is the last. */
  lemma CompletionDelivered(s: State, s': State)
    requires s.net == [Wf(), Cb0()] && 0 in s.local.txns
    requires var t := s.local.txns[0];
      && t.home == 1 && |t.tasks| == 1 && !t.tasks[0].hasCb && t.complete == 0 && t.total == 1
      && s'.local == s.local.(txns := s.local.txns[0 := SetTaskComplete(t, 0, TaskDone)])
      && s'.net == [Wf(), Done0()]
    ensures Next(Cfg(), s, Deliver(1, NoChoice()), s')
  {
    var t1 := SetTaskComplete(s.local.txns[0], 0, TaskDone);
    WorkflowLaws.AddNone(t1);
    assert Callback(s.local.txns[0], 0, TaskDone, false, []) == t1;
    assert IoCalls(1, 0, t1, 1) == [];
    assert HandleTaskCb(Cfg(), s.local, Cb0(), Quiet()) == Effect(s'.local, [] + [Done0()]);
    assert Remove([Wf(), Cb0()], 1) == [Wf()];
    assert [Wf()] + ([] + [Done0()]) == [Wf(), Done0()];
  }

  function Wf2(): Event { Event(MASTER, 1, WorkflowRun(0)) }

  lemma S6()
    ensures Next(Cfg(), N([Wf(), Done0()], Busy(Reading), T2()), Deliver(1, NoChoice()),
                 N([Wf(), Wf2()], Fresh(), T2()))
  {
    assert SetComplete(Busy(Reading)) == Fresh();
    DrainNone(Idle, 0);
    assert Map(ToRun(Cfg(), 0), []) == [];
    assert Remove([Wf(), Done0()], 1) == [Wf()];
    assert [Wf()] + ([Wf2()] + []) == [Wf(), Wf2()];
    assert map[0 := Busy(Reading)][0 := Fresh()] == map[0 := Fresh()];
  }

  function Freed0(): State { State(Local(map[0 := Fresh()], map[], [], 1), [Wf2()]) }

  lemma S7()
    ensures Next(Cfg(), N([Wf(), Wf2()], Fresh(), T2()), Deliver(0, NoChoice()), Freed0())
  {
    assert map[0 := T2()] - {0} == map[];
    FinalDelivered(N([Wf(), Wf2()], Fresh(), T2()), Freed0());
  }

  /** A last module without calls, all earlier calls complete: the transaction is freed. */
  lemma FinalModule(t: Txn)
    requires t.state == Running && t.timeout <= 0 && t.next + 1 == t.modules && !t.hasPack
    requires t.pending == 0 && t.complete >= t.total
    ensures var o := Run(t, Quiet(), 0); o.Ended? && o.freed && !o.again && o.txn.tasks == t.tasks
  {
    var c := Quiet();
    var t1 := t.(next := t.next + 1, log := t.log + [Ran(t.next)]);
    PacksAndEnds(t1.(state := Completed), c, 1);
    WorkflowLaws.AddNone(t1);
    assert Run(t, c, 0) == ModuleRun(t, c, 0);
    assert ModuleRun(t, c, 0) == Run(t1.(state := Completed), c, 1);
  }

  /** A completed workflow without a pack step and a time limit ends at once. */
  lemma PacksAndEnds(t: Txn, c: Conduct, entry: nat)
    requires t.state == Completed && t.timeout <= 0 && !t.hasPack
    ensures Run(t, c, entry) == Ended(t.(state := Destroyed), false, t.complete >= t.total)
  {
    var p := t.(state := Packed);
    assert Run(t, c, entry) == ModulePack(t, c, entry);
    assert ModulePack(t, c, entry) == Run(p, c, entry + 1);
    assert Run(p, c, entry + 1) == Release(p.(state := Destroyed));
  }

  lemma FinalDelivered(s: State, s': State)
    requires s.net == [Wf(), Wf2()] && 0 in s.local.txns
    requires var t := s.local.txns[0];
      && t.state == Running && t.timeout <= 0 && t.next + 1 == t.modules && !t.hasPack
      && t.pending == 0 && t.complete >= t.total
    requires s'.local == s.local.(txns := s.local.txns - {0}) && s'.net == [Wf2()]
    ensures Next(Cfg(), s, Deliver(0, NoChoice()), s')
  {
    var t := s.local.txns[0];
    FinalModule(t);
    var o := Run(t, Quiet(), 0);
    assert IoCalls(1, 0, o.txn, |t.tasks|) == [];
    assert HandleWorkflowRun(Cfg(), s.local, Wf(), Quiet()) == Effect(s'.local, [] + []);
    assert Remove([Wf(), Wf2()], 0) == [Wf2()];
    assert [Wf2()] + ([] + []) == [Wf2()];
  }

  lemma TwoSteps() returns (trace: seq<State>, steps: seq<Step>)
    ensures IsRun(Cfg(), trace, steps) && |steps| == 2 && trace[2] == N([Call0(), Wf()], Fresh(), T1())
  {
    trace, steps := [Start()], [];
    S1();
    ExtendRun(Cfg(), trace, steps, Arrive(1, 1, 2, false, 0), N([Wf()], Fresh(), T0()));
    trace, steps := trace + [N([Wf()], Fresh(), T0())], steps + [Arrive(1, 1, 2, false, 0)];
    S2();
    var call := Deliver(0, Choice([], Conduct(false, [NoCb()], [])));
    ExtendRun(Cfg(), trace, steps, call, N([Call0(), Wf()], Fresh(), T1()));
    trace, steps := trace + [N([Call0(), Wf()], Fresh(), T1())], steps + [call];
  }

  lemma FirstHalf() returns (trace: seq<State>, steps: seq<Step>)
    ensures IsRun(Cfg(), trace, steps) && |steps| == 4 && trace[4] == N([Wf(), Cb0()], Busy(Reading), T1())
  {
    trace, steps := TwoSteps();
    S3();
    ExtendRun(Cfg(), trace, steps, Deliver(0, NoChoice()),
                 N([Wf(), Run0()], Busy(Reading), T1()));
    trace, steps := trace + [N([Wf(), Run0()], Busy(Reading), T1())], steps + [Deliver(0, NoChoice())];
    S4();
    ExtendRun(Cfg(), trace, steps, Deliver(1, NoChoice()), N([Wf(), Cb0()], Busy(Reading), T1()));
    trace, steps := trace + [N([Wf(), Cb0()], Busy(Reading), T1())], steps + [Deliver(1, NoChoice())];
  }

  lemma TwoWakes()
    ensures Sum([Wf(), Done0()], WakeW(0)) == 2
  {
    SumAppend([Wf()], [Done0()], WakeW(0));
    SumOne(Wf(), WakeW(0));
    SumOne(Done0(), WakeW(0));
    assert [Wf()] + [Done0()] == [Wf(), Done0()];
  }

  /** A call without a callback can resume a transaction that is not suspended: two events
      in flight then resume it, one of them finds it freed, and its handler fails. */
  lemma WithoutCallbackTwoTokens() returns (trace: seq<State>, steps: seq<Step>)
    ensures IsRun(Cfg(), trace, steps) && |trace| == 8
    ensures 0 in trace[5].local.txns && Sum(trace[5].net, WakeW(0)) == 2
    ensures Enabled(Cfg(), trace[7], Deliver(0, NoChoice()))
    ensures Fails(trace[7].local, trace[7].net[0], NoChoice())
    ensures Perform(Cfg(), trace[7], Deliver(0, NoChoice())).0.Crash?
  {
    trace, steps := FirstHalf();
    S5();
    ExtendRun(Cfg(), trace, steps, Deliver(1, NoChoice()), N([Wf(), Done0()], Busy(Reading), T2()));
    trace, steps := trace + [N([Wf(), Done0()], Busy(Reading), T2())], steps + [Deliver(1, NoChoice())];
    S6();
    ExtendRun(Cfg(), trace, steps, Deliver(1, NoChoice()), N([Wf(), Wf2()], Fresh(), T2()));
    trace, steps := trace + [N([Wf(), Wf2()], Fresh(), T2())], steps + [Deliver(1, NoChoice())];
    S7();
    ExtendRun(Cfg(), trace, steps, Deliver(0, NoChoice()), Freed0());
    trace, steps := trace + [Freed0()], steps + [Deliver(0, NoChoice())];
    TwoWakes();
  }

  // ----- a workflow that ends while its call is incomplete -----

  function E0(): Txn { NewTxn(1, 1, false, 0) }

  function E1(): Txn {
    E0().(state := Destroyed, next := 1, log := [Ran(0)], tasks := [Task0(TaskRunning)], total := 1)
  }

  /** A last module that returns well with nothing to wait for, but a call incomplete: the
      transaction is destroyed and not freed. */
  lemma LastModule(t: Txn, calls: seq<Call>)
    requires t.state == Unpacked && t.timeout <= 0 && t.next + 1 == t.modules && !t.hasPack
    requires var m := Made(t, calls); m.pending == 0 && m.complete < m.total
    ensures Run(t, Conduct(false, calls, []), 0) == Ended(Made(t, calls).(state := Destroyed), false, false)
  {
    var c := Conduct(false, calls, []);
    var r := t.(state := Running);
    var m := Made(t, calls);
    PacksAndEnds(m.(state := Completed), c, 2);
    assert Run(t, c, 0) == Run(r, c, 1);
    assert Run(r, c, 1) == ModuleRun(r, c, 1);
    assert ModuleRun(r, c, 1) == Run(m.(state := Completed), c, 2);
  }

  lemma LastDelivered(s: State, calls: seq<Call>, s': State)
    requires s.net == [Wf()] && 0 in s.local.txns
    requires LegalChoice(Cfg(), s.local, Choice([], Conduct(false, calls, [])))
    requires var t := s.local.txns[0];
      && t.state == Unpacked && t.timeout <= 0 && t.next + 1 == t.modules && !t.hasPack
      && var m := Made(t, calls);
         && m.pending == 0 && m.complete < m.total
         && s'.local == s.local.(txns := s.local.txns[0 := m.(state := Destroyed)])
         && s'.net == IoCalls(1, 0, m, |t.tasks|)
    ensures Next(Cfg(), s, Deliver(0, Choice([], Conduct(false, calls, []))), s')
  {
    var t := s.local.txns[0];
    var m := Made(t, calls);
    LastModule(t, calls);
    assert IoCalls(1, 0, m.(state := Destroyed), |t.tasks|) == IoCalls(1, 0, m, |t.tasks|);
    assert IoCalls(1, 0, m, |t.tasks|) + [] == IoCalls(1, 0, m, |t.tasks|);
    DeliverOnly(s, Choice([], Conduct(false, calls, [])), s');
  }

  lemma MadeLast()
    ensures Made(E0(), [NoCb()]) == E1().(state := Running)
  {
    assert Map(TaskOf(), [NoCb()]) == [Task0(TaskRunning)];
    assert E0().tasks + [Task0(TaskRunning)] == [Task0(TaskRunning)];
    SumOne(NoCb(), CbWeight());
    assert E0().log + [Ran(0)] == [Ran(0)];
  }

  lemma LastCall()
    ensures Next(Cfg(), N([Wf()], Fresh(), E0()), Deliver(0, Choice([], Conduct(false, [NoCb()], []))),
                 N([Call0()], Fresh(), E1()))
  {
    MadeLast();
    assert IoCalls(1, 0, E1().(state := Running), 0) == [Call0()];
    assert map[0 := E0()][0 := E1()] == map[0 := E1()];
    LastDelivered(N([Wf()], Fresh(), E0()), [NoCb()], N([Call0()], Fresh(), E1()));
  }

  lemma LastCallTokens()
    ensures OneToken(N([Wf()], Fresh(), E0()), 0) && !OneToken(N([Call0()], Fresh(), E1()), 0)
  {
    WakesOne(Wf(), 0);
    WakesOne(Call0(), 0);
  }

  lemma LastArrives()
    ensures Next(Cfg(), Start(), Arrive(1, 1, 1, false, 0), N([Wf()], Fresh(), E0()))
  {
    assert [] + [Wf()] == [Wf()];
  }

  lemma LastRun() returns (trace: seq<State>, steps: seq<Step>)
    ensures IsRun(Cfg(), trace, steps) && |steps| == 2 && steps[1].Deliver?
    ensures trace[1] == N([Wf()], Fresh(), E0()) && trace[2] == N([Call0()], Fresh(), E1())
  {
    var call := Deliver(0, Choice([], Conduct(false, [NoCb()], [])));
    trace, steps := [Start()], [];
    LastArrives();
    ExtendRun(Cfg(), trace, steps, Arrive(1, 1, 1, false, 0), N([Wf()], Fresh(), E0()));
    trace, steps := trace + [N([Wf()], Fresh(), E0())], steps + [Arrive(1, 1, 1, false, 0)];
    LastCall();
    ExtendRun(Cfg(), trace, steps, call, N([Call0()], Fresh(), E1()));
    trace, steps := trace + [N([Call0()], Fresh(), E1())], steps + [call];
  }

  /** The last module makes a call without a callback: the workflow ends at once, the transaction
      is destroyed but kept, and nothing in flight resumes it though it does not wait. */
  lemma EndsWithoutToken() returns (trace: seq<State>, steps: seq<Step>)
    ensures IsRun(Cfg(), trace, steps) && |steps| == 2
    ensures OneToken(trace[1], 0) && steps[1].Deliver? && trace[1].net == [Wf()]
    ensures 0 in trace[2].local.txns && !OneToken(trace[2], 0)
  {
    trace, steps := LastRun();
    LastCallTokens();
  }
}
