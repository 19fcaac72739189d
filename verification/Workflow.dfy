/** What one workflow step does to a transaction, and what its whole life looks like. */
module WorkflowLaws {
  import opened Seqs
  import opened QueueSpec
  import opened ServiceSpec
  import opened TxnSpec

  /** The next workflow step reaches a module. */
  predicate RunsModule(t: Txn) {
    t.state in {Created, Unpacked, Suspended, Running} && t.next < t.modules
  }

  function CallsOf(t: Txn, c: Conduct): seq<Call> { if RunsModule(t) then c.calls else [] }

  /** The module leaves nothing to wait for, and it fails or is the last one. */
  predicate LastModule(t: Txn, c: Conduct) {
    t.pending + Sum(c.calls, CbWeight()) == 0 && (c.failed || t.next + 1 == t.modules)
  }

  /** Home, task table and counters of `a` are those of `b`. */
  predicate SameTable(a: Txn, b: Txn) {
    && a.home == b.home && a.tasks == b.tasks
    && a.total == b.total && a.complete == b.complete && a.pending == b.pending
    && a.modules == b.modules && a.hasPack == b.hasPack && a.timeout == b.timeout
  }

  /** Positions 0..n-1 of the workflow, in order. */
  function Positions(n: nat): (s: seq<LogEntry>)
    ensures |s| == n
    ensures forall i :: 0 <= i < n ==> s[i] == Ran(i)
  {
    seq(n, i requires 0 <= i < n => Ran(i))
  }

  /** What the pack step saw, once the transaction passed it. */
  predicate PackOk(t: Txn, saw: TxnState) {
    && saw in {Completed, Failed, Timeout}
    && (t.error <==> saw == Failed)
    && (saw == Completed ==> t.next == t.modules)
    && (saw == Timeout ==> t.timeout > 0)
  }

  /** The life of a transaction: a prefix of the modules ran, in order and once each; then
      nothing, or one pack step. A failure is never followed by a module. */
  ghost predicate FlowOk(t: Txn) {
    && t.next <= t.modules && t.modules > 0
    && (t.state == Failed ==> t.error)
    && (t.error ==> t.state in {Failed, Packed, Destroyed})
    && (t.state == Timeout ==> t.timeout > 0)
    && (t.state == Completed ==> t.next == t.modules)
    && (t.state in {Packed, Destroyed} && !t.error && t.timeout <= 0 ==> t.next == t.modules)
    && if t.state in {Packed, Destroyed} && t.hasPack then PackLogged(t) else t.log == Positions(t.next)
  }

  /** The log ends with the one pack step. */
  ghost predicate PackLogged(t: Txn) {
    && |t.log| == t.next + 1 && t.log[..t.next] == Positions(t.next)
    && t.log[t.next].PackSaw? && PackOk(t, t.log[t.next].state)
  }

  /** The states in which a transaction waits for its next step. */
  predicate Resting(s: TxnState) { s !in {Completed, Packed} }

  /** Outcome `o` of a step of `t` in which `ran` modules ran and made the calls `made`. */
  ghost predicate Follows(t: Txn, ran: nat, made: seq<Call>, o: Outcome) {
    o.Ended? ==>
      && FlowOk(o.txn) && Resting(o.txn.state)
      && SameTable(o.txn, AddCalls(t, made)) && o.txn.next == t.next + ran
      && (o.again ==> o.txn.pending == 0 && o.txn.state in {Running, Timeout} && !o.freed)
      && (o.freed <==> o.txn.state == Destroyed && o.txn.complete >= o.txn.total)
      && (o.txn.state != Destroyed && !o.again ==> o.txn.pending != 0)
      && (o.txn.state == Destroyed && ran > 0 ==> o.txn.pending == 0)
  }

  ghost predicate Destroys(t: Txn, o: Outcome) {
    Follows(t, 0, [], o) && o.Ended? && o.txn.state == Destroyed && o.txn.error == t.error
  }

  /** The time limit has passed at entry `i` of the run function. */
  predicate Late(t: Txn, c: Conduct, i: nat) { t.timeout > 0 && i < |c.late| && c.late[i] }

  /** What pack sees of a transaction that reaches it at entry `i`. */
  function Seen(t: Txn, error: bool, c: Conduct, i: nat): TxnState {
    if error then Failed else if t.state == Timeout || Late(t, c, i) then Timeout else Completed
  }

  /** Error flag, state and log after a step in which `ran` modules ran, if the module is reached
      at entry `i`, pack at entry `j`. */
  ghost predicate Verdict(t: Txn, c: Conduct, ran: nat, i: nat, j: nat, o: Outcome) {
    o.Ended? ==>
      && (o.txn.error <==> if ran > 0 then c.failed else t.error)
      && (ran > 0 && o.txn.pending != 0 ==> o.txn.state == if c.failed then Failed else Suspended)
      && (o.again ==> o.txn.state == if Late(t, c, i) then Timeout else Running)
      && (t.state == Destroyed ==> o.txn == t)
      && (t.state != Destroyed && o.txn.state == Destroyed && t.hasPack ==>
            o.txn.log == Positions(o.txn.next) + [PackSaw(Seen(t, o.txn.error, c, j))])
  }

  lemma AddNone(t: Txn)
    ensures AddCalls(t, []) == t
  {
    assert t.tasks + Map(TaskOf(), []) == t.tasks;
  }

  lemma AfterPack(t: Txn, c: Conduct, entry: nat)
    requires FlowOk(t) && t.state == Packed
    ensures Destroys(t, Run(t, c, entry)) && Run(t, c, entry).txn.log == t.log
  {
    AddNone(t);
    assert Run(t, c, entry).txn == t.(state := Destroyed);
  }

  lemma AtPack(t: Txn, c: Conduct, entry: nat)
    requires FlowOk(t) && t.state in {Completed, Failed, Timeout}
    ensures Destroys(t, ModulePack(t, c, entry))
    ensures t.hasPack ==> ModulePack(t, c, entry).txn.log == t.log + [PackSaw(t.state)]
  {
    AddNone(t);
    var t1 := if t.hasPack then t.(log := t.log + [PackSaw(t.state)]) else t;
    var t2 := SetState(t1, Packed);
    if t.hasPack {
      assert t2.log[..t2.next] == t.log;
    }
    AfterPack(t2, c, entry + 1);
    AddNone(t2);
  }

  /** Reaching pack with the time limit possibly just passed. */
  lemma BeforePack(t: Txn, c: Conduct, entry: nat)
    requires FlowOk(t) && t.state in {Completed, Failed, Timeout}
    ensures Destroys(t, Run(t, c, entry))
    ensures t.hasPack ==> Run(t, c, entry).txn.log == t.log + [PackSaw(Seen(t, t.error, c, entry))]
  {
    var t1 := if TimedOut(t, c, entry) then SetState(t, Timeout) else t;
    AtPack(t1, c, entry);
    AddNone(t);
    AddNone(t1);
  }

  /** The transaction as its module leaves it. */
  function AfterModule(t: Txn, c: Conduct): Txn
    requires t.state != Destroyed
  {
    var t1 := AddCalls(t.(next := t.next + 1, log := t.log + [Ran(t.next)]), c.calls);
    if c.failed then SetState(t1, Failed) else t1
  }

  lemma AfterModuleFlow(t: Txn, c: Conduct)
    requires FlowOk(t) && t.state in {Running, Timeout} && t.next < t.modules
    ensures var t2 := AfterModule(t, c);
      && FlowOk(t2) && t2.next == t.next + 1 && SameTable(t2, AddCalls(t, c.calls))
      && t2.state == (if c.failed then Failed else t.state)
  {
    var t2 := AfterModule(t, c);
    assert t2.log == Positions(t2.next);
  }

  lemma AtModule(t: Txn, c: Conduct, entry: nat)
    requires FlowOk(t) && t.state in {Running, Timeout} && t.next < t.modules
    ensures Follows(t, 1, c.calls, ModuleRun(t, c, entry)) && ModuleRun(t, c, entry).Ended?
    ensures ModuleRun(t, c, entry).txn.state == Destroyed <==> LastModule(t, c)
  {
    AfterModuleFlow(t, c);
    var t2 := AfterModule(t, c);
    if t2.pending == 0 {
      AddNone(t2);
      if c.failed {
        assert ModuleRun(t, c, entry) == Run(t2, c, entry + 1);
        BeforePack(t2, c, entry + 1);
      } else if t2.next == t2.modules {
        var t3 := SetState(t2, Completed);
        assert ModuleRun(t, c, entry) == Run(t3, c, entry + 1);
        AddNone(t3);
        BeforePack(t3, c, entry + 1);
      }
    }
  }

  lemma AtRunning(t: Txn, c: Conduct, entry: nat)
    requires FlowOk(t) && t.state == Running
    ensures Run(t, c, entry).Ended?
    ensures Follows(t, if RunsModule(t) then 1 else 0, CallsOf(t, c), Run(t, c, entry))
    ensures Run(t, c, entry).txn.state == Destroyed <==> (RunsModule(t) ==> LastModule(t, c))
  {
    var t1 := if TimedOut(t, c, entry) then SetState(t, Timeout) else t;
    assert Run(t, c, entry) == ModuleRun(t1, c, entry);
    if t.next < t.modules {
      AtModule(t1, c, entry);
    } else {
      AddNone(t);
      AddNone(SetState(t1, Completed));
      BeforePack(SetState(t1, Completed), c, entry + 1);
    }
  }

  lemma AtStart(t: Txn, c: Conduct, entry: nat)
    requires FlowOk(t) && t.state in {Created, Unpacked, Suspended}
    ensures Run(t, c, entry).Ended?
    ensures Follows(t, if RunsModule(t) then 1 else 0, CallsOf(t, c), Run(t, c, entry))
    ensures Run(t, c, entry).txn.state == Destroyed <==> (RunsModule(t) ==> LastModule(t, c))
  {
    var t2 := SetState(if TimedOut(t, c, entry) then SetState(t, Timeout) else t, Running);
    assert Run(t, c, entry) == Run(t2, c, entry + 1);
    assert t2 == t.(state := Running);
    AtRunning(t2, c, entry + 1);
  }

  /** Going on to pack after a module ran. */
  lemma PackVerdict(t: Txn, t2: Txn, c: Conduct, entry: nat)
    requires FlowOk(t2) && t2.state in {Completed, Failed} && (t2.error <==> c.failed)
    requires t.state == Running && t.timeout == t2.timeout && t.hasPack == t2.hasPack
    requires t2.pending == 0
    ensures Verdict(t, c, 1, entry, entry + 1, Run(t2, c, entry + 1))
  {
    BeforePack(t2, c, entry + 1);
  }

  lemma ModuleVerdict(t: Txn, c: Conduct, entry: nat)
    requires FlowOk(t) && t.state in {Running, Timeout} && t.next < t.modules
    requires t.state == Timeout <==> Late(t, c, entry)
    ensures Verdict(t.(state := Running), c, 1, entry, entry + 1, ModuleRun(t, c, entry))
  {
    AfterModuleFlow(t, c);
    var t2 := AfterModule(t, c);
    if t2.pending == 0 {
      if c.failed {
        assert ModuleRun(t, c, entry) == Run(t2, c, entry + 1);
        PackVerdict(t.(state := Running), t2, c, entry);
      } else if t2.next == t2.modules {
        assert ModuleRun(t, c, entry) == Run(SetState(t2, Completed), c, entry + 1);
        PackVerdict(t.(state := Running), SetState(t2, Completed), c, entry);
      }
    }
  }

  lemma RunningVerdict(t: Txn, c: Conduct, entry: nat)
    requires FlowOk(t) && t.state == Running
    ensures Verdict(t, c, if RunsModule(t) then 1 else 0, entry, entry + 1, Run(t, c, entry))
  {
    var t1 := if TimedOut(t, c, entry) then SetState(t, Timeout) else t;
    assert Run(t, c, entry) == ModuleRun(t1, c, entry);
    assert t1.(state := Running) == t;
    if t.next < t.modules {
      ModuleVerdict(t1, c, entry);
    } else {
      BeforePack(SetState(t1, Completed), c, entry + 1);
    }
  }

  lemma StartVerdict(t: Txn, c: Conduct, entry: nat)
    requires FlowOk(t) && t.state in {Created, Unpacked, Suspended}
    ensures Verdict(t, c, if RunsModule(t) then 1 else 0, entry + 1, entry + 2, Run(t, c, entry))
  {
    var t2 := SetState(if TimedOut(t, c, entry) then SetState(t, Timeout) else t, Running);
    assert Run(t, c, entry) == Run(t2, c, entry + 1);
    assert t2 == t.(state := Running);
    RunningVerdict(t2, c, entry + 1);
  }

  lemma AtDestroyed(t: Txn, c: Conduct, entry: nat)
    requires FlowOk(t) && t.state == Destroyed
    ensures Follows(t, 0, [], Run(t, c, entry))
    ensures Run(t, c, entry).Abort? <==> TimedOut(t, c, entry)
  {
    AddNone(t);
  }

  /** One workflow step keeps the shape of the transaction's life, runs at most the next
      module, registers exactly the calls that module made, aborts only when a destroyed
      transaction times out again, and else destroys the transaction exactly if no module was
      left to run or the one that ran was the last. */
  lemma StepFollows(t: Txn, c: Conduct, entry: nat)
    requires FlowOk(t) && Resting(t.state)
    ensures Follows(t, if RunsModule(t) then 1 else 0, CallsOf(t, c), Run(t, c, entry))
    ensures Run(t, c, entry).Abort? <==> t.state == Destroyed && TimedOut(t, c, entry)
    ensures Run(t, c, entry).Ended? ==>
      (Run(t, c, entry).txn.state == Destroyed <==> (RunsModule(t) ==> LastModule(t, c)))
  {
    if t.state in {Created, Unpacked, Suspended} {
      AtStart(t, c, entry);
    } else if t.state == Running {
      AtRunning(t, c, entry);
    } else if t.state == Destroyed {
      AtDestroyed(t, c, entry);
    } else {
      BeforePack(t, c, entry);
    }
  }

  /** The entries of a step's run function at which the module and pack are reached. */
  function ModuleEntry(s: TxnState): nat { if s == Running then 0 else 1 }

  function PackEntry(s: TxnState): nat {
    match s
    case Created | Unpacked | Suspended => 2
    case Running => 1
    case _ => 0
  }

  /** What a step concludes: the error flag is set if and only if it was, or the module that ran
      failed; with calls to wait for, the transaction is failed or suspended; if it goes on it is
      running, or timed out if its limit had passed when the module was reached; and pack sees the
      error, else a time-out, now or earlier, else completion. */
  lemma StepVerdict(t: Txn, c: Conduct)
    requires FlowOk(t) && Resting(t.state) && Run(t, c, 0).Ended?
    ensures var o := Run(t, c, 0);
      && (o.txn.error <==> if RunsModule(t) then c.failed else t.error)
      && (RunsModule(t) && o.txn.pending != 0 ==> o.txn.state == if c.failed then Failed else Suspended)
      && (o.again ==> o.txn.state == if Late(t, c, ModuleEntry(t.state)) then Timeout else Running)
      && (t.state == Destroyed ==> o.txn == t)
      && (t.state != Destroyed && o.txn.state == Destroyed && t.hasPack ==>
            o.txn.log == Positions(o.txn.next) + [PackSaw(Seen(t, o.txn.error, c, PackEntry(t.state)))])
  {
    if t.state in {Created, Unpacked, Suspended} {
      StartVerdict(t, c, 0);
    } else if t.state == Running {
      RunningVerdict(t, c, 0);
    } else if t.state != Destroyed {
      BeforePack(t, c, 0);
    }
  }

  /** After a failure no module runs any more, and pack sees the error. */
  lemma FailureIsFinal(t: Txn, c: Conduct, entry: nat)
    requires FlowOk(t) && Resting(t.state) && t.error
    ensures var o := Run(t, c, entry);
      o.Ended? ==>
        && o.txn.next == t.next && !o.again && o.txn.state == Destroyed && o.txn.error
        && (t.state == Failed && t.hasPack ==> o.txn.log == t.log + [PackSaw(Failed)])
  {
    StepFollows(t, c, entry);
    if t.state == Failed {
      BeforePack(t, c, entry);
    }
  }

  /** A callback keeps the shape of the transaction's life. */
  lemma CallbackFlow(t: Txn, k: nat, status: TaskStatus, failed: bool, calls: seq<Call>)
    requires FlowOk(t) && Resting(t.state) && k < |t.tasks|
    requires failed ==> t.state !in {Destroyed}
    ensures FlowOk(Callback(t, k, status, failed, calls)) && Resting(Callback(t, k, status, failed, calls).state)
  {
  }

  lemma NewTxnFlow(home: Engine, modules: nat, hasPack: bool, timeout: int)
    requires modules > 0
    ensures FlowOk(NewTxn(home, modules, hasPack, timeout)) && Counted(NewTxn(home, modules, hasPack, timeout))
  {
  }
}
