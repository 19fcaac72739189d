/** Failures of user code are never lost. */
module Failures {
  // A module or a callback that fails marks its transaction; nothing else does; a marked
  // transaction runs no module, and its pack step sees the failure.

  import opened Seqs
  import opened QueueSpec
  import opened ServiceSpec
  import opened TxnSpec
  import opened WorkflowLaws
  import opened Protocol
  import opened Invariants
  import opened LedgerSteps
  import opened ProtocolSteps
  import opened Runs
  import opened Tokens

  /** The step runs the callback of a completed call of `t`, and the callback fails. */
  predicate CallbackFails(s: State, step: Step, t: TxnId) {
    && step.Deliver? && step.pos < |s.net| && step.choice.conduct.failed && t in s.local.txns
    && var m := s.net[step.pos].msg;
       Finishes(m) && m.txn == t && m.task < |s.local.txns[t].tasks| && s.local.txns[t].tasks[m.task].hasCb
  }

  /** The step is a workflow step of `t`. */
  predicate StepsOn(s: State, step: Step, t: TxnId) {
    step.Deliver? && step.pos < |s.net| && s.net[step.pos].msg == WorkflowRun(t) && t in s.local.txns
  }

  /** The step runs the next module of `t`, and the module fails. */
  predicate ModuleFails(s: State, step: Step, t: TxnId) {
    StepsOn(s, step, t) && step.choice.conduct.failed && RunsModule(s.local.txns[t])
  }

  /** User code of transaction `t` fails in the step. */
  predicate UserFails(s: State, step: Step, t: TxnId) { CallbackFails(s, step, t) || ModuleFails(s, step, t) }

  // ----- one step -----

  /** What was fixed when the transaction arrived. */
  predicate SameOrigin(x: Txn, y: Txn) {
    y.home == x.home && y.modules == x.modules && y.hasPack == x.hasPack && y.timeout == x.timeout
  }

  /** What the step does to the transaction `x` outside its task table. */
  predicate MarkStep(s: State, step: Step, t: TxnId, x: Txn, y: Txn) {
    && SameOrigin(x, y)
    && (y.error <==> x.error || UserFails(s, step, t))
    && (CallbackFails(s, step, t) ==> y.state == Failed)
    && (!StepsOn(s, step, t) ==> y.next == x.next && y.log == x.log)
    && (!StepsOn(s, step, t) && !CallbackFails(s, step, t) ==> y.state == x.state)
    && (x.error ==> y.next == x.next)
  }

  lemma CallbackMarks(cfg: Config, s: State, i: nat, c: Choice)
    requires i < |s.net| && s.net[i].msg.TaskCb? && Handle(cfg, s.local, s.net[i], c).Effect?
    ensures var t := s.net[i].msg.txn;
      && t in s.local.txns
      && MarkStep(s, Deliver(i, c), t, s.local.txns[t], Handle(cfg, s.local, s.net[i], c).local.txns[t])
  {
  }

  lemma WorkflowMarks(cfg: Config, s: State, i: nat, c: Choice)
    requires Flows(s) && i < |s.net| && s.net[i].msg.WorkflowRun? && Handle(cfg, s.local, s.net[i], c).Effect?
    ensures var t := s.net[i].msg.txn;
      && t in s.local.txns
      && MarkStep(s, Deliver(i, c), t, s.local.txns[t], Run(s.local.txns[t], c.conduct, 0).txn)
  {
    var x := s.local.txns[s.net[i].msg.txn];
    StepFollows(x, c.conduct, 0);
    StepVerdict(x, c.conduct);
  }

  lemma OtherMarks(cfg: Config, s: State, i: nat, c: Choice, t: TxnId)
    requires i < |s.net| && !Concerns(s.net[i].msg, t) && Handle(cfg, s.local, s.net[i], c).Effect? && t in s.local.txns
    ensures var l := Handle(cfg, s.local, s.net[i], c).local;
      t in l.txns && MarkStep(s, Deliver(i, c), t, s.local.txns[t], l.txns[t])
  {
    match s.net[i].msg
    case TaskRun(_, _, _, _, _) =>
    case TimerRun(_, _, _) =>
    case _ => TxnsKept(cfg, s.local, s.net[i], c, t);
  }

  /** A step of a run marks a transaction exactly if user code of it fails. */
  lemma NextMarks(cfg: Config, s: State, step: Step, s': State, t: TxnId)
    requires Flows(s) && Next(cfg, s, step, s') && t in s.local.txns && t in s'.local.txns && t < s.local.nextTxn
    ensures MarkStep(s, step, t, s.local.txns[t], s'.local.txns[t])
  {
    if step.Deliver? {
      var (i, c) := (step.pos, step.choice);
      if !Concerns(s.net[i].msg, t) {
        OtherMarks(cfg, s, i, c, t);
      } else if s.net[i].msg.TaskCb? {
        CallbackMarks(cfg, s, i, c);
      } else {
        WorkflowMarks(cfg, s, i, c);
      }
    }
  }

  lemma RunMarks(cfg: Config, trace: seq<State>, steps: seq<Step>, n: nat, t: TxnId)
    requires IsRun(cfg, trace, steps) && n < |steps| && t in trace[n].local.txns && t in trace[n + 1].local.txns
    ensures MarkStep(trace[n], steps[n], t, trace[n].local.txns[t], trace[n + 1].local.txns[t])
  {
    RunInv(cfg, trace, steps, n);
    assert TxnOk(trace[n].local, t);
    assert Next(cfg, trace[n], steps[n], trace[n + 1]);
    NextMarks(cfg, trace[n], steps[n], trace[n + 1], t);
  }

  // ----- every run -----

  /** A failing callback marks its transaction at once. */
  lemma CallbackFailureMarks(cfg: Config, trace: seq<State>, steps: seq<Step>, n: nat, t: TxnId)
    requires IsRun(cfg, trace, steps) && n < |steps| && CallbackFails(trace[n], steps[n], t)
    ensures t in trace[n + 1].local.txns
    ensures var y := trace[n + 1].local.txns[t]; y.error && y.state == Failed
  {
    if t !in trace[n + 1].local.txns {
      assert Next(cfg, trace[n], steps[n], trace[n + 1]);
      OnlyStepsFree(cfg, trace[n], steps[n], trace[n + 1], t);
    }
    RunMarks(cfg, trace, steps, n, t);
  }

  /** User code of `t` failed in one of the first `n` steps. */
  ghost predicate HasFailed(trace: seq<State>, steps: seq<Step>, n: nat, t: TxnId)
    requires n <= |steps| < |trace|
  {
    exists i: nat :: i < n && UserFails(trace[i], steps[i], t)
  }

  lemma FailedLives(trace: seq<State>, steps: seq<Step>, n: nat, t: TxnId)
    requires n < |steps| < |trace|
    ensures HasFailed(trace, steps, n + 1, t) <==> HasFailed(trace, steps, n, t) || UserFails(trace[n], steps[n], t)
  {
  }

  lemma NotYetFailed(cfg: Config, trace: seq<State>, steps: seq<Step>, n: nat, t: TxnId)
    requires IsRun(cfg, trace, steps) && n <= |steps| && t >= trace[n].local.nextTxn
    ensures !HasFailed(trace, steps, n, t)
  {
    if HasFailed(trace, steps, n, t) {
      var i: nat :| i < n && UserFails(trace[i], steps[i], t);
      RunInv(cfg, trace, steps, i);
      assert TxnOk(trace[i].local, t);
      NumbersMount(cfg, trace, steps, i, n);
    }
  }

  /** A live transaction is marked if and only if its user code has failed. */
  lemma {:induction false} MarkedExactly(cfg: Config, trace: seq<State>, steps: seq<Step>, n: nat, t: TxnId)
    requires IsRun(cfg, trace, steps) && n < |trace| && t in trace[n].local.txns
    ensures trace[n].local.txns[t].error <==> HasFailed(trace, steps, n, t)
  {
    if t in trace[n - 1].local.txns {
      MarkedExactly(cfg, trace, steps, n - 1, t);
      RunMarks(cfg, trace, steps, n - 1, t);
    } else {
      assert Next(cfg, trace[n - 1], steps[n - 1], trace[n]);
      Born(cfg, trace[n - 1], steps[n - 1], trace[n], t);
      NotYetFailed(cfg, trace, steps, n - 1, t);
    }
    FailedLives(trace, steps, n - 1, t);
  }

  /** After user code of a transaction has failed, none of its modules runs any more. */
  lemma {:induction false} NoModuleAfterFailure(
      cfg: Config, trace: seq<State>, steps: seq<Step>, n: nat, m: nat, t: TxnId)
    requires IsRun(cfg, trace, steps) && n <= m < |trace| && t in trace[n].local.txns && t in trace[m].local.txns
    requires HasFailed(trace, steps, n, t)
    ensures trace[m].local.txns[t].error && trace[m].local.txns[t].next == trace[n].local.txns[t].next
    decreases m
  {
    MarkedExactly(cfg, trace, steps, n, t);
    if n < m {
      LivesBetween(cfg, trace, steps, n, m, t);
      NoModuleAfterFailure(cfg, trace, steps, n, m - 1, t);
      RunMarks(cfg, trace, steps, m - 1, t);
    }
  }

  /** The last step of a transaction, in which it is freed: its flag tells exactly whether user
      code of it ever failed, and so does what its pack step saw. */
  lemma PackSeesFailure(cfg: Config, trace: seq<State>, steps: seq<Step>, n: nat, t: TxnId)
    requires IsRun(cfg, trace, steps) && n < |steps| && t in trace[n].local.txns && t !in trace[n + 1].local.txns
    ensures StepsOn(trace[n], steps[n], t)
    ensures var o := Run(trace[n].local.txns[t], steps[n].choice.conduct, 0);
      && o.Ended? && (o.txn.error <==> HasFailed(trace, steps, n + 1, t))
      && (o.txn.hasPack ==>
            && o.txn.log != []
            && (o.txn.log[|o.txn.log| - 1] == PackSaw(Failed) <==> HasFailed(trace, steps, n + 1, t)))
  {
    FinishedInOrder(cfg, trace, steps, n, t);
    MarkedExactly(cfg, trace, steps, n, t);
    FailedLives(trace, steps, n, t);
    LastMarks(cfg, trace, steps, n, t);
  }

  lemma LastMarks(cfg: Config, trace: seq<State>, steps: seq<Step>, n: nat, t: TxnId)
    requires IsRun(cfg, trace, steps) && n < |steps| && StepsOn(trace[n], steps[n], t)
    ensures Run(trace[n].local.txns[t], steps[n].choice.conduct, 0).Ended?
    ensures MarkStep(trace[n], steps[n], t, trace[n].local.txns[t],
                     Run(trace[n].local.txns[t], steps[n].choice.conduct, 0).txn)
  {
    RunInv(cfg, trace, steps, n);
    assert Next(cfg, trace[n], steps[n], trace[n + 1]);
    WorkflowMarks(cfg, trace[n], steps[n].pos, steps[n].choice);
  }

  /** Step `i` is the arrival of transaction `x` under number `t`. */
  predicate ArrivedAs(s: State, step: Step, t: TxnId, x: Txn) {
    && step.Arrive? && s.local.nextTxn == t && step.home == x.home && step.modules == x.modules
    && step.hasPack == x.hasPack && step.timeout == x.timeout
  }

  /** A live transaction has the home engine, workflow and time limit it arrived with. */
  lemma {:induction false} AsArrived(cfg: Config, trace: seq<State>, steps: seq<Step>, n: nat, t: TxnId)
    returns (i: nat)
    requires IsRun(cfg, trace, steps) && n < |trace| && t in trace[n].local.txns
    ensures i < n && ArrivedAs(trace[i], steps[i], t, trace[n].local.txns[t])
  {
    if t in trace[n - 1].local.txns {
      i := AsArrived(cfg, trace, steps, n - 1, t);
      RunMarks(cfg, trace, steps, n - 1, t);
    } else {
      i := n - 1;
      assert Next(cfg, trace[n - 1], steps[n - 1], trace[n]);
      Born(cfg, trace[n - 1], steps[n - 1], trace[n], t);
    }
  }
}
