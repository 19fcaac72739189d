/** A transaction's task table and its walk through the workflow, on values. */
module TxnSpec {
  import opened Seqs
  import opened QueueSpec
  import opened ServiceSpec

  datatype TxnState =
    | Created | Unpacked | Running | Suspended | Completed | Packed | Failed | Timeout | Destroyed

  datatype TaskStatus = TaskRunning | TaskDone | TaskPending | TaskBusy

  /** One service call of a transaction. */
  datatype Task = Task(svc: ServiceId, kind: Kind, bidx: int, hasCb: bool, status: TaskStatus, pendings: int)
  {
    predicate Complete() { status == TaskDone || status == TaskBusy }
  }

  /** A service call as a module or a callback makes it. */
  datatype Call = Call(svc: ServiceId, kind: Kind, bidx: int, hasCb: bool)

  /** The transaction log: the modules that ran and the state the pack step saw. */
  datatype LogEntry = Ran(pos: nat) | PackSaw(state: TxnState)

  datatype Txn = Txn(
    home: Engine, modules: nat, hasPack: bool, timeout: int,
    state: TxnState, error: bool, next: nat,
    tasks: seq<Task>, total: int, complete: int, pending: int,
    log: seq<LogEntry>)

  function NewTxn(home: Engine, modules: nat, hasPack: bool, timeout: int): Txn {
    Txn(home, modules, hasPack, timeout, Unpacked, false, 0, [], 0, 0, 0, [])
  }

  function DoneWeight(): Task -> int { (t: Task) => if t.Complete() then 1 else 0 }

  function WaitWeight(): Task -> int { (t: Task) => if t.hasCb && !t.Complete() then 1 else 0 }

  function CbWeight(): Call -> int { (c: Call) => if c.hasCb then 1 else 0 }

  function TaskOf(): Call -> Task {
    (c: Call) => Task(c.svc, c.kind, c.bidx, c.hasCb, TaskRunning, 0)
  }

  /** The counters agree with the task table. */
  ghost predicate Counted(t: Txn) {
    && t.total == |t.tasks|
    && t.complete == Sum(t.tasks, DoneWeight())
    && t.pending == Sum(t.tasks, WaitWeight())
  }

  /** Register service calls in the table, in the order they were made. */
  function AddCalls(t: Txn, calls: seq<Call>): Txn {
    t.(tasks := t.tasks + Map(TaskOf(), calls),
       total := t.total + |calls|,
       pending := t.pending + Sum(calls, CbWeight()))
  }

  function SetTaskComplete(t: Txn, k: nat, status: TaskStatus): Txn
    requires k < |t.tasks|
  {
    t.(tasks := t.tasks[k := t.tasks[k].(status := status)],
       complete := t.complete + 1,
       pending := t.pending - (if t.tasks[k].hasCb then 1 else 0))
  }

  function AddPendings(t: Txn, k: nat, n: int): Txn
    requires k < |t.tasks|
  {
    t.(tasks := t.tasks[k := t.tasks[k].(pendings := t.tasks[k].pendings + n)])
  }

  /** A destroyed transaction keeps its state. */
  predicate MaySet(t: Txn, s: TxnState) {
    t.state == Destroyed ==> s == Destroyed
  }

  function SetState(t: Txn, s: TxnState): Txn
    requires MaySet(t, s)
  {
    t.(state := s, error := t.error || s == Failed)
  }

  // ----- the workflow step -----

  /** What user code and the clock do during one workflow step. `late[i]` says whether
      the time limit has passed at the i-th entry of the run function. */
  datatype Conduct = Conduct(failed: bool, calls: seq<Call>, late: seq<bool>)

  datatype Outcome =
    | Abort                                        // an assertion of the engine fails
    | Ended(txn: Txn, again: bool, freed: bool)

  predicate TimedOut(t: Txn, c: Conduct, entry: nat) {
    t.timeout > 0 && t.state != Failed && entry < |c.late| && c.late[entry]
  }

  /** The rank of the state read at entry; it falls at every recursive entry. */
  function Rank(s: TxnState): nat {
    match s
    case Created => 4 case Unpacked => 4 case Suspended => 4
    case Running => 3
    case Completed => 2 case Failed => 2 case Timeout => 2
    case Packed => 1
    case Destroyed => 0
  }

  function Run(t: Txn, c: Conduct, entry: nat): Outcome
    decreases Rank(t.state), 1
  {
    var state := t.state;
    if TimedOut(t, c, entry) && !MaySet(t, Timeout) then Abort
    else
      var t1 := if TimedOut(t, c, entry) then SetState(t, Timeout) else t;
      match state
      case Created | Unpacked | Suspended => Run(SetState(t1, Running), c, entry + 1)
      case Running => ModuleRun(t1, c, entry)
      case Completed | Failed | Timeout => ModulePack(t1, c, entry)
      case Packed => Release(SetState(t1, Destroyed))
      case Destroyed => Release(t1)
  }

  function ModuleRun(t: Txn, c: Conduct, entry: nat): Outcome
    requires t.state != Destroyed
    decreases 3, 0
  {
    if t.next >= t.modules then
      Run(SetState(t, Completed), c, entry + 1)
    else
      var t1 := AddCalls(t.(next := t.next + 1, log := t.log + [Ran(t.next)]), c.calls);
      var t2 := if c.failed then SetState(t1, Failed) else t1;
      if t2.pending != 0 then
        Ended(if c.failed then t2 else SetState(t2, Suspended), false, false)
      else if c.failed then Run(t2, c, entry + 1)
      else if t2.next != t2.modules then Ended(t2, true, false)
      else Run(SetState(t2, Completed), c, entry + 1)
  }

  function ModulePack(t: Txn, c: Conduct, entry: nat): Outcome
    requires t.state != Destroyed
    decreases 2, 0
  {
    var t1 := if t.hasPack then t.(log := t.log + [PackSaw(t.state)]) else t;
    Run(SetState(t1, Packed), c, entry + 1)
  }

  /** Free the transaction unless some task is still incomplete. */
  function Release(t: Txn): Outcome {
    Ended(t, false, t.complete >= t.total)
  }

  // ----- the callback step -----

  function Callback(t: Txn, k: nat, status: TaskStatus, failed: bool, calls: seq<Call>): Txn
    requires k < |t.tasks|
    requires failed ==> MaySet(t, Failed)
  {
    if status == TaskDone || status == TaskBusy then
      var t1 := AddCalls(SetTaskComplete(t, k, status), calls);
      if failed then SetState(t1, Failed) else t1
    else t
  }

  predicate Resumes(t: Txn, k: nat)
    requires k < |t.tasks|
  {
    if t.tasks[k].hasCb then t.pending == 0 else t.complete == t.total
  }
}
