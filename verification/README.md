# Skull engine: service task protocol, routing and endpoint pool in Dafny

Skull is an event-driven engine. One master, a number of workers and a number of background
engines exchange events. Service data is shared without locks: the master keeps, per service,
a task queue with a read/write policy and hands tasks out so that readers and writers never
overlap. Transactions walk through a workflow of modules, suspend while their service calls run,
and are resumed by a message. This project models that machinery and proves what it promises,
over every run.

The model has three layers.

* **Specifications on values.** `QueueSpec`, `ServiceSpec`, `TxnSpec` give the queue policies, the
  scheduling loop, the task table and the mutually recursive workflow step. `Protocol` puts them
  together: eight kinds of event, one handler each, and a transition system whose environment
  (user code, clocks, endpoint replies, timers) is free. An assertion of the source that fails is
  a `Crash`.
* **Invariants and theorems over runs.** `Invariants`, `LedgerSteps`, `ProtocolSteps`, `SlotSteps`
  build an inductive invariant; `Runs`, `DataAccess` state what follows for every state of every run.
  `CallHistory`, `Failures` and `Jobs` tie the state to the history of the run: every call is recorded,
  carried and answered as it was made, every failure of user code marks its transaction for good, every
  job is armed, fired, queued or refused, and run once, where it was asked to.
  `Tokens` says exactly which steps break a transaction's resume token and exactly which handlers
  fail, with no assumption on callbacks; `Resume` concludes that a transaction whose own calls carry
  callbacks is resumed exactly once per suspension, whatever the others do. `Progress` shows that
  something always leads back to a live transaction, with or without callbacks, and `Bounded`, by a
  potential that every step lowers, that handlers left to themselves come to rest with all transactions
  finished. `Star`, `StarRuns` model the queues and bridges of the star topology; `OnStar` proves that the protocol on the star refines
  the protocol over FIFO channels, so the theorems hold there too, and `Addresses` that every event it
  sends can be routed. `EpPool`, `EpPoolLaws`, `EpPoolRuns`, `EpPoolCalls`, `EpPoolFates`, `EpPoolWatch`
  do the same for the endpoint pool, `EntityMgr` for entity reclamation, `Pto` for the packet checksum.
* **Imperative code.** `TaskQueueImpl`, `Master`, `Worker`, `Routing`, `EpManager` and the class in
  `EntityMgr` are classes, loops and recursive methods in the source's own form; each is proved
  equal, step by step, to the function that specifies it. The master and worker handlers are proved
  to be exactly the handlers of `Protocol`.

## What the proofs found

Some promises are false of the code as it stands. Each has a lemma with a concrete run or step and one
with the exact condition under which the promise holds.

* A service call **without a callback** resumes the workflow when all tasks are complete, whether or not
  the transaction is suspended. Two resume events can then be in flight, and the second finds the
  transaction freed (`Counterexamples.WithoutCallbackTwoTokens`); or the workflow ends while the call
  runs, and no resume event is in flight for a transaction that does not wait
  (`Counterexamples.EndsWithoutToken`). The token is lost in exactly two kinds of step, which can be told
  beforehand: the completion of the last incomplete call when that call has no callback, and a workflow
  step with some call incomplete in which no module is left, or the one that runs makes no call with a
  callback and fails or is the last (`Resume.TokenKeptExactly`). A handler fails in exactly three
  (`Resume.HandlersFailExactly`). Even so no transaction is ever stranded (`Progress.NeverStranded`). A
  transaction whose own calls carry callbacks is safe in every run (`Resume.OneResumeToken`).
* The clean-up function that runs after a service call's callback gets an unfrozen service handle although
  a late completion holds no slot, so it can be granted mutable data while a writer runs
  (`DataAccess.CleanUpIsNotExclusive`). A grant is exclusive exactly when the code that gets it holds
  a slot (`DataAccess.MutableDataIsExclusive`). The same handle lets the clean-up start an endpoint call
  for the completed call, which then completes a second time (`CleanUp.CleanUpCompletesTwice`); a job
  started there aborts, and otherwise the call stays accounted for exactly when the clean-up starts
  nothing (`CleanUp.CleanUpMustStartNothing`).
* A send whose write fails on a connected endpoint is reported failed, its sender releases its data, and
  its node stays behind. Teardown releases the data again (`EpPoolRuns.RefusedYetReleased`); so does a
  complete reply, and nothing else (`EpPoolRuns.RefusedIsLeftAlone`).
* An accepted send with a time limit whose write fails when its connection comes up stays in the pool
  with no timer left to end it (`EpPoolWatch.UnwatchedSend`). Every other accepted send with a time limit
  is watched by a valid timer (`EpPoolWatch.AcceptedSendsAreWatched`).
* A pack step that fails marks the entity inactive even when it is already dead; the delete that follows
  lists it for reclamation a second time (`EntityMgr.DeadListedTwice`). The mark keeps the manager's
  invariant exactly when the entity is not dead yet (`EntityMgr.MarkInactiveValid`).

One comment disagrees with its code: `src/api/sk_pto.h:34` describes an 8-bit checksum, the code
keeps 16 bits (`src/pto/sk_pto.c:37-39`). The model follows the code.

## Model

| member | source | states |
|---|---|---|
| `Runs.ReaderWriterExclusion` | src/components/sk_service.c:444-511 | In every state of every run the tasks scheduled and not yet acknowledged are none (idle), one or more readers (read) or exactly one writer (write), and the queue state says which. |
| `Runs.SlotConservation` | src/components/sk_service.c:412-428 | `running_task_cnt` is always the number of slots carried by events in flight, of API calls and timer jobs together, so it is never negative and a refused task never releases a slot. |
| `Runs.WorkConservation` | src/components/sk_service.c:444-500 | In every state of every run a non-empty pending queue implies a running task. |
| `Runs.CompletedOnce` | src/pto/sk_pto_service_task_cb.c:45-47 | A completion notice that can be delivered finds its call running, with no pending work, and fewer complete than total tasks: no call is completed twice. |
| `Runs.CallAccounted` | src/user-c/src/ep.c:77-93 | A call is complete and nowhere, or in exactly one place; `pendings` is exactly the endpoint calls and jobs outstanding for it, wherever they are. |
| `Runs.CountersAgree` | src/common/sk_txn.c:295-325 | total, complete and pending counters agree with the task table of every transaction in every run. |
| `Runs.RunsWhereAsked` | src/components/sk_service.c:132-150 | A scheduled call goes to its caller's engine, to the background engine it named, or to the first one, and its result back to the caller. |
| `Runs.JobsRunWhereAsked` | src/components/sk_service.c:190-215 | An accepted job goes to the engine that created it, to the background engine it named, or to the first one; a refused one goes back to its creator's engine. |
| `CallHistory.CallsAsMade` | src/components/sk_service.c:639-671 | In every run a live transaction's task table is exactly the calls its modules and callbacks made, in order, with service, kind, engine and callback as asked. |
| `CallHistory.CarriedAsMade` | src/pto/sk_pto_service_iocall.c:45-72 | In every run each event and queued task of a call has the service and kind the call was made with; the request and the queued task also its engine. |
| `CallHistory.WriterAlone` | src/components/sk_service.c:444-500 | While a call that asked to write holds a slot of its service, from scheduling to its answer, nothing else holds one; while one that asked to read does, no writer does. |
| `CallHistory.StatusRecorded` | src/common/sk_txn.c:312-325 | In every run the table records for a call exactly the status its completion delivers, and no completion is delivered to a complete call. |
| `CallHistory.StatusFinal` | src/common/sk_txn.c:312-325 | Once complete, a call keeps its status while its transaction lives. |
| `CallHistory.BusyExactlyRefused` | src/components/sk_service.c:177-188 | A complete call is recorded busy if and only if it reached the master when its service's queue was full for its kind. |
| `CallHistory.CallsArriveInOrder` | src/components/sk_service.c:664-670 | In every run the calls of one transaction on their way to the master are in the order user code made them. |
| `Jobs.JobsAccounted` | src/components/sk_service.c:190-215 | In every run, for every service and job: created = armed + fired (a periodic one stays armed); fired = on the way to the master + accepted + refused, refused exactly when the queue was full for its kind; accepted = queued + on the way + run; refused = on the way back + run as refused. No job is lost, doubled or changed, its kind included. |
| `Runs.WorkflowInOrder` | src/pto/sk_pto_workflow_run.c:24-103 | Every transaction in the table ran a prefix of its modules in order, each once; one already past its pack step has that step last in its log and nothing after it. |
| `Runs.FinishedInOrder` | src/pto/sk_pto_workflow_run.c:237-297 | A transaction leaves the table only in its own workflow step, with all calls complete; its final log is a prefix of the modules in order, each once, then the one pack step if there is one, which saw an error exactly if one happened; without an error and a time limit all modules ran. |
| `Failures.MarkedExactly` | src/common/sk_txn.c:375-390 | In every run a live transaction has its error flag set if and only if a module or a callback of it has failed. |
| `Failures.CallbackFailureMarks` | src/pto/sk_pto_service_task_cb.c:62-71 | When the callback of a completed call fails, its transaction has the error flag and state error after that step. |
| `Failures.NoModuleAfterFailure` | src/pto/sk_pto_workflow_run.c:57-89 | After a module or callback of a transaction has failed, in every later state of the run it has run no further module. |
| `Failures.PackSeesFailure` | src/pto/sk_pto_workflow_run.c:170-232 | When a transaction is freed its flag says exactly whether its user code ever failed, and if there is a pack step, pack saw an error exactly then. |
| `Failures.AsArrived` | src/common/sk_txn.c:101-120 | A live transaction has the home engine, workflow and time limit it arrived with. |
| `Resume.OneResumeToken` | src/pto/sk_pto_service_task_cb.c:86-93 | In every run a live transaction whose own calls carry callbacks waits for them or has exactly one resume event in flight, never both, and is not destroyed, whatever the calls of other transactions carry. |
| `Resume.TokenKeptExactly` | src/pto/sk_pto_service_task_cb.c:86-93 | In every run, with no assumption on callbacks: a step from one resume token leaves one or frees the transaction if and only if it is neither the completion of the last incomplete call, that call without a callback, nor a workflow step with a call incomplete (one just made included) in which no module is left to run, or the module makes no call with a callback and fails or is the last. |
| `Tokens.TokenLaw` | src/pto/sk_pto_workflow_run.c:139-168 | The same for any step from any state satisfying the invariant; both breaking steps are given by the transaction, the event and what the module does, not by the outcome. |
| `Resume.NoHandlerFails` | src/pto/sk_pto_service_task_cb.c:24-93 | In every run a step fails no assertion and finds no freed transaction, if the transaction whose user code it runs, if any, made only calls with callbacks. |
| `Resume.HandlersFailExactly` | src/common/sk_txn.c:375-389 | In every run, with no assumption on callbacks: a step fails if and only if it delivers the workflow event of a freed transaction, or of a destroyed one past its time limit, or a failing callback of a destroyed one. |
| `Resume.NothingDangles` | src/pto/sk_pto_workflow_run.c:139-168 | In every run nothing in flight, queued or pending names a transaction that is not alive, if its calls carried callbacks while it was. |
| `Progress.NeverStranded` | src/pto/sk_pto_service_task_cb.c:86-93 | In every run, with or without callbacks: a live transaction has an event in flight that resumes it or carries one of its calls, or an endpoint reply or timer pending for a call, or a call or job queued at a service whose slot an event in flight will release. |
| `Progress.QuietMeansFinished` | src/pto/sk_pto_workflow_run.c:139-168 | In every run, when nothing is in flight and no reply or timer is pending for a call, every transaction that ever arrived has been freed. |
| `Bounded.WorkBounded` | src/components/sk_sched.c:417-429 | No storm: no run has more steps than its environment asked for, counting 2 and one per module for an arrival, 5 for a service call, 7 for an endpoint call or job left pending or a periodic timer's firing, 8 or 1 for a one-shot or periodic job. |
| `Bounded.ComesToRest` | src/components/sk_sched.c:417-429 | Once nothing more is asked for, the whole run is no longer than what was asked for before, so processing events until none is left ends. |
| `Bounded.ReachesRest` | src/components/sk_sched.c:417-429 | From every state of every run there is a way, asking for nothing more, to a state in which no step that asks for nothing succeeds. |
| `Bounded.RestMeansFinished` | src/components/sk_sched.c:417-429 | At rest the oldest event of every channel is a workflow event of a freed transaction, and if nothing is in flight every transaction is finished. |
| `Bounded.AllFinish` | src/pto/sk_pto_workflow_run.c:139-168 | At rest, if all calls carried callbacks, nothing is in flight and every transaction that ever arrived is finished. |
| `Counterexamples.WithoutCallbackTwoTokens` | src/pto/sk_pto_service_task_cb.c:86-90 | A run in which a call without a callback leaves two resume events in flight, and the second one's handler fails. |
| `Counterexamples.EndsWithoutToken` | src/pto/sk_pto_workflow_run.c:269-278 | A run in which the last module makes a call without a callback: the transaction is destroyed and kept, does not wait, and nothing in flight resumes it. |
| `DataAccess.MutableDataIsExclusive` | src/components/sk_service.c:579-604 | Over all user code outside init and release: code holding a slot is granted mutable data if and only if it is the only slot holder and holds it to write; code without a slot is never that holder; endpoint callbacks, with or without a pending task, are granted nothing. |
| `DataAccess.ApisAndJobsAreExclusive` | src/user-c/src/service.c:171-191 | Service APIs and jobs, refused and reading jobs included, get mutable data exactly as the sole writer. |
| `DataAccess.OnlyCleanUpIsNotExclusive` | src/user-c/src/ep.c:68-75 | Of all user code only the clean-up after a callback, and only when it holds no slot, can be granted mutable data without being the sole writer. |
| `DataAccess.CleanUpIsNotExclusive` | src/user-c/src/srv_executor.c:79-114 | A run in which the clean-up of a late completion is granted mutable data while another task is the sole writer. |
| `CleanUp.CleanUpMustStartNothing` | src/user-c/src/srv_executor.c:79-114 | A clean-up aborts if and only if it starts a job (its position is the module's); after any other the completed call stays accounted for if and only if the clean-up started nothing. |
| `CleanUp.CleanUpCompletesTwice` | src/user-c/src/ep.c:160-164 | When the clean-up starts an endpoint call, its answer sends a second completion of the completed call. |
| `WorkflowLaws.StepFollows` | src/pto/sk_pto_workflow_run.c:237-297 | One workflow step keeps the order law, runs at most the next module, registers exactly that module's calls, aborts exactly when a destroyed transaction times out again, and otherwise destroys the transaction exactly if no module was left or the one that ran leaves nothing to wait for and fails or is the last. |
| `WorkflowLaws.StepVerdict` | src/pto/sk_pto_workflow_run.c:24-103 | After a step: the error flag is set exactly if the module that ran failed (or, if none ran, as before); with calls to wait for the state is error or pending; if it goes on it is running, or timed out if the limit had passed at the module; pack saw an error, else a time-out, passed then or before, else completion. |
| `WorkflowLaws.FailureIsFinal` | src/pto/sk_pto_workflow_run.c:57-63 | A step of a transaction whose error flag is set runs no module, does not go on by itself, and pack sees the error; `Failures` says when the flag is set and what follows over runs. |
| `ServiceSpec.DrainSaturates` | src/components/sk_service.c:444-500 | The scheduling loop stops only on an empty queue or with the service busy. |
| `ServiceSpec.DrainConserves` | src/components/sk_service.c:444-500 | Every weight of the queued tasks splits between those scheduled and those left. |
| `ServiceSpec.DrainConsistent` | src/components/sk_service.c:466-486 | The loop keeps state and count consistent with the read and write slots handed out. |
| `QueueSpec.BatchCompatible` | src/common/sk_queue.c:186-300 | Every pulled batch is all reads or one element, and fits the queue state. |
| `QueueSpec.PullNothing` | src/common/sk_queue.c:186-300 | A pull hands out nothing if and only if the queue is empty or its state blocks the head. |
| `QueueSpec.PullConserves` | src/common/sk_queue.c:82-108 | A pull splits the queue's contents between batch and rest. |
| `QueueSpec.PullMaximal` | src/common/sk_queue.c:82-108 | A batch of reads stops only at its limit or where no read follows; any other batch is one element. |
| `QueueHistory.ArrivalOrder` | src/common/sk_queue.c:186-228 | Over any history, exclusive and prefer-write queues hand out elements in exact order of arrival, so no read overtakes an earlier write. |
| `QueueHistory.OrderPerKind` | src/common/sk_queue.c:271-300 | Over any history a prefer-read queue is FIFO among reads and among writes. |
| `QueueHistory.BatchesNeverConflict` | src/common/sk_queue.c:271-300 | Over any history a write leaves a read/write queue only when idle and, under prefer-read, with no read queued. |
| `TaskQueueImpl.GetNewSize` | src/common/sk_queue.c:36-57 | For every cap that fits 64 bits the doubling loop ends without wrapping, the result fits the new element or is the cap, and it equals the old size exactly at the cap. |
| `TaskQueueImpl.TaskQueue.PushTo` | src/common/sk_queue.c:59-80 | Busy exactly when the buffer holds `max_slots` elements; otherwise contents are kept in order, the element is appended, and the buffer stays within `max_slots` elements' bytes; memory runs out only when it would have to grow to 2^63 bytes. |
| `TaskQueueImpl.TaskQueue.PullFrom` | src/common/sk_queue.c:82-108 | The pull loop takes the longest prefix of the wanted kind, at most the number asked for. |
| `TaskQueueImpl.TaskQueue.Push` | src/common/sk_queue.c:254-269 | Busy exactly when the target buffer of the element's kind is full; otherwise the queue's value is the specified one. |
| `TaskQueueImpl.TaskQueue.Pull` | src/common/sk_queue.c:364-377 | All three policies hand out and keep exactly what the specification says. |
| `TaskQueueImpl.TaskQueue.SetState` | src/common/sk_queue.c:385-410 | Sets the state and nothing else, for the states the mode accepts. |
| `TaskQueueImpl.TaskQueue.Empty` | src/common/sk_queue.c:412-427 | True exactly when nothing is queued in any buffer. |
| `TaskQueueImpl.CreateQueue` | src/common/sk_queue.c:311-344 | No queue is made exactly when there are no slots or more initial slots than the maximum; a new one is empty and idle. |
| `Master.ServiceObject.ScheduleTasks` | src/components/sk_service.c:444-500 | The pop loop ends, no assertion on the queue state fails, and it sends the tasks of the specification, in order; to which engines is `Runs.RunsWhereAsked` and `Runs.JobsRunWhereAsked`. |
| `Master.ServiceObject.PushTask` | src/components/sk_service.c:376-394 | Busy exactly when the queue is full for the task's kind, else the task is queued. |
| `Master.ServiceObject.SetComplete` | src/components/sk_service.c:502-511 | Releases one slot; the queue becomes idle with the last one. |
| `Master.OnIoCall` | src/pto/sk_pto_service_iocall.c:20-100 | The handler has exactly the effect and sends exactly the events of the protocol, the busy answer included; what is queued, and when it is refused, is `CallHistory.CarriedAsMade` and `CallHistory.BusyExactlyRefused`. |
| `Master.OnTaskDone` | src/pto/sk_pto_service_task_done.c:21-62 | Releases the slot if there is one, resumes, reschedules: the protocol's effect, events in order. |
| `Master.OnTimerEmit` | src/pto/sk_pto_timer_emit.c:18-68 | Queues the job or returns it refused without a slot: the protocol's effect. |
| `Master.OnTimerDone` | src/pto/sk_pto_service_timer_done.c:19-53 | Releases the slot only for an accepted job, reschedules: the protocol's effect. |
| `Worker.Transaction.Run` | src/pto/sk_pto_workflow_run.c:237-297 | The recursion ends by a rank on the state read at entry, though a time-out overwrites the stored state; result and events are those of the specification. |
| `Worker.Transaction.ModuleRun` | src/pto/sk_pto_workflow_run.c:24-103 | Runs the next module, registers and sends its calls in order, and suspends, fails, continues or completes as specified, which `WorkflowLaws.StepFollows` and `WorkflowLaws.StepVerdict` spell out. |
| `Worker.Transaction.ModulePack` | src/pto/sk_pto_workflow_run.c:170-232 | Records what pack saw and goes on to release; makes no call. |
| `Worker.Transaction.TaskAdd` | src/common/sk_txn.c:295-305 | The new task is last in the table and counted, pending only with a callback. |
| `Worker.Transaction.SetTaskComplete` | src/common/sk_txn.c:312-325 | The task gets its status and both counters move with it; over runs, `CallHistory.StatusRecorded`. |
| `Worker.Transaction.FinishPending` | src/components/sk_service.c:553-577 | A reply or job gives back its share of `pendings` after its callback; exactly the last one sends the completion, without a slot. |
| `Worker.OnTaskRun` | src/pto/sk_pto_service_task_run.c:22-87 | Runs the API and reports it done or pending with its slot: the protocol's effect. |
| `Worker.OnTaskCb` | src/pto/sk_pto_service_task_cb.c:21-95 | Completes the task, runs the callback, decides the resume: the protocol's effect; what it marks and records over runs is `Failures.CallbackFailureMarks` and `CallHistory.StatusRecorded`. |
| `Worker.OnWorkflowRun` | src/pto/sk_pto_workflow_run.c:237-297 | One workflow event: the protocol's effect, freeing the transaction included. |
| `Worker.OnTimerRun` | src/pto/sk_pto_service_timer_run.c:19-50 | Runs the job, refused ones too, and reports its status: the protocol's effect. |
| `Star.ViaStar` | src/components/sk_core.c:109-155 | In the star an event leaves the master straight for its destination and any other engine for the master, whatever the round-robin position. |
| `Star.MovedFlight` | src/components/sk_sched.c:260-335 | No crossing of a bridge loses, duplicates or reorders an event of any channel. |
| `StarRuns.DeliveredInOrder` | src/components/sk_sched.c:71-100 | On every source, destination and priority the events taken, followed by those in flight, are the events sent; and moves made plus moves left are the route length times the events sent. |
| `StarRuns.HopsBounded` | src/components/sk_sched.c:149-162 | At most two bridge crossings, far below the hop limit; an event waits only in its own destination's input queue, at its own priority. |
| `StarRuns.NeverJams` | src/components/sk_sched.c:260-335 | When nothing can move, every event in flight is in the input queue of its destination. |
| `StarRuns.MovesAsRouted` | src/components/sk_sched.c:290-303 | The bridge the scheduler chooses is the one the network model moves along. |
| `OnStar.StarRefines` | src/components/sk_sched.c:398-427 | Every run of the protocol on the star is a run of the protocol over FIFO channels, with the same services, transactions and pending work and the same events per channel. |
| `OnStar.ExclusionOnStar` | src/components/sk_service.c:444-511 | While a packet anywhere on the star carries a write slot that task is the only scheduled one; while one carries a read slot only readers are. |
| `OnStar.NoHandlerFailsOnStar` | src/pto/sk_pto_service_task_cb.c:24-93 | On the star too a step does not fail, if the transaction whose user code it runs, if any, made only calls with callbacks. |
| `OnStar.HandlersFailExactlyOnStar` | src/components/sk_sched.c:355-382 | On the star too a step fails if and only if it runs one of the three events. |
| `Addresses.EveryEventIsRouted` | src/components/sk_sched.c:276-335 | Every event the protocol leaves in an output queue is in the one of its protocol's priority, one of ten, and finds its bridge below the hop limit, so none is dropped. |
| `Routing.RoundRobinFair` | src/components/sk_sched.c:223-258 | With m routable bridges any m consecutive picks are distinct and are exactly the routable ones; a search fails exactly when m is 0. |
| `Routing.WorkersTakeTurns` | src/components/sk_core.c:125-151 | At the master as many consecutive picks as there are workers are each worker once and never a background engine; a search fails exactly when there is no worker. |
| `Routing.Search` | src/components/sk_sched.c:230-244 | The search loop ends after at most one turn with the first routable bridge from its start. |
| `Routing.Fabric.FindAffinity` | src/components/sk_sched.c:196-221 | The first bridge that leads to the destination, or none. |
| `Routing.Fabric.FindRoundRobin` | src/components/sk_sched.c:224-258 | The first routable bridge from the last position, and then the position after it modulo the number of bridges; unchanged when there is none. |
| `Routing.Fabric.DeliverOneIo` | src/components/sk_sched.c:261-335 | Empties an output queue onto the bridges, one network move per event; no assertion on hops or bridges fails. |
| `Routing.Fabric.CopyEvents` | src/components/sk_sched.c:71-100 | Empties a bridge into the input and output queues at its far end, one network move per event. |
| `Routing.Fabric.Emit` | src/components/sk_sched.c:431-467 | The event joins its own engine's input queue or its output queue, at its priority. |
| `Routing.EmptiedFlight` | src/components/sk_sched.c:261-335 | Emptying a queue or bridge keeps every channel's events and order and leaves it empty. |
| `Routing.EventQueueSize` | src/common/sk_io.c:13-31 | The doubling loop ends without wrapping and leaves room for the new events. |
| `Routing.EventQueue.Push` | src/common/sk_io.c:49-65 | A push always succeeds, growing at most once, and keeps the order. |
| `Routing.EventQueue.Pull` | src/common/sk_io.c:67-82 | A pull takes the oldest events, as many as asked for and present. |
| `EpPoolRuns.EndpointsBounded` | src/components/sk_ep_pool.c:378-433 | In every run each endpoint carries at most one transaction, the index lists each live endpoint once under its key, and their number is `nep` and at most `max`. |
| `EpPoolRuns.ObligationsMet` | src/components/sk_ep_pool.c:573-661 | Every send is answered; one answered OK is in the pool untouched, or gone, released exactly once after at most one callback, across ok, time-out, error and teardown. |
| `EpPoolCalls.CalledBackExactlyOnce` | src/components/sk_ep_pool.c:573-661 | Outside teardown, for every send of every run: if accepted, it is in the pool with nothing more said, or it is gone, called back exactly once if its own handler has a callback, never otherwise, and then released exactly once. |
| `EpPoolCalls.CallbackTellsWhy` | src/components/sk_ep_pool.c:573-661 | Outside teardown each step after a send says nothing about it, or tells its owner success for a complete reply, a time-out for the receive timer, an error otherwise, and then releases its data. |
| `EpPoolFates.SendFate` | src/components/sk_ep_pool.c:1201-1261 | How every send is answered, from its arguments and the pool, and where it is then: on an endpoint that was free for it if there is one, else on a new one, its request written or pending, or nowhere; no other endpoint changes. |
| `EpPoolFates.EndpointFate` | src/components/sk_ep_pool.c:755-932 | A step other than a send deletes an endpoint, ends its transaction, makes it connected or writes its request if and only if it is one of the steps that should; any other leaves it as it is. |
| `EpPoolRuns.TimersSafe` | src/components/sk_ep_pool.c:663-708 | A valid timer has a live target that holds it, every held pointer is to a valid timer, a held connect timer means connecting, and no callback fails. |
| `EpPoolRuns.RefusedIsLeftAlone` | src/components/sk_ep_pool.c:506-571 | A send answered with an error is called back or released by a step if and only if the step tears down, or completes a read on, the endpoint holding its left-over node. |
| `EpPoolRuns.RefusedYetReleased` | src/components/sk_ep_pool.c:269-305 | A run in which a send whose write failed is reported failed and released by teardown. |
| `EpPoolWatch.AcceptedSendsAreWatched` | src/components/sk_ep_pool.c:535-571 | In every run an accepted live send with a time limit is watched by a valid timer if and only if it is not still pending on a connected endpoint. |
| `EpPoolWatch.IdleIsClosed` | src/components/sk_ep_pool.c:633-661 | In every run an endpoint without a transaction is connected and holds a valid shutdown timer aimed at it. |
| `EpPoolWatch.TimedAsAsked` | src/components/sk_ep_pool.c:535-571 | In every run a receive timer is held exactly by a written request with a time limit, a connect timer only by a connecting endpoint for one. |
| `EpPoolWatch.ReplyRearms` | src/components/sk_ep_pool.c:212-232 | A complete reply leaves the endpoint with a valid shutdown timer that has not gone off yet. |
| `EpPoolWatch.UnwatchedSend` | src/components/sk_ep_pool.c:818-902 | A run in which a send with a time limit is accepted, its connection comes up, its write fails, and no timer watches it. |
| `EpPoolLaws.StepInv` | src/components/sk_ep_pool.c:506-932 | Every send, connect, read, error, timer and teardown step succeeds and keeps the pool's invariant. |
| `EpPool.FindEp` | src/components/sk_ep_pool.c:378-404 | Finds a connected endpoint of the list without a transaction, and none exactly if there is none. |
| `EpManager.Manager.Find` | src/components/sk_ep_pool.c:378-404 | The search loop finds the first such endpoint. |
| `EpManager.Manager.Remove` | src/components/sk_ep_pool.c:354-376 | The two loops remove the endpoint and keep the order of the others. |
| `EpManager.Manager.HandleError` | src/components/sk_ep_pool.c:595-631 | Tells and releases every accepted transaction, drops refused ones, deletes the endpoint, as specified. |
| `EpManager.Manager.HandleOk` | src/components/sk_ep_pool.c:633-661 | Callback, shutdown timer, release, in that order, as specified. |
| `EpManager.Manager.Destroy` | src/components/sk_ep_pool.c:269-305 | Cancels both timers and releases what is left, as specified. |
| `EpManager.Manager.CreateShutdownTimer` | src/components/sk_ep_pool.c:212-232 | Refreshes the shutdown timer, or replaces one already triggered. |
| `EpManager.Manager.Write` | src/components/sk_ep_pool.c:506-571 | Marks the node sent and arms exactly the timers its handler asks for; a failed write changes nothing. |
| `EpManager.Manager.Send` | src/components/sk_ep_pool.c:1201-1261 | Refuses, reuses a free endpoint or opens a new one, as specified. |
| `EpManager.Manager.OnConnect` | src/components/sk_ep_pool.c:839-902 | Established: timer cancelled and request sent; failed: error handling. |
| `EpManager.Manager.OnRead` | src/components/sk_ep_pool.c:755-808 | A complete reply finishes the transaction, a malformed one fails the endpoint, otherwise nothing. |
| `EpManager.Manager.RunTimer` | src/pto/sk_pto_timer_triggered.c:15-34 | An invalid timer does nothing; a valid one runs its callback; then it is freed. |
| `EntityMgr.ReclamationExact` | src/components/sk_entity_mgr.c:32-133 | In every run that marks only live entities inactive, the inactive list is the dead entities, each once, all statistics are the true counts, and nothing is freed twice. |
| `EntityMgr.EntitiesAsDone` | src/components/sk_entity_mgr.c:90-199 | In every run that marks only live entities, the table shows for each entity exactly what was done to it: kind, status, transactions; only clean-up frees it, when dead and without transactions. |
| `EntityMgr.CleanFreesTheIdleDead` | src/components/sk_entity_mgr.c:90-133 | Unforced clean-up frees an entity if and only if it is dead without transactions, each once, and keeps the other dead ones in order. |
| `EntityMgr.MarkInactiveValid` | src/pto/sk_pto_workflow_run.c:189-194 | Marking an entity inactive keeps the manager's invariant if and only if it is not dead. |
| `EntityMgr.DeadListedTwice` | src/components/sk_entity_mgr.c:173-199 | For every entity, a run in which it dies with a transaction, is marked inactive and is listed for reclamation twice. |
| `EntityMgr.EntityManager.CleanDead` | src/components/sk_entity_mgr.c:90-133 | The pop loop and the list swap do exactly the specified clean-up; the popped entity is always in the table. |
| `EntityMgr.EntityManager.DelEntity` | src/components/sk_entity_mgr.c:173-199 | Releases the entity's resources once, marks it dead and lists it; a dead one is left alone. |
| `EntityMgr.EntityManager.AddEntity` | src/components/sk_entity_mgr.c:157-171 | Adds the entity and counts it. |
| `EntityMgr.EntityManager.UpdateStatistics` | src/components/sk_entity_mgr.c:32-80 | The statistics switch, by kind; a new inactive entity changes only the inactive count. |
| `EntityMgr.EntityManager.AddTxn` | src/entities/sk_entity.c:307-311 | The transaction joins the entity's table and its task count. |
| `EntityMgr.EntityManager.DelTxn` | src/entities/sk_entity.c:313-318 | The transaction leaves both. |
| `Pto.RoundTrip` | src/pto/sk_pto.c:58-101 | Packing then checking succeeds for every protocol, and every argument reads back as packed. |
| `Pto.OneByteDetected` | src/pto/sk_pto.c:37-56 | Changing one body byte passes the check if and only if it is no change or exchanges 0 and 1, whether char is signed or not. |
| `Pto.ChecksumIsSum` | src/pto/sk_pto.c:42-56 | Modulo 2^16 the wrapped 32-bit checksum is the salted sum of the byte values. |
| `Pto.ComputeChecksum` | src/pto/sk_pto.c:42-56 | The loop computes the checksum of the whole body. |
| `Pto.Pack` | src/pto/sk_pto.c:58-80 | The copy loop puts every argument in order behind the header and seals them. |

## Left out

Scope and environment:

- Handlers are atomic steps and bridges are atomic FIFO queues with enough room; memory-level concurrency, eventfd notification and the bridge capacity assertion are not modelled.
- Events sent without a destination join the network model once round robin has named one; the choice itself is in `Routing`.
- Transaction identifiers are never reused; the source uses addresses, which can be.
- The containers (`fmbuf`, `flist`, `fhash`, `fdlist`), sockets, epoll and clocks: their results are parameters or choices of the environment.
- Modules of a workflow are taken to be distinct, `pack` makes no service call and an API's `iocall` returns 0, as the source asserts or relies on.
- In the runs of `Protocol` the clean-up function after a callback starts no further pending work; what happens otherwise is in `CleanUp`.
- Endpoint calls that keep no task pending leave no trace in the protocol's state: their callbacks may run at any time in `DataAccess`, and in the pool they are sends like any other.
- Start-up and shutdown of engines, service states INIT and DESTROY beyond the data access rule, forced entity clean-up.
- That a completing transaction starts the next queued one of a non-concurrent entity: delivery is tried before the task count drops, so the code does not promise it.
- Admin module, configuration, loaders, logging, metrics, `sk_mbuf`, `sk_malloc` and the language bindings: bookkeeping and plumbing that would only add easy members.

Weaker than they could be:

- TaskQueueImpl.GetNewSize: requires the current buffer and one element to be smaller than 2^63 bytes, as every C object is; `DoublingWraps` shows what the doubling does from there on.
- TaskQueueImpl.CreateQueue: requires the initial buffer to be smaller than 2^63 bytes; the source would get no memory for it.
- TaskQueueImpl.TaskQueue.Pull: batches are logical elements; the source's pointer offsets for batches of more than one are not modelled, and the service layer pulls one at a time.
- Master.OnTimerDone: does not destroy the entity of a one-shot timer, because entities are not part of the protocol's state; they are modelled in `EntityMgr`.
- Worker.Transaction.ModulePack: a failing pack does not mark the entity inactive, for the same reason; `EntityMgr.MarkInactiveValid` and `EntityMgr.DeadListedTwice` say what that mark does.
- EpPoolRuns.ObligationsMet: says at most one callback, because it covers teardown, which releases without calling back; `EpPoolCalls.CalledBackExactlyOnce` says exactly one outside it.
- Routing.EventQueueSize: requires fewer than 2^63 bytes of events, old and new, because no allocation holds more and the source does not check.
- Routing.EventQueue.Push: requires the same.
- EpManager.Manager.OnConnect: the loop over an endpoint's transactions is one send, because an endpoint is proved to carry at most one; callbacks run from the event loop and do not re-enter the pool.
