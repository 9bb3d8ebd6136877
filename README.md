# Workflow orchestrator: a Dafny model

This project models the core of an asynchronous workflow orchestrator. A workflow runs
through INIT, PREPARE, EXECUTE, VALIDATE and COMPLETE, and can end in FAILED or CANCELLED.
Three parts are modelled:

- **The orchestrator** (`WorkflowOrchestrator`):
  - its transition table and how the state machine resolves a trigger against it;
  - the before-callbacks that stamp the workflow row;
  - the after-callback that logs a transition row and writes `status` and `current_state`;
  - the FIFO event queue and the loop that consumes it;
  - the two drivers, `execute_automatic` and `execute_next_step`;
  - `get_status`.
- **The worker manager** (`WorkerManager`): the task logic of each task type, the
  never-raising wrapper around workflow state tasks, and the status lifecycle and
  `active_tasks` bookkeeping of generic tasks.
- **The records**: the two status enums, the workflow, task and transition rows with their
  column defaults, and the cascade on deleting a workflow.

Files, one module each unless noted:

| file | modules | form |
|---|---|---|
| `wrappers.dfy` | `Wrappers` | `Option`, `Result` |
| `models.dfy` | `JsonValues`, `TaskModels`, `Models` | datatypes and functions; the database is an in-memory value |
| `worker.dfy` | `TaskLogic`, `Workers` | pure task logic; classes `TaskStore` and `WorkerManager` |
| `engine.dfy` | `Engine` | the transition table as data, `Fire`, `NextTrigger`, the callbacks, `Apply` |
| `events.dfy` | `Events` | the event queue as a value, one loop iteration (`Step`), `n` iterations (`Drain`) |
| `orchestrator.dfy` | `Orchestrator` | the drivers as functions (`Automatic`, `NextStep`) and what they do |
| `runtime.dfy` | `Runtime` | class `WorkflowOrchestrator`, with each method proved equal to the value-level model |

## How the model reads the program

- **The state machine library is not part of this model.** Its behaviour is written out:
  - A trigger is resolved by the first table entry with that trigger whose source admits the
    state. A single state name admits itself; a list admits its members.
  - An accepted trigger runs the before-callback, moves the state, then runs the
    after-callback.
  - A refused trigger raises `MachineError`, and changes nothing.
  - `str(e)` of that error is taken to be the library's message wrapped in double quotes
    (`"Can't trigger event fail from state FAILED!"`), since the library renders the message
    through `repr`.
- **`get_next_trigger`** compares each entry's source with the state using Python's `==`.
  A list source is never equal to a state name, so `fail` and `cancel` are never the next
  trigger. FAILED's next trigger is `retry`.
- **Time** is an abstract clock.
  - In the orchestrator, each transition row and each finishing or starting stamp takes the
    next tick, so those stamps are strictly increasing. A before-callback's stamp and the
    `updated_at` its write causes share one tick.
  - The worker manager takes one `now` per call, and every stamp that call writes carries it.
- **The asyncio plumbing is made sequential:**
  - The event task runs one iteration (`Step`) at a time.
  - The two-second settle sleep after an advance is `budget` iterations.
  - `_running = False; await event_task` lets the loop finish exactly one more iteration.
  - The event task starts only when the driver first yields, at its first wait for a worker.
- **The worker manager handed to a driver** is modelled by what waiting on a state's task
  yields: the worker's report, or the error the submission raised.
  - `Orchestrator.Pool(shutdown, wid)` is what the real `WorkerManager` yields.
  - `Runtime.RunStateTask` proves that it is exactly what `submit_workflow_task` and
    `future.result` produce.

### Where the code contradicts itself (the model follows what runs)

- **`retry`.** `_on_retry` (src/core/orchestrator.py:138-148) increments `retries` and clears
  `error_message`, `started_at` and `completed_at`. It is never attached: the `retry` entry of
  the table (src/core/orchestrator.py:53) names no callbacks, so `retry` only moves the
  machine to INIT:
  - `retries`, `error_message`, the timestamps, `status` and `current_state` all stay as they
    were (`RetryMovesOnlyTheMachine`);
  - no transition row is written.

  Because the row still says FAILED, an orchestrator built afresh from it starts in FAILED,
  and `execute_automatic` on it returns False at once (`RetriedRowRestartsInFailed`).
- **Next trigger of a terminal state.** The else branch of `advance_to_next_state`
  (src/core/orchestrator.py:219-220) logs a terminal state when there is no next trigger, and
  `execute_next_step` (src/core/orchestrator.py:310) counts FAILED among the terminal states.
  Yet `get_next_trigger` finds `retry` for FAILED, so advancing from FAILED queues `retry`
  (`AdvanceFromFailedQueuesRetry`); only COMPLETE and CANCELLED reach the terminal branch
  (`NextTriggerIsLegal`).
- **`execute_automatic` on a workflow that is already COMPLETE never returns.** The driver
  creates the event task, finds nothing to advance, clears `_running` and awaits the task,
  all without yielding first. The event task then starts, sets `_running` again and polls
  forever (`AutomaticFromCompleteNeverReturns`).

## Model

| member | source | states |
|---|---|---|
| TaskModels.TaskStatusValuesDistinct | src/db/models.py:23-30 | the six task status values are pairwise distinct and each parses back to its own status |
| TaskModels.NewTask | src/db/models.py:55-72 | a new task row is PENDING with `retry_count` 0, no result, no start or end time, no error, and created and updated at the insertion time |
| Models.MachineStatesAreStatusValues | src/db/models.py:12-20 | the machine's seven state names are exactly the workflow status values, so converting a transition's destination to a status never fails |
| Models.NewWorkflow | src/db/models.py:33-48 | a new workflow row is INIT with `current_state` "INIT" (so status and state agree), `retries` 0, and no start, end or error |
| Models.TransitionsOf | src/db/dao/workflow_transition_dao.py:16-21 | the rows of one workflow are exactly the log's rows with that id; a chronological log stays chronological |
| Models.LoadWorkflow | src/core/orchestrator.py:70-75 | the row when the id exists, otherwise the error "Workflow N not found" |
| Models.DeleteWorkflow | src/db/models.py:50-52 | deleting a workflow removes it, its tasks and its transition rows; every other row and every other workflow's history is unchanged |
| Models.HistoryUnaffected | src/db/models.py:51-52 | dropping one workflow's transition rows leaves every other workflow's ordered history intact |
| TaskLogic.SumSquaresClosedForm | src/core/worker_manager.py:121 | six times the sum of squares below n is (n-1)n(2n-1) |
| TaskLogic.SumOfSquaresOver | src/core/worker_manager.py:120-121 | the sum is defined exactly for int (and bool) iteration counts; it is 0 for a count of 0 or less and for a bool, and meets the closed form above 0; any other value gives Python's TypeError text |
| TaskLogic.RunWorkflowTaskLogic | src/core/worker_manager.py:85-161 | each state task reports its status word; it fails exactly when an `execute` task has a non-integer count, and then with the TypeError text of `range`; `execute` echoes its iterations and reports their sum of squares; unknown types report "success" and echo the type |
| TaskLogic.DefaultExecuteComputation | src/core/worker_manager.py:118-129 | without `iterations` the execute task succeeds with 5000 iterations and result 41654167500 |
| TaskLogic.ExecuteWorkflowTask | src/core/worker_manager.py:60-83 | never fails: success carrying exactly the logic's result when the logic succeeds, otherwise failure carrying exactly its error text; the task type is echoed either way |
| TaskLogic.RunTaskLogic | src/core/worker_manager.py:252-292 | every result reports "success"; it fails exactly when a handled type (`sleep`, `compute`, `http_request`) meets a config that is no dictionary (AttributeError), `time.sleep` rejects the duration, or `compute` gets a non-int count, and each failure carries the text of the error raised; `sleep` echoes its duration, `compute` reports the sum of squares, unknown types echo their type and never fail |
| TaskLogic.DefaultComputeResult | src/core/worker_manager.py:277-281 | without `iterations` a compute task reports 332833500, the sum of squares below 1000 |
| TaskLogic.SleepDuration | src/core/worker_manager.py:270-273 | the duration `time.sleep` accepts: a non-negative int, float or bool; a negative number fails with "sleep length must be non-negative", any other value with the TypeError text |
| TaskLogic.NegativeSleepFails | src/core/worker_manager.py:270-273 | a `sleep` task with a negative duration fails with the message `time.sleep` raises |
| Workers.MaxWorkersFor | src/core/worker_manager.py:31 | no argument or 0 gives the default 5; a positive argument is kept; a negative one is refused by the pool |
| Workers.WorkerManager.constructor | src/core/worker_manager.py:23-38 | a new manager has the chosen pool size, no active tasks, is not shut down, and is valid |
| Workers.WorkerManager.SubmitWorkflowTask | src/core/worker_manager.py:40-58 | after shutdown the pool's error; otherwise the wrapper's report for that task type and config; `active_tasks` is not touched |
| Workers.WorkerManager.SubmitTask | src/core/worker_manager.py:163-190 | an unknown id raises "Task N not found" and changes nothing; otherwise the task is QUEUED first; then the pool either refuses (after shutdown) or registers the new handle under the task id |
| Workers.WorkerManager.ExecuteTask | src/core/worker_manager.py:192-250 | a missing task gives False; otherwise RUNNING with its start time, then COMPLETED with the result (True) or FAILED with the error (False); the id always leaves `active_tasks`; other rows are unchanged |
| Workers.WorkerManager.GetQueueSize | src/core/worker_manager.py:294-296 | always 0: the queue is never filled |
| Workers.WorkerManager.GetActiveCount | src/core/worker_manager.py:298-300 | the number of tasks in `active_tasks` |
| Workers.WorkerManager.Shutdown | src/core/worker_manager.py:302-311 | sets the shutdown flag and nothing else, so repeating it changes nothing |
| Workers.SubmitAndRun | src/core/worker_manager.py:163-250 | a task submitted to a running pool and then executed ends COMPLETED with a result or FAILED with an error; its id leaves `active_tasks` (an earlier entry for it is overwritten, then removed) and every other entry is kept |
| Engine.TriggerNamed | src/core/orchestrator.py:46-53 | an event name denotes at most one trigger, the one with that name |
| Engine.FindTransition | src/core/orchestrator.py:57-64 | the entry found has the trigger and admits the state; when none is found, no entry with that trigger admits the state |
| Engine.FireTable | src/core/orchestrator.py:46-64 | the machine takes exactly the four forward steps, `fail` and `cancel` from the four in-progress states, and `retry` from FAILED; every other (state, trigger) pair is refused |
| Engine.FirstTriggerFrom | src/core/orchestrator.py:208-211 | the result is the trigger of an entry whose source equals the state; none means no entry's source equals it |
| Engine.NextTriggerTable | src/core/orchestrator.py:203-211 | INIT, PREPARE, EXECUTE and VALIDATE give prepare, execute, validate and complete; FAILED gives retry; COMPLETE and CANCELLED give none |
| Engine.NextTriggerIsLegal | src/core/orchestrator.py:203-211 | the next trigger is never `fail` or `cancel`, the machine always accepts it, and only COMPLETE and CANCELLED have none |
| Engine.RunBefore | src/core/orchestrator.py:103-136 | the before-callbacks change neither the machine state, the history, `status`, `current_state` nor `retries` |
| Engine.LogTransition | src/core/orchestrator.py:77-96 | appends one row stamped after the current time, sets `status` to the destination and mirrors it in `current_state` |
| Engine.Apply | src/core/orchestrator.py:46-64 | a trigger fails exactly when the machine refuses it, with the machine's error text; otherwise the state becomes the table's destination; `retries` never changes |
| Engine.ApplyLogsOneRecord | src/core/orchestrator.py:77-96 | every accepted trigger but `retry` appends exactly one row recording source, destination and trigger name, stamped after all earlier times, and leaves `status` and `current_state` equal to the new state |
| Engine.ApplyIsWired | src/core/orchestrator.py:46-64 | whatever the table-driven machine accepts, it does exactly what the callbacks wired to that trigger do: the hook before, the move, then `_log_transition` (nothing at all for `retry`) |
| Engine.RetryMovesOnlyTheMachine | src/core/orchestrator.py:53 | `retry` from FAILED moves only the machine to INIT: no row, and the workflow row is unchanged |
| Engine.ApplyStampsTimes | src/core/orchestrator.py:103-136 | `started_at` is set only by prepare, execute or validate finding it empty, and never overwritten; `completed_at` is set by complete, fail and cancel only; `fail` records its error, "Unknown error" without one; nothing else touches the error |
| Engine.ApplyKeepsInvariant | src/core/orchestrator.py:77-96 | every accepted trigger keeps the run invariant: the status is mirrored; the machine agrees with the row except INIT-after-retry; the history is chronological, declared steps only |
| Events.Step | src/core/orchestrator.py:177-201 | one iteration consumes the oldest event and adds at most one at the back; when the length is kept, the run is unchanged and the added event is `fail` |
| Events.DrainReplays | src/core/orchestrator.py:177-201 | the queue is first in, first out: the loop applies the queued triggers in order and leaves the later events untouched |
| Events.DrainOneMore | src/core/orchestrator.py:177-201 | running the loop `n + 1` times is running it `n` times and then once more |
| Events.StepKeepsInvariant | src/core/orchestrator.py:181-201 | a single loop iteration keeps the run invariant |
| Events.DrainOneTrigger | src/core/orchestrator.py:189-192 | a single accepted trigger in the queue is applied by one iteration |
| Events.RefusedTriggerQueuesOneFail | src/core/orchestrator.py:199-201 | a refused trigger leaves the run alone and queues exactly one `fail` carrying the machine's error text |
| Events.TerminalFailLivelock | src/core/orchestrator.py:181-201 | outside the in-progress states a queue of `fail` events never shrinks and the run never changes, however many iterations run |
| Events.DrainKeepsInvariant | src/core/orchestrator.py:177-201 | the event loop keeps the run invariant, whatever is queued |
| Orchestrator.StateTask | src/core/orchestrator.py:28-34 | INIT, PREPARE, EXECUTE, VALIDATE and COMPLETE run "initialize", "prepare", "execute", "validate" and "complete"; FAILED and CANCELLED fall back to "default" |
| Orchestrator.SequenceIndex | src/core/orchestrator.py:234-235 | the position of a state in the walked sequence; none exactly for FAILED and CANCELLED, where `index` raises |
| Orchestrator.Emit | src/core/orchestrator.py:150-152 | the event joins the back of the queue; the run is unchanged |
| Orchestrator.Advance | src/core/orchestrator.py:213-220 | queues the next trigger of the current state, or nothing when there is none |
| Orchestrator.AutomaticFromInit | src/core/orchestrator.py:222-290 | from INIT with every task succeeding: submits initialize, prepare, execute, validate in order (never complete), stores their reports, logs exactly the four forward rows, ends COMPLETE with both times set and the loop stopped, and returns True |
| Orchestrator.WalkCompletes | src/core/orchestrator.py:239-290 | from any position with the remaining tasks succeeding, the walk returns True in COMPLETE with the queue empty and the loop stopped |
| Orchestrator.WalkStampsRow | src/core/orchestrator.py:239-290 | after a successful walk the row is COMPLETE with `completed_at` set, and `started_at` set unless the walk began at VALIDATE without it |
| Orchestrator.WalkLogsForward | src/core/orchestrator.py:239-290 | a successful walk logs exactly the forward rows of the positions it passes |
| Orchestrator.WalkSubmitsAndStores | src/core/orchestrator.py:246-281 | a successful walk submits the task types of the positions it passes, in order, and stores each report under its state |
| Orchestrator.AutomaticFailsAt | src/core/orchestrator.py:269-275 | when the task at a position reports failure after the earlier ones succeed: returns False in FAILED with the task's error ("Task execution failed" by default), after the earlier forward rows plus the row to FAILED; exactly the tasks up to it were submitted |
| Orchestrator.FailWalkEnds | src/core/orchestrator.py:269-275 | the failing walk ends FAILED with the task's error recorded, the queue empty and the loop stopped, returning False |
| Orchestrator.FailWalkLogs | src/core/orchestrator.py:269-275 | the failing walk logs the forward rows before the failing position, then that state's row to FAILED |
| Orchestrator.FailWalkSubmits | src/core/orchestrator.py:259-272 | the failing walk submits exactly the task types from its start through the failing position |
| Orchestrator.AutomaticFromCompleteNeverReturns | src/core/orchestrator.py:229-288 | from COMPLETE the call never returns; nothing is submitted and the run does not change |
| Orchestrator.AutomaticFromStopped | src/core/orchestrator.py:229-296 | from FAILED or CANCELLED it returns False, submits nothing, leaves the run alone and queues `fail` with the `index` error text |
| Orchestrator.NextStepFromStopped | src/core/orchestrator.py:306-312 | from COMPLETE, FAILED or CANCELLED it returns False and changes nothing |
| Orchestrator.NextStepRunsOneCycle | src/core/orchestrator.py:306-358 | from an in-progress state with nothing queued and a task the pool delivers, it submits exactly the current state's task and makes exactly one transition: the forward step and True on success, `fail` and False on failure |
| Orchestrator.ShutdownPoolAbortsNextStep | src/core/orchestrator.py:330-364 | with a shut-down pool, from an in-progress state it submits nothing and makes no transition, leaves `fail` with the pool's error queued, and returns False |
| Orchestrator.PoolTasksSucceed | src/core/orchestrator.py:251-264 | on a running pool every state task the drivers submit succeeds |
| Orchestrator.RunningPoolCompletesRun | src/core/orchestrator.py:222-290 | with a running pool, `execute_automatic` from INIT always reaches COMPLETE and returns True |
| Orchestrator.ShutdownPoolAbortsRun | src/core/orchestrator.py:259-296 | with a shut-down pool it returns False at the first submission, before any transition, leaving `fail` with the pool's error queued |
| Orchestrator.AdvanceFromFailedQueuesRetry | src/core/orchestrator.py:213-220 | advancing from FAILED queues `retry`, so FAILED never reaches the terminal branch |
| Orchestrator.RetriedRowRestartsInFailed | src/core/orchestrator.py:53 | after `retry` the machine is at INIT but the row is still FAILED; an orchestrator rebuilt from the row returns False from `execute_automatic` without submitting anything |
| Runtime.WorkflowOrchestrator.Open | src/core/orchestrator.py:36-75 | an unknown id gives "Workflow N not found"; otherwise a new orchestrator at the row's status, with that workflow's rows as history, nothing queued and not running |
| Runtime.WorkflowOrchestrator.OnStateEnter | src/core/orchestrator.py:103-108 | stamps `started_at` only when it is empty; nothing else changes |
| Runtime.WorkflowOrchestrator.OnComplete | src/core/orchestrator.py:110-115 | stamps `completed_at`; nothing else changes |
| Runtime.WorkflowOrchestrator.OnFail | src/core/orchestrator.py:117-129 | stamps `completed_at` and records the error text, "Unknown error" without one |
| Runtime.WorkflowOrchestrator.OnCancel | src/core/orchestrator.py:131-136 | stamps `completed_at`; nothing else changes |
| Runtime.WorkflowOrchestrator.LogTransition | src/core/orchestrator.py:77-101 | appends the row and writes `status` and `current_state`, as `Engine.LogTransition` |
| Runtime.WorkflowOrchestrator.Invoke | src/core/orchestrator.py:57-64 | calling a trigger changes the object exactly as `Engine.Apply`: refused ones raise the machine's error and change nothing; the run invariant is kept; queue, flag and results are untouched |
| Runtime.WorkflowOrchestrator.EmitEvent | src/core/orchestrator.py:150-152 | the event joins the back of the queue |
| Runtime.WorkflowOrchestrator.ProcessOne | src/core/orchestrator.py:181-201 | one loop iteration changes the object exactly as `Events.Step` |
| Runtime.WorkflowOrchestrator.RunLoop | src/core/orchestrator.py:177-201 | `n` iterations change the object exactly as `Events.Drain` and keep the run invariant |
| Runtime.WorkflowOrchestrator.Stop | src/core/orchestrator.py:286-288 | clears `_running` and lets the loop finish one more iteration |
| Runtime.WorkflowOrchestrator.GetNextTrigger | src/core/orchestrator.py:203-211 | the first-match search over the table returns `NextTrigger` of the state |
| Runtime.WorkflowOrchestrator.AdvanceToNextState | src/core/orchestrator.py:213-220 | queues the next trigger, if any, as `Orchestrator.Advance` |
| Runtime.WorkflowOrchestrator.TransitionToNextState | src/core/orchestrator.py:154-165 | fires the next trigger at once; the machine always accepts it, so the call never raises; from COMPLETE and CANCELLED nothing happens |
| Runtime.WorkflowOrchestrator.RunPosition | src/core/orchestrator.py:240-284 | one pass of the driver's loop is one step of `Orchestrator.AutomaticFrom` |
| Runtime.WorkflowOrchestrator.ExecuteAutomatic | src/core/orchestrator.py:222-296 | the object and the outcome are exactly `Orchestrator.Automatic` on the worker's deliveries, so every walk lemma above holds of the method |
| Runtime.WorkflowOrchestrator.ExecuteNextStep | src/core/orchestrator.py:298-364 | the object and the result are exactly `Orchestrator.NextStep` on the worker's deliveries |
| Runtime.WorkflowOrchestrator.GetStatus | src/core/orchestrator.py:366-394 | reports the row's fields, `status` as its value string, the next trigger of the machine's state by name, every transition row in order, and the stored task reports |
| Runtime.RunStateTask | src/core/orchestrator.py:259-267 | what the real pool yields for a state's task is `Orchestrator.Pool`; it raises exactly when the pool is shut down |

## Left out

- Threads and the thread pool's scheduling, the pool-capacity bound and the race between a
  worker finishing and its handle being registered: the pool runs each unit of work to
  completion when it is submitted.
- asyncio: the task scheduler, `wait_for` timeouts and real sleeps. The settle sleep is a
  number of loop iterations. The event task that outlives an aborted driver (its except branch
  does not stop it) is not followed past the driver's return.
- Events arriving while a driver waits for a worker: the model interleaves loop iterations
  only at the points listed above.
- Wall-clock values: timestamps are ticks of an abstract clock. The `timestamp` entries of
  task results, the transition `metadata` payload and ISO formatting in `get_status` are left
  out.
- Logging, the settings module (only its `max_workers` default of 5 is used) and the
  database session and DAO layer: the database is an in-memory value. The session factory
  that gives each worker its own session is left out.
- The HTTP layer and the demo client.
- `execute_workflow`: it only forwards to `execute_automatic`.
- `_on_retry`: it is never attached to a transition, so no call path reaches it.
- `__enter__` and `__exit__` of the worker manager: they only forward to `shutdown`.
- Event names that are orchestrator attributes but not triggers (`hasattr` accepts any
  attribute): every name other than the seven trigger names is treated as unknown and dropped.
- The `sleep` task's real waiting and the `http_request` task's placeholder: only their
  result dictionaries and the errors they raise are modelled.
- Workers.WorkerManager.ExecuteTask: stamps `started_at`, `completed_at` and `updated_at` of
  one call with the same tick, where the code reads the clock separately for each; the order
  of those stamps within a call is not modelled.
- Engine.RunBefore: gives a callback's stamp and the `updated_at` the column's own update
  hook writes the same tick; the code reads the clock twice.
- TaskLogic.SleepDuration: does not model the OverflowError `time.sleep` raises for a
  duration too large for its internal clock type; such a duration is accepted.
- Runtime.WorkflowOrchestrator.ExecuteAutomatic: takes the worker manager as the deliveries
  it yields per state rather than as the `WorkerManager` object. The real manager's deliveries
  are `Orchestrator.Pool`, and `Runtime.RunStateTask` ties them to `SubmitWorkflowTask`.
- Runtime.WorkflowOrchestrator.ExecuteNextStep: takes the worker manager the same way.
