// The worker pool: what each task type computes, the never-raising wrapper around a workflow
// state task, and the bookkeeping of generic tasks (status lifecycle and the active-task map).
// The pool runs every submitted unit of work sequentially here; threads are not modelled.

/** Pure task logic: dispatch by task type to the result dictionary each type produces. */
module TaskLogic {
  import opened Wrappers
  import opened JsonValues
  import opened TaskModels

  /** `sum(i * i for i in range(n))`; `range` of a non-positive bound is empty. */
  function SumSquares(n: int): int {
    if n <= 0 then 0 else SumSquares(n - 1) + (n - 1) * (n - 1)
  }

  /** The closed form of the sum of the first `n` squares. */
  lemma {:induction false} SumSquaresClosedForm(n: nat)
    ensures 6 * SumSquares(n) == (n - 1) * n * (2 * n - 1)
  {
    if n > 0 {
      var m := n - 1;
      SumSquaresClosedForm(m);
      assert SumSquares(n) == SumSquares(m) + m * m;
      ClosedFormStep(m);
    }
  }

  /** Adding the next square to the closed form for `m` gives the closed form for `m + 1`. */
  lemma ClosedFormStep(m: int)
    ensures (m - 1) * m * (2 * m - 1) + 6 * (m * m) == m * (m + 1) * (2 * m + 1)
  {
    var c := m * m * m;
    assert (m - 1) * m * (2 * m - 1) == 2 * c - 3 * (m * m) + m;
    assert m * (m + 1) * (2 * m + 1) == 2 * c + 3 * (m * m) + m;
  }

  /**
   * `sum(i * i for i in range(v))` for a JSON value `v`: an int bounds the range, a bool is an
   * int to Python (`range(True)` is `[0]`), and any other value makes `range` raise TypeError.
   */
  function SumOfSquaresOver(v: Json): (r: Result<int>)
    ensures r.Ok? <==> v.JInt? || v.JBool?
    ensures r.Ok? ==> r.value >= 0
    ensures (v.JInt? && v.i <= 0) || v.JBool? ==> r == Ok(0)
    ensures v.JInt? && v.i > 0 ==> 6 * r.value == (v.i - 1) * v.i * (2 * v.i - 1)
    ensures r.Err? ==> r.error == "'" + TypeName(v) + "' object cannot be interpreted as an integer"
  {
    match v
    case JInt(n) =>
      SumSquaresFacts(n);
      Ok(SumSquares(n))
    case JBool(_) => Ok(0)
    case _ => Err("'" + TypeName(v) + "' object cannot be interpreted as an integer")
  }

  lemma {:induction false} SumSquaresFacts(n: int)
    ensures SumSquares(n) >= 0
    ensures n > 0 ==> 6 * SumSquares(n) == (n - 1) * n * (2 * n - 1)
  {
    if n > 0 {
      SumSquaresFacts(n - 1);
      SumSquaresClosedForm(n);
    }
  }

  /** The `status` a workflow state task of this type reports on success. */
  function WorkflowTaskStatus(taskType: string): string {
    if taskType == "initialize" then "initialized"
    else if taskType == "prepare" then "prepared"
    else if taskType == "execute" then "executed"
    else if taskType == "validate" then "validated"
    else if taskType == "complete" then "completed"
    else "success"
  }

  /** The iteration count of the `execute` task: from its config, 5000 when absent. */
  function ExecuteIterations(config: Dict): Json {
    Get(config, "iterations", JInt(5000))
  }

  /**
   * `_run_workflow_task_logic`: the result dictionary of a workflow state task (its wall-clock
   * `timestamp` entry left out). Only `execute` can fail, when its iteration count is not an int.
   */
  function RunWorkflowTaskLogic(taskType: string, config: Dict): (r: Result<Dict>)
    ensures r.Err? <==> taskType == "execute" && SumOfSquaresOver(ExecuteIterations(config)).Err?
    ensures r.Err? ==> r.error == SumOfSquaresOver(ExecuteIterations(config)).error
    ensures r.Ok? ==> "status" in r.value && r.value["status"] == JStr(WorkflowTaskStatus(taskType))
    ensures r.Ok? && taskType == "execute" ==>
      && "iterations" in r.value && "computation_result" in r.value
      && r.value["iterations"] == ExecuteIterations(config)
      && r.value["computation_result"] == JInt(SumOfSquaresOver(ExecuteIterations(config)).value)
    ensures r.Ok? && WorkflowTaskStatus(taskType) == "success" ==> "task_type" in r.value && r.value["task_type"] == JStr(taskType)
  {
    if taskType == "initialize" then
      Ok(map["status" := JStr("initialized"), "message" := JStr("Workflow resources initialized")])
    else if taskType == "prepare" then
      Ok(map["status" := JStr("prepared"), "message" := JStr("Data and resources prepared"),
             "files_created" := JInt(3)])
    else if taskType == "execute" then
      var iterations := ExecuteIterations(config);
      match SumOfSquaresOver(iterations)
      case Err(e) => Err(e)
      case Ok(total) =>
        Ok(map["status" := JStr("executed"), "message" := JStr("Main computation completed"),
               "computation_result" := JInt(total), "iterations" := iterations])
    else if taskType == "validate" then
      Ok(map["status" := JStr("validated"), "message" := JStr("Results validated successfully"),
             "validation_passed" := JBool(true), "checks_performed" := JInt(5)])
    else if taskType == "complete" then
      Ok(map["status" := JStr("completed"), "message" := JStr("Workflow finalized")])
    else
      Ok(map["status" := JStr("success"), "task_type" := JStr(taskType),
             "message" := JStr("Default task execution")])
  }

  /**
   * Without an `iterations` entry the `execute` task sums the squares below 5000,
   * reports that count, and succeeds.
   */
  lemma DefaultExecuteComputation(config: Dict)
    requires "iterations" !in config
    ensures RunWorkflowTaskLogic("execute", config).Ok?
    ensures RunWorkflowTaskLogic("execute", config).value["computation_result"] == JInt(41654167500)
    ensures RunWorkflowTaskLogic("execute", config).value["iterations"] == JInt(5000)
  {
    SumSquaresClosedForm(5000);
  }

  /** What a worker hands back for a workflow state task: success with a result, or the error text. */
  datatype TaskReport = TaskReport(success: bool, result: Option<Dict>, error: Option<string>, taskType: string)

  /**
   * `_execute_workflow_task`: never raises. It reports success with the task's result, or
   * failure with `str(e)` of what the task logic raised, and echoes the task type either way.
   */
  function ExecuteWorkflowTask(taskType: string, config: Dict): (r: TaskReport)
    ensures r.taskType == taskType
    ensures r.success <==> RunWorkflowTaskLogic(taskType, config).Ok?
    ensures r.success <==> r.result.Some? && r.error.None?
    ensures !r.success <==> r.result.None? && r.error.Some?
    ensures r.success ==> r.result == Some(RunWorkflowTaskLogic(taskType, config).value)
    ensures !r.success ==> r.error == Some(RunWorkflowTaskLogic(taskType, config).error)
    ensures r.success ==> "status" in r.result.value && r.result.value["status"] == JStr(WorkflowTaskStatus(taskType))
  {
    match RunWorkflowTaskLogic(taskType, config)
    case Ok(result) => TaskReport(true, Some(result), None, taskType)
    case Err(e) => TaskReport(false, None, Some(e), taskType)
  }

  /** The task types `_run_task_logic` has a handler for; every other type is a no-op. */
  const HandledTaskTypes: set<string> := {"sleep", "compute", "http_request"}

  /**
   * `task.config or {}`: a NULL config, or one Python reads as false, becomes the empty
   * dictionary; any other stored JSON value is kept as it is.
   */
  function ConfigOf(task: Task): Json {
    if task.config.Some? && Truthy(task.config.value) then task.config.value else JObject(map[])
  }

  /** `config.get(key, default)` on the task's config, read as `default` when it is no dictionary. */
  function Setting(task: Task, key: string, default: Json): Json {
    var config := ConfigOf(task);
    if config.JObject? then Get(config.fields, key, default) else default
  }

  /**
   * `time.sleep(duration)` as far as its argument is concerned: ints, bools and floats that
   * are not negative are accepted; a negative number raises ValueError, and any other value
   * raises TypeError, since it is neither a float nor an integer.
   */
  function SleepDuration(v: Json): (r: Result<Json>)
    ensures r.Ok? <==> (v.JInt? && v.i >= 0) || v.JBool? || (v.JFloat? && v.f >= 0.0)
    ensures r.Ok? ==> r.value == v
    ensures r.Err? && (v.JInt? || v.JFloat?) ==> r.error == "sleep length must be non-negative"
    ensures r.Err? && !v.JInt? && !v.JFloat? ==>
      r.error == "'" + TypeName(v) + "' object cannot be interpreted as an integer"
  {
    match v
    case JInt(i) => if i < 0 then Err("sleep length must be non-negative") else Ok(v)
    case JFloat(f) => if f < 0.0 then Err("sleep length must be non-negative") else Ok(v)
    case JBool(_) => Ok(v)
    case _ => Err("'" + TypeName(v) + "' object cannot be interpreted as an integer")
  }

  /**
   * `_run_task_logic`: the placeholder handlers of the generic task types. Every type that
   * returns reports status "success". A handled type raises AttributeError when the config is
   * no dictionary; `sleep` raises when `time.sleep` rejects its duration, and `compute` when
   * its iteration count is not an int. Unknown types never read the config and never fail.
   */
  function RunTaskLogic(task: Task): (r: Result<Dict>)
    ensures r.Ok? ==> "status" in r.value && r.value["status"] == JStr("success")
    ensures r.Err? <==>
      && task.taskType in HandledTaskTypes
      && (|| !ConfigOf(task).JObject?
          || (task.taskType == "sleep" && SleepDuration(Setting(task, "duration", JInt(1))).Err?)
          || (task.taskType == "compute" && SumOfSquaresOver(Setting(task, "iterations", JInt(1000))).Err?))
    ensures r.Err? && !ConfigOf(task).JObject? ==>
      r.error == "'" + TypeName(ConfigOf(task)) + "' object has no attribute 'get'"
    ensures r.Err? && ConfigOf(task).JObject? && task.taskType == "sleep" ==>
      r.error == SleepDuration(Setting(task, "duration", JInt(1))).error
    ensures r.Err? && ConfigOf(task).JObject? && task.taskType == "compute" ==>
      r.error == SumOfSquaresOver(Setting(task, "iterations", JInt(1000))).error
    ensures r.Ok? && task.taskType == "sleep" ==>
      "duration" in r.value && r.value["duration"] == Setting(task, "duration", JInt(1))
    ensures r.Ok? && task.taskType == "compute" ==>
      "result" in r.value && r.value["result"] == JInt(SumOfSquaresOver(Setting(task, "iterations", JInt(1000))).value)
    ensures r.Ok? && task.taskType !in HandledTaskTypes ==>
      "task_type" in r.value && r.value["task_type"] == JStr(task.taskType)
  {
    var config := ConfigOf(task);
    if task.taskType !in HandledTaskTypes then
      Ok(map["status" := JStr("success"), "task_type" := JStr(task.taskType)])
    else if !config.JObject? then
      Err("'" + TypeName(config) + "' object has no attribute 'get'")
    else if task.taskType == "sleep" then
      var duration := Get(config.fields, "duration", JInt(1));
      match SleepDuration(duration)
      case Err(e) => Err(e)
      case Ok(_) => Ok(map["status" := JStr("success"), "duration" := duration])
    else if task.taskType == "compute" then
      match SumOfSquaresOver(Get(config.fields, "iterations", JInt(1000)))
      case Err(e) => Err(e)
      case Ok(total) => Ok(map["status" := JStr("success"), "result" := JInt(total)])
    else
      Ok(map["status" := JStr("success"), "url" := Get(config.fields, "url", JStr("")), "simulated" := JBool(true)])
  }

  /** A `compute` task whose config has no `iterations` entry sums the squares below 1000. */
  lemma DefaultComputeResult(task: Task)
    requires task.taskType == "compute" && ConfigOf(task).JObject? && "iterations" !in ConfigOf(task).fields
    ensures RunTaskLogic(task) == Ok(map["status" := JStr("success"), "result" := JInt(332833500)])
  {
    SumSquaresClosedForm(1000);
  }

  /** A `sleep` task given a negative duration fails with the message `time.sleep` raises. */
  lemma NegativeSleepFails(task: Task, d: int)
    requires task.taskType == "sleep" && task.config == Some(JObject(map["duration" := JInt(d)])) && d < 0
    ensures RunTaskLogic(task) == Err("sleep length must be non-negative")
  {
  }
}

/** The worker manager: the task table it updates and the map of tasks it has in flight. */
module Workers {
  import opened Wrappers
  import opened JsonValues
  import opened TaskModels
  import opened TaskLogic

  /** The pool size when the caller gives none: the settings' `max_workers` default. */
  const DefaultMaxWorkers: nat := 5

  /** What the thread pool raises when work is submitted after `shutdown`. */
  const ShutdownMessage: string := "cannot schedule new futures after shutdown"

  /**
   * `max_workers or settings.max_workers`, as the thread pool then accepts it: no argument
   * or 0 gives the default, a positive count is kept, a negative one makes the pool raise.
   */
  function MaxWorkersFor(arg: Option<int>): (r: Result<nat>)
    ensures r.Ok? ==> r.value > 0
    ensures arg.None? || arg == Some(0) ==> r == Ok(DefaultMaxWorkers)
    ensures arg.Some? && arg.value > 0 ==> r == Ok(arg.value)
    ensures arg.Some? && arg.value < 0 ==> r.Err?
  {
    match arg
    case None => Ok(DefaultMaxWorkers)
    case Some(n) =>
      if n == 0 then Ok(DefaultMaxWorkers)
      else if n > 0 then Ok(n)
      else Err("max_workers must be greater than 0")
  }

  /** The `Task {id} not found` error of `submit_task`. */
  function TaskNotFound(taskId: nat): string {
    "Task " + DecimalString(taskId) + " not found"
  }

  /** The handle (`Future`) of a submitted task: which submission it is, and for which task. */
  datatype Handle = Handle(ticket: nat, taskId: nat)

  /** The tasks table, shared by the caller's session and the workers' sessions. */
  class TaskStore {
    var rows: map<nat, Task>

    constructor(rows: map<nat, Task>)
      ensures this.rows == rows
    {
      this.rows := rows;
    }
  }

  class WorkerManager {
    var maxWorkers: nat
    /** `active_tasks`: the handle of every task submitted and not yet finished, by task id. */
    var activeTasks: map<nat, Handle>
    /** `task_queue`: declared, never filled. */
    var taskQueue: seq<nat>
    var isShutdown: bool
    /** The number of handles issued so far; each submission gets the next ticket. */
    var issued: nat

    ghost predicate Valid()
      reads this
    {
      && maxWorkers > 0
      && taskQueue == []
      && forall id :: id in activeTasks ==> activeTasks[id].taskId == id && activeTasks[id].ticket < issued
    }

    constructor(arg: Option<int>)
      requires MaxWorkersFor(arg).Ok?
      ensures Valid()
      ensures maxWorkers == MaxWorkersFor(arg).value
      ensures activeTasks == map[] && !isShutdown && issued == 0
    {
      maxWorkers := MaxWorkersFor(arg).value;
      activeTasks := map[];
      taskQueue := [];
      isShutdown := false;
      issued := 0;
    }

    /**
     * `submit_workflow_task`, with the pool running the task to completion: the worker's report,
     * or the pool's error after shutdown. It leaves `active_tasks` alone.
     */
    method SubmitWorkflowTask(workflowId: nat, taskType: string, config: Dict) returns (r: Result<TaskReport>)
      ensures r.Err? <==> isShutdown
      ensures r.Err? ==> r.error == ShutdownMessage
      ensures r.Ok? ==> r.value.taskType == taskType
      ensures r.Ok? ==> (r.value.success <==> RunWorkflowTaskLogic(taskType, config).Ok?)
      ensures r.Ok? ==> r.value == ExecuteWorkflowTask(taskType, config)
    {
      if isShutdown {
        r := Err(ShutdownMessage);
      } else {
        r := Ok(ExecuteWorkflowTask(taskType, config));
      }
    }

    /**
     * `submit_task`: an unknown id raises and changes nothing. Otherwise the task is marked
     * QUEUED and committed first; then the pool either refuses (after shutdown) or takes the
     * work, and its handle is registered under the task id.
     */
    method SubmitTask(taskId: nat, db: TaskStore, now: nat) returns (r: Result<Handle>)
      requires Valid()
      modifies this, db
      ensures Valid()
      ensures maxWorkers == old(maxWorkers) && isShutdown == old(isShutdown)
      ensures taskId !in old(db.rows) ==>
        r == Err(TaskNotFound(taskId)) && db.rows == old(db.rows)
        && activeTasks == old(activeTasks) && issued == old(issued)
      ensures taskId in old(db.rows) ==>
        db.rows == old(db.rows)[taskId := old(db.rows)[taskId].(status := QUEUED, updatedAt := now)]
      ensures taskId in old(db.rows) && old(isShutdown) ==>
        r == Err(ShutdownMessage) && activeTasks == old(activeTasks) && issued == old(issued)
      ensures taskId in old(db.rows) && !old(isShutdown) ==>
        && r == Ok(Handle(old(issued), taskId))
        && activeTasks == old(activeTasks)[taskId := r.value]
        && issued == old(issued) + 1
    {
      if taskId !in db.rows {
        return Err(TaskNotFound(taskId));
      }
      var task := db.rows[taskId];
      db.rows := db.rows[taskId := task.(status := QUEUED, updatedAt := now)];
      if isShutdown {
        return Err(ShutdownMessage);
      }
      var handle := Handle(issued, taskId);
      issued := issued + 1;
      activeTasks := activeTasks[taskId := handle];
      r := Ok(handle);
    }

    /**
     * `_execute_task`, as the worker runs it: a missing task gives False. Otherwise the task is
     * marked RUNNING with its start time, its logic runs, and it ends COMPLETED with the result
     * (True) or FAILED with the error text (False). Either way the id leaves `active_tasks`.
     */
    method ExecuteTask(taskId: nat, db: TaskStore, now: nat) returns (ok: bool)
      requires Valid()
      modifies this, db
      ensures Valid()
      ensures activeTasks == old(activeTasks) - {taskId} && taskId !in activeTasks
      ensures maxWorkers == old(maxWorkers) && isShutdown == old(isShutdown) && issued == old(issued)
      ensures taskId !in old(db.rows) ==> !ok && db.rows == old(db.rows)
      ensures taskId in old(db.rows) ==>
        var running := old(db.rows)[taskId].(status := RUNNING, startedAt := Some(now), updatedAt := now);
        && db.rows.Keys == old(db.rows).Keys
        && (forall k :: k in db.rows && k != taskId ==> db.rows[k] == old(db.rows)[k])
        && (ok <==> RunTaskLogic(running).Ok?)
        && db.rows[taskId] == match RunTaskLogic(running)
                              case Ok(result) =>
                                running.(status := COMPLETED, completedAt := Some(now), result := Some(result))
                              case Err(e) =>
                                running.(status := FAILED, completedAt := Some(now), errorMessage := Some(e))
    {
      if taskId !in db.rows {
        ok := false;
      } else {
        var task := db.rows[taskId];
        task := task.(status := RUNNING, startedAt := Some(now), updatedAt := now);
        db.rows := db.rows[taskId := task];
        var outcome := RunTaskLogic(task);
        match outcome {
          case Ok(result) =>
            task := task.(status := COMPLETED, completedAt := Some(now), updatedAt := now, result := Some(result));
            db.rows := db.rows[taskId := task];
            ok := true;
          case Err(e) =>
            task := task.(status := FAILED, completedAt := Some(now), updatedAt := now, errorMessage := Some(e));
            db.rows := db.rows[taskId := task];
            ok := false;
        }
      }
      activeTasks := activeTasks - {taskId};
    }

    /** `get_queue_size`: the queue is never filled, so it is always empty. */
    method GetQueueSize() returns (n: nat)
      requires Valid()
      ensures n == 0
    {
      n := |taskQueue|;
    }

    /** `get_active_count`: how many submitted tasks have not finished. */
    method GetActiveCount() returns (n: nat)
      ensures n == |activeTasks.Keys|
    {
      n := |activeTasks|;
    }

    /** `shutdown`: sets the flag and nothing else, so a second call changes nothing. */
    method Shutdown(wait: bool)
      requires Valid()
      modifies this
      ensures Valid() && isShutdown
      ensures maxWorkers == old(maxWorkers) && activeTasks == old(activeTasks)
      ensures taskQueue == old(taskQueue) && issued == old(issued)
    {
      isShutdown := true;
    }
  }

  /**
   * One task through the pool: submitted while the pool is open, then run by a worker. It goes
   * PENDING (or any status) to QUEUED to RUNNING to COMPLETED or FAILED. Submitting overwrites
   * any earlier entry for the same id, and finishing removes it, so afterwards the id is no
   * longer active and every other active task is as it was.
   */
  method SubmitAndRun(pool: WorkerManager, db: TaskStore, taskId: nat, now: nat) returns (ok: bool)
    requires pool.Valid() && !pool.isShutdown && taskId in db.rows
    modifies pool, db
    ensures pool.Valid() && pool.activeTasks == old(pool.activeTasks) - {taskId}
    ensures taskId in db.rows
    ensures ok ==> db.rows[taskId].status == COMPLETED && db.rows[taskId].result.Some?
    ensures !ok ==> db.rows[taskId].status == FAILED && db.rows[taskId].errorMessage.Some?
  {
    var h := pool.SubmitTask(taskId, db, now);
    assert db.rows[taskId].status == QUEUED;
    ok := pool.ExecuteTask(taskId, db, now);
    assert old(pool.activeTasks)[taskId := h.value] - {taskId} == old(pool.activeTasks) - {taskId};
  }
}
