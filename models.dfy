// The persisted records of the orchestrator: the two status enums, the workflow, task and
// transition rows with their column defaults, and an in-memory stand-in for the database
// that keeps the transition rows in insertion order and deletes a workflow's children with it.

/** JSON values as stored in the `config` and `result` columns, and Python's view of them. */
module JsonValues {

  /** A JSON value, as stored in the `config` and `result` columns. */
  datatype Json =
    | JNull
    | JBool(b: bool)
    | JInt(i: int)
    | JFloat(f: real)
    | JStr(s: string)
    | JList(items: seq<Json>)
    | JObject(fields: map<string, Json>)

  /** A JSON object, i.e. a Python `dict` with string keys. */
  type Dict = map<string, Json>

  /** Python's name for the type of a decoded JSON value. */
  function TypeName(v: Json): string {
    match v
    case JNull => "NoneType"
    case JBool(_) => "bool"
    case JInt(_) => "int"
    case JFloat(_) => "float"
    case JStr(_) => "str"
    case JList(_) => "list"
    case JObject(_) => "dict"
  }

  /** Python's truth value of a decoded JSON value: `None`, zero and empty containers are false. */
  predicate Truthy(v: Json) {
    match v
    case JNull => false
    case JBool(b) => b
    case JInt(i) => i != 0
    case JFloat(f) => f != 0.0
    case JStr(s) => s != ""
    case JList(items) => items != []
    case JObject(fields) => fields != map[]
  }

  /** `d.get(key, default)`. */
  function Get(d: Dict, key: string, default: Json): Json {
    if key in d then d[key] else default
  }

  /** The decimal digits of `n`, as Python's f-string renders an int. */
  function DecimalString(n: nat): (r: string)
    ensures |r| > 0
    ensures forall i :: 0 <= i < |r| ==> '0' <= r[i] <= '9'
  {
    var d := ['0' + (n % 10) as char];
    if n < 10 then d else DecimalString(n / 10) + d
  }
}

/** The task row and its status enum. */
module TaskModels {
  import opened Wrappers
  import opened JsonValues

  /** Status of an individual task. */
  datatype TaskStatus = PENDING | QUEUED | RUNNING | COMPLETED | FAILED | CANCELLED

  function TaskStatusValue(s: TaskStatus): string {
    match s
    case PENDING => "pending"
    case QUEUED => "queued"
    case RUNNING => "running"
    case COMPLETED => "completed"
    case FAILED => "failed"
    case CANCELLED => "cancelled"
  }

  /** `TaskStatus(v)`. */
  function TaskStatusFromValue(v: string): (r: Option<TaskStatus>)
    ensures r.Some? ==> TaskStatusValue(r.value) == v
  {
    if v == "pending" then Some(PENDING)
    else if v == "queued" then Some(QUEUED)
    else if v == "running" then Some(RUNNING)
    else if v == "completed" then Some(COMPLETED)
    else if v == "failed" then Some(FAILED)
    else if v == "cancelled" then Some(CANCELLED)
    else None
  }

  /** The six task status values are pairwise distinct, so each names exactly one status. */
  lemma TaskStatusValuesDistinct()
    ensures forall s: TaskStatus :: TaskStatusFromValue(TaskStatusValue(s)) == Some(s)
    ensures forall s, t: TaskStatus :: TaskStatusValue(s) == TaskStatusValue(t) ==> s == t
  {
    forall s: TaskStatus ensures TaskStatusFromValue(TaskStatusValue(s)) == Some(s) {
      match s
      case PENDING =>
      case QUEUED =>
      case RUNNING =>
      case COMPLETED =>
      case FAILED =>
      case CANCELLED =>
    }
    forall s: TaskStatus, t: TaskStatus | TaskStatusValue(s) == TaskStatusValue(t) ensures s == t {
      assert TaskStatusFromValue(TaskStatusValue(s)) == Some(s);
      assert TaskStatusFromValue(TaskStatusValue(t)) == Some(t);
    }
  }

  /** A task row. */
  datatype Task = Task(
    id: nat,
    workflowId: nat,
    name: string,
    description: Option<string>,
    status: TaskStatus,
    taskType: string,
    config: Option<Json>,
    result: Option<Dict>,
    createdAt: nat,
    updatedAt: nat,
    startedAt: Option<nat>,
    completedAt: Option<nat>,
    errorMessage: Option<string>,
    retryCount: nat)

  /** A task row as inserted with only the required columns given. */
  function NewTask(id: nat, workflowId: nat, name: string, taskType: string, config: Option<Json>, now: nat): (t: Task)
    ensures t.id == id && t.workflowId == workflowId && t.name == name && t.taskType == taskType && t.config == config
    ensures t.status == PENDING && t.retryCount == 0
    ensures t.result == None && t.startedAt == None && t.completedAt == None && t.errorMessage == None
    ensures t.createdAt == now && t.updatedAt == now
  {
    Task(id, workflowId, name, None, PENDING, taskType, config, None, now, now, None, None, None, 0)
  }
}

module Models {
  import opened Wrappers
  import opened JsonValues
  import TaskModels

  /** Status of a workflow. Its values are exactly the state names of the workflow state machine. */
  datatype WorkflowStatus = INIT | PREPARE | EXECUTE | VALIDATE | COMPLETE | FAILED | CANCELLED

  /** The string value of a workflow status (`WorkflowStatus.X.value`). */
  function StatusValue(s: WorkflowStatus): string {
    match s
    case INIT => "INIT"
    case PREPARE => "PREPARE"
    case EXECUTE => "EXECUTE"
    case VALIDATE => "VALIDATE"
    case COMPLETE => "COMPLETE"
    case FAILED => "FAILED"
    case CANCELLED => "CANCELLED"
  }

  /** `WorkflowStatus(v)`: the member whose value is `v`; any other string makes Python raise. */
  function StatusFromValue(v: string): (r: Option<WorkflowStatus>)
    ensures r.Some? ==> StatusValue(r.value) == v
  {
    if v == "INIT" then Some(INIT)
    else if v == "PREPARE" then Some(PREPARE)
    else if v == "EXECUTE" then Some(EXECUTE)
    else if v == "VALIDATE" then Some(VALIDATE)
    else if v == "COMPLETE" then Some(COMPLETE)
    else if v == "FAILED" then Some(FAILED)
    else if v == "CANCELLED" then Some(CANCELLED)
    else None
  }

  /** The state names the orchestrator hands to its state machine, in declaration order. */
  const MachineStates: seq<string> := ["INIT", "PREPARE", "EXECUTE", "VALIDATE", "COMPLETE", "FAILED", "CANCELLED"]

  /**
   * The machine's state names are exactly the status values, so converting the destination
   * of any transition into a `WorkflowStatus` never fails, and every status is a machine state.
   */
  lemma MachineStatesAreStatusValues()
    ensures forall v :: v in MachineStates <==> StatusFromValue(v).Some?
    ensures forall s: WorkflowStatus :: StatusValue(s) in MachineStates && StatusFromValue(StatusValue(s)) == Some(s)
  {
    forall v | StatusFromValue(v).Some?
      ensures v in MachineStates
    {
      var s := StatusFromValue(v).value;
      assert StatusValue(s) == v;
      match s
      case INIT => assert MachineStates[0] == v;
      case PREPARE => assert MachineStates[1] == v;
      case EXECUTE => assert MachineStates[2] == v;
      case VALIDATE => assert MachineStates[3] == v;
      case COMPLETE => assert MachineStates[4] == v;
      case FAILED => assert MachineStates[5] == v;
      case CANCELLED => assert MachineStates[6] == v;
    }
  }

  /** A workflow row. Timestamps are ticks of an abstract clock; `None` is SQL NULL. */
  datatype Workflow = Workflow(
    id: nat,
    name: string,
    description: Option<string>,
    status: WorkflowStatus,
    currentState: string,
    config: Option<Json>,
    retries: nat,
    createdAt: nat,
    updatedAt: nat,
    startedAt: Option<nat>,
    completedAt: Option<nat>,
    errorMessage: Option<string>)

  /** The record invariant the whole system keeps: `current_state` is the value of `status`. */
  predicate StatusMirrored(w: Workflow) {
    w.currentState == StatusValue(w.status)
  }

  /** A workflow row as inserted with only the required columns given: every default applied. */
  function NewWorkflow(id: nat, name: string, description: Option<string>, config: Option<Json>, now: nat): (w: Workflow)
    ensures w.id == id && w.name == name && w.description == description && w.config == config
    ensures w.status == INIT && w.currentState == "INIT" && StatusMirrored(w)
    ensures w.retries == 0
    ensures w.startedAt == None && w.completedAt == None && w.errorMessage == None
    ensures w.createdAt == now && w.updatedAt == now
  {
    Workflow(id, name, description, INIT, "INIT", config, 0, now, now, None, None, None)
  }

  /**
   * A transition row: workflow, source and destination are required columns, the trigger
   * name may be NULL, and `createdAt` is the insertion time.
   */
  datatype WorkflowTransition = WorkflowTransition(
    workflowId: nat,
    fromState: string,
    toState: string,
    trigger: Option<string>,
    createdAt: nat)

  /** Strictly increasing creation times: ordering by `created_at` is then the insertion order. */
  predicate Chronological(log: seq<WorkflowTransition>) {
    forall i, j :: 0 <= i < j < |log| ==> log[i].createdAt < log[j].createdAt
  }

  /** The transition rows of workflow `wid`, in insertion order (the DAO's `get_by_workflow_id`). */
  function TransitionsOf(log: seq<WorkflowTransition>, wid: nat): (r: seq<WorkflowTransition>)
    ensures forall x :: x in r <==> x in log && x.workflowId == wid
    ensures Chronological(log) ==> Chronological(r)
    ensures |r| <= |log|
  {
    if log == [] then []
    else
      var rest := TransitionsOf(log[1..], wid);
      ChronologicalTail(log);
      if log[0].workflowId == wid then [log[0]] + rest else rest
  }

  /** In a chronological log the first row precedes every later one, and the rest stays chronological. */
  lemma ChronologicalTail(log: seq<WorkflowTransition>)
    requires log != []
    ensures Chronological(log) ==> Chronological(log[1..])
    ensures Chronological(log) ==> forall x :: x in log[1..] ==> log[0].createdAt < x.createdAt
  {
    if Chronological(log) {
      forall x | x in log[1..] ensures log[0].createdAt < x.createdAt {
        var k :| 0 <= k < |log[1..]| && log[1..][k] == x;
        assert log[k + 1] == x;
      }
    }
  }

  /** The transition rows that do not belong to workflow `wid`, in their original order. */
  function TransitionsNotOf(log: seq<WorkflowTransition>, wid: nat): (r: seq<WorkflowTransition>)
    ensures forall x :: x in r <==> x in log && x.workflowId != wid
    ensures |r| <= |log|
  {
    if log == [] then []
    else if log[0].workflowId == wid then TransitionsNotOf(log[1..], wid)
    else [log[0]] + TransitionsNotOf(log[1..], wid)
  }

  /** The database as the core sees it: workflow and task rows by id, transition rows in insertion order. */
  datatype Database = Database(
    workflows: map<nat, Workflow>,
    tasks: map<nat, TaskModels.Task>,
    transitions: seq<WorkflowTransition>)

  /** The orchestrator's `_load_workflow`: the row, or the error it raises for an unknown id. */
  function LoadWorkflow(db: Database, id: nat): (r: Result<Workflow>)
    ensures r.Ok? <==> id in db.workflows
    ensures r.Ok? ==> r.value == db.workflows[id]
    ensures r.Err? ==> r.error == "Workflow " + DecimalString(id) + " not found"
  {
    if id in db.workflows then Ok(db.workflows[id]) else Err("Workflow " + DecimalString(id) + " not found")
  }

  /**
   * Deleting a workflow row: with cascade "all, delete-orphan" on both relationships its tasks
   * and its transition rows go with it; every other row stays as it was.
   */
  function DeleteWorkflow(db: Database, id: nat): (r: Database)
    ensures r.workflows == db.workflows - {id}
    ensures forall k :: k in r.tasks <==> k in db.tasks && db.tasks[k].workflowId != id
    ensures forall k :: k in r.tasks ==> r.tasks[k] == db.tasks[k]
    ensures forall x :: x in r.transitions <==> x in db.transitions && x.workflowId != id
    ensures forall w :: w in r.workflows ==> TransitionsOf(r.transitions, w) == TransitionsOf(db.transitions, w)
  {
    var r := Database(
      db.workflows - {id},
      map k | k in db.tasks && db.tasks[k].workflowId != id :: db.tasks[k],
      TransitionsNotOf(db.transitions, id));
    forall w | w in r.workflows ensures TransitionsOf(r.transitions, w) == TransitionsOf(db.transitions, w) {
      HistoryUnaffected(db.transitions, id, w);
    }
    r
  }

  /** Dropping the rows of one workflow leaves the ordered history of every other workflow intact. */
  lemma {:induction false} HistoryUnaffected(log: seq<WorkflowTransition>, gone: nat, w: nat)
    requires w != gone
    ensures TransitionsOf(TransitionsNotOf(log, gone), w) == TransitionsOf(log, w)
  {
    if log != [] {
      HistoryUnaffected(log[1..], gone, w);
      if log[0].workflowId != gone {
        assert TransitionsNotOf(log, gone) == [log[0]] + TransitionsNotOf(log[1..], gone);
        assert ([log[0]] + TransitionsNotOf(log[1..], gone))[1..] == TransitionsNotOf(log[1..], gone);
      }
    }
  }
}
