// The drivers of a workflow run: `execute_automatic`, which walks INIT..VALIDATE running one
// worker task per state and emitting the advancing trigger after each, and `execute_next_step`,
// which does a single task-and-transition cycle. The asyncio plumbing is made sequential: the
// settle sleep after each advance is a number of event-loop iterations, and stopping the loop
// (`_running = False; await event_task`) lets it take exactly one more iteration.

module Orchestrator {
  import opened Wrappers
  import opened JsonValues
  import opened Models
  import opened Engine
  import opened Events
  import TaskLogic
  import Workers

  /** `STATE_TASKS.get(state, 'default')`: the worker task type run in each state. */
  function StateTask(s: WorkflowStatus): (r: string)
    ensures s == INIT ==> r == "initialize"
    ensures s == PREPARE ==> r == "prepare"
    ensures s == EXECUTE ==> r == "execute"
    ensures s == VALIDATE ==> r == "validate"
    ensures s == COMPLETE ==> r == "complete"
    ensures s in {FAILED, CANCELLED} ==> r == "default"
  {
    match s
    case INIT => "initialize"
    case PREPARE => "prepare"
    case EXECUTE => "execute"
    case VALIDATE => "validate"
    case COMPLETE => "complete"
    case _ => "default"
  }

  /** The states `execute_automatic` walks through, in order. */
  const WorkflowSequence: seq<WorkflowStatus> := [INIT, PREPARE, EXECUTE, VALIDATE, COMPLETE]

  /** `workflow_sequence.index(state)`, or `None` where Python raises ValueError. */
  function SequenceIndex(s: WorkflowStatus): (r: Option<nat>)
    ensures r.Some? ==> r.value < |WorkflowSequence| && WorkflowSequence[r.value] == s
    ensures r.None? <==> s !in WorkflowSequence
  {
    match s
    case INIT => Some(0)
    case PREPARE => Some(1)
    case EXECUTE => Some(2)
    case VALIDATE => Some(3)
    case COMPLETE => Some(4)
    case _ => None
  }

  /** `str(e)` of the ValueError `list.index` raises for a state outside the sequence. */
  function NotInListMessage(s: WorkflowStatus): string {
    "'" + StatusValue(s) + "' is not in list"
  }

  /** The configuration dictionary a driver hands to the worker with each state task. */
  function TaskConfig(wid: nat, s: WorkflowStatus): Dict {
    map["workflow_id" := JInt(wid), "state" := JStr(StatusValue(s)), "task_type" := JStr(StateTask(s))]
  }

  /**
   * What waiting on a submitted state task yields: the worker's report, or the error the
   * submission raised (the pool refuses work after shutdown).
   */
  datatype Delivery = Delivered(report: TaskLogic.TaskReport) | Raised(error: string)

  /** `result.get('error', 'Task execution failed')` of a failed report. */
  function TaskFailure(rep: TaskLogic.TaskReport): string {
    rep.error.GetOr("Task execution failed")
  }

  /** How a driver call ends: it returns a flag, or it never returns. */
  datatype Outcome = Returned(value: bool) | NeverReturns

  /**
   * The orchestrator as the drivers see it: the run and its event queue, the `_running` flag,
   * `_task_results`, and the task types handed to the worker pool so far, in order.
   */
  datatype Orch = Orch(loop: Loop, running: bool, results: map<WorkflowStatus, TaskLogic.TaskReport>, submitted: seq<string>)

  /** `emit_event`: the event joins the back of the queue. */
  function Emit(o: Orch, e: Event): (o': Orch)
    ensures o'.loop.queue == o.loop.queue + [e] && o'.loop.run == o.loop.run
  {
    o.(loop := o.loop.(queue := o.loop.queue + [e]))
  }

  /** `advance_to_next_state`: queue the next trigger of the current state, if it has one. */
  function Advance(o: Orch): (o': Orch)
    ensures o'.loop.run == o.loop.run && o'.running == o.running
    ensures NextTrigger(o.loop.run.state).Some? ==> o'.loop.queue == o.loop.queue + [TriggerEvent(NextTrigger(o.loop.run.state).value)]
    ensures NextTrigger(o.loop.run.state).None? ==> o' == o
  {
    match NextTrigger(o.loop.run.state)
    case Some(t) => Emit(o, TriggerEvent(t))
    case None => o
  }

  /** The settle sleep after an advance: the event loop takes `budget` iterations. */
  function Settle(o: Orch, budget: nat): Orch {
    o.(loop := Drain(o.loop, budget))
  }

  /** `_running = False; await event_task`: the loop finishes the one iteration it is in. */
  function Stop(o: Orch): Orch {
    o.(running := false, loop := Drain(o.loop, 1))
  }

  /** Queue `fail` for an exception the driver caught and clear `_running` (its except branch). */
  function Abort(o: Orch, error: string): Orch {
    Emit(o, FailEvent(error)).(running := false)
  }

  /**
   * `execute_automatic`. From a state outside the sequence (FAILED, CANCELLED) `index` raises,
   * and the call queues `fail` and returns False. Otherwise it walks the sequence from the
   * current state's position.
   */
  function Automatic(o: Orch, deliver: WorkflowStatus -> Delivery, budget: nat): (Orch, Outcome) {
    match SequenceIndex(o.loop.run.state)
    case None => (Abort(o, NotInListMessage(o.loop.run.state)), Returned(false))
    case Some(i) => AutomaticFrom(o, i, deliver, budget, false)
  }

  /**
   * The loop of `execute_automatic` at position `i` of the sequence; `started` says whether the
   * event task has started, which happens at the first wait for a worker. At COMPLETE the
   * driver advances and stops the event loop; had the event task not started yet, it starts
   * only then, sets `_running` again, and the driver waits on it forever. At any other state
   * it submits that state's task: a raising submission aborts; a failed report queues `fail`,
   * stops the loop and returns False; a successful one is stored, the next trigger is queued
   * and the loop settles before the next position.
   */
  function AutomaticFrom(o: Orch, i: nat, deliver: WorkflowStatus -> Delivery, budget: nat, started: bool): (Orch, Outcome)
    requires i < |WorkflowSequence|
    decreases |WorkflowSequence| - i
  {
    var s := WorkflowSequence[i];
    if s == COMPLETE then
      var o1 := Advance(o);
      if started then (Stop(o1), Returned(true)) else (o1.(running := true), NeverReturns)
    else
      match deliver(s)
      case Raised(e) => (Abort(o, e), Returned(false))
      case Delivered(rep) =>
        var o1 := o.(running := true, submitted := o.submitted + [StateTask(s)]);
        if !rep.success then (Stop(Emit(o1, FailEvent(TaskFailure(rep)))), Returned(false))
        else AutomaticFrom(Settle(Advance(o1.(results := o1.results[s := rep])), budget), i + 1, deliver, budget, true)
  }

  /**
   * `execute_next_step`: from COMPLETE, FAILED or CANCELLED it returns False at once. Otherwise
   * it runs the current state's task; a raising submission aborts; a failed report queues
   * `fail`; a successful one is stored and the next trigger queued; either way the loop is
   * then stopped.
   */
  function NextStep(o: Orch, deliver: WorkflowStatus -> Delivery): (Orch, bool) {
    var s := o.loop.run.state;
    if s !in InProgress then (o, false)
    else
      match deliver(s)
      case Raised(e) => (Abort(o, e), false)
      case Delivered(rep) =>
        var o1 := o.(running := true, submitted := o.submitted + [StateTask(s)]);
        if !rep.success then (Stop(Emit(o1, FailEvent(TaskFailure(rep)))), false)
        else (Stop(Advance(o1.(results := o1.results[s := rep]))), true)
  }

  /** What a real pool delivers for a state task: the worker's report, or its shutdown error. */
  function PoolDelivery(shutdown: bool, wid: nat, s: WorkflowStatus): Delivery {
    if shutdown then Raised(Workers.ShutdownMessage)
    else Delivered(TaskLogic.ExecuteWorkflowTask(StateTask(s), TaskConfig(wid, s)))
  }

  /** The pool's deliveries for every state, as the drivers consume them. */
  function Pool(shutdown: bool, wid: nat): WorkflowStatus -> Delivery {
    s => PoolDelivery(shutdown, wid, s)
  }

  // ---------------------------------------------------------------------------------------
  // Transition rows by shape, and the rows a forward walk produces.

  /** The parts of a transition row that do not depend on the clock. */
  function Shape(rec: WorkflowTransition): (string, string, Option<string>) {
    (rec.fromState, rec.toState, rec.trigger)
  }

  /** The shapes of a history, in order. */
  function Shapes(h: seq<WorkflowTransition>): (r: seq<(string, string, Option<string>)>)
    ensures |r| == |h|
    decreases |h|
  {
    if |h| == 0 then [] else Shapes(h[..|h| - 1]) + [Shape(h[|h| - 1])]
  }

  /** The triggers that advance INIT, PREPARE, EXECUTE and VALIDATE. */
  const ForwardTriggers: seq<Trigger> := [Prepare, Execute, Validate, Complete]

  /** The row shape of the forward step out of position `k` of the sequence. */
  function ForwardShape(k: nat): (string, string, Option<string>)
    requires k < |ForwardTriggers|
  {
    (StatusValue(WorkflowSequence[k]), StatusValue(WorkflowSequence[k + 1]), Some(TriggerName(ForwardTriggers[k])))
  }

  /** The row shapes of the forward steps out of positions `i` up to `j - 1`. */
  function ForwardShapes(i: nat, j: nat): (r: seq<(string, string, Option<string>)>)
    requires i <= j <= |ForwardTriggers|
    ensures |r| == j - i
    decreases j - i
  {
    if i == j then [] else [ForwardShape(i)] + ForwardShapes(i + 1, j)
  }

  /** The task types submitted from positions `i` up to `j - 1`. */
  function ForwardTasks(i: nat, j: nat): (r: seq<string>)
    requires i <= j <= |ForwardTriggers|
    ensures |r| == j - i
    decreases j - i
  {
    if i == j then [] else [StateTask(WorkflowSequence[i])] + ForwardTasks(i + 1, j)
  }

  /** Appending a row appends its shape. */
  lemma ShapesAppend(h: seq<WorkflowTransition>, rec: WorkflowTransition)
    ensures Shapes(h + [rec]) == Shapes(h) + [Shape(rec)]
  {
    assert (h + [rec])[..|h|] == h;
  }

  // ---------------------------------------------------------------------------------------
  // One forward cycle.

  /** Every state of the sequence before COMPLETE has a task that succeeds on this delivery. */
  predicate SucceedsFrom(deliver: WorkflowStatus -> Delivery, i: nat, j: nat)
    requires j <= |ForwardTriggers|
  {
    forall k :: i <= k < j ==> deliver(WorkflowSequence[k]).Delivered? && deliver(WorkflowSequence[k]).report.success
  }

  /** The forward trigger of position `i` is the next trigger there, and the machine takes it. */
  lemma ForwardFires(i: nat)
    requires i < |ForwardTriggers|
    ensures NextTrigger(WorkflowSequence[i]) == Some(ForwardTriggers[i])
    ensures Fire(WorkflowSequence[i], ForwardTriggers[i]) == Some(WorkflowSequence[i + 1])
  {
    NextTriggerTable(WorkflowSequence[i]);
    FireTable(WorkflowSequence[i], ForwardTriggers[i]);
  }

  /** An accepted trigger, alone in the queue, is applied by a settle of at least one iteration. */
  lemma SettleApplies(r: Run, t: Trigger, budget: nat)
    requires Fire(r.state, t).Some? && budget >= 1
    ensures Drain(Loop(r, [TriggerEvent(t)]), budget) == Loop(Apply(r, t, None).value, [])
  {
    DrainOneTrigger(r, t, None);
    DrainIdleTail(Loop(r, [TriggerEvent(t)]), budget);
  }

  /**
   * An accepted trigger other than `retry` logs one row whose shape is the step it took, and
   * leaves `status` at the new state.
   */
  lemma LoggedStep(r: Run, t: Trigger, error: Option<string>)
    requires Fire(r.state, t).Some? && t != Retry
    ensures Apply(r, t, error).Ok?
    ensures var r' := Apply(r, t, error).value;
      && r'.state == Fire(r.state, t).value && r'.workflowId == r.workflowId
      && r'.workflow.status == r'.state
      && Shapes(r'.history) == Shapes(r.history) + [(StatusValue(r.state), StatusValue(r'.state), Some(TriggerName(t)))]
  {
    ApplyLogsOneRecord(r, t, error);
    var r' := Apply(r, t, error).value;
    var n := |r.history|;
    assert r'.history == r.history + [r'.history[n]] by {
      assert r'.history == r'.history[..n] + [r'.history[n]];
    }
    ShapesAppend(r.history, r'.history[n]);
  }

  /**
   * The forward step out of position `i`: the run moves to the next position and logs the
   * forward row; prepare, execute and validate set `started_at` if it is empty, and complete
   * sets `completed_at`.
   */
  lemma ForwardStep(r: Run, i: nat)
    requires i < |ForwardTriggers| && r.state == WorkflowSequence[i]
    ensures Apply(r, ForwardTriggers[i], None).Ok?
    ensures var r' := Apply(r, ForwardTriggers[i], None).value;
      && r'.state == WorkflowSequence[i + 1] && r'.workflowId == r.workflowId
      && Shapes(r'.history) == Shapes(r.history) + [ForwardShape(i)]
      && r'.workflow.status == WorkflowSequence[i + 1]
      && (i < 3 || r.workflow.startedAt.Some? ==> r'.workflow.startedAt.Some?)
      && (i == 3 ==> r'.workflow.completedAt.Some?)
  {
    var t := ForwardTriggers[i];
    ForwardFires(i);
    LoggedStep(r, t, None);
    ApplyStampsTimes(r, t, None);
    if i == 0 {
      assert t == Prepare;
    } else if i == 1 {
      assert t == Execute;
    } else if i == 2 {
      assert t == Validate;
    } else {
      assert t == Complete;
    }
  }

  /**
   * A successful task, with nothing else queued: after the advance and a settle of at least
   * one iteration, the run has taken the next trigger and the queue is empty again; nothing
   * else changes.
   */
  lemma ForwardCycle(o: Orch, t: Trigger, budget: nat)
    requires NextTrigger(o.loop.run.state) == Some(t) && Fire(o.loop.run.state, t).Some?
    requires o.loop.queue == [] && budget >= 1
    ensures Settle(Advance(o), budget) == o.(loop := Loop(Apply(o.loop.run, t, None).value, []))
  {
    assert Advance(o).loop == Loop(o.loop.run, [TriggerEvent(t)]);
    SettleApplies(o.loop.run, t, budget);
  }

  /** Once one iteration has emptied the queue, further iterations change nothing. */
  lemma DrainIdleTail(l: Loop, n: nat)
    requires n >= 1 && Drain(l, 1).queue == []
    ensures Drain(l, n) == Drain(l, 1)
  {
    assert Drain(l, 1) == Drain(Step(l), 0) == Step(l);
    assert Drain(l, n) == Drain(Step(l), n - 1);
  }

  /** The machine takes `fail` from every in-progress state, to FAILED. */
  lemma FailFires(s: WorkflowStatus)
    requires s in InProgress
    ensures Fire(s, Fail) == Some(FAILED)
  {
    FireTable(s, Fail);
  }

  /**
   * `fail` out of an in-progress state: the run moves to FAILED, logs the row from that state,
   * records the error text and stamps `completed_at`.
   */

  lemma FailStep(r: Run, msg: string)
    requires r.state in InProgress
    ensures Apply(r, Fail, Some(msg)).Ok?
    ensures var r' := Apply(r, Fail, Some(msg)).value;
      && r'.state == FAILED && r'.workflowId == r.workflowId
      && Shapes(r'.history) == Shapes(r.history) + [(StatusValue(r.state), "FAILED", Some("fail"))]
      && r'.workflow.status == FAILED
      && r'.workflow.errorMessage == Some(msg)
      && r'.workflow.completedAt.Some?
  {
    FailFires(r.state);
    LoggedStep(r, Fail, Some(msg));
    ApplyIsWired(r, Fail, Some(msg));
  }

  /**
   * A failed task in an in-progress state, with nothing else queued: stopping the loop applies
   * the queued `fail` and clears `_running`; nothing else changes.
   */
  lemma FailCycle(o: Orch, msg: string)
    requires o.loop.run.state in InProgress && o.loop.queue == []
    ensures Apply(o.loop.run, Fail, Some(msg)).Ok?
    ensures Stop(Emit(o, FailEvent(msg))) == o.(running := false, loop := Loop(Apply(o.loop.run, Fail, Some(msg)).value, []))
  {
    FireTable(o.loop.run.state, Fail);
    DrainOneTrigger(o.loop.run, Fail, Some(msg));
  }

  /** The state after a successful task at position `s`: stored, advanced and settled. */
  function AfterSuccess(o: Orch, s: WorkflowStatus, rep: TaskLogic.TaskReport, budget: nat): Orch {
    Settle(Advance(o.(running := true, submitted := o.submitted + [StateTask(s)], results := o.results[s := rep])), budget)
  }

  /** A successful task before COMPLETE hands the walk on to the next position, event task started. */
  lemma AutomaticOnSuccess(o: Orch, i: nat, deliver: WorkflowStatus -> Delivery, budget: nat, started: bool)
    requires i < |ForwardTriggers| && deliver(WorkflowSequence[i]).Delivered? && deliver(WorkflowSequence[i]).report.success
    ensures AutomaticFrom(o, i, deliver, budget, started)
      == AutomaticFrom(AfterSuccess(o, WorkflowSequence[i], deliver(WorkflowSequence[i]).report, budget), i + 1, deliver, budget, true)
  {
    assert WorkflowSequence[i] != COMPLETE;
  }

  /**
   * After a successful task at position `i < 4` with nothing else queued, the run has taken
   * the forward step, the report is stored, the task type recorded, and the queue is empty.
   */
  lemma AfterSuccessSteps(o: Orch, i: nat, rep: TaskLogic.TaskReport, budget: nat)
    requires i < |ForwardTriggers| && o.loop.run.state == WorkflowSequence[i] && o.loop.queue == [] && budget >= 1
    ensures var o' := AfterSuccess(o, WorkflowSequence[i], rep, budget);
      && o'.loop.queue == [] && o'.loop.run.state == WorkflowSequence[i + 1]
      && o'.loop.run.workflowId == o.loop.run.workflowId
      && o'.submitted == o.submitted + [StateTask(WorkflowSequence[i])]
      && o'.results == o.results[WorkflowSequence[i] := rep]
      && Shapes(o'.loop.run.history) == Shapes(o.loop.run.history) + [ForwardShape(i)]
      && o'.loop.run.workflow.status == WorkflowSequence[i + 1]
      && (i < 3 || o.loop.run.workflow.startedAt.Some? ==> o'.loop.run.workflow.startedAt.Some?)
      && (i == 3 ==> o'.loop.run.workflow.completedAt.Some?)
  {
    var s := WorkflowSequence[i];
    var o2 := o.(running := true, submitted := o.submitted + [StateTask(s)], results := o.results[s := rep]);
    ForwardFires(i);
    ForwardCycle(o2, ForwardTriggers[i], budget);
    ForwardStep(o.loop.run, i);
  }

  // ---------------------------------------------------------------------------------------
  // execute_automatic

  /** The reports a successful walk from position `i` stores, written in the order it stores them. */
  function StoredFrom(m: map<WorkflowStatus, TaskLogic.TaskReport>, deliver: WorkflowStatus -> Delivery, i: nat): map<WorkflowStatus, TaskLogic.TaskReport>
    requires i <= |ForwardTriggers| && SucceedsFrom(deliver, i, |ForwardTriggers|)
    decreases |ForwardTriggers| - i
  {
    if i == |ForwardTriggers| then m
    else StoredFrom(m[WorkflowSequence[i] := deliver(WorkflowSequence[i]).report], deliver, i + 1)
  }

  /** What the success walk from position `i` needs: the run there, nothing queued, every remaining task succeeding. */
  predicate WalkReady(o: Orch, i: nat, deliver: WorkflowStatus -> Delivery, budget: nat, started: bool) {
    && i < |WorkflowSequence| && o.loop.run.state == WorkflowSequence[i] && o.loop.queue == []
    && budget >= 1 && (started || i < 4) && SucceedsFrom(deliver, i, 4)
  }

  /** At COMPLETE, after the event task has started, the walk only stops the loop and returns True. */
  lemma AutomaticAtComplete(o: Orch, deliver: WorkflowStatus -> Delivery, budget: nat)
    requires o.loop.run.state == COMPLETE && o.loop.queue == []
    ensures AutomaticFrom(o, 4, deliver, budget, true) == (o.(running := false), Returned(true))
  {
    NextTriggerTable(COMPLETE);
    assert Advance(o) == o;
  }

  /** A ready walk hands on to the next position in the ready state. */
  lemma WalkReadyStep(o: Orch, i: nat, deliver: WorkflowStatus -> Delivery, budget: nat, started: bool)
    requires WalkReady(o, i, deliver, budget, started) && i < 4
    ensures WalkReady(AfterSuccess(o, WorkflowSequence[i], deliver(WorkflowSequence[i]).report, budget), i + 1, deliver, budget, true)
    ensures AutomaticFrom(o, i, deliver, budget, started)
      == AutomaticFrom(AfterSuccess(o, WorkflowSequence[i], deliver(WorkflowSequence[i]).report, budget), i + 1, deliver, budget, true)
  {
    AutomaticOnSuccess(o, i, deliver, budget, started);
    AfterSuccessSteps(o, i, deliver(WorkflowSequence[i]).report, budget);
  }

  /** What one cycle appends, followed by what the rest of the walk appends, is both in order. */
  lemma AppendChain<T>(s0: seq<T>, x: T, f: seq<T>, tail: seq<T>, s1: seq<T>, s2: seq<T>)
    requires s1 == s0 + [x] && s2 == s1 + f + tail
    ensures s2 == s0 + ([x] + f) + tail
  {
    assert s0 + [x] + f == s0 + ([x] + f);
  }

  /** The first forward row, then the rest. */
  lemma ForwardShapesCons(i: nat, j: nat)
    requires i < j <= |ForwardTriggers|
    ensures ForwardShapes(i, j) == [ForwardShape(i)] + ForwardShapes(i + 1, j)
  {
  }

  /** The first forward task, then the rest. */
  lemma ForwardTasksCons(i: nat, j: nat)
    requires i < j <= |ForwardTriggers|
    ensures ForwardTasks(i, j) == [StateTask(WorkflowSequence[i])] + ForwardTasks(i + 1, j)
  {
  }

  /** One successful cycle prepends its forward row to the rows the rest of the walk logs. */
  lemma ShapeStep(o: Orch, i: nat, j: nat, rep: TaskLogic.TaskReport, budget: nat, h': seq<WorkflowTransition>, tail: seq<(string, string, Option<string>)>)
    requires i < j <= |ForwardTriggers| && o.loop.run.state == WorkflowSequence[i] && o.loop.queue == [] && budget >= 1
    requires Shapes(h') == Shapes(AfterSuccess(o, WorkflowSequence[i], rep, budget).loop.run.history) + ForwardShapes(i + 1, j) + tail
    ensures Shapes(h') == Shapes(o.loop.run.history) + ForwardShapes(i, j) + tail
  {
    var o3 := AfterSuccess(o, WorkflowSequence[i], rep, budget);
    AfterSuccessSteps(o, i, rep, budget);
    ForwardShapesCons(i, j);
    AppendChain(Shapes(o.loop.run.history), ForwardShape(i), ForwardShapes(i + 1, j), tail, Shapes(o3.loop.run.history), Shapes(h'));
  }


  /** One successful cycle prepends its task type to the types the rest of the walk submits. */
  lemma SubmitStep(o: Orch, i: nat, j: nat, rep: TaskLogic.TaskReport, budget: nat, submitted': seq<string>)
    requires i < j <= |ForwardTriggers| && o.loop.run.state == WorkflowSequence[i] && o.loop.queue == [] && budget >= 1
    requires submitted' == AfterSuccess(o, WorkflowSequence[i], rep, budget).submitted + ForwardTasks(i + 1, j)
    ensures submitted' == o.submitted + ForwardTasks(i, j)
  {
    var o3 := AfterSuccess(o, WorkflowSequence[i], rep, budget);
    AfterSuccessSteps(o, i, rep, budget);
    ForwardTasksCons(i, j);
    assert submitted' == o3.submitted + ForwardTasks(i + 1, j) + [];
    AppendChain(o.submitted, StateTask(WorkflowSequence[i]), ForwardTasks(i + 1, j), [], o3.submitted, submitted');
    assert o.submitted + ForwardTasks(i, j) + [] == o.submitted + ForwardTasks(i, j);
  }

  /** One successful cycle stores its report before the rest of the walk stores theirs. */
  lemma StoreStep(o: Orch, i: nat, deliver: WorkflowStatus -> Delivery, budget: nat, results': map<WorkflowStatus, TaskLogic.TaskReport>)
    requires i < |ForwardTriggers| && o.loop.run.state == WorkflowSequence[i] && o.loop.queue == [] && budget >= 1
    requires SucceedsFrom(deliver, i, |ForwardTriggers|)
    requires results' == StoredFrom(AfterSuccess(o, WorkflowSequence[i], deliver(WorkflowSequence[i]).report, budget).results, deliver, i + 1)
    ensures results' == StoredFrom(o.results, deliver, i)
  {
    AfterSuccessSteps(o, i, deliver(WorkflowSequence[i]).report, budget);
  }

  /**
   * A walk from position `i` whose remaining tasks all succeed returns True in COMPLETE with
   * the queue empty and the loop stopped.
   */
  lemma {:induction false} WalkCompletes(o: Orch, i: nat, deliver: WorkflowStatus -> Delivery, budget: nat, started: bool)
    requires WalkReady(o, i, deliver, budget, started)
    ensures var (o', out) := AutomaticFrom(o, i, deliver, budget, started);
      && out == Returned(true) && !o'.running && o'.loop.queue == [] && o'.loop.run.state == COMPLETE
    decreases |WorkflowSequence| - i
  {
    if i == 4 {
      AutomaticAtComplete(o, deliver, budget);
    } else {
      WalkReadyStep(o, i, deliver, budget, started);
      WalkCompletes(AfterSuccess(o, WorkflowSequence[i], deliver(WorkflowSequence[i]).report, budget), i + 1, deliver, budget, true);
    }
  }

  /**
   * The workflow row after a successful walk from position `i < 4`: status COMPLETE and
   * `completed_at` set; `started_at` set unless the walk began at VALIDATE with it empty.
   */
  lemma {:induction false} WalkStampsRow(o: Orch, i: nat, deliver: WorkflowStatus -> Delivery, budget: nat, started: bool)
    requires WalkReady(o, i, deliver, budget, started) && i < 4
    ensures var w' := AutomaticFrom(o, i, deliver, budget, started).0.loop.run.workflow;
      && w'.status == COMPLETE && w'.completedAt.Some?
      && (i < 3 || o.loop.run.workflow.startedAt.Some? ==> w'.startedAt.Some?)
    decreases |WorkflowSequence| - i
  {
    var o3 := AfterSuccess(o, WorkflowSequence[i], deliver(WorkflowSequence[i]).report, budget);
    WalkReadyStep(o, i, deliver, budget, started);
    AfterSuccessSteps(o, i, deliver(WorkflowSequence[i]).report, budget);
    if i == 3 {
      AutomaticAtComplete(o3, deliver, budget);
    } else {
      WalkStampsRow(o3, i + 1, deliver, budget, true);
    }
  }

  /** A successful walk from position `i` logs exactly the forward rows out of positions `i`..3. */
  lemma {:induction false} WalkLogsForward(o: Orch, i: nat, deliver: WorkflowStatus -> Delivery, budget: nat, started: bool)
    requires WalkReady(o, i, deliver, budget, started)
    ensures Shapes(AutomaticFrom(o, i, deliver, budget, started).0.loop.run.history) == Shapes(o.loop.run.history) + ForwardShapes(i, 4)
    decreases |WorkflowSequence| - i
  {
    if i == 4 {
      AutomaticAtComplete(o, deliver, budget);
      assert ForwardShapes(i, 4) == [];
    } else {
      var rep := deliver(WorkflowSequence[i]).report;
      var o3 := AfterSuccess(o, WorkflowSequence[i], rep, budget);
      WalkReadyStep(o, i, deliver, budget, started);
      WalkLogsForward(o3, i + 1, deliver, budget, true);
      var h' := AutomaticFrom(o3, i + 1, deliver, budget, true).0.loop.run.history;
      assert Shapes(h') == Shapes(o3.loop.run.history) + ForwardShapes(i + 1, 4) + [];
      ShapeStep(o, i, 4, rep, budget, h', []);
    }
  }


  /**
   * A successful walk from position `i` submits the task types of positions `i`..3 in order
   * and stores each report under its state.
   */
  lemma {:induction false} WalkSubmitsAndStores(o: Orch, i: nat, deliver: WorkflowStatus -> Delivery, budget: nat, started: bool)
    requires WalkReady(o, i, deliver, budget, started)
    ensures var o' := AutomaticFrom(o, i, deliver, budget, started).0;
      && o'.submitted == o.submitted + ForwardTasks(i, 4)
      && o'.results == StoredFrom(o.results, deliver, i)
    decreases |WorkflowSequence| - i
  {
    if i == 4 {
      AutomaticAtComplete(o, deliver, budget);
      assert ForwardTasks(i, 4) == [];
    } else {
      var rep := deliver(WorkflowSequence[i]).report;
      var o3 := AfterSuccess(o, WorkflowSequence[i], rep, budget);
      WalkReadyStep(o, i, deliver, budget, started);
      WalkSubmitsAndStores(o3, i + 1, deliver, budget, true);
      var o' := AutomaticFrom(o3, i + 1, deliver, budget, true).0;
      SubmitStep(o, i, 4, rep, budget, o'.submitted);
      StoreStep(o, i, deliver, budget, o'.results);
    }
  }


  /** What the failure walk from `i` to `j` needs: the run at `i`, nothing queued, success before `j`, failure at `j`. */
  predicate FailReady(o: Orch, i: nat, j: nat, deliver: WorkflowStatus -> Delivery, budget: nat) {
    && i <= j < |ForwardTriggers| && o.loop.run.state == WorkflowSequence[i] && o.loop.queue == []
    && budget >= 1 && SucceedsFrom(deliver, i, j)
    && deliver(WorkflowSequence[j]).Delivered? && !deliver(WorkflowSequence[j]).report.success
  }

  /** A failure walk not yet at its failing position hands on to the next position. */
  lemma FailReadyStep(o: Orch, i: nat, j: nat, deliver: WorkflowStatus -> Delivery, budget: nat, started: bool)
    requires FailReady(o, i, j, deliver, budget) && i < j
    ensures FailReady(AfterSuccess(o, WorkflowSequence[i], deliver(WorkflowSequence[i]).report, budget), i + 1, j, deliver, budget)
    ensures AutomaticFrom(o, i, deliver, budget, started)
      == AutomaticFrom(AfterSuccess(o, WorkflowSequence[i], deliver(WorkflowSequence[i]).report, budget), i + 1, deliver, budget, true)
  {
    AutomaticOnSuccess(o, i, deliver, budget, started);
    AfterSuccessSteps(o, i, deliver(WorkflowSequence[i]).report, budget);
  }

  /** At its failing position the walk queues `fail` with the task's error, stops the loop and returns False. */
  lemma AutomaticAtFailure(o: Orch, j: nat, deliver: WorkflowStatus -> Delivery, budget: nat, started: bool)
    requires j < |ForwardTriggers| && deliver(WorkflowSequence[j]).Delivered? && !deliver(WorkflowSequence[j]).report.success
    ensures var s := WorkflowSequence[j];
      AutomaticFrom(o, j, deliver, budget, started)
      == (Stop(Emit(o.(running := true, submitted := o.submitted + [StateTask(s)]), FailEvent(TaskFailure(deliver(s).report)))), Returned(false))
  {
    assert WorkflowSequence[j] != COMPLETE;
  }

  /**
   * A walk from position `i` whose task at position `j` reports failure, all earlier ones
   * succeeding, returns False in FAILED with the task's error text recorded, the queue empty
   * and the loop stopped.
   */
  lemma {:induction false} FailWalkEnds(o: Orch, i: nat, j: nat, deliver: WorkflowStatus -> Delivery, budget: nat, started: bool)
    requires FailReady(o, i, j, deliver, budget)
    ensures var (o', out) := AutomaticFrom(o, i, deliver, budget, started);
      && out == Returned(false) && !o'.running && o'.loop.queue == []
      && o'.loop.run.state == FAILED && o'.loop.run.workflow.status == FAILED
      && o'.loop.run.workflow.errorMessage == Some(TaskFailure(deliver(WorkflowSequence[j]).report))
    decreases j - i
  {
    if i == j {
      var rep := deliver(WorkflowSequence[j]).report;
      AutomaticAtFailure(o, j, deliver, budget, started);
      FailCycle(o.(running := true, submitted := o.submitted + [StateTask(WorkflowSequence[j])]), TaskFailure(rep));
      FailStep(o.loop.run, TaskFailure(rep));
    } else {
      FailReadyStep(o, i, j, deliver, budget, started);
      FailWalkEnds(AfterSuccess(o, WorkflowSequence[i], deliver(WorkflowSequence[i]).report, budget), i + 1, j, deliver, budget, true);
    }
  }

  /** The failure walk logs the forward rows out of positions `i`..`j - 1`, then the row from `j`'s state to FAILED. */
  lemma {:induction false} FailWalkLogs(o: Orch, i: nat, j: nat, deliver: WorkflowStatus -> Delivery, budget: nat, started: bool)
    requires FailReady(o, i, j, deliver, budget)
    ensures Shapes(AutomaticFrom(o, i, deliver, budget, started).0.loop.run.history)
      == Shapes(o.loop.run.history) + ForwardShapes(i, j) + [(StatusValue(WorkflowSequence[j]), "FAILED", Some("fail"))]
    decreases j - i
  {
    var tail := [(StatusValue(WorkflowSequence[j]), "FAILED", Some("fail"))];
    if i == j {
      FailLogsAtFailure(o, j, deliver, budget, started);
      assert ForwardShapes(i, j) == [];
    } else {
      var o3 := AfterSuccess(o, WorkflowSequence[i], deliver(WorkflowSequence[i]).report, budget);
      FailReadyStep(o, i, j, deliver, budget, started);
      FailWalkLogs(o3, i + 1, j, deliver, budget, true);
      FailWalkLogsCons(o, i, j, deliver, budget, started);
    }
  }

  /** A successful cycle prepends its forward row to the rows the rest of the failure walk logs. */
  lemma FailWalkLogsCons(o: Orch, i: nat, j: nat, deliver: WorkflowStatus -> Delivery, budget: nat, started: bool)
    requires FailReady(o, i, j, deliver, budget) && i < j
    requires var o3 := AfterSuccess(o, WorkflowSequence[i], deliver(WorkflowSequence[i]).report, budget);
      Shapes(AutomaticFrom(o3, i + 1, deliver, budget, true).0.loop.run.history)
      == Shapes(o3.loop.run.history) + ForwardShapes(i + 1, j) + [(StatusValue(WorkflowSequence[j]), "FAILED", Some("fail"))]
    ensures Shapes(AutomaticFrom(o, i, deliver, budget, started).0.loop.run.history)
      == Shapes(o.loop.run.history) + ForwardShapes(i, j) + [(StatusValue(WorkflowSequence[j]), "FAILED", Some("fail"))]
  {
    var rep := deliver(WorkflowSequence[i]).report;
    var o3 := AfterSuccess(o, WorkflowSequence[i], rep, budget);
    FailReadyStep(o, i, j, deliver, budget, started);
    ShapeStep(o, i, j, rep, budget, AutomaticFrom(o3, i + 1, deliver, budget, true).0.loop.run.history,
              [(StatusValue(WorkflowSequence[j]), "FAILED", Some("fail"))]);
  }


  /** At its failing position the walk logs the one row from that position's state to FAILED. */
  lemma FailLogsAtFailure(o: Orch, j: nat, deliver: WorkflowStatus -> Delivery, budget: nat, started: bool)
    requires FailReady(o, j, j, deliver, budget)
    ensures Shapes(AutomaticFrom(o, j, deliver, budget, started).0.loop.run.history)
      == Shapes(o.loop.run.history) + [(StatusValue(WorkflowSequence[j]), "FAILED", Some("fail"))]
  {
    var rep := deliver(WorkflowSequence[j]).report;
    AutomaticAtFailure(o, j, deliver, budget, started);
    FailCycle(o.(running := true, submitted := o.submitted + [StateTask(WorkflowSequence[j])]), TaskFailure(rep));
    FailStep(o.loop.run, TaskFailure(rep));
  }

  /** At its failing position the walk submits that position's task and nothing more. */
  lemma FailSubmitsAtFailure(o: Orch, j: nat, deliver: WorkflowStatus -> Delivery, budget: nat, started: bool)
    requires j < |ForwardTriggers| && deliver(WorkflowSequence[j]).Delivered? && !deliver(WorkflowSequence[j]).report.success
    ensures AutomaticFrom(o, j, deliver, budget, started).0.submitted == o.submitted + ForwardTasks(j, j + 1)
  {
    AutomaticAtFailure(o, j, deliver, budget, started);
    assert ForwardTasks(j, j + 1) == [StateTask(WorkflowSequence[j])];
  }

  /** The failure walk submits exactly the task types of positions `i` through `j`, in order. */
  lemma {:induction false} FailWalkSubmits(o: Orch, i: nat, j: nat, deliver: WorkflowStatus -> Delivery, budget: nat, started: bool)
    requires FailReady(o, i, j, deliver, budget)
    ensures AutomaticFrom(o, i, deliver, budget, started).0.submitted == o.submitted + ForwardTasks(i, j + 1)
    decreases j - i
  {
    if i == j {
      FailSubmitsAtFailure(o, j, deliver, budget, started);
    } else {
      var rep := deliver(WorkflowSequence[i]).report;
      var o3 := AfterSuccess(o, WorkflowSequence[i], rep, budget);
      FailReadyStep(o, i, j, deliver, budget, started);
      FailWalkSubmits(o3, i + 1, j, deliver, budget, true);
      SubmitStep(o, i, j + 1, rep, budget, AutomaticFrom(o3, i + 1, deliver, budget, true).0.submitted);
    }
  }

  /** The four forward rows, written out. */
  lemma ForwardWalkRows()
    ensures ForwardShapes(0, 4) == [
      ("INIT", "PREPARE", Some("prepare")), ("PREPARE", "EXECUTE", Some("execute")),
      ("EXECUTE", "VALIDATE", Some("validate")), ("VALIDATE", "COMPLETE", Some("complete"))]
  {
    assert ForwardShapes(3, 4) == [ForwardShape(3)];
    assert ForwardShapes(2, 4) == [ForwardShape(2), ForwardShape(3)];
    assert ForwardShapes(1, 4) == [ForwardShape(1), ForwardShape(2), ForwardShape(3)];
    assert ForwardShapes(0, 4) == [ForwardShape(0), ForwardShape(1), ForwardShape(2), ForwardShape(3)];
  }

  /** The four task types of the forward walk, written out. */
  lemma ForwardWalkTasks()
    ensures ForwardTasks(0, 4) == ["initialize", "prepare", "execute", "validate"]
  {
    assert ForwardTasks(3, 4) == ["validate"];
    assert ForwardTasks(2, 4) == ["execute", "validate"];
    assert ForwardTasks(1, 4) == ["prepare", "execute", "validate"];
  }

  /** The reports the full forward walk stores, written out. */
  lemma StoredFromInit(m: map<WorkflowStatus, TaskLogic.TaskReport>, deliver: WorkflowStatus -> Delivery)
    requires SucceedsFrom(deliver, 0, 4)
    ensures deliver(INIT).Delivered? && deliver(PREPARE).Delivered? && deliver(EXECUTE).Delivered? && deliver(VALIDATE).Delivered?
    ensures StoredFrom(m, deliver, 0)
      == m[INIT := deliver(INIT).report][PREPARE := deliver(PREPARE).report]
          [EXECUTE := deliver(EXECUTE).report][VALIDATE := deliver(VALIDATE).report]
  {
    assert WorkflowSequence[0] == INIT && WorkflowSequence[1] == PREPARE;
    assert WorkflowSequence[2] == EXECUTE && WorkflowSequence[3] == VALIDATE;
  }

  /**
   * `execute_automatic` from INIT with every task succeeding and a settle of at least one
   * iteration: it submits initialize, prepare, execute and validate in that order (never
   * complete), stores their reports under their states, logs exactly the four forward rows,
   * ends COMPLETE with `started_at` and `completed_at` set, and returns True.
   */
  lemma AutomaticFromInit(o: Orch, deliver: WorkflowStatus -> Delivery, budget: nat)
    requires o.loop.run.state == INIT && o.loop.queue == [] && budget >= 1
    requires forall s :: s in InProgress ==> deliver(s).Delivered? && deliver(s).report.success
    ensures var (o', out) := Automatic(o, deliver, budget);
      && out == Returned(true) && !o'.running && o'.loop.queue == []
      && o'.loop.run.state == COMPLETE && o'.loop.run.workflow.status == COMPLETE
      && o'.loop.run.workflow.startedAt.Some? && o'.loop.run.workflow.completedAt.Some?
      && o'.submitted == o.submitted + ["initialize", "prepare", "execute", "validate"]
      && Shapes(o'.loop.run.history) == Shapes(o.loop.run.history) + [
           ("INIT", "PREPARE", Some("prepare")), ("PREPARE", "EXECUTE", Some("execute")),
           ("EXECUTE", "VALIDATE", Some("validate")), ("VALIDATE", "COMPLETE", Some("complete"))]
      && o'.results == o.results[INIT := deliver(INIT).report][PREPARE := deliver(PREPARE).report]
                                [EXECUTE := deliver(EXECUTE).report][VALIDATE := deliver(VALIDATE).report]
  {
    assert SucceedsFrom(deliver, 0, 4) by {
      forall k | 0 <= k < 4 ensures deliver(WorkflowSequence[k]).Delivered? && deliver(WorkflowSequence[k]).report.success {
        assert WorkflowSequence[k] == InProgress[k];
      }
    }
    assert Automatic(o, deliver, budget) == AutomaticFrom(o, 0, deliver, budget, false);
    WalkCompletes(o, 0, deliver, budget, false);
    WalkStampsRow(o, 0, deliver, budget, false);
    WalkLogsForward(o, 0, deliver, budget, false);
    WalkSubmitsAndStores(o, 0, deliver, budget, false);
    ForwardWalkRows();
    ForwardWalkTasks();
    StoredFromInit(o.results, deliver);
  }


  /**
   * `execute_automatic` from an in-progress state at position `i`, whose task at position `j`
   * reports failure after the earlier ones succeed: it returns False in FAILED with the task's
   * error text (default 'Task execution failed'), after the forward rows up to `j` and the row
   * from `j`'s state to FAILED; exactly the tasks of positions `i` through `j` were submitted.
   */
  lemma AutomaticFailsAt(o: Orch, i: nat, j: nat, deliver: WorkflowStatus -> Delivery, budget: nat)
    requires FailReady(o, i, j, deliver, budget)
    ensures var (o', out) := Automatic(o, deliver, budget);
      && out == Returned(false) && !o'.running && o'.loop.queue == []
      && o'.loop.run.state == FAILED && o'.loop.run.workflow.status == FAILED
      && o'.loop.run.workflow.errorMessage == Some(TaskFailure(deliver(WorkflowSequence[j]).report))
      && Shapes(o'.loop.run.history)
         == Shapes(o.loop.run.history) + ForwardShapes(i, j) + [(StatusValue(WorkflowSequence[j]), "FAILED", Some("fail"))]
      && o'.submitted == o.submitted + ForwardTasks(i, j + 1)
  {
    assert SequenceIndex(o.loop.run.state) == Some(i);
    FailWalkEnds(o, i, j, deliver, budget, false);
    FailWalkLogs(o, i, j, deliver, budget, false);
    FailWalkSubmits(o, i, j, deliver, budget, false);
  }

  /**
   * `execute_automatic` on a workflow already COMPLETE never returns: it clears `_running`
   * before the event task has run at all, the task then sets it again and polls forever. No
   * task is submitted and the run does not change.
   */
  lemma AutomaticFromCompleteNeverReturns(o: Orch, deliver: WorkflowStatus -> Delivery, budget: nat)
    requires o.loop.run.state == COMPLETE
    ensures Automatic(o, deliver, budget) == (o.(running := true), NeverReturns)
  {
    NextTriggerTable(COMPLETE);
  }

  /**
   * `execute_automatic` on a FAILED or CANCELLED workflow returns False without submitting
   * anything or touching the run: `index` raises, and the `fail` event it queues for the error
   * is left for the event task (which, in these states, will refuse it forever).
   */
  lemma AutomaticFromStopped(o: Orch, deliver: WorkflowStatus -> Delivery, budget: nat)
    requires o.loop.run.state in {FAILED, CANCELLED}
    ensures var (o', out) := Automatic(o, deliver, budget);
      && out == Returned(false) && !o'.running
      && o'.loop.run == o.loop.run && o'.submitted == o.submitted && o'.results == o.results
      && o'.loop.queue == o.loop.queue + [FailEvent(NotInListMessage(o.loop.run.state))]
  {
  }

  // ---------------------------------------------------------------------------------------
  // execute_next_step

  /**
   * `execute_next_step` from COMPLETE, FAILED or CANCELLED returns False, submits nothing and
   * changes nothing.
   */
  lemma NextStepFromStopped(o: Orch, deliver: WorkflowStatus -> Delivery)
    requires o.loop.run.state in {COMPLETE, FAILED, CANCELLED}
    ensures NextStep(o, deliver) == (o, false)
  {
  }

  /**
   * `execute_next_step` from an in-progress state with an empty queue runs exactly one task,
   * the current state's, and makes exactly one transition: the forward step when the task
   * succeeds (returning True), `fail` when it reports failure (returning False).
   */
  lemma {:induction false} NextStepRunsOneCycle(o: Orch, deliver: WorkflowStatus -> Delivery)
    requires o.loop.run.state in InProgress && o.loop.queue == [] && deliver(o.loop.run.state).Delivered?
    ensures var (o', ok) := NextStep(o, deliver);
      && o'.submitted == o.submitted + [StateTask(o.loop.run.state)]
      && o'.loop.queue == [] && !o'.running
      && |o'.loop.run.history| == |o.loop.run.history| + 1
      && (ok <==> deliver(o.loop.run.state).report.success)
      && (ok ==> o'.loop.run.state == Fire(o.loop.run.state, NextTrigger(o.loop.run.state).value).value)
      && (!ok ==> o'.loop.run.state == FAILED)
  {
    var s := o.loop.run.state;
    var i := SequenceIndex(s).value;
    var rep := deliver(s).report;
    if rep.success {
      var o2 := o.(running := true, submitted := o.submitted + [StateTask(s)], results := o.results[s := rep]);
      ForwardFires(i);
      ForwardCycle(o2, ForwardTriggers[i], 1);
      ForwardStep(o.loop.run, i);
    } else {
      var o1 := o.(running := true, submitted := o.submitted + [StateTask(s)]);
      FailCycle(o1, TaskFailure(rep));
      FailStep(o.loop.run, TaskFailure(rep));
    }
  }


  // ---------------------------------------------------------------------------------------
  // The drivers together with the real worker pool.

  /** Every state task the drivers submit succeeds on a running pool. */
  lemma PoolTasksSucceed(wid: nat, s: WorkflowStatus)
    requires s in InProgress
    ensures PoolDelivery(false, wid, s).Delivered? && PoolDelivery(false, wid, s).report.success
  {
    if s == EXECUTE {
      TaskLogic.DefaultExecuteComputation(TaskConfig(wid, s));
    }
  }

  /**
   * With a running pool, `execute_automatic` from INIT always completes: the drivers' own task
   * configurations never make a worker fail.
   */
  lemma RunningPoolCompletesRun(o: Orch, budget: nat)
    requires o.loop.run.state == INIT && o.loop.queue == [] && budget >= 1
    ensures var (o', out) := Automatic(o, Pool(false, o.loop.run.workflowId), budget);
      out == Returned(true) && o'.loop.run.state == COMPLETE
  {
    var deliver := Pool(false, o.loop.run.workflowId);
    forall s | s in InProgress ensures deliver(s).Delivered? && deliver(s).report.success {
      PoolTasksSucceed(o.loop.run.workflowId, s);
    }
    AutomaticFromInit(o, deliver, budget);
  }

  /**
   * With a shut-down pool, `execute_automatic` from an in-progress state returns False at the
   * first submission, before any transition: the run is untouched and a `fail` carrying the
   * pool's error waits in the queue.
   */
  lemma ShutdownPoolAbortsRun(o: Orch, budget: nat)
    requires o.loop.run.state in InProgress
    ensures var (o', out) := Automatic(o, Pool(true, o.loop.run.workflowId), budget);
      && out == Returned(false) && o'.loop.run == o.loop.run && o'.submitted == o.submitted
      && o'.loop.queue == o.loop.queue + [FailEvent(Workers.ShutdownMessage)]
  {
  }

  /**
   * With a shut-down pool, `execute_next_step` from an in-progress state submits nothing and
   * makes no transition: the run is untouched, a `fail` carrying the pool's error waits in the
   * queue, and it returns False.
   */
  lemma ShutdownPoolAbortsNextStep(o: Orch)
    requires o.loop.run.state in InProgress
    ensures var (o', ok) := NextStep(o, Pool(true, o.loop.run.workflowId));
      && !ok && o'.loop.run == o.loop.run && o'.submitted == o.submitted
      && o'.loop.queue == o.loop.queue + [FailEvent(Workers.ShutdownMessage)]
  {
  }

  /**
   * FAILED is treated as terminal by `execute_next_step`, yet it has a next trigger, so
   * `advance_to_next_state` from FAILED queues `retry` instead of reaching its terminal branch.
   */
  lemma AdvanceFromFailedQueuesRetry(o: Orch)
    requires o.loop.run.state == FAILED
    ensures Advance(o).loop.queue == o.loop.queue + [TriggerEvent(Retry)]
    ensures Advance(o) != o
  {
    NextTriggerTable(FAILED);
  }

  /**
   * `retry` moves only the machine: the row still says FAILED. An orchestrator built afresh
   * from that row starts in FAILED, so `execute_automatic` on it returns False at once, with
   * nothing submitted and the run untouched.
   */
  lemma RetriedRowRestartsInFailed(r: Run, deliver: WorkflowStatus -> Delivery, budget: nat)
    requires r.state == FAILED && r.workflow.status == FAILED
    ensures Apply(r, Retry, None).Ok?
    ensures var r' := Apply(r, Retry, None).value;
      && r'.state == INIT && r'.workflow.status == FAILED
      && var o := Orch(Loop(r'.(state := r'.workflow.status), []), false, map[], []);
         var (o', out) := Automatic(o, deliver, budget);
         out == Returned(false) && o'.loop.run == o.loop.run && o'.submitted == []
  {
    FireTable(FAILED, Retry);
    RetryMovesOnlyTheMachine(r, None);
  }
}
