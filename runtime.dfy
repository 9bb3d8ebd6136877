// The orchestrator object itself: the machine's state, the workflow row it keeps in step with
// the database, the workflow's transition rows, the event queue, the `_running` flag and
// `_task_results`, all updated in place by its methods. Each method is proved to do what the
// value-level model in the Engine, Events and Orchestrator modules says it does, so every
// property proved there holds of the object.

module Runtime {
  import opened Wrappers
  import opened Models
  import opened Engine
  import opened Events
  import opened Orchestrator
  import TaskLogic
  import Workers

  /** One entry of the `transitions` list `get_status` reports. */
  datatype TransitionEntry = TransitionEntry(fromState: string, toState: string, trigger: Option<string>, timestamp: nat)

  /** The dictionary `get_status` returns. */
  datatype StatusReport = StatusReport(
    workflowId: nat,
    name: string,
    status: string,
    currentState: string,
    retries: nat,
    startedAt: Option<nat>,
    completedAt: Option<nat>,
    errorMessage: Option<string>,
    nextTrigger: Option<string>,
    transitions: seq<TransitionEntry>,
    taskResults: map<WorkflowStatus, TaskLogic.TaskReport>)

  /** The report entry for one transition row. */
  function EntryOf(rec: WorkflowTransition): TransitionEntry {
    TransitionEntry(rec.fromState, rec.toState, rec.trigger, rec.createdAt)
  }

  class WorkflowOrchestrator {
    const workflowId: nat
    /** The state machine's state. */
    var state: WorkflowStatus
    /** The local copy of the workflow row, refreshed after every write. */
    var workflow: Workflow
    /** The workflow's transition rows, oldest first. */
    var history: seq<WorkflowTransition>
    /** The last time stamp handed out. */
    var clock: nat
    /** `_event_queue`: the pending events, oldest first. */
    var eventQueue: seq<Event>
    /** `_running`: whether the event task keeps going. */
    var running: bool
    /** `_task_results`: the report of each state's successful task. */
    var taskResults: map<WorkflowStatus, TaskLogic.TaskReport>
    /** The task types handed to the worker pool so far, in order. */
    ghost var submitted: seq<string>

    /** The part the state machine acts on. */
    function Current(): Run
      reads this
    {
      Run(workflowId, state, workflow, history, clock)
    }

    /** The object as the drivers see it. */
    ghost function View(): Orch
      reads this
    {
      Orch(Loop(Current(), eventQueue), running, taskResults, submitted)
    }

    /** `__init__` once `_load_workflow` has found the row: the machine starts at the row's status. */
    constructor (wid: nat, w: Workflow, h: seq<WorkflowTransition>, now: nat)
      ensures Current() == Run(wid, w.status, w, h, now)
      ensures eventQueue == [] && !running && taskResults == map[] && submitted == []
    {
      workflowId := wid;
      state := w.status;
      workflow := w;
      history := h;
      clock := now;
      eventQueue := [];
      running := false;
      taskResults := map[];
      submitted := [];
    }

    /**
     * Building an orchestrator for workflow `id`: the error `_load_workflow` raises when there
     * is no such row; otherwise an orchestrator at the row's status with the workflow's rows
     * as its history, nothing queued, not running and no results.
     */
    static method Open(db: Database, id: nat, now: nat) returns (r: Result<WorkflowOrchestrator>)
      ensures r.Err? <==> id !in db.workflows
      ensures r.Err? ==> r.error == LoadWorkflow(db, id).error
      ensures r.Ok? ==>
        && id in db.workflows && fresh(r.value)
        && r.value.Current() == Run(id, db.workflows[id].status, db.workflows[id], TransitionsOf(db.transitions, id), now)
        && r.value.eventQueue == [] && !r.value.running && r.value.taskResults == map[] && r.value.submitted == []
    {
      var w := LoadWorkflow(db, id);
      if w.Err? {
        return Err(w.error);
      }
      var o := new WorkflowOrchestrator(id, w.value, TransitionsOf(db.transitions, id), now);
      r := Ok(o);
    }

    // -------------------------------------------------------------------------------------
    // The callbacks the transition table attaches.

    /** `_on_state_enter`: stamps `started_at` the first time only. */
    method OnStateEnter()
      modifies this
      ensures Current() == RunBefore(Engine.OnStateEnter, old(Current()), None)
      ensures eventQueue == old(eventQueue) && running == old(running)
      ensures taskResults == old(taskResults) && submitted == old(submitted)
    {
      if workflow.startedAt.None? {
        clock := clock + 1;
        workflow := workflow.(startedAt := Some(clock), updatedAt := clock);
      }
    }

    /** `_on_complete`: stamps `completed_at`. */
    method OnComplete()
      modifies this
      ensures Current() == RunBefore(Engine.OnComplete, old(Current()), None)
      ensures eventQueue == old(eventQueue) && running == old(running)
      ensures taskResults == old(taskResults) && submitted == old(submitted)
    {
      clock := clock + 1;
      workflow := workflow.(completedAt := Some(clock), updatedAt := clock);
    }

    /** `_on_fail`: stamps `completed_at` and records the error text, 'Unknown error' if none was given. */
    method OnFail(error: Option<string>)
      modifies this
      ensures Current() == RunBefore(Engine.OnFail, old(Current()), error)
      ensures workflow.errorMessage == Some(error.GetOr("Unknown error")) && workflow.completedAt.Some?
      ensures eventQueue == old(eventQueue) && running == old(running)
      ensures taskResults == old(taskResults) && submitted == old(submitted)
    {
      clock := clock + 1;
      workflow := workflow.(completedAt := Some(clock), errorMessage := Some(error.GetOr("Unknown error")), updatedAt := clock);
    }

    /** `_on_cancel`: stamps `completed_at`. */
    method OnCancel()
      modifies this
      ensures Current() == RunBefore(Engine.OnCancel, old(Current()), None)
      ensures eventQueue == old(eventQueue) && running == old(running)
      ensures taskResults == old(taskResults) && submitted == old(submitted)
    {
      clock := clock + 1;
      workflow := workflow.(completedAt := Some(clock), updatedAt := clock);
    }

    /** `_log_transition`: appends the row, then writes `status` and `current_state`. */
    method LogTransition(src: WorkflowStatus, dest: WorkflowStatus, t: Trigger)
      modifies this
      ensures Current() == Engine.LogTransition(old(Current()), src, dest, t)
      ensures eventQueue == old(eventQueue) && running == old(running)
      ensures taskResults == old(taskResults) && submitted == old(submitted)
    {
      var row := RecordOf(Current(), src, dest, t, clock + 1);
      history := history + [row];
      clock := clock + 2;
      workflow := workflow.(status := dest, currentState := StatusValue(dest), updatedAt := clock);
    }

    /** The before-callback `h` of a table entry. */
    method RunHook(h: Hook, error: Option<string>)
      modifies this
      ensures Current() == RunBefore(h, old(Current()), error)
      ensures eventQueue == old(eventQueue) && running == old(running)
      ensures taskResults == old(taskResults) && submitted == old(submitted)
    {
      match h {
        case OnStateEnter => OnStateEnter();
        case OnComplete => OnComplete();
        case OnFail => OnFail(error);
        case OnCancel => OnCancel();
      }
    }

    /**
     * Calling the trigger method the machine installs for `t`, with keyword argument `error`:
     * a trigger the state does not admit raises and changes nothing; an accepted one runs its
     * before-callback, moves the machine and runs its after-callback. The run invariant is kept.
     */
    method Invoke(t: Trigger, error: Option<string>) returns (r: Result<bool>)
      modifies this
      ensures r.Ok? <==> Apply(old(Current()), t, error).Ok?
      ensures r.Ok? ==> r.value && Current() == Apply(old(Current()), t, error).value
      ensures r.Err? ==> r.error == InvalidTransitionMessage(t, old(state)) && Current() == old(Current())
      ensures RunInvariant(old(Current())) ==> RunInvariant(Current())
      ensures eventQueue == old(eventQueue) && running == old(running)
      ensures taskResults == old(taskResults) && submitted == old(submitted)
    {
      var d := FindTransition(Transitions, t, state, 0);
      if d.None? {
        return Err(InvalidTransitionMessage(t, state));
      }
      Take(t, d.value, error);
      r := Ok(true);
      if RunInvariant(old(Current())) {
        ApplyKeepsInvariant(old(Current()), t, error);
      }
    }

    /** Taking the table entry `d` the machine found for `t`: before-callback, move, after-callback. */
    method Take(t: Trigger, d: TransitionDef, error: Option<string>)
      requires FindTransition(Transitions, t, state, 0) == Some(d)
      modifies this
      ensures Apply(old(Current()), t, error).Ok? && Current() == Apply(old(Current()), t, error).value
      ensures eventQueue == old(eventQueue) && running == old(running)
      ensures taskResults == old(taskResults) && submitted == old(submitted)
    {
      var src := state;
      if d.before.Some? {
        RunHook(d.before.value, error);
      }
      state := d.dest;
      if d.logged {
        LogTransition(src, d.dest, t);
      }
    }

    // -------------------------------------------------------------------------------------
    // The event queue and the loop that consumes it.

    /** `emit_event`: the event joins the back of the queue. */
    method EmitEvent(e: Event)
      modifies this
      ensures View() == Emit(old(View()), e)
    {
      eventQueue := eventQueue + [e];
    }

    /**
     * One iteration of `process_events`: the oldest event, if any, leaves the queue; an unknown
     * name is dropped, a known one calls its trigger, and a refused trigger queues `fail` with
     * the error text.
     */
    method ProcessOne()
      modifies this
      ensures View() == old(View()).(loop := Step(old(View()).loop))
    {
      if |eventQueue| == 0 {
        return;
      }
      var e := eventQueue[0];
      eventQueue := eventQueue[1..];
      match TriggerNamed(e.name) {
        case None =>
        case Some(t) =>
          var r := Invoke(t, e.error);
          if r.Err? {
            EmitEvent(FailEvent(r.error));
          }
      }
    }

    /** `n` iterations of `process_events`; the run invariant is kept throughout. */
    method RunLoop(n: nat)
      modifies this
      ensures View() == old(View()).(loop := Drain(old(View()).loop, n))
      ensures RunInvariant(old(Current())) ==> RunInvariant(Current())
    {
      ghost var v0 := View();
      var k := 0;
      while k < n
        invariant k <= n
        invariant View() == v0.(loop := Drain(v0.loop, k))
      {
        DrainOneMore(v0.loop, k);
        ProcessOne();
        k := k + 1;
      }
      if RunInvariant(v0.loop.run) {
        DrainKeepsInvariant(v0.loop, n);
      }
    }

    /** `_running = False; await event_task`: the loop finishes the iteration it is in. */
    method Stop()
      modifies this
      ensures View() == Orchestrator.Stop(old(View()))
    {
      running := false;
      RunLoop(1);
    }

    // -------------------------------------------------------------------------------------
    // Choosing and taking the next step.

    /** `get_next_trigger`: the trigger of the first table entry whose source equals the state. */
    method GetNextTrigger() returns (t: Option<Trigger>)
      ensures t == NextTrigger(state)
    {
      var k := 0;
      while k < |Transitions|
        invariant k <= |Transitions|
        invariant FirstTriggerFrom(Transitions, state, k) == NextTrigger(state)
      {
        if SourceEquals(Transitions[k].source, state) {
          return Some(Transitions[k].trigger);
        }
        k := k + 1;
      }
      t := None;
    }

    /** `advance_to_next_state`: queue the next trigger, if the state has one. */
    method AdvanceToNextState()
      modifies this
      ensures View() == Advance(old(View()))
    {
      var t := GetNextTrigger();
      if t.Some? {
        EmitEvent(TriggerEvent(t.value));
      }
    }

    /**
     * `_transition_to_next_state`: fire the next trigger at once. The machine always accepts
     * it, so the call never raises; from COMPLETE and CANCELLED nothing happens.
     */
    method TransitionToNextState()
      modifies this
      ensures NextTrigger(old(state)).Some? ==>
        Apply(old(Current()), NextTrigger(old(state)).value, None).Ok?
        && Current() == Apply(old(Current()), NextTrigger(old(state)).value, None).value
      ensures NextTrigger(old(state)).None? ==> Current() == old(Current())
      ensures eventQueue == old(eventQueue) && running == old(running)
      ensures taskResults == old(taskResults) && submitted == old(submitted)
    {
      NextTriggerIsLegal(state);
      var t := GetNextTrigger();
      if t.Some? {
        var r := Invoke(t.value, None);
      }
    }

    // -------------------------------------------------------------------------------------
    // The drivers.

    /** The except branch of a driver: queue `fail` with the error text and clear `_running`. */
    method AbortRun(error: string)
      modifies this
      ensures View() == Orchestrator.Abort(old(View()), error)
    {
      EmitEvent(FailEvent(error));
      running := false;
    }

    /** A task reported failure: queue `fail` with its error text and stop the loop. */
    method FailAndStop(rep: TaskLogic.TaskReport)
      modifies this
      ensures View() == Orchestrator.Stop(Emit(old(View()), FailEvent(TaskFailure(rep))))
    {
      EmitEvent(FailEvent(TaskFailure(rep)));
      Stop();
    }

    /** A task succeeded: store its report, queue the next trigger and let the loop settle. */
    method StoreAndSettle(s: WorkflowStatus, rep: TaskLogic.TaskReport, budget: nat)
      modifies this
      ensures View() == Settle(Advance(old(View()).(results := old(View()).results[s := rep])), budget)
    {
      taskResults := taskResults[s := rep];
      AdvanceToNextState();
      RunLoop(budget);
    }

    /**
     * One pass of `execute_automatic`'s loop at a position before COMPLETE: run the state's
     * task; a raising submission aborts and a failed report stops the loop, both ending the
     * call with False; a successful report is stored, the next trigger queued and the loop
     * settled, and the walk goes on with the event task started.
     */
    method RunPosition(worker: WorkflowStatus -> Delivery, i: nat, budget: nat, started: bool) returns (finished: Option<Outcome>)
      requires i < |WorkflowSequence| - 1
      modifies this
      ensures finished.Some? ==> (View(), finished.value) == AutomaticFrom(old(View()), i, worker, budget, started)
      ensures finished.None? ==>
        AutomaticFrom(View(), i + 1, worker, budget, true) == AutomaticFrom(old(View()), i, worker, budget, started)
    {
      ghost var o0 := View();
      var s := WorkflowSequence[i];
      var d := worker(s);
      if d.Raised? {
        AbortRun(d.error);
        return Some(Returned(false));
      }
      // The event task starts at the first wait for a worker.
      running := true;
      submitted := submitted + [StateTask(s)];
      var rep := d.report;
      if !rep.success {
        FailAndStop(rep);
        return Some(Returned(false));
      }
      AutomaticOnSuccess(o0, i, worker, budget, started);
      StoreAndSettle(s, rep, budget);
      assert View() == AfterSuccess(o0, s, rep, budget);
      finished := None;
    }

    /**
     * `execute_automatic` with a worker manager that delivers `worker(s)` for the task of state
     * `s`, and a settle of `budget` loop iterations after each advance: exactly the value-level
     * driver on those deliveries.
     */
    method ExecuteAutomatic(worker: WorkflowStatus -> Delivery, budget: nat) returns (outcome: Outcome)
      modifies this
      ensures (View(), outcome) == Automatic(old(View()), worker, budget)
    {
      var index := SequenceIndex(state);
      if index.None? {
        EmitEvent(FailEvent(NotInListMessage(state)));
        running := false;
        return Returned(false);
      }
      var i := index.value;
      var started := false;
      while i < |WorkflowSequence| - 1
        invariant i < |WorkflowSequence|
        invariant AutomaticFrom(View(), i, worker, budget, started) == Automatic(old(View()), worker, budget)
        decreases |WorkflowSequence| - i
      {
        var finished := RunPosition(worker, i, budget, started);
        if finished.Some? {
          return finished.value;
        }
        i := i + 1;
        started := true;
      }
      // The last position is COMPLETE: advance and stop the loop.
      AdvanceToNextState();
      if started {
        Stop();
        outcome := Returned(true);
      } else {
        // The event task only starts now, sets `_running` again and never ends.
        running := true;
        outcome := NeverReturns;
      }
    }

    /**
     * `execute_next_step` with a worker manager that delivers `worker(s)` for the task of state
     * `s`: exactly the value-level single step on those deliveries.
     */
    method ExecuteNextStep(worker: WorkflowStatus -> Delivery) returns (ok: bool)
      modifies this
      ensures (View(), ok) == NextStep(old(View()), worker)
    {
      var s := state;
      if s in {COMPLETE, FAILED, CANCELLED} {
        assert s !in InProgress;
        return false;
      }
      assert s.INIT? || s.PREPARE? || s.EXECUTE? || s.VALIDATE?;
      var d := worker(s);
      if d.Raised? {
        AbortRun(d.error);
        return false;
      }
      running := true;
      submitted := submitted + [StateTask(s)];
      var rep := d.report;
      if !rep.success {
        FailAndStop(rep);
        return false;
      }
      taskResults := taskResults[s := rep];
      AdvanceToNextState();
      Stop();
      ok := true;
    }

    /**
     * `get_status`: the row's fields with `status` as its value string, the next trigger of the
     * machine's state by name, every transition row in order, and the stored task reports.
     */
    method GetStatus() returns (r: StatusReport)
      ensures r.workflowId == workflowId && r.name == workflow.name
      ensures r.status == StatusValue(workflow.status) && r.currentState == workflow.currentState
      ensures r.retries == workflow.retries && r.errorMessage == workflow.errorMessage
      ensures r.startedAt == workflow.startedAt && r.completedAt == workflow.completedAt
      ensures r.nextTrigger.Some? <==> NextTrigger(state).Some?
      ensures r.nextTrigger.Some? ==> r.nextTrigger.value == TriggerName(NextTrigger(state).value)
      ensures |r.transitions| == |history|
      ensures forall k :: 0 <= k < |history| ==> r.transitions[k] == EntryOf(history[k])
      ensures r.taskResults == taskResults
    {
      var t := GetNextTrigger();
      var next := if t.Some? then Some(TriggerName(t.value)) else None;
      var entries := [];
      var k := 0;
      while k < |history|
        invariant k <= |history| && |entries| == k
        invariant forall m :: 0 <= m < k ==> entries[m] == EntryOf(history[m])
      {
        entries := entries + [EntryOf(history[k])];
        k := k + 1;
      }
      r := StatusReport(workflowId, workflow.name, StatusValue(workflow.status), workflow.currentState,
                        workflow.retries, workflow.startedAt, workflow.completedAt, workflow.errorMessage,
                        next, entries, taskResults);
    }
  }

  /**
   * What the real worker pool delivers to a driver for the task of state `s`: handing the
   * task to `submit_workflow_task` and waiting on it yields the worker's report, or the pool's
   * error after shutdown, which is `PoolDelivery`.
   */
  method RunStateTask(pool: Workers.WorkerManager, wid: nat, s: WorkflowStatus) returns (d: Delivery)
    ensures d == Pool(pool.isShutdown, wid)(s)
    ensures d.Raised? <==> pool.isShutdown
  {
    var r := pool.SubmitWorkflowTask(wid, StateTask(s), TaskConfig(wid, s));
    match r {
      case Ok(rep) => d := Delivered(rep);
      case Err(e) => d := Raised(e);
    }
  }
}
