// The workflow state machine: the transition table the orchestrator declares, the way the
// state machine library resolves a trigger against it, the before-hooks that stamp the
// workflow row, and the after-hook that appends a transition row and writes the new status.

module Engine {
  import opened Wrappers
  import opened Models

  /** The seven triggers the orchestrator declares; no automatic `to_<state>` triggers exist. */
  datatype Trigger = Prepare | Execute | Validate | Complete | Fail | Cancel | Retry

  /** The trigger's name, i.e. the orchestrator attribute the machine installs for it. */
  function TriggerName(t: Trigger): string {
    match t
    case Prepare => "prepare"
    case Execute => "execute"
    case Validate => "validate"
    case Complete => "complete"
    case Fail => "fail"
    case Cancel => "cancel"
    case Retry => "retry"
  }

  /** The trigger an event name denotes, if any. */
  function TriggerNamed(name: string): (r: Option<Trigger>)
    ensures r.Some? ==> TriggerName(r.value) == name
  {
    if name == "prepare" then Some(Prepare)
    else if name == "execute" then Some(Execute)
    else if name == "validate" then Some(Validate)
    else if name == "complete" then Some(Complete)
    else if name == "fail" then Some(Fail)
    else if name == "cancel" then Some(Cancel)
    else if name == "retry" then Some(Retry)
    else None
  }

  /** Every trigger is found again by its own name, so events name triggers unambiguously. */
  lemma TriggerNamesRoundTrip(t: Trigger)
    ensures TriggerNamed(TriggerName(t)) == Some(t)
  {
  }

  /** The `source` of a table entry: a single state name, or a list of state names. */
  datatype Source = One(state: WorkflowStatus) | AnyOf(states: seq<WorkflowStatus>)

  /** The before-callbacks the table names. */
  datatype Hook = OnStateEnter | OnComplete | OnFail | OnCancel

  /**
   * One entry of the transition table: trigger, source, destination, the before-callback if
   * any, and whether `_log_transition` is attached as the after-callback.
   */
  datatype TransitionDef = TransitionDef(trigger: Trigger, source: Source, dest: WorkflowStatus, before: Option<Hook>, logged: bool)

  /** The states in which a run is still in progress. */
  const InProgress: seq<WorkflowStatus> := [INIT, PREPARE, EXECUTE, VALIDATE]

  /** The orchestrator's transition table, in declaration order. `retry` has no callbacks. */
  const Transitions: seq<TransitionDef> := [
    TransitionDef(Prepare, One(INIT), PREPARE, Some(OnStateEnter), true),
    TransitionDef(Execute, One(PREPARE), EXECUTE, Some(OnStateEnter), true),
    TransitionDef(Validate, One(EXECUTE), VALIDATE, Some(OnStateEnter), true),
    TransitionDef(Complete, One(VALIDATE), COMPLETE, Some(OnComplete), true),
    TransitionDef(Fail, AnyOf(InProgress), FAILED, Some(OnFail), true),
    TransitionDef(Cancel, AnyOf(InProgress), CANCELLED, Some(OnCancel), true),
    TransitionDef(Retry, One(FAILED), INIT, None, false)
  ]

  /** How the state machine reads a source: the state itself, or membership in the list. */
  predicate Admits(src: Source, s: WorkflowStatus) {
    match src
    case One(x) => x == s
    case AnyOf(xs) => s in xs
  }

  /**
   * The entry the machine takes for trigger `t` in state `s`, searching `defs` from index `k`:
   * the first entry declared for `t` whose source admits `s`.
   */
  function FindTransition(defs: seq<TransitionDef>, t: Trigger, s: WorkflowStatus, k: nat): (r: Option<TransitionDef>)
    requires k <= |defs|
    ensures r.Some? ==> r.value in defs[k..] && r.value.trigger == t && Admits(r.value.source, s)
    ensures r.None? ==> forall i :: k <= i < |defs| && defs[i].trigger == t ==> !Admits(defs[i].source, s)
    decreases |defs| - k
  {
    if k == |defs| then None
    else if defs[k].trigger == t && Admits(defs[k].source, s) then Some(defs[k])
    else FindTransition(defs, t, s, k + 1)
  }

  /** Firing trigger `t` in state `s`: the destination, or `None` when the machine refuses it. */
  function Fire(s: WorkflowStatus, t: Trigger): Option<WorkflowStatus> {
    match FindTransition(Transitions, t, s, 0)
    case Some(d) => Some(d.dest)
    case None => None
  }

  /**
   * The table allows exactly these firings: the four forward steps, `fail` and `cancel` from
   * any in-progress state, and `retry` from FAILED. Every other pair is refused.
   */
  lemma FireTable(s: WorkflowStatus, t: Trigger)
    ensures Fire(s, t) == match t
      case Prepare => if s == INIT then Some(PREPARE) else None
      case Execute => if s == PREPARE then Some(EXECUTE) else None
      case Validate => if s == EXECUTE then Some(VALIDATE) else None
      case Complete => if s == VALIDATE then Some(COMPLETE) else None
      case Fail => if s in InProgress then Some(FAILED) else None
      case Cancel => if s in InProgress then Some(CANCELLED) else None
      case Retry => if s == FAILED then Some(INIT) else None
  {
    var j := match t
      case Prepare => 0
      case Execute => 1
      case Validate => 2
      case Complete => 3
      case Fail => 4
      case Cancel => 5
      case Retry => 6;
    assert Transitions[j].trigger == t;
    FindOnlyEntry(Transitions, t, s, j, 0);
  }

  /** The index of the one table entry declared for `t`. */
  function EntryIndex(t: Trigger): (j: nat)
    ensures j < |Transitions| && Transitions[j].trigger == t
    ensures forall i :: 0 <= i < |Transitions| && i != j ==> Transitions[i].trigger != t
  {
    match t
    case Prepare => 0
    case Execute => 1
    case Validate => 2
    case Complete => 3
    case Fail => 4
    case Cancel => 5
    case Retry => 6
  }

  /** The machine takes the one entry declared for `t` exactly when its source admits `s`. */
  lemma EntryFound(s: WorkflowStatus, t: Trigger)
    ensures FindTransition(Transitions, t, s, 0)
      == if Admits(Transitions[EntryIndex(t)].source, s) then Some(Transitions[EntryIndex(t)]) else None
  {
    FindOnlyEntry(Transitions, t, s, EntryIndex(t), 0);
  }

  /**
   * When `defs` declares trigger `t` exactly once, at index `j`, the search from any index up
   * to `j` yields that entry if its source admits `s` and nothing otherwise.
   */
  lemma {:induction false} FindOnlyEntry(defs: seq<TransitionDef>, t: Trigger, s: WorkflowStatus, j: nat, k: nat)
    requires k <= j < |defs| && defs[j].trigger == t
    requires forall i :: 0 <= i < |defs| && i != j ==> defs[i].trigger != t
    ensures FindTransition(defs, t, s, k) == if Admits(defs[j].source, s) then Some(defs[j]) else None
    decreases j - k
  {
    if k < j {
      FindOnlyEntry(defs, t, s, j, k + 1);
    }
  }

  /** Python's `transition['source'] == self.state`: a list source never equals a state name. */
  predicate SourceEquals(src: Source, s: WorkflowStatus) {
    src.One? && src.state == s
  }

  /**
   * `get_next_trigger` over a table, searching from index `k`: the trigger of the first entry
   * whose source equals `s`.
   */
  function FirstTriggerFrom(defs: seq<TransitionDef>, s: WorkflowStatus, k: nat): (r: Option<Trigger>)
    requires k <= |defs|
    ensures r.Some? ==> exists i :: k <= i < |defs| && defs[i].trigger == r.value && SourceEquals(defs[i].source, s)
    ensures r.None? ==> forall i :: k <= i < |defs| ==> !SourceEquals(defs[i].source, s)
    decreases |defs| - k
  {
    if k == |defs| then None
    else if SourceEquals(defs[k].source, s) then Some(defs[k].trigger)
    else FirstTriggerFrom(defs, s, k + 1)
  }

  /** The trigger that advances a workflow from state `s`, as `get_next_trigger` finds it. */
  function NextTrigger(s: WorkflowStatus): Option<Trigger> {
    FirstTriggerFrom(Transitions, s, 0)
  }

  /**
   * The next trigger of each state: the forward step from INIT, PREPARE, EXECUTE and VALIDATE,
   * `retry` from FAILED, and none from COMPLETE or CANCELLED.
   */
  lemma NextTriggerTable(s: WorkflowStatus)
    ensures NextTrigger(s) == match s
      case INIT => Some(Prepare)
      case PREPARE => Some(Execute)
      case EXECUTE => Some(Validate)
      case VALIDATE => Some(Complete)
      case FAILED => Some(Retry)
      case COMPLETE => None
      case CANCELLED => None
  {
    match s
    case INIT => FirstOnlyEntry(Transitions, s, 0, 0);
    case PREPARE => FirstOnlyEntry(Transitions, s, 1, 0);
    case EXECUTE => FirstOnlyEntry(Transitions, s, 2, 0);
    case VALIDATE => FirstOnlyEntry(Transitions, s, 3, 0);
    case FAILED => FirstOnlyEntry(Transitions, s, 6, 0);
    case COMPLETE =>
      assert forall i :: 0 <= i < |Transitions| ==> !SourceEquals(Transitions[i].source, s);
    case CANCELLED =>
      assert forall i :: 0 <= i < |Transitions| ==> !SourceEquals(Transitions[i].source, s);
  }

  /** When exactly one entry of `defs`, at index `j`, has a source equal to `s`, the search finds its trigger. */
  lemma {:induction false} FirstOnlyEntry(defs: seq<TransitionDef>, s: WorkflowStatus, j: nat, k: nat)
    requires k <= j < |defs| && SourceEquals(defs[j].source, s)
    requires forall i :: 0 <= i < |defs| && i != j ==> !SourceEquals(defs[i].source, s)
    ensures FirstTriggerFrom(defs, s, k) == Some(defs[j].trigger)
    decreases j - k
  {
    if k < j {
      FirstOnlyEntry(defs, s, j, k + 1);
    }
  }

  /**
   * The next trigger is never `fail` or `cancel` (their source is a list), and whenever there
   * is one the machine accepts it.
   */
  lemma NextTriggerIsLegal(s: WorkflowStatus)
    ensures NextTrigger(s) != Some(Fail) && NextTrigger(s) != Some(Cancel)
    ensures NextTrigger(s).Some? ==> Fire(s, NextTrigger(s).value).Some?
    ensures NextTrigger(s).None? <==> s == COMPLETE || s == CANCELLED
  {
    NextTriggerTable(s);
    if NextTrigger(s).Some? {
      FireTable(s, NextTrigger(s).value);
    }
  }

  /**
   * The part of an orchestrator run the state machine acts on: the machine's state, the
   * workflow row, the workflow's transition rows in insertion order, and the abstract clock
   * (one tick per `datetime.now()` whose value is stored).
   */
  datatype Run = Run(workflowId: nat, state: WorkflowStatus, workflow: Workflow, history: seq<WorkflowTransition>, clock: nat)

  /** The before-callbacks: stamp the start once, stamp the end, record the error text. */
  function RunBefore(h: Hook, r: Run, error: Option<string>): (r': Run)
    ensures r'.state == r.state && r'.history == r.history && r'.workflowId == r.workflowId
    ensures r'.workflow.status == r.workflow.status && r'.workflow.currentState == r.workflow.currentState
    ensures r'.workflow.retries == r.workflow.retries && r'.clock >= r.clock
  {
    match h
    case OnStateEnter =>
      if r.workflow.startedAt.None? then
        var now := r.clock + 1;
        r.(clock := now, workflow := r.workflow.(startedAt := Some(now), updatedAt := now))
      else r
    case OnComplete =>
      var now := r.clock + 1;
      r.(clock := now, workflow := r.workflow.(completedAt := Some(now), updatedAt := now))
    case OnFail =>
      var now := r.clock + 1;
      r.(clock := now, workflow := r.workflow.(completedAt := Some(now), errorMessage := Some(error.GetOr("Unknown error")), updatedAt := now))
    case OnCancel =>
      var now := r.clock + 1;
      r.(clock := now, workflow := r.workflow.(completedAt := Some(now), updatedAt := now))
  }

  /** The transition row `_log_transition` writes for a step from `src` to `dest` by `t`. */
  function RecordOf(r: Run, src: WorkflowStatus, dest: WorkflowStatus, t: Trigger, at: nat): WorkflowTransition {
    WorkflowTransition(r.workflowId, StatusValue(src), StatusValue(dest), Some(TriggerName(t)), at)
  }

  /** `_log_transition`: append the transition row, then write `status` and `current_state`. */
  function LogTransition(r: Run, src: WorkflowStatus, dest: WorkflowStatus, t: Trigger): (r': Run)
    ensures r'.history == r.history + [RecordOf(r, src, dest, t, r.clock + 1)]
    ensures r'.workflow.status == dest && StatusMirrored(r'.workflow)
    ensures r'.clock > r.clock + 1
  {
    var created := r.clock + 1;
    var updated := r.clock + 2;
    r.(clock := updated,
       history := r.history + [RecordOf(r, src, dest, t, created)],
       workflow := r.workflow.(status := dest, currentState := StatusValue(dest), updatedAt := updated))
  }

  /**
   * `str(e)` of the error the machine raises for a trigger the current state does not admit:
   * the machine's message, which the library renders through `repr`, so inside double quotes.
   */
  function InvalidTransitionMessage(t: Trigger, s: WorkflowStatus): string {
    "\"Can't trigger event " + TriggerName(t) + " from state " + StatusValue(s) + "!\""
  }

  /**
   * Calling trigger `t` with keyword argument `error`: refused triggers raise and change
   * nothing; an accepted one runs its before-callback, moves the machine, then its after-callback.
   */
  function Apply(r: Run, t: Trigger, error: Option<string>): (res: Result<Run>)
    ensures res.Err? <==> Fire(r.state, t).None?
    ensures res.Err? ==> res.error == InvalidTransitionMessage(t, r.state)
    ensures res.Ok? ==> res.value.state == Fire(r.state, t).value && res.value.workflowId == r.workflowId
    ensures res.Ok? ==> res.value.workflow.retries == r.workflow.retries && res.value.clock >= r.clock
  {
    match FindTransition(Transitions, t, r.state, 0)
    case None => Err(InvalidTransitionMessage(t, r.state))
    case Some(d) =>
      var r1 := if d.before.Some? then RunBefore(d.before.value, r, error) else r;
      var r2 := r1.(state := d.dest);
      Ok(if d.logged then LogTransition(r2, r.state, d.dest, t) else r2)
  }

  /**
   * Every accepted trigger except `retry` appends exactly one row (source, destination,
   * trigger name, stamped after every earlier time) and leaves `status` and `current_state`
   * equal to the new state.
   */
  lemma ApplyLogsOneRecord(r: Run, t: Trigger, error: Option<string>)
    requires t != Retry && Apply(r, t, error).Ok?
    ensures var r' := Apply(r, t, error).value;
      && |r'.history| == |r.history| + 1
      && r'.history[..|r.history|] == r.history
      && r'.history[|r.history|].fromState == StatusValue(r.state)
      && r'.history[|r.history|].toState == StatusValue(r'.state)
      && r'.history[|r.history|].trigger == Some(TriggerName(t))
      && r'.history[|r.history|].workflowId == r.workflowId
      && r.clock < r'.history[|r.history|].createdAt <= r'.clock
      && r'.workflow.status == r'.state && StatusMirrored(r'.workflow)
  {
    FireTable(r.state, t);
    var d := FindTransition(Transitions, t, r.state, 0).value;
    assert d.logged;
  }

  /**
   * `retry` carries no callbacks: it moves only the machine to INIT. No row is written, and
   * the workflow row (status, `retries`, error text, timestamps) stays exactly as it was.
   */
  lemma RetryMovesOnlyTheMachine(r: Run, error: Option<string>)
    requires r.state == FAILED
    ensures Apply(r, Retry, error) == Ok(r.(state := INIT))
  {
    FireTable(r.state, Retry);
  }

  /**
   * `started_at` is stamped by the first of prepare/execute/validate that finds it empty and is
   * never overwritten; `completed_at` is stamped by complete, fail and cancel; `fail` records
   * its error text, "Unknown error" without one; no other trigger touches the error text.
   */
  lemma ApplyStampsTimes(r: Run, t: Trigger, error: Option<string>)
    requires Apply(r, t, error).Ok?
    ensures r.workflow.startedAt.Some? ==> Apply(r, t, error).value.workflow.startedAt == r.workflow.startedAt
    ensures r.workflow.startedAt.None? ==>
      (Apply(r, t, error).value.workflow.startedAt.Some? <==> t.Prepare? || t.Execute? || t.Validate?)
    ensures t.Complete? || t.Fail? || t.Cancel? ==>
      Apply(r, t, error).value.workflow.completedAt.Some? && Apply(r, t, error).value.workflow.completedAt.value > r.clock
    ensures !(t.Complete? || t.Fail? || t.Cancel?) ==> Apply(r, t, error).value.workflow.completedAt == r.workflow.completedAt
    ensures t.Fail? ==> Apply(r, t, error).value.workflow.errorMessage == Some(error.GetOr("Unknown error"))
    ensures !t.Fail? ==> Apply(r, t, error).value.workflow.errorMessage == r.workflow.errorMessage
  {
    ApplyIsWired(r, t, error);
    WiredStampsTimes(r, t, error);
  }

  /** The stamping of `started_at`, `completed_at` and the error text, on the per-trigger wiring. */
  lemma WiredStampsTimes(r: Run, t: Trigger, error: Option<string>)
    ensures var w' := Wired(r, t, error).workflow;
      && (r.workflow.startedAt.Some? ==> w'.startedAt == r.workflow.startedAt)
      && (r.workflow.startedAt.None? ==> (w'.startedAt.Some? <==> t.Prepare? || t.Execute? || t.Validate?))
      && (t.Complete? || t.Fail? || t.Cancel? ==> w'.completedAt.Some? && w'.completedAt.value > r.clock)
      && (!(t.Complete? || t.Fail? || t.Cancel?) ==> w'.completedAt == r.workflow.completedAt)
      && (t.Fail? ==> w'.errorMessage == Some(error.GetOr("Unknown error")))
      && (!t.Fail? ==> w'.errorMessage == r.workflow.errorMessage)
  {
  }

  /**
   * The callbacks each trigger is wired to, written per trigger rather than read from the
   * table: the hook before, then `_log_transition` after, except for `retry`.
   */
  function Wired(r: Run, t: Trigger, error: Option<string>): Run {
    match t
    case Prepare => LogTransition(RunBefore(OnStateEnter, r, error).(state := PREPARE), r.state, PREPARE, Prepare)
    case Execute => LogTransition(RunBefore(OnStateEnter, r, error).(state := EXECUTE), r.state, EXECUTE, Execute)
    case Validate => LogTransition(RunBefore(OnStateEnter, r, error).(state := VALIDATE), r.state, VALIDATE, Validate)
    case Complete => LogTransition(RunBefore(OnComplete, r, error).(state := COMPLETE), r.state, COMPLETE, Complete)
    case Fail => LogTransition(RunBefore(OnFail, r, error).(state := FAILED), r.state, FAILED, Fail)
    case Cancel => LogTransition(RunBefore(OnCancel, r, error).(state := CANCELLED), r.state, CANCELLED, Cancel)
    case Retry => r.(state := INIT)
  }

  /** Whatever the table-driven machine accepts, it does exactly what the per-trigger wiring says. */
  lemma ApplyIsWired(r: Run, t: Trigger, error: Option<string>)
    ensures Apply(r, t, error).Ok? ==> Apply(r, t, error).value == Wired(r, t, error)
  {
    FireTable(r.state, t);
    EntryFound(r.state, t);
  }

  /** A transition row that records a step the table declares and logs. */
  predicate DeclaredStep(rec: WorkflowTransition) {
    var src := StatusFromValue(rec.fromState);
    var t := if rec.trigger.Some? then TriggerNamed(rec.trigger.value) else None;
    && src.Some? && t.Some? && t.value != Retry
    && Fire(src.value, t.value).Some?
    && rec.toState == StatusValue(Fire(src.value, t.value).value)
  }

  /**
   * The transition rows of one workflow as the orchestrator keeps them: each belongs to
   * workflow `wid`, records a declared step, and rows are stamped in strictly increasing order
   * no later than `clock`.
   */
  predicate HistoryOk(h: seq<WorkflowTransition>, wid: nat, clock: nat) {
    && Chronological(h)
    && (forall i :: 0 <= i < |h| ==> h[i].createdAt <= clock)
    && (forall i :: 0 <= i < |h| ==> h[i].workflowId == wid && DeclaredStep(h[i]))
  }

  /** Appending a declared row of the same workflow stamped after `clock` keeps the history well formed. */
  lemma {:induction false} HistoryGrows(h: seq<WorkflowTransition>, rec: WorkflowTransition, wid: nat, clock: nat, clock': nat)
    requires HistoryOk(h, wid, clock)
    requires clock < rec.createdAt <= clock' && rec.workflowId == wid && DeclaredStep(rec)
    ensures HistoryOk(h + [rec], wid, clock')
  {
    var h' := h + [rec];
    forall i | 0 <= i < |h'|
      ensures h'[i].createdAt <= clock' && h'[i].workflowId == wid && DeclaredStep(h'[i])
    {
      if i < |h| { assert h'[i] == h[i]; }
    }
    forall i, j | 0 <= i < j < |h'| ensures h'[i].createdAt < h'[j].createdAt {
      assert h'[i] == h[i];
      if j < |h| { assert h'[j] == h[j]; }
    }
  }

  /** The row logged for an accepted, logged trigger records a declared step. */
  lemma RecordIsDeclared(rec: WorkflowTransition, s: WorkflowStatus, t: Trigger)
    requires t != Retry && Fire(s, t).Some?
    requires rec.fromState == StatusValue(s) && rec.toState == StatusValue(Fire(s, t).value)
    requires rec.trigger == Some(TriggerName(t))
    ensures DeclaredStep(rec)
  {
    MachineStatesAreStatusValues();
    TriggerNamesRoundTrip(t);
  }

  /**
   * What holds of a run between transitions: `status` mirrors `current_state`; the machine
   * agrees with `status`, except that after a `retry` the machine is at INIT while the row still
   * says FAILED; and the history is well formed up to the clock.
   */
  predicate RunInvariant(r: Run) {
    && StatusMirrored(r.workflow)
    && (r.state == r.workflow.status || (r.state == INIT && r.workflow.status == FAILED))
    && HistoryOk(r.history, r.workflowId, r.clock)
  }

  /** Every accepted trigger keeps the run invariant. */
  lemma ApplyKeepsInvariant(r: Run, t: Trigger, error: Option<string>)
    requires RunInvariant(r) && Apply(r, t, error).Ok?
    ensures RunInvariant(Apply(r, t, error).value)
  {
    if t == Retry {
      FireTable(r.state, t);
      RetryMovesOnlyTheMachine(r, error);
    } else {
      LoggedStepKeepsInvariant(r, t, error);
    }
  }

  /** The invariant across a logged step: the row appended is declared and stamped in order. */
  lemma LoggedStepKeepsInvariant(r: Run, t: Trigger, error: Option<string>)
    requires RunInvariant(r) && t != Retry && Apply(r, t, error).Ok?
    ensures RunInvariant(Apply(r, t, error).value)
  {
    var r' := Apply(r, t, error).value;
    ApplyLogsOneRecord(r, t, error);
    var n := |r.history|;
    var rec := r'.history[n];
    assert r'.history == r.history + [rec] by {
      assert r'.history == r'.history[..n] + [rec];
    }
    RecordIsDeclared(rec, r.state, t);
    HistoryGrows(r.history, rec, r.workflowId, r.clock, r'.clock);
  }
}
