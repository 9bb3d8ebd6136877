// The orchestrator's event queue and the loop that consumes it. An event names a trigger and
// may carry the `error` keyword argument. Each iteration of the loop takes the oldest event and
// calls the trigger it names. A name that is no trigger is dropped, and a trigger the machine
// refuses is turned into one `fail` event, carrying the error text, at the back of the queue.

module Events {
  import opened Wrappers
  import opened Models
  import opened Engine

  /** A queued event: the trigger name and the optional `error` keyword argument. */
  datatype Event = Event(name: string, error: Option<string>)

  /** The event `advance_to_next_state` emits: the bare trigger name. */
  function TriggerEvent(t: Trigger): Event {
    Event(TriggerName(t), None)
  }

  /** `emit_event('fail', error=...)`. */
  function FailEvent(error: string): Event {
    Event("fail", Some(error))
  }

  /** The run together with the events still waiting in its queue. */
  datatype Loop = Loop(run: Run, queue: seq<Event>)

  /**
   * One iteration of `process_events`. With an empty queue the wait times out and nothing
   * changes. Otherwise the oldest event leaves the queue and: an unknown name is dropped; an
   * accepted trigger advances the run; a refused one leaves the run alone and queues one `fail`
   * event carrying the error text.
   */
  function Step(l: Loop): (l': Loop)
    ensures l'.run.workflowId == l.run.workflowId
    ensures |l.queue| == 0 ==> l' == l
    ensures |l.queue| > 0 ==> |l.queue| - 1 <= |l'.queue| <= |l.queue| && l'.queue[..|l.queue| - 1] == l.queue[1..]
    ensures |l.queue| > 0 && |l'.queue| == |l.queue| ==> l'.run == l.run && l'.queue[|l.queue| - 1].name == "fail"
  {
    if |l.queue| == 0 then l
    else
      var e := l.queue[0];
      match TriggerNamed(e.name)
      case None => Loop(l.run, l.queue[1..])
      case Some(t) =>
        match Apply(l.run, t, e.error)
        case Ok(r') => Loop(r', l.queue[1..])
        case Err(msg) => Loop(l.run, l.queue[1..] + [FailEvent(msg)])
  }

  /** `n` iterations of `process_events`, oldest event first. */
  function Drain(l: Loop, n: nat): (l': Loop)
    ensures l'.run.workflowId == l.run.workflowId
    ensures |l'.queue| <= |l.queue|
    ensures |l.queue| == 0 ==> l' == l
    decreases n
  {
    if n == 0 then l else Drain(Step(l), n - 1)
  }

  /** One more iteration after `n` of them is `n + 1` iterations. */
  lemma {:induction false} DrainOneMore(l: Loop, n: nat)
    ensures Drain(l, n + 1) == Step(Drain(l, n))
    decreases n
  {
    if n > 0 {
      var m := n - 1;
      DrainOneMore(Step(l), m);
      assert m + 1 == n;
      DrainOneMoreStep(l, m);
    }
  }

  /** The induction step of `DrainOneMore`, with every count written as the same term. */
  lemma DrainOneMoreStep(l: Loop, m: nat)
    requires Drain(Step(l), m + 1) == Step(Drain(Step(l), m))
    ensures Drain(l, m + 2) == Step(Drain(l, m + 1))
  {
    assert Drain(l, m + 2) == Drain(Step(l), m + 1);
    assert Drain(l, m + 1) == Drain(Step(l), m);
  }

  /**
   * The run after applying `q` in order, as the loop would, provided no trigger in it is
   * refused; unknown names are skipped.
   */
  function Replay(r: Run, q: seq<Event>): Option<Run>
    decreases |q|
  {
    if |q| == 0 then Some(r)
    else
      match TriggerNamed(q[0].name)
      case None => Replay(r, q[1..])
      case Some(t) =>
        match Apply(r, t, q[0].error)
        case Ok(r') => Replay(r', q[1..])
        case Err(_) => None
  }

  /**
   * The queue is first in, first out: `|q|` iterations consume exactly the events of `q`, in
   * order, and leave the events queued after them untouched.
   */
  lemma {:induction false} DrainReplays(r: Run, q: seq<Event>, rest: seq<Event>)
    requires Replay(r, q).Some?
    ensures Drain(Loop(r, q + rest), |q|) == Loop(Replay(r, q).value, rest)
    decreases |q|
  {
    if |q| > 0 {
      assert (q + rest)[0] == q[0];
      assert (q + rest)[1..] == q[1..] + rest;
      var l1 := Step(Loop(r, q + rest));
      match TriggerNamed(q[0].name)
      case None =>
        assert l1 == Loop(r, q[1..] + rest);
        DrainReplays(r, q[1..], rest);
      case Some(t) =>
        var r1 := Apply(r, t, q[0].error).value;
        assert l1 == Loop(r1, q[1..] + rest);
        DrainReplays(r1, q[1..], rest);
    }
  }

  /** A single event naming trigger `t`, accepted in the current state, is applied by one iteration. */
  lemma DrainOneTrigger(r: Run, t: Trigger, error: Option<string>)
    requires Fire(r.state, t).Some?
    ensures Drain(Loop(r, [Event(TriggerName(t), error)]), 1) == Loop(Apply(r, t, error).value, [])
  {
    TriggerNamesRoundTrip(t);
    var q := [Event(TriggerName(t), error)];
    assert Replay(r, q) == Replay(Apply(r, t, error).value, []);
    DrainReplays(r, q, []);
    assert q + [] == q;
  }

  /** Every event in the queue is a `fail` event. */
  predicate OnlyFailEvents(q: seq<Event>) {
    forall i :: 0 <= i < |q| ==> q[i].name == "fail"
  }

  /**
   * Once the run has left INIT..VALIDATE, `fail` is refused, and each refusal queues another
   * `fail`: a queue of fail events never shrinks and the run never changes, however long the
   * loop runs. Only clearing `_running` ends it.
   */
  lemma {:induction false} TerminalFailLivelock(l: Loop, n: nat)
    requires l.run.state !in InProgress && OnlyFailEvents(l.queue)
    ensures Drain(l, n).run == l.run
    ensures |Drain(l, n).queue| == |l.queue| && OnlyFailEvents(Drain(l, n).queue)
    decreases n
  {
    if n > 0 && |l.queue| > 0 {
      FireTable(l.run.state, Fail);
      assert TriggerNamed(l.queue[0].name) == Some(Fail);
      var l1 := Step(l);
      assert l1 == Loop(l.run, l.queue[1..] + [FailEvent(InvalidTransitionMessage(Fail, l.run.state))]);
      assert OnlyFailEvents(l1.queue) by {
        forall i | 0 <= i < |l1.queue| ensures l1.queue[i].name == "fail" {
          if i < |l.queue| - 1 { assert l1.queue[i] == l.queue[i + 1]; }
        }
      }
      TerminalFailLivelock(l1, n - 1);
    }
  }

  /** A refused trigger costs exactly one `fail` event, carrying the machine's error text. */
  lemma RefusedTriggerQueuesOneFail(l: Loop, t: Trigger)
    requires |l.queue| > 0 && TriggerNamed(l.queue[0].name) == Some(t) && Fire(l.run.state, t).None?
    ensures Step(l) == Loop(l.run, l.queue[1..] + [FailEvent(InvalidTransitionMessage(t, l.run.state))])
  {
  }

  /** The loop keeps the run invariant, whatever the queue holds. */
  lemma DrainKeepsInvariant(l: Loop, n: nat)
    requires RunInvariant(l.run)
    ensures RunInvariant(Drain(l, n).run)
  {
    var x := l;
    var k := 0;
    while k < n
      invariant k <= n && x == Drain(l, k) && RunInvariant(x.run)
    {
      DrainOneMore(l, k);
      StepKeepsInvariant(x);
      x := Step(x);
      k := k + 1;
    }
  }

  /** One iteration keeps the run invariant. */
  lemma StepKeepsInvariant(l: Loop)
    requires RunInvariant(l.run)
    ensures RunInvariant(Step(l).run)
  {
    if |l.queue| > 0 {
      match TriggerNamed(l.queue[0].name)
      case None =>
      case Some(t) =>
        if Apply(l.run, t, l.queue[0].error).Ok? {
          ApplyKeepsInvariant(l.run, t, l.queue[0].error);
        }
    }
  }
}
