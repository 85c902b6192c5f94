/** In every planned batch the run state comes before the messages that carry an ID, other than the deletion
    of a step timer: a batch planned from an old state is turned down for that before a repeated ID is noticed. */
module BatchOrder {
  import opened Types
  import opened Wire
  import opened Planner
  import RunRecords
  import StepRecords
  import InboxRecords

  predicate Neutral(records: seq<Record>) {
    forall r :: r in records ==> !r.RunStateRecord? && !Trailing(r)
  }

  lemma {:induction false} LedAfter(front: seq<Record>, rest: seq<Record>)
    requires Neutral(front) && Led(rest)
    ensures Led(front + rest)
  {
    if front == [] {
      assert front + rest == rest;
    } else {
      assert front[0] in front && (front + rest)[1..] == front[1..] + rest;
      LedAfter(front[1..], rest);
    }
  }

  lemma LedByState(front: seq<Record>, state: Record, more: seq<Record>)
    requires Neutral(front) && state.RunStateRecord?
    ensures Led(front + [state] + more)
  {
    assert ([state] + more)[0] == state;
    LedAfter(front, [state] + more);
    assert front + [state] + more == front + ([state] + more);
  }

  predicate LedResult(r: Result<seq<Record>>) {
    r.Ok? ==> Led(r.value)
  }

  lemma LedPrepend(front: seq<Record>, rest: Result<seq<Record>>)
    requires Neutral(front) && LedResult(rest)
    ensures LedResult(Prepend(front, rest))
  {
    if rest.Ok? { LedAfter(front, rest.value); }
  }

  lemma EndRunLed(info: RunInfo, h: HistoryEvent, state: Record, outcome: seq<Record>, worker: seq<Record>,
    callback: seq<Record>, purge: Record)
    requires state.RunStateRecord?
    ensures Led(RunRecords.EndRun(info, h, state, outcome, worker, callback, purge))
  {
    hide Led;
    var front, more := [RunInfoRecord(info), HistoryRecord(h)], outcome + worker + callback + [purge];
    LedByState(front, state, more);
    assert RunRecords.EndRun(info, h, state, outcome, worker, callback, purge) == front + [state] + more;
  }

  lemma EndingsLed(d: Directive, state: RunState, now: Time)
    ensures LedResult(RunRecords.CompleteRun(d, state, now)) && LedResult(RunRecords.TerminateRun(d, state, now))
    ensures LedResult(RunRecords.CancelRun(d, state, now)) && LedResult(RunRecords.FailRun(d, state, now))
  {
    hide Led, RunRecords.EndRun;
    forall info, h, s: Record, outcome, worker, callback, purge
      ensures s.RunStateRecord? ==> Led(RunRecords.EndRun(info, h, s, outcome, worker, callback, purge))
    {
      if s.RunStateRecord? { EndRunLed(info, h, s, outcome, worker, callback, purge); }
    }
  }

  lemma EnterStepLed(d: Directive, state: RunState, cursor: nat, inp: Inputs)
    ensures LedResult(StepRecords.EnterStep(d, state, cursor, inp))
  {
    hide Led;
    var r := StepRecords.EnterStep(d, state, cursor, inp);
    if r.Ok? {
      LedByState(r.value[..3], r.value[3], []);
      assert r.value == r.value[..3] + [r.value[3]] + [];
    }
  }

  lemma StaysLed(d: Directive, state: RunState)
    ensures LedResult(RunRecords.CancelReceived(d, state)) && LedResult(StepRecords.StepPickedUp(d, state))
  {
    hide Led;
    var a, b := RunRecords.CancelReceived(d, state), StepRecords.StepPickedUp(d, state);
    if a.Ok? {
      LedByState(a.value[..1], a.value[1], []);
      assert a.value == a.value[..1] + [a.value[1]] + [];
    }
    if b.Ok? {
      LedByState(b.value[..1], b.value[1], []);
      assert b.value == b.value[..1] + [b.value[1]] + [];
    }
  }

  lemma InboxLed(d: Directive, sn: StateSnapshot, inp: Inputs)
    ensures LedResult(InboxRecords.Wait(d, sn, inp))
  {
    hide Led;
    var r := InboxRecords.Wait(d, sn, inp);
    if r.Ok? {
      LedByState(r.value[..3], r.value[3], r.value[4..]);
      assert r.value == r.value[..3] + [r.value[3]] + r.value[4..];
    }
  }

  lemma EventLed(d: Directive, sn: StateSnapshot, inp: Inputs)
    ensures LedResult(InboxRecords.EventReceived(d, sn, inp))
  {
    hide Led;
    var r := InboxRecords.EventReceived(d, sn, inp);
    if r.Ok? { NoStateLed(r.value); }
  }

  lemma {:induction false} NoStateLed(records: seq<Record>)
    requires forall r :: r in records ==> !r.RunStateRecord?
    ensures Led(records)
  {
    if records != [] { NoStateLed(records[1..]); }
  }

  lemma TimeoutsLed(d: Directive, state: RunState, inp: Inputs)
    ensures LedResult(StepRecords.StepTimeout(d, state, inp)) && LedResult(InboxRecords.WaitTimeout(d, state, inp))
  {
    hide Led, RunRecords.FailRun, StepRecords.EnterStep, Prepend;
    forall h: HistoryEvent, rest ensures LedResult(rest) ==> LedResult(Prepend([HistoryRecord(h)], rest)) {
      if LedResult(rest) { LedPrepend([HistoryRecord(h)], rest); }
    }
    forall d', now ensures LedResult(RunRecords.FailRun(d', state, now)) { EndingsLed(d', state, now); }
    forall d', cursor
      ensures LedResult(StepRecords.EnterStep(d', state, cursor, inp))
    {
      EnterStepLed(d', state, cursor, inp);
    }
  }

  lemma TransitionLed(d: Directive, sn: StateSnapshot, inp: Inputs)
    ensures LedResult(Transition(d, sn, inp))
  {
    hide LedResult, StepRecords.EnterStep, StepRecords.StepTimeout, InboxRecords.WaitTimeout, InboxRecords.Wait;
    EndingsLed(d, sn.runState, inp.now);
    StaysLed(d, sn.runState);
    InboxLed(d, sn, inp);
    TimeoutsLed(d, sn.runState, inp);
    forall cursor
      ensures LedResult(StepRecords.EnterStep(d, sn.runState, cursor, inp))
    {
      EnterStepLed(d, sn.runState, cursor, inp);
    }
    ErrLed(WrongMessage);
    ErrLed(UnknownDirectiveKind);
  }

  lemma ErrLed(error: PlanError)
    ensures LedResult(Err(error))
  {
  }

  lemma ResultLed(d: Directive, sn: StateSnapshot, inp: Inputs)
    ensures LedResult(FromStepResult(d, sn, inp))
  {
    hide Led, Transition, RunRecords.FailRun, RunRecords.CancelRun, Prepend;
    if d.msg.StepResultMsg? {
      var nextD := NextDirective(d, sn.lastHistorySeqID, inp.now);
      var failed := StepRecords.StepFail(d, sn.runState, inp.now);
      var completed := StepRecords.StepComplete(d, sn.runState, inp.now);
      if nextD.kind == FailStepKind {
        if nextD.msg.FailStepMsg? && failed.Ok? {
          var failD := RunRecords.FailDirective(nextD.id, nextD.timestamp, nextD, nextD.msg.error);
          EndingsLed(failD, sn.runState, inp.now);
          LedPrepend(failed.value, RunRecords.FailRun(failD, sn.runState, inp.now));
        }
      } else if completed.Ok? {
        if sn.runState.pendingCancel.Some? {
          EndingsLed(sn.runState.pendingCancel.value, sn.runState, inp.now);
          LedPrepend(completed.value, RunRecords.CancelRun(sn.runState.pendingCancel.value, sn.runState, inp.now));
        } else {
          TransitionLed(nextD, sn, inp);
          LedPrepend(completed.value, Transition(nextD, sn, inp));
        }
      }
    }
  }

  lemma StartLed(d: Directive, inp: Inputs)
    ensures LedResult(FromRunStart(d, inp))
  {
    hide Led;
    var d' := d.(runInfo := d.runInfo.Start(inp.now));
    var state := NewRunState(d', StartState, inp.now).(startedAt := d'.runInfo.startedAt);
    var start, rest := RunRecords.Start(d'), StepRecords.StepStart(d', state, inp);
    if start.Ok? && rest.Ok? {
      LedByState(start.value, RunStateRecord(state, 0), rest.value);
    }
  }

  lemma PlanLed(d: Directive, sn: StateSnapshot, inp: Inputs)
    ensures LedResult(Plan(d, sn, inp))
  {
    hide FromRunStart, FromStepResult, Transition, RunRecords.CancelRun, RunRecords.CancelReceived,
      InboxRecords.EventReceived;
    StartLed(d, inp);
    ResultLed(d, sn, inp);
    EndingsLed(d, sn.runState, inp.now);
    StaysLed(d, sn.runState);
    EventLed(d, sn, inp);
    TransitionLed(d, sn, inp);
    if sn.event.Some? { TransitionLed(sn.event.value, sn, inp); }
  }

  /** Whatever a handler decides to write has its run state up front. */
  lemma DecisionLed(d: Directive, sn: StateSnapshot, inp: Inputs)
    ensures Decide(d, sn, inp).Write? ==> Led(Decide(d, sn, inp).batch)
  {
    hide Plan, Led, RunRecords.FailRun;
    PlanLed(d, sn, inp);
    var error := ErrorDetails("UnexpectedFailure", "An unexpected error occurred while processing a directive");
    EndingsLed(RunRecords.FailDirective(inp.newID, inp.now, d, error), sn.runState, inp.now);
  }
}
