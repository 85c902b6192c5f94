/** Record builders for waiting and for events (run/record/inbox.go). */
module InboxRecords {
  import opened Types
  import History
  import RunRecords
  import StepRecords

  function Wake(d: Directive, now: Time): Record {
    DirectiveRecord(Directive(Next(d.id), now, WakeFromInboxKind, d.runInfo, WakeFromInboxMsg))
  }

  function WaitTimeoutTimer(d: Directive, timeout: nat, timeoutStepName: string, now: Time): Timer {
    Timer(TimerID(WaitTimer, d.id), WaitTimer, d.runInfo.wfID, now, now + timeout, timeoutStepName, d)
  }

  function Wait(d: Directive, sn: StateSnapshot, inp: Inputs): Result<seq<Record>> {
    var h :- History.ForWait(d, inp.now);
    var timeout := if d.msg.timeout == 0 then inp.waitTimeoutMS else d.msg.timeout;
    var state := sn.runState;
    Ok([RunInfoRecord(d.runInfo.Wait()), HistoryRecord(h),
        TimerRecord(WaitTimeoutTimer(d, timeout, d.msg.timeoutStepName, inp.now)),
        RunStateRecord(state.(kind := WaitState, enteredAt := inp.now, activeDirectiveID := d.id), state.seqID)]
       + if sn.event.Some? then [Wake(d, inp.now)] else [])
  }

  function EventReceived(d: Directive, sn: StateSnapshot, inp: Inputs): Result<seq<Record>> {
    var h :- History.ForEvent(d, inp.now);
    Ok([InboxRecord(d), HistoryRecord(h)]
       + if sn.runState.kind == WaitState && sn.event.None? then [Wake(d, inp.now)] else [])
  }

  function EventStart(d: Directive, state: RunState, inp: Inputs): Result<seq<Record>> {
    if !d.msg.EventMsg? then Err(WrongMessage)
    else StepRecords.EnterStep(d, state, StepRecords.Cursor(d, state), inp)
  }

  function WaitTimeout(d: Directive, state: RunState, inp: Inputs): Result<seq<Record>> {
    if !d.msg.WaitTimeoutMsg? then Err(WrongMessage)
    else if state.kind != WaitState || state.activeDirectiveID != d.msg.original then Err(StaleDirective)
    else
      var h := HistoryRecord(History.ForWaitTimeout(d, inp.now));
      if d.msg.timeoutStepName != "" then
        var stepD := Directive(Next(d.id), inp.now, StepKind, d.runInfo, StepMsg(d.msg.timeoutStepName, 0));
        Prepend([h], StepRecords.StepStart(stepD, state, inp))
      else
        var error := ErrorDetails("WaitTimeout", "wait timed out without a timeout step");
        Prepend([h], RunRecords.FailRun(RunRecords.FailDirective(inp.newID, inp.now, d, error), state, inp.now))
  }
}
