/** History event builders (run/history/history.go). */
module History {
  import opened Types

  function Event(ri: RunInfo, timestamp: Time, msg: HistoryMsg): HistoryEvent {
    HistoryEvent(ri.wfID, ri.id, "", timestamp, msg)
  }

  function ForStart(d: Directive, timestamp: Time): Result<HistoryEvent> {
    if !d.msg.StartMsg? then Err(WrongMessage)
    else Ok(Event(d.runInfo, timestamp, RunStarted(d.msg.input)))
  }

  // The four builders below subtract the start time; only ForTerminate checks that there is one.

  function ForComplete(d: Directive): Result<HistoryEvent> {
    if !d.msg.CompleteMsg? then Err(WrongMessage)
    else if d.runInfo.startedAt.None? then Panic
    else Ok(Event(d.runInfo, d.timestamp, RunCompleted(d.msg.result, d.timestamp - d.runInfo.startedAt.value)))
  }

  function ForFail(d: Directive): Result<HistoryEvent> {
    if !d.msg.FailMsg? then Err(WrongMessage)
    else if d.runInfo.startedAt.None? then Panic
    else Ok(Event(d.runInfo, d.timestamp, RunFailed(d.msg.error, d.timestamp - d.runInfo.startedAt.value)))
  }

  function ForCancel(d: Directive): Result<HistoryEvent> {
    if !d.msg.CancelMsg? then Err(WrongMessage)
    else if d.runInfo.startedAt.None? then Panic
    else Ok(Event(d.runInfo, d.timestamp, RunCancelled(d.msg.reason, d.timestamp - d.runInfo.startedAt.value)))
  }

  function ForTerminate(d: Directive): Result<HistoryEvent> {
    if !d.msg.TerminateMsg? then Err(WrongMessage)
    else
      var duration := if d.runInfo.startedAt.Some? then d.timestamp - d.runInfo.startedAt.value else 0;
      Ok(Event(d.runInfo, d.timestamp, RunTerminated(d.msg.reason, duration)))
  }

  function ForCancelReceived(d: Directive): Result<HistoryEvent> {
    if !d.msg.CancelMsg? then Err(WrongMessage)
    else Ok(Event(d.runInfo, d.timestamp, RunCancelReceived))
  }

  function ForStepPickedUp(d: Directive): Result<HistoryEvent> {
    if !d.msg.StepPickedUpMsg? then Err(WrongMessage)
    else Ok(HistoryEvent(d.runInfo.wfID, d.runInfo.id, d.msg.workerID, d.msg.timestamp, StepStarted(d.msg.stepName)))
  }

  function ForStepComplete(msg: Msg, ri: RunInfo, now: Time): Result<HistoryEvent>
    requires msg.StepResultMsg?
  {
    if !msg.processed.Dispatchable() then Err(WrongMessage)
    else
      var worker := if msg.workerID_.Some? then msg.workerID_.value else "";
      Ok(HistoryEvent(ri.wfID, ri.id, worker, now, StepCompleted(msg.processed.DispatchName(), msg.durationMS)))
  }

  function ForStepFail(msg: Msg, ri: RunInfo, now: Time): Result<HistoryEvent>
    requires msg.StepResultMsg?
  {
    if !msg.processed.Dispatchable() || !msg.nextMsg.FailStepMsg? then Err(WrongMessage)
    else Ok(Event(ri, now, StepFailed(msg.processed.DispatchName(), msg.nextMsg.error, msg.durationMS)))
  }

  function ForStepTimeout(d: Directive, state: RunState, now: Time): HistoryEvent
    requires d.msg.StepTimeoutMsg?
  {
    Event(d.runInfo, now, StepTimedOut(d.msg.stepName, now - state.enteredAt))
  }

  function ForWaitTimeout(d: Directive, now: Time): HistoryEvent
    requires d.msg.WaitTimeoutMsg?
  {
    Event(d.runInfo, now, WaitTimedOut(d.msg.original, d.msg.timeoutStepName))
  }

  function ForWait(d: Directive, now: Time): Result<HistoryEvent> {
    if !d.msg.WaitMsg? then Err(WrongMessage)
    else Ok(Event(d.runInfo, now, WaitStarted(d.id, d.msg.timeout, d.msg.timeoutStepName)))
  }

  function ForEvent(d: Directive, now: Time): Result<HistoryEvent> {
    if !d.msg.EventMsg? then Err(WrongMessage)
    else Ok(Event(d.runInfo, now, EventReceived(d.msg.eventName, d.msg.payload)))
  }
}
