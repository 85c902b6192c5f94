/** Record builders for steps (run/record/step.go). */
module StepRecords {
  import opened Types
  import History
  import RunRecords

  function StepTimeoutTimer(d: Directive, inp: Inputs): Result<Timer> {
    if !d.msg.Dispatchable() then Err(WrongMessage)
    else
      var timeout := if d.msg.DispatchTimeout() == 0 then inp.stepTimeoutMS else d.msg.DispatchTimeout();
      Ok(Timer(TimerID(StepTimer, d.id), StepTimer, d.runInfo.wfID, inp.now, inp.now + timeout, d.msg.DispatchName(),
        d))
  }

  /** The directive as it is dispatched: history boundary and start time filled in from the state. */
  function Filled(d: Directive, state: RunState): Directive {
    var seqID := if d.runInfo.historySeqID == 0 then state.seqID else d.runInfo.historySeqID;
    var startedAt := if d.runInfo.startedAt.None? then state.startedAt else d.runInfo.startedAt;
    d.(runInfo := d.runInfo.(historySeqID := seqID, startedAt := startedAt))
  }

  function Cursor(d: Directive, state: RunState): nat {
    if d.msg.EventMsg? && d.msg.eventSeqID.Some? then d.msg.eventSeqID.value else state.lastEventSeqID
  }

  /** Timer, run info, dispatch and state for entering a step, in that order. */
  function EnterStep(d: Directive, state: RunState, cursor: nat, inp: Inputs): Result<seq<Record>> {
    var d := Filled(d, state);
    var timer :- StepTimeoutTimer(d, inp);
    var ri := d.runInfo.StartStep(d.timestamp);
    Ok([TimerRecord(timer), RunInfoRecord(ri), WorkerTaskDispatch(d.(runInfo := ri)),
        RunStateRecord(state.(kind := StepState, enteredAt := inp.now, activeDirectiveID := d.id,
          lastEventSeqID := cursor),
                       state.seqID)])
  }

  function StepStart(d: Directive, state: RunState, inp: Inputs): Result<seq<Record>> {
    if !d.msg.Dispatchable() then Err(WrongMessage)
    else EnterStep(d, state, if d.kind == EventKind then Cursor(d, state) else state.lastEventSeqID, inp)
  }

  function StepPickedUp(d: Directive, state: RunState): Result<seq<Record>> {
    var h :- History.ForStepPickedUp(d);
    Ok([HistoryRecord(h), RunStateRecord(state.(workerID := Some(d.msg.workerID)), state.seqID)])
  }

  function KVUpdate(d: Directive): seq<Record>
    requires d.msg.StepResultMsg?
  {
    if d.msg.kvUpdates.None? then [] else [KVRecord(d.runInfo.wfID, d.runInfo.id, d.msg.kvUpdates.value)]
  }

  function DeleteStepTimeoutTimer(d: Directive, state: RunState): Record {
    RunRecords.Task(DeleteTimerTask, d.id,
                    DeleteTimerPayload(d.runInfo.wfID, StepTimer, TimerID(StepTimer, state.activeDirectiveID)))
  }

  function StepComplete(d: Directive, state: RunState, now: Time): Result<seq<Record>> {
    if !d.msg.StepResultMsg? then Err(WrongMessage)
    else
      var h :- History.ForStepComplete(d.msg, d.runInfo, now);
      Ok(KVUpdate(d) + [HistoryRecord(h), DeleteStepTimeoutTimer(d, state)])
  }

  function StepFail(d: Directive, state: RunState, now: Time): Result<seq<Record>> {
    if !d.msg.StepResultMsg? || !d.msg.nextMsg.FailStepMsg? then Err(WrongMessage)
    else
      var h :- History.ForStepFail(d.msg, d.runInfo, now);
      Ok(KVUpdate(d) + [HistoryRecord(h), DeleteStepTimeoutTimer(d, state)])
  }

  function StepTimeout(d: Directive, state: RunState, inp: Inputs): Result<seq<Record>> {
    if !d.msg.StepTimeoutMsg? then Err(WrongMessage)
    else if state.kind != StepState || state.activeDirectiveID != d.msg.original then Err(StaleDirective)
    else
      var error := ErrorDetails("StepTimeout", "step " + d.msg.stepName + " timed out");
      Prepend([HistoryRecord(History.ForStepTimeout(d, state, inp.now))],
              RunRecords.FailRun(RunRecords.FailDirective(inp.newID, inp.now, d, error), state, inp.now))
  }
}
