/** Record builders for a run's start and for the ways it can end (run/record/run.go). */
module RunRecords {
  import opened Types
  import History

  function Task(kind: TaskKind, parent: DirectiveID, payload: TaskPayload): Record {
    BackgroundTaskRecord(BackgroundTask(kind, ForTask(kind, parent), payload))
  }

  function PurgeResidue(d: Directive): Record {
    Task(PurgeTask, d.id, PurgePayload(d.runInfo.wfID))
  }

  /** The background task that reports a child's outcome, present when the run has a parent and a callback step. */
  function ParentCallback(d: Directive, status: RunStatus, result: Option<Value>,
    error: Option<ErrorDetails>): seq<Record> {
    var ri := d.runInfo;
    if ri.parentWFID.None? || ri.parentCallbackStep.None? then []
    else [Task(NotifyTask, d.id,
               NotifyPayload(ri.parentWFID.value, ri.parentCallbackStep.value, ri.wfID, status, result, error))]
  }

  function WorkerTerminate(d: Directive, state: RunState): seq<Record> {
    if state.workerID.None? then []
    else [Task(WorkerTerminateTask, d.id, WorkerTerminatePayload(state.workerID.value, state.runID))]
  }

  function Ended(state: RunState, kind: RunStateKind, now: Time): Record {
    RunStateRecord(state.(kind := kind, enteredAt := now, activeDirectiveID := NO_ID), state.seqID)
  }

  /** `d` already carries the started run info. */
  function Start(d: Directive): Result<seq<Record>> {
    if d.runInfo.startedAt.None? then Panic
    else
      var h :- History.ForStart(d, d.runInfo.startedAt.value);
      Ok([HistoryRecord(h), RunInfoRecord(d.runInfo)]
         + if d.msg.input.Some? then [RunInputRecord(d.runInfo.wfID, d.runInfo.id, d.msg.input.value)] else [])
  }

  /** What every way of ending a run commits: run info, history and state, then the outcome if one is
      kept, and the background tasks with the purge last. */
  function EndRun(info: RunInfo, h: HistoryEvent, state: Record, outcome: seq<Record>,
                  worker: seq<Record>, callback: seq<Record>, purge: Record): seq<Record> {
    [RunInfoRecord(info), HistoryRecord(h), state] + outcome + worker + callback + [purge]
  }

  function CompleteRun(d: Directive, state: RunState, now: Time): Result<seq<Record>> {
    var ri :- d.runInfo.Complete(d.timestamp);
    var h :- History.ForComplete(d);
    var result := d.msg.result;
    var output := if result.Some? then [RunOutputRecord(d.runInfo.wfID, d.runInfo.id, result.value)] else [];
    Ok(EndRun(ri, h, Ended(state, CompleteState, now), output, [],
              ParentCallback(d, Completed, result, None), PurgeResidue(d)))
  }

  function TerminateRun(d: Directive, state: RunState, now: Time): Result<seq<Record>> {
    var ri := d.runInfo.Terminate(d.timestamp);
    var h :- History.ForTerminate(d);
    var reason := if d.msg.reason != "" then d.msg.reason else "run was terminated";
    Ok(EndRun(ri, h, Ended(state, TerminateState, now), [], WorkerTerminate(d, state),
              ParentCallback(d, Terminated, None, Some(ErrorDetails("Terminated", reason))), PurgeResidue(d)))
  }

  function CancelReceived(d: Directive, state: RunState): Result<seq<Record>> {
    var h :- History.ForCancelReceived(d);
    Ok([HistoryRecord(h), RunStateRecord(state.(pendingCancel := Some(d)), state.seqID)])
  }

  function CancelRun(d: Directive, state: RunState, now: Time): Result<seq<Record>> {
    var ri := d.runInfo.Cancel(d.timestamp);
    var h :- History.ForCancel(d);
    var reason := if d.msg.reason != "" then d.msg.reason else "workflow was cancelled";
    Ok(EndRun(ri, h, Ended(state, CancelState, now), [], [],
              ParentCallback(d, Cancelled, None, Some(ErrorDetails("Cancelled", reason))), PurgeResidue(d)))
  }

  function FailRun(d: Directive, state: RunState, now: Time): Result<seq<Record>> {
    if !d.msg.FailMsg? then Err(WrongMessage)
    else
      var ri :- d.runInfo.Fail(d.timestamp);
      var h :- History.ForFail(d);
      Ok(EndRun(ri, h, Ended(state, FailState, now), [RunErrorRecord(d.runInfo.wfID, d.runInfo.id, d.msg.error)],
                WorkerTerminate(d, state), ParentCallback(d, Failed, None, Some(d.msg.error)), PurgeResidue(d)))
  }

  /** A fail directive made up by the server on behalf of `d`. */
  function FailDirective(id: DirectiveID, now: Time, d: Directive, error: ErrorDetails): Directive {
    Directive(id, now, FailKind, d.runInfo, FailMsg(error))
  }

  function BuildUnexpectedFailure(d: Directive, state: RunState, inp: Inputs): Result<seq<Record>> {
    var error := ErrorDetails("UnexpectedFailure", "An unexpected error occurred while processing a directive");
    FailRun(FailDirective(inp.newID, inp.now, d, error), state, inp.now)
  }
}
