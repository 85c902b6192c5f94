/** The view of every batch the record builders produce. */
module BuilderViews {
  import opened Types
  import opened Views
  import History
  import RunRecords
  import StepRecords
  import InboxRecords

  function Tasks(records: seq<Record>): seq<BackgroundTask> {
    Of(records).tasks
  }

  function Purge(d: Directive): BackgroundTask {
    RunRecords.PurgeResidue(d).task
  }

  lemma ParentCallbackView(d: Directive, status: RunStatus, result: Option<Value>, error: Option<ErrorDetails>)
    ensures var b := RunRecords.ParentCallback(d, status, result, error);
            && Of(b) == NOTHING.(tasks := Tasks(b))
            && (if d.runInfo.parentWFID.Some? && d.runInfo.parentCallbackStep.Some?
                then Tasks(b) == [BackgroundTask(NotifyTask, ForTask(NotifyTask, d.id),
                                                 NotifyPayload(d.runInfo.parentWFID.value,
                                                   d.runInfo.parentCallbackStep.value,
                                                               d.runInfo.wfID, status, result, error))]
                else Tasks(b) == [])
  {
    hide Of;
    var b := RunRecords.ParentCallback(d, status, result, error);
    if b != [] { OfOne(b[0]); } else { OfNone(); }
  }

  lemma WorkerTerminateView(d: Directive, state: RunState)
    ensures var b := RunRecords.WorkerTerminate(d, state);
            && Of(b) == NOTHING.(tasks := Tasks(b))
            && (if state.workerID.Some?
                then Tasks(b) == [BackgroundTask(WorkerTerminateTask, ForTask(WorkerTerminateTask, d.id),
                                                 WorkerTerminatePayload(state.workerID.value, state.runID))]
                else Tasks(b) == [])
  {
    hide Of;
    var b := RunRecords.WorkerTerminate(d, state);
    if b != [] { OfOne(b[0]); } else { OfNone(); }
  }

  /** The shape shared by the four ways to end a run. */
  function EndView(state: Record, info: RunInfo, h: HistoryEvent, tasks: seq<BackgroundTask>,
    outcomes: seq<Record>): View {
    NOTHING.(states := [state], infos := [info], history := [h], tasks := tasks, outcomes := outcomes)
  }

  lemma AppendTasks(front: seq<Record>, more: seq<Record>, v: View, tasks: seq<BackgroundTask>)
    requires Of(front) == v && Of(more) == NOTHING.(tasks := tasks)
    ensures Of(front + more) == v.(tasks := v.tasks + tasks)
  {
    hide Of;
    OfAppend(front, more);
    JoinTasks(v, tasks);
  }

  lemma AppendThree(front: seq<Record>, a: seq<Record>, b: seq<Record>, c: seq<Record>, v: View,
                    ta: seq<BackgroundTask>, tb: seq<BackgroundTask>, tc: seq<BackgroundTask>)
    requires Of(front) == v && v.tasks == []
    requires Of(a) == NOTHING.(tasks := ta) && Of(b) == NOTHING.(tasks := tb) && Of(c) == NOTHING.(tasks := tc)
    ensures Of(front + a + b + c) == v.(tasks := ta + tb + tc)
  {
    hide Of;
    AppendTasks(front, a, v, ta);
    AppendTasks(front + a, b, v.(tasks := ta), tb);
    AppendTasks(front + a + b, c, v.(tasks := ta + tb), tc);
  }

  lemma EndHeadView(info: RunInfo, h: HistoryEvent, state: Record, outcome: seq<Record>)
    requires state.RunStateRecord? && Of(outcome) == NOTHING.(outcomes := outcome)
    ensures Of([RunInfoRecord(info), HistoryRecord(h), state] + outcome) == EndView(state, info, h, [], outcome)
  {
    hide Of;
    OfThree(RunInfoRecord(info), HistoryRecord(h), state);
    OfAppend([RunInfoRecord(info), HistoryRecord(h), state], outcome);
    JoinOutcomes(EndView(state, info, h, [], []), outcome);
  }

  lemma EndTail(head: seq<Record>, worker: seq<Record>, callback: seq<Record>, last: seq<Record>,
                state: Record, info: RunInfo, h: HistoryEvent, outcome: seq<Record>, purge: BackgroundTask)
    requires Of(head) == EndView(state, info, h, [], outcome) && Of(last) == NOTHING.(tasks := [purge])
    requires Of(worker) == NOTHING.(tasks := Tasks(worker)) && Of(callback) == NOTHING.(tasks := Tasks(callback))
    ensures Of(head + worker + callback + last) == EndView(state, info, h, Tasks(worker) + Tasks(callback) + [purge],
      outcome)
  {
    hide Of;
    AppendThree(head, worker, callback, last, EndView(state, info, h, [], outcome), Tasks(worker), Tasks(callback),
      [purge]);
  }

  lemma EndRunView(info: RunInfo, h: HistoryEvent, state: Record, outcome: seq<Record>,
                   worker: seq<Record>, callback: seq<Record>, purge: BackgroundTask)
    requires state.RunStateRecord? && Of(outcome) == NOTHING.(outcomes := outcome)
    requires Of(worker) == NOTHING.(tasks := Tasks(worker)) && Of(callback) == NOTHING.(tasks := Tasks(callback))
    ensures Of(RunRecords.EndRun(info, h, state, outcome, worker, callback, BackgroundTaskRecord(purge)))
         == EndView(state, info, h, Tasks(worker) + Tasks(callback) + [purge], outcome)
  {
    hide Of;
    var head, last := [RunInfoRecord(info), HistoryRecord(h), state] + outcome, [BackgroundTaskRecord(purge)];
    assert Of(head) == EndView(state, info, h, [], outcome) by { EndHeadView(info, h, state, outcome); }
    assert Of(last) == NOTHING.(tasks := [purge]) by { OfOne(BackgroundTaskRecord(purge)); }
    EndTail(head, worker, callback, last, state, info, h, outcome, purge);
  }

  lemma FailRunView(d: Directive, state: RunState, now: Time)
    requires RunRecords.FailRun(d, state, now).Ok?
    ensures d.msg.FailMsg? && d.runInfo.startedAt.Some?
    ensures Of(RunRecords.FailRun(d, state, now).value)
         == EndView(RunRecords.Ended(state, FailState, now), d.runInfo.Fail(d.timestamp).value,
           History.ForFail(d).value,
                    Tasks(RunRecords.WorkerTerminate(d, state))
                    + Tasks(RunRecords.ParentCallback(d, Failed, None, Some(d.msg.error))) + [Purge(d)],
                    [RunErrorRecord(d.runInfo.wfID, d.runInfo.id, d.msg.error)])
  {
    hide Of;
    var error := RunErrorRecord(d.runInfo.wfID, d.runInfo.id, d.msg.error);
    OfOne(error);
    WorkerTerminateView(d, state);
    ParentCallbackView(d, Failed, None, Some(d.msg.error));
    EndRunView(d.runInfo.Fail(d.timestamp).value, History.ForFail(d).value, RunRecords.Ended(state, FailState, now),
      [error],
               RunRecords.WorkerTerminate(d, state), RunRecords.ParentCallback(d, Failed, None, Some(d.msg.error)),
                 Purge(d));
  }

  lemma TerminateRunView(d: Directive, state: RunState, now: Time) returns (error: ErrorDetails)
    requires RunRecords.TerminateRun(d, state, now).Ok?
    ensures d.msg.TerminateMsg?
    ensures error == ErrorDetails("Terminated", if d.msg.reason != "" then d.msg.reason else "run was terminated")
    ensures Of(RunRecords.TerminateRun(d, state, now).value)
         == EndView(RunRecords.Ended(state, TerminateState, now), d.runInfo.Terminate(d.timestamp),
           History.ForTerminate(d).value,
                    Tasks(RunRecords.WorkerTerminate(d, state))
                    + Tasks(RunRecords.ParentCallback(d, Terminated, None, Some(error))) + [Purge(d)], [])
  {
    hide Of;
    error := ErrorDetails("Terminated", if d.msg.reason != "" then d.msg.reason else "run was terminated");
    OfNone();
    WorkerTerminateView(d, state);
    ParentCallbackView(d, Terminated, None, Some(error));
    EndRunView(d.runInfo.Terminate(d.timestamp), History.ForTerminate(d).value,
      RunRecords.Ended(state, TerminateState, now), [],
               RunRecords.WorkerTerminate(d, state), RunRecords.ParentCallback(d, Terminated, None, Some(error)),
                 Purge(d));
  }

  lemma CancelRunView(d: Directive, state: RunState, now: Time) returns (error: ErrorDetails)
    requires RunRecords.CancelRun(d, state, now).Ok?
    ensures d.msg.CancelMsg? && d.runInfo.startedAt.Some?
    ensures error == ErrorDetails("Cancelled", if d.msg.reason != "" then d.msg.reason else "workflow was cancelled")
    ensures Of(RunRecords.CancelRun(d, state, now).value)
         == EndView(RunRecords.Ended(state, CancelState, now), d.runInfo.Cancel(d.timestamp),
           History.ForCancel(d).value,
                    Tasks(RunRecords.ParentCallback(d, Cancelled, None, Some(error))) + [Purge(d)], [])
  {
    hide Of;
    error := ErrorDetails("Cancelled", if d.msg.reason != "" then d.msg.reason else "workflow was cancelled");
    OfNone();
    ParentCallbackView(d, Cancelled, None, Some(error));
    EndRunView(d.runInfo.Cancel(d.timestamp), History.ForCancel(d).value, RunRecords.Ended(state, CancelState, now), [],
               [], RunRecords.ParentCallback(d, Cancelled, None, Some(error)), Purge(d));
  }

  lemma CompleteRunView(d: Directive, state: RunState, now: Time)
    requires RunRecords.CompleteRun(d, state, now).Ok?
    ensures d.msg.CompleteMsg? && d.runInfo.startedAt.Some?
    ensures Of(RunRecords.CompleteRun(d, state, now).value)
         == EndView(RunRecords.Ended(state, CompleteState, now), d.runInfo.Complete(d.timestamp).value,
           History.ForComplete(d).value,
                    Tasks(RunRecords.ParentCallback(d, Completed, d.msg.result, None)) + [Purge(d)],
                    if d.msg.result.Some? then [RunOutputRecord(d.runInfo.wfID, d.runInfo.id, d.msg.result.value)]
                      else [])
  {
    hide Of;
    var output := if d.msg.result.Some? then [RunOutputRecord(d.runInfo.wfID, d.runInfo.id, d.msg.result.value)]
      else [];
    if output != [] { OfOne(output[0]); } else { OfNone(); }
    OfNone();
    ParentCallbackView(d, Completed, d.msg.result, None);
    EndRunView(d.runInfo.Complete(d.timestamp).value, History.ForComplete(d).value,
      RunRecords.Ended(state, CompleteState, now), output,
               [], RunRecords.ParentCallback(d, Completed, d.msg.result, None), Purge(d));
  }

  lemma CancelReceivedView(d: Directive, state: RunState)
    requires RunRecords.CancelReceived(d, state).Ok?
    ensures d.msg.CancelMsg?
    ensures Of(RunRecords.CancelReceived(d, state).value)
         == NOTHING.(history := [History.ForCancelReceived(d).value],
                     states := [RunStateRecord(state.(pendingCancel := Some(d)), state.seqID)])
  {
    hide Of;
    OfTwo(HistoryRecord(History.ForCancelReceived(d).value),
      RunStateRecord(state.(pendingCancel := Some(d)), state.seqID));
  }

  lemma StepPickedUpView(d: Directive, state: RunState)
    requires StepRecords.StepPickedUp(d, state).Ok?
    ensures d.msg.StepPickedUpMsg?
    ensures Of(StepRecords.StepPickedUp(d, state).value)
         == NOTHING.(history := [History.ForStepPickedUp(d).value],
                     states := [RunStateRecord(state.(workerID := Some(d.msg.workerID)), state.seqID)])
  {
    hide Of;
    OfTwo(HistoryRecord(History.ForStepPickedUp(d).value),
      RunStateRecord(state.(workerID := Some(d.msg.workerID)), state.seqID));
  }

  lemma EnterStepView(d: Directive, state: RunState, cursor: nat, inp: Inputs)
    ensures StepRecords.EnterStep(d, state, cursor, inp).Ok? <==> d.msg.Dispatchable()
    ensures d.msg.Dispatchable() ==>
      var full := StepRecords.Filled(d, state);
      var ri := full.runInfo.StartStep(d.timestamp);
      Of(StepRecords.EnterStep(d, state, cursor, inp).value)
      == NOTHING.(timers := [StepRecords.StepTimeoutTimer(full, inp).value], infos := [ri],
        dispatches := [full.(runInfo := ri)],
                  states := [RunStateRecord(state.(kind := StepState, enteredAt := inp.now, activeDirectiveID := d.id,
                    lastEventSeqID := cursor),
                                            state.seqID)])
  {
    hide Of;
    if d.msg.Dispatchable() {
      var full := StepRecords.Filled(d, state);
      var ri := full.runInfo.StartStep(d.timestamp);
      OfFour(TimerRecord(StepRecords.StepTimeoutTimer(full, inp).value), RunInfoRecord(ri),
        WorkerTaskDispatch(full.(runInfo := ri)),
             RunStateRecord(state.(kind := StepState, enteredAt := inp.now, activeDirectiveID := d.id,
               lastEventSeqID := cursor), state.seqID));
    }
  }

  lemma JoinResult(kv: seq<Record>, h: HistoryEvent, task: BackgroundTask)
    ensures Join(NOTHING.(kvs := kv), NOTHING.(history := [h], tasks := [task]))
      == NOTHING.(kvs := kv, history := [h], tasks := [task])
  {
  }

  lemma KVView(kv: seq<Record>)
    requires kv == [] || (|kv| == 1 && kv[0].KVRecord?)
    ensures Of(kv) == NOTHING.(kvs := kv)
  {
    hide Of;
    if kv == [] {
      OfNone();
    } else {
      assert kv == [kv[0]];
      OfOne(kv[0]);
    }
  }

  lemma ResultView(kv: seq<Record>, h: HistoryEvent, task: BackgroundTask)
    requires kv == [] || (|kv| == 1 && kv[0].KVRecord?)
    ensures Of(kv + [HistoryRecord(h), BackgroundTaskRecord(task)])
      == NOTHING.(kvs := kv, history := [h], tasks := [task])
  {
    hide Of;
    KVView(kv);
    OfTwo(HistoryRecord(h), BackgroundTaskRecord(task));
    OfAppend(kv, [HistoryRecord(h), BackgroundTaskRecord(task)]);
    JoinResult(kv, h, task);
  }

  lemma StepCompleteView(d: Directive, state: RunState, now: Time)
    requires StepRecords.StepComplete(d, state, now).Ok?
    ensures d.msg.StepResultMsg? && d.msg.processed.Dispatchable()
    ensures Of(StepRecords.StepComplete(d, state, now).value)
         == NOTHING.(kvs := StepRecords.KVUpdate(d), history := [History.ForStepComplete(d.msg, d.runInfo, now).value],
                     tasks := [StepRecords.DeleteStepTimeoutTimer(d, state).task])
  {
    hide Of;
    ResultView(StepRecords.KVUpdate(d), History.ForStepComplete(d.msg, d.runInfo, now).value,
               StepRecords.DeleteStepTimeoutTimer(d, state).task);
  }

  lemma StepFailView(d: Directive, state: RunState, now: Time)
    requires StepRecords.StepFail(d, state, now).Ok?
    ensures d.msg.StepResultMsg? && d.msg.processed.Dispatchable() && d.msg.nextMsg.FailStepMsg?
    ensures Of(StepRecords.StepFail(d, state, now).value)
         == NOTHING.(kvs := StepRecords.KVUpdate(d), history := [History.ForStepFail(d.msg, d.runInfo, now).value],
                     tasks := [StepRecords.DeleteStepTimeoutTimer(d, state).task])
  {
    hide Of;
    ResultView(StepRecords.KVUpdate(d), History.ForStepFail(d.msg, d.runInfo, now).value,
               StepRecords.DeleteStepTimeoutTimer(d, state).task);
  }

  lemma EventReceivedView(d: Directive, sn: StateSnapshot, inp: Inputs)
    requires InboxRecords.EventReceived(d, sn, inp).Ok?
    ensures d.msg.EventMsg?
    ensures Of(InboxRecords.EventReceived(d, sn, inp).value)
         == NOTHING.(inbox := [d], history := [History.ForEvent(d, inp.now).value],
                     queued := if sn.runState.kind == WaitState && sn.event.None?
                       then [InboxRecords.Wake(d, inp.now).directive] else [])
  {
    hide Of;
    var head := [InboxRecord(d), HistoryRecord(History.ForEvent(d, inp.now).value)];
    var wake := if sn.runState.kind == WaitState && sn.event.None? then [InboxRecords.Wake(d, inp.now)] else [];
    OfTwo(head[0], head[1]);
    if wake != [] { OfOne(wake[0]); } else { OfNone(); }
    OfAppend(head, wake);
  }

  lemma AppendQueued(front: seq<Record>, more: seq<Record>, v: View, queued: seq<Directive>)
    requires Of(front) == v && v.queued == [] && Of(more) == NOTHING.(queued := queued)
    ensures Of(front + more) == v.(queued := queued)
  {
    hide Of;
    OfAppend(front, more);
    JoinQueued(v, queued);
  }

  lemma WaitRecordsView(d: Directive, sn: StateSnapshot, inp: Inputs) returns (timeout: nat)
    requires InboxRecords.Wait(d, sn, inp).Ok?
    ensures d.msg.WaitMsg?
    ensures timeout == if d.msg.timeout == 0 then inp.waitTimeoutMS else d.msg.timeout
    ensures Of(InboxRecords.Wait(d, sn, inp).value)
      == NOTHING.(infos := [d.runInfo.Wait()], history := [History.ForWait(d, inp.now).value],
                  timers := [InboxRecords.WaitTimeoutTimer(d, timeout, d.msg.timeoutStepName, inp.now)],
                  states := [RunStateRecord(sn.runState.(kind := WaitState, enteredAt := inp.now,
                    activeDirectiveID := d.id), sn.runState.seqID)],
                  queued := if sn.event.Some? then [InboxRecords.Wake(d, inp.now).directive] else [])
  {
    hide Of;
    timeout := if d.msg.timeout == 0 then inp.waitTimeoutMS else d.msg.timeout;
    var timer := InboxRecords.WaitTimeoutTimer(d, timeout, d.msg.timeoutStepName, inp.now);
    var state := RunStateRecord(sn.runState.(kind := WaitState, enteredAt := inp.now, activeDirectiveID := d.id),
      sn.runState.seqID);
    var h := History.ForWait(d, inp.now).value;
    var head := [RunInfoRecord(d.runInfo.Wait()), HistoryRecord(h), TimerRecord(timer), state];
    OfFour(RunInfoRecord(d.runInfo.Wait()), HistoryRecord(h), TimerRecord(timer), state);
    if sn.event.Some? {
      OfOne(InboxRecords.Wake(d, inp.now));
      AppendQueued(head, [InboxRecords.Wake(d, inp.now)],
                   NOTHING.(infos := [d.runInfo.Wait()], history := [h], timers := [timer], states := [state]),
                   [InboxRecords.Wake(d, inp.now).directive]);
    } else {
      assert head + [] == head;
    }
  }

  lemma PrependView(front: seq<Record>, rest: Result<seq<Record>>)
    requires rest.Ok?
    ensures Of(Prepend(front, rest).value) == Join(Of(front), Of(rest.value))
  {
    hide Of;
    OfAppend(front, rest.value);
  }
}
