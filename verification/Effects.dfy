/** What a directive does to a run, as one of a few moves. `EffectOf` says which move a handler makes
    and `EffectIsBatch` shows that the batch it commits holds exactly what the move stands for. */
module Effects {
  import opened Types
  import opened Views
  import opened BuilderViews
  import History
  import RunRecords
  import StepRecords
  import InboxRecords
  import opened Planner

  /** `via` is the directive the transition is carried out for: it gives the new state its active ID,
      the timer and the tasks their IDs, and the records their run info. */
  datatype Move =
    | Begin(via: Directive)
    | Receive(via: Directive)
    | Stay(state: RunState)
    | ToStep(via: Directive, cursor: nat)
    | ToWait(via: Directive)
    | ToEnd(via: Directive, kind: RunStateKind)

  /** `before` is what the batch holds ahead of the move: step results and timeout history. */
  datatype Effect = NoEffect | Effect(before: View, move: Move)

  predicate CanEnd(via: Directive, kind: RunStateKind) {
    match kind
    case CompleteState => via.msg.CompleteMsg? && via.runInfo.startedAt.Some?
    case FailState => via.msg.FailMsg? && via.runInfo.startedAt.Some?
    case CancelState => via.msg.CancelMsg? && via.runInfo.startedAt.Some?
    case TerminateState => via.msg.TerminateMsg?
    case _ => false
  }

  /** Nothing but key-value updates, history and background tasks comes ahead of a move. */
  predicate Quiet(v: View) {
    v.states == [] && v.infos == [] && v.timers == [] && v.inbox == [] && v.dispatches == [] && v.queued == [] &&
      v.outcomes == []
  }

  predicate WellFormed(e: Effect) {
    e.Effect? ==>
      && Quiet(e.before)
      && match e.move
         case Begin(via) => via.msg.StartMsg? && e.before == NOTHING
         case Receive(via) => via.msg.EventMsg? && e.before == NOTHING
         case Stay(_) => true
         case ToStep(via, _) => via.msg.Dispatchable()
         case ToWait(via) => via.msg.WaitMsg?
         case ToEnd(via, kind) => CanEnd(via, kind)
  }

  /* The moves as views */

  function StatusFor(kind: RunStateKind): RunStatus {
    match kind
    case CompleteState => Completed
    case FailState => Failed
    case CancelState => Cancelled
    case TerminateState => Terminated
    case _ => Running
  }

  function CallbackTasks(via: Directive, status: RunStatus, result: Option<Value>,
    error: Option<ErrorDetails>): seq<BackgroundTask> {
    var ri := via.runInfo;
    if ri.parentWFID.None? || ri.parentCallbackStep.None? then []
    else [BackgroundTask(NotifyTask, ForTask(NotifyTask, via.id),
                         NotifyPayload(ri.parentWFID.value, ri.parentCallbackStep.value, ri.wfID, status, result,
                           error))]
  }

  function WorkerTasks(via: Directive, state: RunState): seq<BackgroundTask> {
    if state.workerID.None? then []
    else [BackgroundTask(WorkerTerminateTask, ForTask(WorkerTerminateTask, via.id),
      WorkerTerminatePayload(state.workerID.value, state.runID))]
  }

  function EnterView(via: Directive, state: RunState, cursor: nat, inp: Inputs): View
    requires via.msg.Dispatchable()
  {
    var full := StepRecords.Filled(via, state);
    var ri := full.runInfo.StartStep(via.timestamp);
    NOTHING.(timers := [StepRecords.StepTimeoutTimer(full, inp).value], infos := [ri],
      dispatches := [full.(runInfo := ri)],
             states := [RunStateRecord(state.(kind := StepState, enteredAt := inp.now, activeDirectiveID := via.id,
               lastEventSeqID := cursor),
                                       state.seqID)])
  }

  function StartedInfo(via: Directive, inp: Inputs): RunInfo { via.runInfo.Start(inp.now) }

  function StartedState(via: Directive, inp: Inputs): RunState {
    NewRunState(via, StartState, inp.now).(startedAt := Some(inp.now))
  }

  function BeginView(via: Directive, inp: Inputs): View
    requires via.msg.StartMsg?
  {
    var d := via.(runInfo := StartedInfo(via, inp));
    Join(NOTHING.(history := [History.ForStart(d, inp.now).value], infos := [d.runInfo],
      states := [RunStateRecord(StartedState(via, inp), 0)],
                  outcomes := if via.msg.input.Some?
                    then [RunInputRecord(via.runInfo.wfID, via.runInfo.id, via.msg.input.value)] else []),
         EnterView(d, StartedState(via, inp), 0, inp))
  }

  function ReceiveView(via: Directive, sn: StateSnapshot, inp: Inputs): View
    requires via.msg.EventMsg?
  {
    NOTHING.(inbox := [via], history := [History.ForEvent(via, inp.now).value],
             queued := if sn.runState.kind == WaitState && sn.event.None?
               then [InboxRecords.Wake(via, inp.now).directive] else [])
  }

  function WaitView(via: Directive, sn: StateSnapshot, inp: Inputs): View
    requires via.msg.WaitMsg?
  {
    var timeout := if via.msg.timeout == 0 then inp.waitTimeoutMS else via.msg.timeout;
    NOTHING.(infos := [via.runInfo.Wait()], history := [History.ForWait(via, inp.now).value],
             timers := [InboxRecords.WaitTimeoutTimer(via, timeout, via.msg.timeoutStepName, inp.now)],
             states := [RunStateRecord(sn.runState.(kind := WaitState, enteredAt := inp.now,
               activeDirectiveID := via.id), sn.runState.seqID)],
             queued := if sn.event.Some? then [InboxRecords.Wake(via, inp.now).directive] else [])
  }

  function EndingView(via: Directive, kind: RunStateKind, state: RunState, now: Time): View
    requires CanEnd(via, kind)
  {
    var ended := RunRecords.Ended(state, kind, now);
    match kind
    case CompleteState =>
      EndView(ended, via.runInfo.Complete(via.timestamp).value, History.ForComplete(via).value,
              CallbackTasks(via, Completed, via.msg.result, None) + [Purge(via)],
              if via.msg.result.Some? then [RunOutputRecord(via.runInfo.wfID, via.runInfo.id, via.msg.result.value)]
                else [])
    case FailState =>
      EndView(ended, via.runInfo.Fail(via.timestamp).value, History.ForFail(via).value,
              WorkerTasks(via, state) + CallbackTasks(via, Failed, None, Some(via.msg.error)) + [Purge(via)],
              [RunErrorRecord(via.runInfo.wfID, via.runInfo.id, via.msg.error)])
    case CancelState =>
      EndView(ended, via.runInfo.Cancel(via.timestamp), History.ForCancel(via).value,
              CallbackTasks(via, Cancelled, None, Some(ErrorDetails("Cancelled",
                Reason(via.msg.reason, "workflow was cancelled"))))
              + [Purge(via)], [])
    case TerminateState =>
      EndView(ended, via.runInfo.Terminate(via.timestamp), History.ForTerminate(via).value,
              WorkerTasks(via, state)
              + CallbackTasks(via, Terminated, None,
                Some(ErrorDetails("Terminated", Reason(via.msg.reason, "run was terminated"))))
              + [Purge(via)], [])
  }

  function Reason(given: string, default: string): string { if given != "" then given else default }

  function MoveView(move: Move, sn: StateSnapshot, inp: Inputs): View
    requires WellFormed(Effect(NOTHING, move))
  {
    match move
    case Begin(via) => BeginView(via, inp)
    case Receive(via) => ReceiveView(via, sn, inp)
    case Stay(s) => NOTHING.(states := [RunStateRecord(s, sn.runState.seqID)])
    case ToStep(via, cursor) => EnterView(via, sn.runState, cursor, inp)
    case ToWait(via) => WaitView(via, sn, inp)
    case ToEnd(via, kind) => EndingView(via, kind, sn.runState, inp.now)
  }

  function EffectView(e: Effect, sn: StateSnapshot, inp: Inputs): View
    requires e.Effect? && WellFormed(e)
  {
    Join(e.before, MoveView(e.move, sn, inp))
  }

  /* Which move a directive makes */

  function ResultBefore(d: Directive, h: HistoryEvent, state: RunState): View
    requires d.msg.StepResultMsg?
  {
    NOTHING.(kvs := StepRecords.KVUpdate(d), history := [h],
      tasks := [StepRecords.DeleteStepTimeoutTimer(d, state).task])
  }

  function After(before: View, e: Effect): Effect {
    if e.NoEffect? then NoEffect else Effect(Join(before, e.before), e.move)
  }

  function End(via: Directive, kind: RunStateKind): Effect {
    if CanEnd(via, kind) then Effect(NOTHING, ToEnd(via, kind)) else NoEffect
  }

  function TransitionEffect(d: Directive, sn: StateSnapshot, inp: Inputs): Effect {
    var state := sn.runState;
    match d.kind
    case StepKind => if d.msg.Dispatchable() then Effect(NOTHING, ToStep(d, state.lastEventSeqID)) else NoEffect
    case EventKind => if d.msg.EventMsg? then Effect(NOTHING, ToStep(d, StepRecords.Cursor(d, state))) else NoEffect
    case StepPickedUpKind =>
      if d.msg.StepPickedUpMsg?
      then Effect(NOTHING.(history := [History.ForStepPickedUp(d).value]),
        Stay(state.(workerID := Some(d.msg.workerID))))
      else NoEffect
    case StepTimeoutKind =>
      if d.msg.StepTimeoutMsg? && state.kind == StepState && state.activeDirectiveID == d.msg.original
      then After(NOTHING.(history := [History.ForStepTimeout(d, state, inp.now)]),
                 End(RunRecords.FailDirective(inp.newID, inp.now, d,
                   ErrorDetails("StepTimeout", "step " + d.msg.stepName + " timed out")), FailState))
      else NoEffect
    case CompleteKind => End(d, CompleteState)
    case FailKind => End(d, FailState)
    case TerminateKind => End(d, TerminateState)
    case WaitKind => if d.msg.WaitMsg? then Effect(NOTHING, ToWait(d)) else NoEffect
    case WaitTimeoutKind =>
      if d.msg.WaitTimeoutMsg? && state.kind == WaitState && state.activeDirectiveID == d.msg.original
      then
        After(NOTHING.(history := [History.ForWaitTimeout(d, inp.now)]),
              if d.msg.timeoutStepName != ""
              then Effect(NOTHING, ToStep(Directive(Next(d.id), inp.now, StepKind, d.runInfo,
                StepMsg(d.msg.timeoutStepName, 0)), state.lastEventSeqID))
              else End(RunRecords.FailDirective(inp.newID, inp.now, d,
                ErrorDetails("WaitTimeout", "wait timed out without a timeout step")), FailState))
      else NoEffect
    case _ => NoEffect
  }

  function ResultEffect(d: Directive, sn: StateSnapshot, inp: Inputs): Effect {
    if !d.msg.StepResultMsg? || !d.msg.processed.Dispatchable() then NoEffect
    else
      var nextD := NextDirective(d, sn.lastHistorySeqID, inp.now);
      if nextD.kind == FailStepKind then
        if !nextD.msg.FailStepMsg? then NoEffect
        else After(ResultBefore(d, History.ForStepFail(d.msg, d.runInfo, inp.now).value, sn.runState),
                   End(RunRecords.FailDirective(nextD.id, nextD.timestamp, nextD, nextD.msg.error), FailState))
      else
        After(ResultBefore(d, History.ForStepComplete(d.msg, d.runInfo, inp.now).value, sn.runState),
              if sn.runState.pendingCancel.Some? then End(sn.runState.pendingCancel.value, CancelState)
              else TransitionEffect(nextD, sn, inp))
  }

  function PlanEffect(d: Directive, sn: StateSnapshot, inp: Inputs): Effect {
    if sn.runState.IsTerminal() then NoEffect
    else match d.kind
      case StartKind => if d.msg.StartMsg? then Effect(NOTHING, Begin(d)) else NoEffect
      case StepResultKind => ResultEffect(d, sn, inp)
      case CancelKind =>
        if sn.runState.kind == StepState then
          if d.msg.CancelMsg?
          then Effect(NOTHING.(history := [History.ForCancelReceived(d).value]),
            Stay(sn.runState.(pendingCancel := Some(d))))
          else NoEffect
        else End(d, CancelState)
      case EventKind => if d.msg.EventMsg? then Effect(NOTHING, Receive(d)) else NoEffect
      case WakeFromInboxKind =>
        if sn.runState.kind == WaitState && sn.event.Some? then TransitionEffect(sn.event.value, sn, inp) else NoEffect
      case _ => TransitionEffect(d, sn, inp)
  }

  function FailureEffect(d: Directive, inp: Inputs): Effect {
    End(RunRecords.FailDirective(inp.newID, inp.now, d,
                                 ErrorDetails("UnexpectedFailure",
                                   "An unexpected error occurred while processing a directive")), FailState)
  }

  function EffectOf(d: Directive, sn: StateSnapshot, inp: Inputs): Effect {
    match Plan(d, sn, inp)
    case Ok(_) => PlanEffect(d, sn, inp)
    case Panic => NoEffect
    case Err(_) => FailureEffect(d, inp)
  }

  /* The batch is the move */

  predicate Describes(e: Effect, r: Result<seq<Record>>, sn: StateSnapshot, inp: Inputs) {
    && WellFormed(e)
    && (e.Effect? ==> r.Ok? && r.value != [] && Of(r.value) == EffectView(e, sn, inp))
    && (e.NoEffect? ==> r.Ok? ==> r.value == [])
  }

  lemma EndingDescribes(via: Directive, kind: RunStateKind, sn: StateSnapshot, inp: Inputs, r: Result<seq<Record>>)
    requires r.Ok? <==> CanEnd(via, kind)
    requires r.Ok? ==> r.value != [] && Of(r.value) == EndingView(via, kind, sn.runState, inp.now)
    ensures Describes(End(via, kind), r, sn, inp)
  {
    hide Of;
    if r.Ok? {
      JoinNothing(EndingView(via, kind, sn.runState, inp.now));
    }
  }

  lemma CompleteDescribes(via: Directive, sn: StateSnapshot, inp: Inputs)
    ensures Describes(End(via, CompleteState), RunRecords.CompleteRun(via, sn.runState, inp.now), sn, inp)
  {
    hide Of;
    var r := RunRecords.CompleteRun(via, sn.runState, inp.now);
    if r.Ok? {
      CompleteRunView(via, sn.runState, inp.now);
      ParentCallbackView(via, Completed, via.msg.result, None);
    }
    EndingDescribes(via, CompleteState, sn, inp, r);
  }

  lemma FailDescribes(via: Directive, sn: StateSnapshot, inp: Inputs)
    ensures Describes(End(via, FailState), RunRecords.FailRun(via, sn.runState, inp.now), sn, inp)
  {
    hide Of;
    var r := RunRecords.FailRun(via, sn.runState, inp.now);
    if r.Ok? {
      FailRunView(via, sn.runState, inp.now);
      WorkerTerminateView(via, sn.runState);
      ParentCallbackView(via, Failed, None, Some(via.msg.error));
    }
    EndingDescribes(via, FailState, sn, inp, r);
  }

  lemma CancelRunDescribes(via: Directive, sn: StateSnapshot, inp: Inputs)
    ensures Describes(End(via, CancelState), RunRecords.CancelRun(via, sn.runState, inp.now), sn, inp)
  {
    hide Of;
    var r := RunRecords.CancelRun(via, sn.runState, inp.now);
    if r.Ok? {
      var error := CancelRunView(via, sn.runState, inp.now);
      ParentCallbackView(via, Cancelled, None, Some(error));
    }
    EndingDescribes(via, CancelState, sn, inp, r);
  }

  lemma TerminateDescribes(via: Directive, sn: StateSnapshot, inp: Inputs)
    ensures Describes(End(via, TerminateState), RunRecords.TerminateRun(via, sn.runState, inp.now), sn, inp)
  {
    hide Of;
    var r := RunRecords.TerminateRun(via, sn.runState, inp.now);
    if r.Ok? {
      var error := TerminateRunView(via, sn.runState, inp.now);
      WorkerTerminateView(via, sn.runState);
      ParentCallbackView(via, Terminated, None, Some(error));
    }
    EndingDescribes(via, TerminateState, sn, inp, r);
  }

  lemma AfterDescribes(front: seq<Record>, before: View, e: Effect, rest: Result<seq<Record>>, sn: StateSnapshot,
    inp: Inputs)
    requires Of(front) == before && Quiet(before)
    requires Describes(e, rest, sn, inp) && (e.NoEffect? ==> !rest.Ok?)
    requires e.Effect? ==> !e.move.Begin? && !e.move.Receive?
    ensures Describes(After(before, e), Prepend(front, rest), sn, inp)
  {
    hide Of;
    if e.Effect? {
      PrependView(front, rest);
      JoinAssociative(before, e.before, MoveView(e.move, sn, inp));
    }
  }

  lemma StepDescribes(d: Directive, cursor: nat, sn: StateSnapshot, inp: Inputs)
    requires d.msg.Dispatchable()
    ensures Describes(Effect(NOTHING, ToStep(d, cursor)), StepRecords.EnterStep(d, sn.runState, cursor, inp), sn, inp)
  {
    hide Of;
    EnterStepView(d, sn.runState, cursor, inp);
    JoinNothing(EnterView(d, sn.runState, cursor, inp));
  }

  lemma StepTimeoutDescribes(d: Directive, sn: StateSnapshot, inp: Inputs)
    requires d.kind == StepTimeoutKind
    ensures Describes(TransitionEffect(d, sn, inp), StepRecords.StepTimeout(d, sn.runState, inp), sn, inp)
    ensures TransitionEffect(d, sn, inp).NoEffect? ==> !StepRecords.StepTimeout(d, sn.runState, inp).Ok?
  {
    hide Of;
    if d.msg.StepTimeoutMsg? && sn.runState.kind == StepState && sn.runState.activeDirectiveID == d.msg.original {
      var h := History.ForStepTimeout(d, sn.runState, inp.now);
      var failD := RunRecords.FailDirective(inp.newID, inp.now, d,
        ErrorDetails("StepTimeout", "step " + d.msg.stepName + " timed out"));
      var rest := RunRecords.FailRun(failD, sn.runState, inp.now);
      OfOne(HistoryRecord(h));
      FailDescribes(failD, sn, inp);
      AfterDescribes([HistoryRecord(h)], NOTHING.(history := [h]), End(failD, FailState), rest, sn, inp);
    }
  }

  /** The timeout step that a wait is left for, and the failure if there is none. */
  function TimeoutStep(d: Directive, inp: Inputs): Directive
    requires d.msg.WaitTimeoutMsg?
  {
    Directive(Next(d.id), inp.now, StepKind, d.runInfo, StepMsg(d.msg.timeoutStepName, 0))
  }

  function TimeoutFailure(d: Directive, inp: Inputs): Directive {
    RunRecords.FailDirective(inp.newID, inp.now, d,
                             ErrorDetails("WaitTimeout", "wait timed out without a timeout step"))
  }

  lemma TimeoutStepDescribes(d: Directive, sn: StateSnapshot, inp: Inputs)
    requires d.msg.WaitTimeoutMsg?
    ensures var h := History.ForWaitTimeout(d, inp.now);
            var e := Effect(NOTHING, ToStep(TimeoutStep(d, inp), sn.runState.lastEventSeqID));
            var rest := StepRecords.StepStart(TimeoutStep(d, inp), sn.runState, inp);
            Describes(After(NOTHING.(history := [h]), e), Prepend([HistoryRecord(h)], rest), sn, inp)
  {
    hide Of, Describes, After;
    var h := History.ForWaitTimeout(d, inp.now);
    var e := Effect(NOTHING, ToStep(TimeoutStep(d, inp), sn.runState.lastEventSeqID));
    OfOne(HistoryRecord(h));
    StepDescribes(TimeoutStep(d, inp), sn.runState.lastEventSeqID, sn, inp);
    AfterDescribes([HistoryRecord(h)], NOTHING.(history := [h]), e,
                   StepRecords.StepStart(TimeoutStep(d, inp), sn.runState, inp), sn, inp);
  }

  lemma TimeoutFailureDescribes(d: Directive, sn: StateSnapshot, inp: Inputs)
    requires d.msg.WaitTimeoutMsg?
    ensures var h, e := History.ForWaitTimeout(d, inp.now), End(TimeoutFailure(d, inp), FailState);
            var rest := RunRecords.FailRun(TimeoutFailure(d, inp), sn.runState, inp.now);
            Describes(After(NOTHING.(history := [h]), e), Prepend([HistoryRecord(h)], rest), sn, inp)
  {
    hide Of, Describes, After;
    var h := History.ForWaitTimeout(d, inp.now);
    OfOne(HistoryRecord(h));
    FailDescribes(TimeoutFailure(d, inp), sn, inp);
    AfterDescribes([HistoryRecord(h)], NOTHING.(history := [h]), End(TimeoutFailure(d, inp), FailState),
                   RunRecords.FailRun(TimeoutFailure(d, inp), sn.runState, inp.now), sn, inp);
  }

  lemma WaitTimeoutDescribes(d: Directive, sn: StateSnapshot, inp: Inputs)
    requires d.kind == WaitTimeoutKind
    ensures Describes(TransitionEffect(d, sn, inp), InboxRecords.WaitTimeout(d, sn.runState, inp), sn, inp)
    ensures TransitionEffect(d, sn, inp).NoEffect? ==> !InboxRecords.WaitTimeout(d, sn.runState, inp).Ok?
  {
    hide Of, EffectView;
    if d.msg.WaitTimeoutMsg? && sn.runState.kind == WaitState && sn.runState.activeDirectiveID == d.msg.original {
      if d.msg.timeoutStepName != "" {
        TimeoutStepDescribes(d, sn, inp);
      } else {
        TimeoutFailureDescribes(d, sn, inp);
      }
    }
  }

  lemma WaitDescribes(d: Directive, sn: StateSnapshot, inp: Inputs)
    requires d.msg.WaitMsg?
    ensures Describes(Effect(NOTHING, ToWait(d)), InboxRecords.Wait(d, sn, inp), sn, inp)
  {
    hide Of;
    var _ := WaitRecordsView(d, sn, inp);
    JoinNothing(WaitView(d, sn, inp));
  }

  lemma PickedUpDescribes(d: Directive, sn: StateSnapshot, inp: Inputs)
    requires d.kind == StepPickedUpKind
    ensures Describes(TransitionEffect(d, sn, inp), StepRecords.StepPickedUp(d, sn.runState), sn, inp)
  {
    hide Of;
    if d.msg.StepPickedUpMsg? {
      StepPickedUpView(d, sn.runState);
    }
  }

  /** Steps triggered by an event take the cursor from it; any other step keeps the cursor. */
  lemma TransitionDescribes(d: Directive, sn: StateSnapshot, inp: Inputs)
    ensures Describes(TransitionEffect(d, sn, inp), Transition(d, sn, inp), sn, inp)
    ensures TransitionEffect(d, sn, inp).NoEffect? ==> !Transition(d, sn, inp).Ok?
    ensures TransitionEffect(d, sn, inp).Effect? ==>
      !TransitionEffect(d, sn, inp).move.Begin? && !TransitionEffect(d, sn, inp).move.Receive?
  {
    hide Of;
    match d.kind {
      case StepKind =>
        if d.msg.Dispatchable() { StepDescribes(d, sn.runState.lastEventSeqID, sn, inp); }
      case EventKind =>
        if d.msg.EventMsg? { StepDescribes(d, StepRecords.Cursor(d, sn.runState), sn, inp); }
      case StepPickedUpKind => PickedUpDescribes(d, sn, inp);
      case StepTimeoutKind => StepTimeoutDescribes(d, sn, inp);
      case CompleteKind => CompleteDescribes(d, sn, inp);
      case FailKind => FailDescribes(d, sn, inp);
      case TerminateKind => TerminateDescribes(d, sn, inp);
      case WaitKind =>
        if d.msg.WaitMsg? { WaitDescribes(d, sn, inp); }
      case WaitTimeoutKind => WaitTimeoutDescribes(d, sn, inp);
      case _ =>
    }
  }

  lemma FailedResultDescribes(d: Directive, sn: StateSnapshot, inp: Inputs)
    requires d.msg.StepResultMsg? && d.msg.nextKind == FailStepKind
    ensures Describes(ResultEffect(d, sn, inp), FromStepResult(d, sn, inp), sn, inp)
  {
    hide Of;
    var nextD := NextDirective(d, sn.lastHistorySeqID, inp.now);
    if d.msg.processed.Dispatchable() && nextD.msg.FailStepMsg? {
      var failD := RunRecords.FailDirective(nextD.id, nextD.timestamp, nextD, nextD.msg.error);
      var rest := RunRecords.FailRun(failD, sn.runState, inp.now);
      StepFailView(d, sn.runState, inp.now);
      FailDescribes(failD, sn, inp);
      AfterDescribes(StepRecords.StepFail(d, sn.runState, inp.now).value,
                     ResultBefore(d, History.ForStepFail(d.msg, d.runInfo, inp.now).value, sn.runState),
                     End(failD, FailState), rest, sn, inp);
    }
  }

  lemma SuccessfulResultDescribes(d: Directive, sn: StateSnapshot, inp: Inputs)
    requires d.msg.StepResultMsg? && d.msg.nextKind != FailStepKind
    ensures Describes(ResultEffect(d, sn, inp), FromStepResult(d, sn, inp), sn, inp)
  {
    hide Of;
    if d.msg.processed.Dispatchable() {
      var nextD := NextDirective(d, sn.lastHistorySeqID, inp.now);
      var before := ResultBefore(d, History.ForStepComplete(d.msg, d.runInfo, inp.now).value, sn.runState);
      var front := StepRecords.StepComplete(d, sn.runState, inp.now).value;
      StepCompleteView(d, sn.runState, inp.now);
      if sn.runState.pendingCancel.Some? {
        var cancel := sn.runState.pendingCancel.value;
        CancelRunDescribes(cancel, sn, inp);
        AfterDescribes(front, before, End(cancel, CancelState), RunRecords.CancelRun(cancel, sn.runState, inp.now), sn,
          inp);
      } else {
        TransitionDescribes(nextD, sn, inp);
        AfterDescribes(front, before, TransitionEffect(nextD, sn, inp), Transition(nextD, sn, inp), sn, inp);
      }
    }
  }

  lemma BeginDescribes(d: Directive, sn: StateSnapshot, inp: Inputs)
    requires d.msg.StartMsg?
    ensures Describes(Effect(NOTHING, Begin(d)), FromRunStart(d, inp), sn, inp)
  {
    hide Of;
    var started := d.(runInfo := StartedInfo(d, inp));
    var state := StartedState(d, inp);
    var h := HistoryRecord(History.ForStart(started, inp.now).value);
    var input := if d.msg.input.Some? then [RunInputRecord(d.runInfo.wfID, d.runInfo.id, d.msg.input.value)] else [];
    var head := [h, RunInfoRecord(started.runInfo)] + input;
    BeginHeadView(h.history, started.runInfo, input, state);
    EnterStepView(started, state, 0, inp);
    PrependView(head + [RunStateRecord(state, 0)], StepRecords.EnterStep(started, state, 0, inp));
    JoinNothing(BeginView(d, inp));
  }

  lemma BeginHeadView(h: HistoryEvent, info: RunInfo, input: seq<Record>, state: RunState)
    requires input == [] || (|input| == 1 && input[0].RunInputRecord?)
    ensures Of([HistoryRecord(h), RunInfoRecord(info)] + input + [RunStateRecord(state, 0)])
         == NOTHING.(history := [h], infos := [info], outcomes := input, states := [RunStateRecord(state, 0)])
  {
    hide Of;
    HistoryAndInfoView(h, info);
    InputView(input);
    OfOne(RunStateRecord(state, 0));
    BeginParts([HistoryRecord(h), RunInfoRecord(info)], input, [RunStateRecord(state, 0)], h, info);
  }

  lemma HistoryAndInfoView(h: HistoryEvent, info: RunInfo)
    ensures Of([HistoryRecord(h), RunInfoRecord(info)]) == NOTHING.(history := [h], infos := [info])
  {
    hide Of;
    OfTwo(HistoryRecord(h), RunInfoRecord(info));
  }

  lemma InputView(input: seq<Record>)
    requires input == [] || (|input| == 1 && input[0].RunInputRecord?)
    ensures Of(input) == NOTHING.(outcomes := input)
  {
    if input != [] { OfOne(input[0]); }
  }

  lemma BeginParts(head: seq<Record>, input: seq<Record>, last: seq<Record>, h: HistoryEvent, info: RunInfo)
    requires Of(head) == NOTHING.(history := [h], infos := [info])
    requires Of(input) == NOTHING.(outcomes := input) && Of(last) == NOTHING.(states := last)
    ensures Of(head + input + last) == NOTHING.(history := [h], infos := [info], outcomes := input, states := last)
  {
    hide Of;
    OfParts(head, input, last);
    JoinBegin(h, info, input, last);
  }

  lemma JoinBegin(h: HistoryEvent, info: RunInfo, input: seq<Record>, states: seq<Record>)
    ensures Join(Join(NOTHING.(history := [h], infos := [info]), NOTHING.(outcomes := input)),
      NOTHING.(states := states))
         == NOTHING.(history := [h], infos := [info], outcomes := input, states := states)
  {
  }

  lemma CancelDescribes(d: Directive, sn: StateSnapshot, inp: Inputs)
    requires d.kind == CancelKind && !sn.runState.IsTerminal()
    ensures Describes(PlanEffect(d, sn, inp), OnCancel(d, sn, inp), sn, inp)
  {
    hide Of;
    if sn.runState.kind != StepState {
      CancelRunDescribes(d, sn, inp);
    } else if d.msg.CancelMsg? {
      CancelReceivedView(d, sn.runState);
    }
  }

  lemma PlanDescribes(d: Directive, sn: StateSnapshot, inp: Inputs)
    ensures Describes(PlanEffect(d, sn, inp), Plan(d, sn, inp), sn, inp)
  {
    hide Of;
    if !sn.runState.IsTerminal() {
      match d.kind {
        case StartKind => if d.msg.StartMsg? { BeginDescribes(d, sn, inp); }
        case StepResultKind =>
          if d.msg.StepResultMsg? {
            if d.msg.nextKind == FailStepKind { FailedResultDescribes(d, sn, inp); }
              else { SuccessfulResultDescribes(d, sn, inp); }
          }
        case CancelKind => CancelDescribes(d, sn, inp);
        case EventKind =>
          if d.msg.EventMsg? {
            EventReceivedView(d, sn, inp);
            JoinNothing(ReceiveView(d, sn, inp));
          }
        case WakeFromInboxKind =>
          if sn.runState.kind == WaitState && sn.event.Some? { TransitionDescribes(sn.event.value, sn, inp); }
        case _ => TransitionDescribes(d, sn, inp);
      }
    }
  }

  /** The batch a handler commits holds, kind by kind and in order, exactly what its move stands for; no
      move means no batch. */
  lemma EffectIsBatch(d: Directive, sn: StateSnapshot, inp: Inputs)
    ensures WellFormed(EffectOf(d, sn, inp))
    ensures EffectOf(d, sn, inp).Effect? ==>
      && Decide(d, sn, inp).Write? && Decide(d, sn, inp).batch != []
      && Of(Decide(d, sn, inp).batch) == EffectView(EffectOf(d, sn, inp), sn, inp)
    ensures EffectOf(d, sn, inp).NoEffect? ==> Decide(d, sn, inp).Write? ==> Decide(d, sn, inp).batch == []
  {
    if Plan(d, sn, inp).Err? {
      var failD := RunRecords.FailDirective(inp.newID, inp.now, d,
        ErrorDetails("UnexpectedFailure", "An unexpected error occurred while processing a directive"));
      FailDescribes(failD, sn, inp);
    } else {
      PlanDescribes(d, sn, inp);
    }
  }

  /** Only a start begins a run, only an event is received, and a move that stays keeps the run's identity. */
  predicate Rooted(d: Directive, sn: StateSnapshot, e: Effect) {
    && (e.Effect? && e.move.Begin? ==> d.kind == StartKind && e.move.via == d)
    && (e.Effect? && e.move.Receive? ==> d.kind == EventKind && e.move.via == d)
    && (e.Effect? && e.move.Stay? ==> e.move.state.Key() == sn.runState.Key())
  }

  lemma TransitionRooted(d: Directive, sn: StateSnapshot, inp: Inputs)
    ensures Rooted(d, sn, TransitionEffect(d, sn, inp))
    ensures TransitionEffect(d, sn, inp).Effect? ==>
      !TransitionEffect(d, sn, inp).move.Begin? && !TransitionEffect(d, sn, inp).move.Receive?
  {
  }

  lemma ResultRooted(d: Directive, sn: StateSnapshot, inp: Inputs)
    ensures Rooted(d, sn, ResultEffect(d, sn, inp))
  {
    if d.msg.StepResultMsg? { TransitionRooted(NextDirective(d, sn.lastHistorySeqID, inp.now), sn, inp); }
  }

  lemma PlanRooted(d: Directive, sn: StateSnapshot, inp: Inputs)
    ensures Rooted(d, sn, PlanEffect(d, sn, inp))
  {
    TransitionRooted(d, sn, inp);
    ResultRooted(d, sn, inp);
    if sn.event.Some? { TransitionRooted(sn.event.value, sn, inp); }
  }

  lemma MoveOrigin(d: Directive, sn: StateSnapshot, inp: Inputs)
    ensures Rooted(d, sn, EffectOf(d, sn, inp))
  {
    hide PlanEffect, Plan;
    PlanRooted(d, sn, inp);
  }

  /** A start has the same effect from any state that is not terminal. */
  lemma StartEffect(d: Directive, sn: StateSnapshot, inp: Inputs)
    requires d.kind == StartKind && d.msg.StartMsg? && !sn.runState.IsTerminal()
    ensures EffectOf(d, sn, inp) == Effect(NOTHING, Begin(d))
  {
  }

  /** An event is received from any state that is not terminal. */
  lemma EventEffect(d: Directive, sn: StateSnapshot, inp: Inputs)
    requires d.kind == EventKind && d.msg.EventMsg?
    ensures EffectOf(d, sn, inp) == if sn.runState.IsTerminal() then NoEffect else Effect(NOTHING, Receive(d))
  {
  }
}
