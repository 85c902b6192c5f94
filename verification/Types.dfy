/** The values the run engine exchanges: identifiers, directives and their messages, run info,
    run state, timers, background tasks, history events and the records a plan commits. */
module Types {

  // Times are milliseconds; payloads the engine never looks into are opaque.
  type Time = int
  type WFID = string
  type RunID = string
  type WFType = string
  type WorkerID = string
  type Value = string

  datatype Option<+T> = None | Some(value: T)

  /** What a planner function returns. `Panic` is a nil dereference, which ends the process. */
  datatype Result<+T> = Ok(value: T) | Err(error: PlanError) | Panic {
    predicate IsFailure() { !Ok? }

    function PropagateFailure<U>(): Result<U>
      requires !Ok?
    {
      if Panic? then Panic else Err(error)
    }

    function Extract(): T
      requires Ok?
    {
      value
    }
  }

  datatype PlanError = WrongMessage | NoStartTime | StaleDirective | UnknownDirectiveKind

  /* Identifiers. A directive ID is a fresh token or is derived from another ID; the
     strings these stand for are given by Naming.Render, which is shown to be injective. */

  datatype TaskKind = DeleteTimerTask | DeleteInboxTask | PurgeTask | NotifyTask | WorkerTerminateTask

  datatype DirectiveID =
    | Base(token: string)
    | Next(parent: DirectiveID)
    | ForTask(taskKind: TaskKind, parent: DirectiveID)
    | Callback(parent: DirectiveID)

  const NO_ID := Base("")

  datatype TimerKind = WaitTimer | StepTimer

  datatype TimerID = TimerID(kind: TimerKind, directive: DirectiveID)

  datatype RunKey = RunKey(wfID: WFID, runID: RunID)

  /* Run info */

  datatype RunStatus = Pending | Scheduled | Running | Completed | Failed | Cancelled | TimedOut | Terminated {
    predicate IsTerminal() {
      Completed? || Failed? || Cancelled? || TimedOut? || Terminated?
    }
  }

  /** `rest` stands for the descriptive fields the engine copies and never reads. */
  datatype RunInfo = RunInfo(
    id: RunID,
    wfID: WFID,
    wfType: WFType,
    status: RunStatus,
    parentWFID: Option<WFID>,
    parentCallbackStep: Option<string>,
    createdAt: Option<Time>,
    startedAt: Option<Time>,
    completedAt: Option<Time>,
    historySeqID: nat,
    rest: Value)
  {
    function Key(): RunKey { RunKey(wfID, id) }

    function Touched(timestamp: Time): RunInfo {
      if createdAt.None? then this.(createdAt := Some(timestamp)) else this
    }

    function Start(timestamp: Time): RunInfo {
      Touched(timestamp).(status := Running, startedAt := Some(timestamp))
    }

    function StartStep(timestamp: Time): RunInfo {
      Touched(timestamp).(status := Running)
    }

    function Wait(): RunInfo {
      this.(status := Running)
    }

    function Complete(timestamp: Time): Result<RunInfo> {
      if startedAt.None? then Err(NoStartTime)
      else Ok(this.(status := Completed, completedAt := Some(timestamp)))
    }

    function Fail(timestamp: Time): Result<RunInfo> {
      if startedAt.None? then Err(NoStartTime)
      else Ok(this.(status := Failed, completedAt := Some(timestamp)))
    }

    function Cancel(timestamp: Time): RunInfo {
      this.(status := Cancelled, completedAt := Some(timestamp))
    }

    function Terminate(timestamp: Time): RunInfo {
      this.(status := Terminated, completedAt := Some(timestamp))
    }
  }

  datatype ErrorDetails = ErrorDetails(kind: string, message: string)

  /* Directives */

  datatype DirectiveKind =
    | TerminateKind | CancelKind | StartKind | EventKind
    | StepResultKind | StepPickedUpKind | FailKind | FailStepKind | CompleteKind
    | WaitKind | StepKind | StepTimeoutKind | WaitTimeoutKind | WakeFromInboxKind
    | UnknownKind

  datatype Msg =
    | StartMsg(input: Option<Value>, timeout: nat)
    | StepMsg(name: string, timeout: nat)
    | StepTimeoutMsg(stepName: string, original: DirectiveID)
    | FailStepMsg(stepName: string, error: ErrorDetails)
    | WaitMsg(timeout: nat, timeoutStepName: string)
    | WaitTimeoutMsg(timeoutStepName: string, original: DirectiveID)
    | WakeFromInboxMsg
    | CancelMsg(reason: string)
    | TerminateMsg(reason: string)
    | EventMsg(eventSeqID: Option<nat>, eventName: string, payload: Value, timeout: nat)
    | CompleteMsg(result: Option<Value>)
    | FailMsg(error: ErrorDetails)
    | StepPickedUpMsg(stepName: string, workerID: WorkerID, timestamp: Time)
    | StepResultMsg(processed: Msg, workerID_: Option<WorkerID>, durationMS: int,
                    kvUpdates: Option<map<string, Value>>, nextKind: DirectiveKind, nextMsg: Msg)
    | NilMsg
  {
    /** The messages a worker can be asked to run. */
    predicate Dispatchable() {
      StartMsg? || StepMsg? || EventMsg?
    }

    function DispatchName(): string
      requires Dispatchable()
    {
      match this
      case StartMsg(_, _) => "start"
      case StepMsg(name, _) => name
      case EventMsg(_, eventName, _, _) => eventName
    }

    function DispatchTimeout(): nat
      requires Dispatchable()
    {
      match this
      case StartMsg(_, timeout) => timeout
      case StepMsg(_, timeout) => timeout
      case EventMsg(_, _, _, timeout) => timeout
    }

    /** The directive kind under which this message is decoded. */
    function Kind(): DirectiveKind {
      match this
      case StartMsg(_, _) => StartKind
      case StepMsg(_, _) => StepKind
      case StepTimeoutMsg(_, _) => StepTimeoutKind
      case FailStepMsg(_, _) => FailStepKind
      case WaitMsg(_, _) => WaitKind
      case WaitTimeoutMsg(_, _) => WaitTimeoutKind
      case WakeFromInboxMsg => WakeFromInboxKind
      case CancelMsg(_) => CancelKind
      case TerminateMsg(_) => TerminateKind
      case EventMsg(_, _, _, _) => EventKind
      case CompleteMsg(_) => CompleteKind
      case FailMsg(_) => FailKind
      case StepPickedUpMsg(_, _, _) => StepPickedUpKind
      case StepResultMsg(_, _, _, _, _, _) => StepResultKind
      case NilMsg => UnknownKind
    }
  }

  datatype Directive = Directive(id: DirectiveID, timestamp: Time, kind: DirectiveKind, runInfo: RunInfo, msg: Msg) {
    function Key(): RunKey { runInfo.Key() }
  }

  /* Run state */

  datatype RunStateKind =
    | UnsetState | StartState | StepState | WaitState
    | CompleteState | FailState | CancelState | TerminateState

  datatype RunState = RunState(
    wfID: WFID,
    runID: RunID,
    kind: RunStateKind,
    enteredAt: Time,
    startedAt: Option<Time>,
    lastEventSeqID: nat,
    activeDirectiveID: DirectiveID,
    workerID: Option<WorkerID>,
    pendingCancel: Option<Directive>,
    seqID: nat)  // the stream sequence the state was read at, 0 when there was none
  {
    function Key(): RunKey { RunKey(wfID, runID) }

    predicate IsTerminal() {
      kind == CompleteState || kind == FailState || kind == CancelState || kind == TerminateState
    }
  }

  const NO_STATE := RunState("", "", UnsetState, 0, None, 0, NO_ID, None, None, 0)

  function NewRunState(d: Directive, kind: RunStateKind, now: Time): RunState {
    RunState(d.runInfo.wfID, d.runInfo.id, kind, now, None, 0, NO_ID, None, None, 0)
  }

  /** What a handler read about a run before planning. */
  datatype StateSnapshot = StateSnapshot(runState: RunState, event: Option<Directive>, lastHistorySeqID: nat)

  datatype Timer = Timer(
    id: TimerID, kind: TimerKind, wfID: WFID, createdAt: Time, expiresAt: Time, stepName: string, directive: Directive)

  /* Background tasks */

  datatype TaskPayload =
    | DeleteTimerPayload(wfID: WFID, kind: TimerKind, timerID: TimerID)
    | DeleteInboxPayload(seqID: nat)
    | PurgePayload(wfID: WFID)
    | NotifyPayload(parentWFID: WFID, stepName: string, childWFID: WFID, status: RunStatus,
                    result: Option<Value>, error: Option<ErrorDetails>)
    | WorkerTerminatePayload(workerID: WorkerID, runID: RunID)

  datatype BackgroundTask = BackgroundTask(kind: TaskKind, dedupID: DirectiveID, payload: TaskPayload)

  /* History */

  datatype HistoryMsg =
    | RunStarted(input: Option<Value>)
    | RunCompleted(result: Option<Value>, durationMS: int)
    | RunFailed(error: ErrorDetails, durationMS: int)
    | RunCancelReceived
    | RunCancelled(reason: string, durationMS: int)
    | RunTerminated(reason: string, durationMS: int)
    | StepStarted(stepName: string)
    | StepCompleted(stepName: string, durationMS: int)
    | StepFailed(stepName: string, error: ErrorDetails, durationMS: int)
    | StepTimedOut(stepName: string, durationMS: int)
    | WaitStarted(directiveID: DirectiveID, timeout: nat, timeoutStepName: string)
    | WaitTimedOut(original: DirectiveID, timeoutStepName: string)
    | EventReceived(eventName: string, payload: Value)
    | WorkerRecorded(entry: Value)  // task results and the like, written by workers

  datatype HistoryEvent = HistoryEvent(wfID: WFID, runID: RunID, workerID: WorkerID, timestamp: Time, msg: HistoryMsg) {
    predicate EndsRun() {
      msg.RunCompleted? || msg.RunFailed? || msg.RunCancelled? || msg.RunTerminated?
    }
  }

  /* Records: what a plan asks the store to commit in one batch */

  datatype Record =
    | RunInfoRecord(info: RunInfo)
    | RunInputRecord(wfID: WFID, runID: RunID, input: Value)
    | RunOutputRecord(wfID: WFID, runID: RunID, result: Value)
    | RunErrorRecord(wfID: WFID, runID: RunID, error: ErrorDetails)
    | RunStateRecord(state: RunState, expectedSeq: nat)
    | TimerRecord(timer: Timer)
    | HistoryRecord(history: HistoryEvent)
    | InboxRecord(directive: Directive)
    | KVRecord(wfID: WFID, runID: RunID, kvMap: map<string, Value>)
    | WorkerTaskDispatch(directive: Directive)
    | DirectiveRecord(directive: Directive)
    | BackgroundTaskRecord(task: BackgroundTask)

  /** A batch that starts with `front`, unless building the rest of it failed. */
  function Prepend(front: seq<Record>, rest: Result<seq<Record>>): Result<seq<Record>> {
    if rest.Ok? then Ok(front + rest.value) else rest
  }

  /** The clock reading, the fresh ID and the server defaults available to one plan. */
  datatype Inputs = Inputs(now: Time, newID: DirectiveID, stepTimeoutMS: nat, waitTimeoutMS: nat)
}
