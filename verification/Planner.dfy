/** The decision layer: from a directive and a snapshot to a batch of records (run/plan.go). */
module Planner {
  import opened Types
  import RunRecords
  import StepRecords
  import InboxRecords

  function Plan(d: Directive, sn: StateSnapshot, inp: Inputs): Result<seq<Record>> {
    if sn.runState.IsTerminal() then Ok([])
    else match d.kind
      case StartKind => FromRunStart(d, inp)
      case StepResultKind => FromStepResult(d, sn, inp)
      case CancelKind => OnCancel(d, sn, inp)
      case EventKind => InboxRecords.EventReceived(d, sn, inp)
      case WakeFromInboxKind => WakeFromInbox(sn, inp)
      case _ => Transition(d, sn, inp)
  }

  function FromRunStart(d: Directive, inp: Inputs): Result<seq<Record>> {
    var d := d.(runInfo := d.runInfo.Start(inp.now));
    var state := NewRunState(d, StartState, inp.now).(startedAt := d.runInfo.startedAt);
    var start :- RunRecords.Start(d);
    Prepend(start + [RunStateRecord(state, 0)], StepRecords.StepStart(d, state, inp))
  }

  function NextDirective(d: Directive, lastHistorySeqID: nat, now: Time): Directive
    requires d.msg.StepResultMsg?
  {
    Directive(Next(d.id), now, d.msg.nextKind, d.runInfo.(historySeqID := lastHistorySeqID + 1), d.msg.nextMsg)
  }

  function FromStepResult(d: Directive, sn: StateSnapshot, inp: Inputs): Result<seq<Record>> {
    if !d.msg.StepResultMsg? then Err(WrongMessage)
    else
      var nextD := NextDirective(d, sn.lastHistorySeqID, inp.now);
      if nextD.kind == FailStepKind then
        if !nextD.msg.FailStepMsg? then Err(WrongMessage)
        else
          var stepFail :- StepRecords.StepFail(d, sn.runState, inp.now);
          var failD := RunRecords.FailDirective(nextD.id, nextD.timestamp, nextD, nextD.msg.error);
          Prepend(stepFail, RunRecords.FailRun(failD, sn.runState, inp.now))
      else
        var complete :- StepRecords.StepComplete(d, sn.runState, inp.now);
        Prepend(complete,
                if sn.runState.pendingCancel.Some?
                then RunRecords.CancelRun(sn.runState.pendingCancel.value, sn.runState, inp.now)
                else Transition(nextD, sn, inp))
  }

  function OnCancel(d: Directive, sn: StateSnapshot, inp: Inputs): Result<seq<Record>> {
    if sn.runState.kind == StepState then RunRecords.CancelReceived(d, sn.runState)
    else RunRecords.CancelRun(d, sn.runState, inp.now)
  }

  function WakeFromInbox(sn: StateSnapshot, inp: Inputs): Result<seq<Record>> {
    if sn.runState.kind != WaitState || sn.event.None? then Ok([])
    else Transition(sn.event.value, sn, inp)
  }

  function Transition(d: Directive, sn: StateSnapshot, inp: Inputs): Result<seq<Record>> {
    var state := sn.runState;
    match d.kind
    case StepKind => StepRecords.StepStart(d, state, inp)
    case StepPickedUpKind => StepRecords.StepPickedUp(d, state)
    case EventKind => InboxRecords.EventStart(d, state, inp)
    case StepTimeoutKind => StepRecords.StepTimeout(d, state, inp)
    case CompleteKind => RunRecords.CompleteRun(d, state, inp.now)
    case FailKind => RunRecords.FailRun(d, state, inp.now)
    case TerminateKind => RunRecords.TerminateRun(d, state, inp.now)
    case WaitKind => InboxRecords.Wait(d, sn, inp)
    case WaitTimeoutKind => InboxRecords.WaitTimeout(d, state, inp)
    case _ => Err(UnknownDirectiveKind)
  }

  /** What a handler does with a directive: commit a batch, give up on it, or crash. An error
      from the planner turns into the batch that fails the run. */
  datatype Decision = Write(batch: seq<Record>) | GiveUp | Crash

  function Decide(d: Directive, sn: StateSnapshot, inp: Inputs): Decision {
    match Plan(d, sn, inp)
    case Ok(batch) => Write(batch)
    case Panic => Crash
    case Err(_) =>
      match RunRecords.BuildUnexpectedFailure(d, sn.runState, inp)
      case Ok(batch) => Write(batch)
      case Panic => Crash
      case Err(_) => GiveUp
  }
}
