/** Which directives the parties of the protocol send, and what the engine does with each of them. */
module Protocol {
  import opened Types
  import opened Views
  import opened Planner
  import opened Effects
  import History
  import RunRecords
  import StepRecords

  /** A directive as clients, workers, timers and the engine itself send them: decoded, so that message and
      kind agree, and with a step result that moves on to a step, a wait or the end of the run. */
  predicate Shaped(d: Directive) {
    d.msg.Kind() == d.kind &&
    match d.kind
    case EventKind => d.msg.eventSeqID.None?
    case StepResultKind =>
      && d.msg.processed.Dispatchable() && d.msg.nextMsg.Kind() == d.msg.nextKind
      && d.msg.nextKind in {StepKind, WaitKind, CompleteKind, FailKind, FailStepKind}
    case FailStepKind => false
    case CompleteKind => false
    case WaitKind => false
    case StepKind => false
    case UnknownKind => false
    case _ => true
  }

  /** Answers of workers and timers come from a run that was started. */
  predicate Tame(d: Directive) {
    Shaped(d) &&
    (d.kind in {StepPickedUpKind, StepResultKind, StepTimeoutKind, WaitTimeoutKind, FailKind} ==>
      d.runInfo.startedAt.Some?)
  }

  /** The next event of a run as read back from its inbox. */
  predicate TameEvent(ev: Option<Directive>) {
    ev.Some? ==> ev.value.kind == EventKind && ev.value.msg.EventMsg? && ev.value.msg.eventSeqID.Some?
  }

  /** A deferred cancel is a cancel. */
  predicate TameState(s: RunState) {
    s.pendingCancel.Some? ==> s.pendingCancel.value.msg.CancelMsg?
  }

  /** What comes ahead of the move when a step has finished. */
  predicate ResultFirst(v: View, d: Directive, s: RunState)
    requires d.msg.StepResultMsg?
  {
    && v.kvs == StepRecords.KVUpdate(d)
    && v.tasks == [StepRecords.DeleteStepTimeoutTimer(d, s).task]
    && |v.history| == 1 && !v.history[0].EndsRun() && v.history[0].wfID == d.runInfo.wfID &&
      v.history[0].runID == d.runInfo.id
    && (v.history[0].msg.StepFailed? <==> d.msg.nextKind == FailStepKind)
    && (v.history[0].msg.StepCompleted? <==> d.msg.nextKind != FailStepKind)
  }

  predicate Plain(v: View) {
    v.kvs == [] && v.tasks == [] && forall h :: h in v.history ==>
      !h.EndsRun() && !h.msg.StepCompleted? && !h.msg.StepFailed?
  }

  /** The run fails on behalf of `d`. */
  predicate FailsFor(e: Effect, d: Directive, id: DirectiveID) {
    e.Effect? && e.move.ToEnd? && e.move.kind == FailState && e.move.via.id == id && e.move.via.runInfo == d.runInfo
  }

  predicate StaleStep(d: Directive, s: RunState)
    requires d.msg.StepTimeoutMsg?
  {
    s.kind != StepState || s.activeDirectiveID != d.msg.original
  }

  predicate StaleWait(d: Directive, s: RunState)
    requires d.msg.WaitTimeoutMsg?
  {
    s.kind != WaitState || s.activeDirectiveID != d.msg.original
  }

  /** What each directive of the protocol does to a run that is in the state of the snapshot. */
  predicate Explains(d: Directive, sn: StateSnapshot, inp: Inputs, e: Effect)
    requires Tame(d)
  {
    e.Effect? ==>
      var s := sn.runState;
      && !s.IsTerminal()
      && match d.kind
         case StartKind => e.move == Begin(d) && Plain(e.before)
         case EventKind => e.move == Receive(d) && Plain(e.before)
         case CancelKind =>
           Plain(e.before) && e.move == if s.kind == StepState then Stay(s.(pendingCancel := Some(d)))
             else ToEnd(d, CancelState)
         case TerminateKind => e.move == ToEnd(d, TerminateState) && Plain(e.before)
         case StepPickedUpKind => e.move == Stay(s.(workerID := Some(d.msg.workerID))) && Plain(e.before)
         case StepResultKind => ResultFirst(e.before, d, s) && ExplainsResult(d, sn, inp, e)
         case StepTimeoutKind =>
           && Plain(e.before) && FailsFor(e, d, inp.newID)
           && ((exists h :: h in e.before.history && h.msg.StepTimedOut?) <==> !StaleStep(d, s))
         case WaitTimeoutKind =>
           && Plain(e.before)
           && ((exists h :: h in e.before.history && h.msg.WaitTimedOut?) <==> !StaleWait(d, s))
           && (if !StaleWait(d, s) && d.msg.timeoutStepName != ""
               then e.move == ToStep(Directive(Next(d.id), inp.now, StepKind, d.runInfo,
                 StepMsg(d.msg.timeoutStepName, 0)), s.lastEventSeqID)
               else FailsFor(e, d, inp.newID))
         case FailKind => e.move == ToEnd(d, FailState) && Plain(e.before)
         case WakeFromInboxKind =>
           s.kind == WaitState && sn.event.Some? && Plain(e.before) &&
             e.move == ToStep(sn.event.value, StepRecords.Cursor(sn.event.value, s))
         case _ => true
  }

  predicate ExplainsResult(d: Directive, sn: StateSnapshot, inp: Inputs, e: Effect)
    requires d.msg.StepResultMsg? && e.Effect?
  {
    var n := NextDirective(d, sn.lastHistorySeqID, inp.now);
    if d.msg.nextKind == FailStepKind then FailsFor(e, n, n.id)
    else if sn.runState.pendingCancel.Some? then e.move == ToEnd(sn.runState.pendingCancel.value, CancelState)
    else match d.msg.nextKind
      case StepKind => e.move == ToStep(n, sn.runState.lastEventSeqID)
      case WaitKind => e.move == ToWait(n)
      case CompleteKind => e.move == ToEnd(n, CompleteState)
      case FailKind => e.move == ToEnd(n, FailState)
      case _ => true
  }

  lemma ResultIsPlanned(d: Directive, sn: StateSnapshot, inp: Inputs)
    requires Tame(d) && d.kind == StepResultKind && TameState(sn.runState)
    ensures !Plan(d, sn, inp).Err?
  {
  }

  lemma AfterMove(v: View, move: Move)
    ensures After(v, Effect(NOTHING, move)) == Effect(v, move)
  {
    JoinNothing(v);
  }

  lemma ExplainedFailedResult(d: Directive, sn: StateSnapshot, inp: Inputs)
    requires Tame(d) && d.kind == StepResultKind && d.msg.nextKind == FailStepKind && !sn.runState.IsTerminal()
    ensures Explains(d, sn, inp, ResultEffect(d, sn, inp))
  {
    var n := NextDirective(d, sn.lastHistorySeqID, inp.now);
    var before := ResultBefore(d, History.ForStepFail(d.msg, d.runInfo, inp.now).value, sn.runState);
    AfterMove(before, ToEnd(RunRecords.FailDirective(n.id, n.timestamp, n, n.msg.error), FailState));
  }

  lemma ExplainedCancelledResult(d: Directive, sn: StateSnapshot, inp: Inputs)
    requires Tame(d) && d.kind == StepResultKind && d.msg.nextKind != FailStepKind && !sn.runState.IsTerminal()
    requires sn.runState.pendingCancel.Some?
    ensures Explains(d, sn, inp, ResultEffect(d, sn, inp))
  {
    var before := ResultBefore(d, History.ForStepComplete(d.msg, d.runInfo, inp.now).value, sn.runState);
    AfterMove(before, ToEnd(sn.runState.pendingCancel.value, CancelState));
  }

  lemma ExplainedSuccess(d: Directive, sn: StateSnapshot, inp: Inputs)
    requires Tame(d) && d.kind == StepResultKind && d.msg.nextKind != FailStepKind && !sn.runState.IsTerminal()
    requires sn.runState.pendingCancel.None?
    ensures Explains(d, sn, inp, ResultEffect(d, sn, inp))
  {
    var n := NextDirective(d, sn.lastHistorySeqID, inp.now);
    var before := ResultBefore(d, History.ForStepComplete(d.msg, d.runInfo, inp.now).value, sn.runState);
    AfterMove(before, TransitionMove(n, sn));
    assert TransitionEffect(n, sn, inp) == Effect(NOTHING, TransitionMove(n, sn));
  }

  function TransitionMove(n: Directive, sn: StateSnapshot): Move {
    match n.kind
    case StepKind => ToStep(n, sn.runState.lastEventSeqID)
    case WaitKind => ToWait(n)
    case CompleteKind => ToEnd(n, CompleteState)
    case _ => ToEnd(n, FailState)
  }

  lemma ExplainedResult(d: Directive, sn: StateSnapshot, inp: Inputs)
    requires Tame(d) && d.kind == StepResultKind && TameState(sn.runState)
    ensures Explains(d, sn, inp, EffectOf(d, sn, inp))
  {
    ResultIsPlanned(d, sn, inp);
    if !sn.runState.IsTerminal() {
      if d.msg.nextKind == FailStepKind {
        ExplainedFailedResult(d, sn, inp);
      } else if sn.runState.pendingCancel.Some? {
        ExplainedCancelledResult(d, sn, inp);
      } else {
        ExplainedSuccess(d, sn, inp);
      }
    }
    ResultEffectUsed(d, sn, inp);
  }

  lemma ResultEffectUsed(d: Directive, sn: StateSnapshot, inp: Inputs)
    requires d.kind == StepResultKind && !Plan(d, sn, inp).Err?
    ensures EffectOf(d, sn, inp) == NoEffect || (!sn.runState.IsTerminal() &&
      EffectOf(d, sn, inp) == ResultEffect(d, sn, inp))
  {
  }

  lemma ExplainedStepTimeout(d: Directive, sn: StateSnapshot, inp: Inputs)
    requires Tame(d) && d.kind == StepTimeoutKind && !sn.runState.IsTerminal()
    ensures Explains(d, sn, inp, TransitionEffect(d, sn, inp))
    ensures TransitionEffect(d, sn, inp).Effect? <==> !StaleStep(d, sn.runState)
  {
    if !StaleStep(d, sn.runState) {
      var h := History.ForStepTimeout(d, sn.runState, inp.now);
      AfterMove(NOTHING.(history := [h]),
                ToEnd(RunRecords.FailDirective(inp.newID, inp.now, d,
                  ErrorDetails("StepTimeout", "step " + d.msg.stepName + " timed out")), FailState));
      assert h in NOTHING.(history := [h]).history;
    }
  }

  lemma ExplainedWaitTimeout(d: Directive, sn: StateSnapshot, inp: Inputs)
    requires Tame(d) && d.kind == WaitTimeoutKind && !sn.runState.IsTerminal()
    ensures Explains(d, sn, inp, TransitionEffect(d, sn, inp))
    ensures TransitionEffect(d, sn, inp).Effect? <==> !StaleWait(d, sn.runState)
  {
    hide ResultFirst, ExplainsResult;
    if !StaleWait(d, sn.runState) {
      var h := History.ForWaitTimeout(d, inp.now);
      var v := NOTHING.(history := [h]);
      AfterMove(v, ToStep(Directive(Next(d.id), inp.now, StepKind, d.runInfo, StepMsg(d.msg.timeoutStepName, 0)),
        sn.runState.lastEventSeqID));
      AfterMove(v, ToEnd(RunRecords.FailDirective(inp.newID, inp.now, d,
        ErrorDetails("WaitTimeout", "wait timed out without a timeout step")), FailState));
      assert h in v.history;
    }
  }

  /** A stale timeout is not ignored: the run fails. */
  lemma StaleTimeoutFails(d: Directive, sn: StateSnapshot, inp: Inputs)
    requires Tame(d) && !sn.runState.IsTerminal()
    requires (d.kind == StepTimeoutKind && StaleStep(d, sn.runState)) ||
      (d.kind == WaitTimeoutKind && StaleWait(d, sn.runState))
    ensures Plan(d, sn, inp) == Err(StaleDirective)
    ensures EffectOf(d, sn, inp) == FailureEffect(d, inp) && FailsFor(EffectOf(d, sn, inp), d, inp.newID)
    ensures EffectOf(d, sn, inp).before == NOTHING
  {
    hide Plan;
    StalePlan(d, sn, inp);
    FailureFails(d, inp);
  }

  lemma StalePlan(d: Directive, sn: StateSnapshot, inp: Inputs)
    requires Tame(d) && !sn.runState.IsTerminal()
    requires (d.kind == StepTimeoutKind && StaleStep(d, sn.runState)) ||
      (d.kind == WaitTimeoutKind && StaleWait(d, sn.runState))
    ensures Plan(d, sn, inp) == Err(StaleDirective)
  {
  }

  lemma FailureFails(d: Directive, inp: Inputs)
    requires d.runInfo.startedAt.Some?
    ensures FailsFor(FailureEffect(d, inp), d, inp.newID) && FailureEffect(d, inp).before == NOTHING
  {
  }

  lemma FreshTimeoutPlanned(d: Directive, sn: StateSnapshot, inp: Inputs)
    requires Tame(d) && !sn.runState.IsTerminal()
    requires (d.kind == StepTimeoutKind && !StaleStep(d, sn.runState)) ||
      (d.kind == WaitTimeoutKind && !StaleWait(d, sn.runState))
    ensures Plan(d, sn, inp).Ok? && EffectOf(d, sn, inp) == TransitionEffect(d, sn, inp)
  {
  }

  lemma ExplainedTimeout(d: Directive, sn: StateSnapshot, inp: Inputs)
    requires Tame(d) && (d.kind == StepTimeoutKind || d.kind == WaitTimeoutKind)
    ensures Explains(d, sn, inp, EffectOf(d, sn, inp))
  {
    if sn.runState.IsTerminal() {
    } else if d.kind == StepTimeoutKind {
      hide EffectOf, TransitionEffect, Plan;
      if StaleStep(d, sn.runState) { StaleTimeoutFails(d, sn, inp); }
        else { FreshTimeoutPlanned(d, sn, inp); ExplainedStepTimeout(d, sn, inp); }
    } else {
      hide EffectOf, TransitionEffect, Plan;
      if StaleWait(d, sn.runState) { StaleTimeoutFails(d, sn, inp); }
        else { FreshTimeoutPlanned(d, sn, inp); ExplainedWaitTimeout(d, sn, inp); }
    }
  }

  lemma ExplainedWake(d: Directive, sn: StateSnapshot, inp: Inputs)
    requires Tame(d) && d.kind == WakeFromInboxKind && TameEvent(sn.event)
    ensures Explains(d, sn, inp, EffectOf(d, sn, inp))
  {
  }

  lemma ExplainedStart(d: Directive, sn: StateSnapshot, inp: Inputs)
    requires Tame(d) && d.kind == StartKind
    ensures Explains(d, sn, inp, EffectOf(d, sn, inp))
  {
    if !sn.runState.IsTerminal() {
      hide EffectOf;
      StartEffect(d, sn, inp);
    }
  }

  lemma ExplainedEvent(d: Directive, sn: StateSnapshot, inp: Inputs)
    requires Tame(d) && d.kind == EventKind
    ensures Explains(d, sn, inp, EffectOf(d, sn, inp))
  {
    hide EffectOf;
    EventEffect(d, sn, inp);
  }

  lemma CancelEffect(d: Directive, sn: StateSnapshot, inp: Inputs)
    requires d.kind == CancelKind && d.msg.CancelMsg?
    ensures EffectOf(d, sn, inp)
         == if sn.runState.IsTerminal() then NoEffect
            else if sn.runState.kind == StepState
            then Effect(NOTHING.(history := [History.ForCancelReceived(d).value]),
              Stay(sn.runState.(pendingCancel := Some(d))))
            else End(d, CancelState)
  {
  }

  lemma ExplainedCancel(d: Directive, sn: StateSnapshot, inp: Inputs)
    requires Tame(d) && d.kind == CancelKind
    ensures Explains(d, sn, inp, EffectOf(d, sn, inp))
  {
    hide EffectOf;
    CancelEffect(d, sn, inp);
  }

  lemma ExplainedOther(d: Directive, sn: StateSnapshot, inp: Inputs)
    requires Tame(d) && (d.kind == TerminateKind || d.kind == StepPickedUpKind || d.kind == FailKind)
    ensures Explains(d, sn, inp, EffectOf(d, sn, inp))
  {
  }

  /** The table of the state machine: every directive of the protocol has the effect listed for it. */
  lemma Explained(d: Directive, sn: StateSnapshot, inp: Inputs)
    requires Tame(d) && TameEvent(sn.event) && TameState(sn.runState)
    ensures Explains(d, sn, inp, EffectOf(d, sn, inp))
  {
    hide EffectOf, Explains;
    match d.kind
    case StepResultKind => ExplainedResult(d, sn, inp);
    case StepTimeoutKind => ExplainedTimeout(d, sn, inp);
    case WaitTimeoutKind => ExplainedTimeout(d, sn, inp);
    case WakeFromInboxKind => ExplainedWake(d, sn, inp);
    case StartKind => ExplainedStart(d, sn, inp);
    case EventKind => ExplainedEvent(d, sn, inp);
    case CancelKind => ExplainedCancel(d, sn, inp);
    case _ => ExplainedOther(d, sn, inp);
  }
}
