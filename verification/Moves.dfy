/** What each move adds to the log, field by field, and the same said of the messages of a batch. */
module Moves {
  import opened Types
  import opened Views
  import opened Effects
  import BuilderViews
  import History
  import StepRecords
  import InboxRecords

  /** The state a move leaves behind, if it writes one. */
  function NewState(e: Effect, sn: StateSnapshot, inp: Inputs): Option<RunState> {
    if e.NoEffect? then None
    else
      var s := sn.runState;
      match e.move
      case Begin(via) => Some(StartedState(via, inp).(kind := StepState, activeDirectiveID := via.id))
      case Receive(_) => None
      case Stay(s') => Some(s')
      case ToStep(via, cursor) => Some(s.(kind := StepState, enteredAt := inp.now, activeDirectiveID := via.id,
        lastEventSeqID := cursor))
      case ToWait(via) => Some(s.(kind := WaitState, enteredAt := inp.now, activeDirectiveID := via.id))
      case ToEnd(_, kind) => Some(s.(kind := kind, enteredAt := inp.now, activeDirectiveID := NO_ID))
  }

  /** The directive a step is entered for, as the worker and the timer see it. */
  function StepDirective(e: Effect, sn: StateSnapshot, inp: Inputs): Option<Directive> {
    if e.NoEffect? then None
    else match e.move
      case Begin(via) => Some(StepRecords.Filled(via.(runInfo := StartedInfo(via, inp)), StartedState(via, inp)))
      case ToStep(via, _) => Some(StepRecords.Filled(via, sn.runState))
      case _ => None
  }

  function NewTimers(e: Effect, sn: StateSnapshot, inp: Inputs): seq<Timer>
    requires WellFormed(e)
  {
    var step := StepDirective(e, sn, inp);
    if step.Some? then [StepRecords.StepTimeoutTimer(step.value, inp).value]
    else if e.Effect? && e.move.ToWait? then
      var via := e.move.via;
      var timeout := if via.msg.timeout == 0 then inp.waitTimeoutMS else via.msg.timeout;
      [InboxRecords.WaitTimeoutTimer(via, timeout, via.msg.timeoutStepName, inp.now)]
    else []
  }

  function NewDispatches(e: Effect, sn: StateSnapshot, inp: Inputs): seq<Directive> {
    var step := StepDirective(e, sn, inp);
    if step.Some? then [step.value.(runInfo := step.value.runInfo.StartStep(step.value.timestamp))] else []
  }

  /** The last run info a move writes. */
  function NewInfo(e: Effect, sn: StateSnapshot, inp: Inputs): Option<RunInfo>
    requires WellFormed(e)
  {
    if e.NoEffect? then None
    else match e.move
      case Begin(_) => Some(StepDirective(e, sn, inp).value.runInfo.StartStep(e.move.via.timestamp))
      case ToStep(_, _) => Some(StepDirective(e, sn, inp).value.runInfo.StartStep(e.move.via.timestamp))
      case ToWait(via) => Some(via.runInfo.Wait())
      case ToEnd(via, kind) => Some(via.runInfo.(status := StatusFor(kind), completedAt := Some(via.timestamp)))
      case _ => None
  }

  function NewInfos(e: Effect, sn: StateSnapshot, inp: Inputs): seq<RunInfo>
    requires WellFormed(e)
  {
    if NewInfo(e, sn, inp).None? then []
    else if e.move.Begin? then [StartedInfo(e.move.via, inp), NewInfo(e, sn, inp).value]
    else [NewInfo(e, sn, inp).value]
  }

  function NewQueued(e: Effect, sn: StateSnapshot, inp: Inputs): seq<Directive> {
    if e.NoEffect? then []
    else match e.move
      case Receive(via) => if sn.runState.kind == WaitState && sn.event.None?
        then [InboxRecords.Wake(via, inp.now).directive] else []
      case ToWait(via) => if sn.event.Some? then [InboxRecords.Wake(via, inp.now).directive] else []
      case _ => []
  }

  function NewInbox(e: Effect): seq<Directive> {
    if e.Effect? && e.move.Receive? then [e.move.via] else []
  }

  /** The tasks that come with the end of a run. */
  function EndTasks(e: Effect, sn: StateSnapshot): seq<BackgroundTask>
    requires WellFormed(e)
  {
    if e.NoEffect? || !e.move.ToEnd? then []
    else
      var via := e.move.via;
      match e.move.kind
      case CompleteState => CallbackTasks(via, Completed, via.msg.result, None) + [BuilderViews.Purge(via)]
      case FailState =>
        WorkerTasks(via, sn.runState) + CallbackTasks(via, Failed, None,
          Some(via.msg.error)) + [BuilderViews.Purge(via)]
      case CancelState =>
        CallbackTasks(via, Cancelled, None, Some(ErrorDetails("Cancelled",
          Reason(via.msg.reason, "workflow was cancelled"))))
        + [BuilderViews.Purge(via)]
      case TerminateState =>
        WorkerTasks(via, sn.runState)
        + CallbackTasks(via, Terminated, None, Some(ErrorDetails("Terminated",
          Reason(via.msg.reason, "run was terminated"))))
        + [BuilderViews.Purge(via)]
  }

  function NewTasks(e: Effect, sn: StateSnapshot): seq<BackgroundTask>
    requires WellFormed(e)
  {
    if e.NoEffect? then [] else e.before.tasks + EndTasks(e, sn)
  }

  /** The history event that ends the run. */
  function EndHistory(e: Effect): Option<HistoryEvent>
    requires WellFormed(e)
  {
    if e.NoEffect? || !e.move.ToEnd? then None
    else
      var via := e.move.via;
      match e.move.kind
      case CompleteState => Some(History.ForComplete(via).value)
      case FailState => Some(History.ForFail(via).value)
      case CancelState => Some(History.ForCancel(via).value)
      case TerminateState => Some(History.ForTerminate(via).value)
  }

  /* These are the fields of the effect's view. */

  lemma TimerFields(e: Effect, sn: StateSnapshot, inp: Inputs)
    requires e.Effect? && WellFormed(e)
    ensures EffectView(e, sn, inp).timers == NewTimers(e, sn, inp)
    ensures EffectView(e, sn, inp).dispatches == NewDispatches(e, sn, inp)
  {
  }

  lemma InfoFields(e: Effect, sn: StateSnapshot, inp: Inputs)
    requires e.Effect? && WellFormed(e)
    ensures EffectView(e, sn, inp).infos == NewInfos(e, sn, inp)
  {
  }

  lemma QueueFields(e: Effect, sn: StateSnapshot, inp: Inputs)
    requires e.Effect? && WellFormed(e)
    ensures EffectView(e, sn, inp).queued == NewQueued(e, sn, inp)
    ensures EffectView(e, sn, inp).inbox == NewInbox(e)
  {
  }

  lemma TaskFields(e: Effect, sn: StateSnapshot, inp: Inputs)
    requires e.Effect? && WellFormed(e)
    ensures EffectView(e, sn, inp).tasks == NewTasks(e, sn)
    ensures EffectView(e, sn, inp).kvs == e.before.kvs
    ensures forall r :: r in EffectView(e, sn, inp).outcomes ==> OutcomeOf(e, r)
  {
  }

  /** The input, output and error of a run are kept when it starts and when it ends. */
  predicate OutcomeOf(e: Effect, r: Record) {
    && e.Effect? && (e.move.Begin? || e.move.ToEnd?)
    && (r.RunInputRecord? || r.RunOutputRecord? || r.RunErrorRecord?)
    && r.wfID == e.move.via.runInfo.wfID && r.runID == e.move.via.runInfo.id
  }

  /** The history a move adds, behind what came before it. */
  function MoveHistory(e: Effect, inp: Inputs): seq<HistoryEvent>
    requires WellFormed(e)
  {
    if e.NoEffect? then []
    else match e.move
      case Begin(via) => [History.ForStart(via.(runInfo := StartedInfo(via, inp)), inp.now).value]
      case Receive(via) => [History.ForEvent(via, inp.now).value]
      case ToWait(via) => [History.ForWait(via, inp.now).value]
      case ToEnd(_, _) => [EndHistory(e).value]
      case _ => []
  }

  function NewHistory(e: Effect, inp: Inputs): seq<HistoryEvent>
    requires WellFormed(e)
  {
    if e.NoEffect? then [] else e.before.history + MoveHistory(e, inp)
  }

  lemma HistoryFields(e: Effect, sn: StateSnapshot, inp: Inputs)
    requires e.Effect? && WellFormed(e)
    ensures EffectView(e, sn, inp).history == NewHistory(e, inp)
  {
  }

  function NewStates(e: Effect, sn: StateSnapshot, inp: Inputs): seq<Record> {
    var s := NewState(e, sn, inp);
    if s.None? then []
    else if e.move.Begin? then [RunStateRecord(StartedState(e.move.via, inp), 0), RunStateRecord(s.value, 0)]
    else [RunStateRecord(s.value, sn.runState.seqID)]
  }

  lemma StateFields(e: Effect, sn: StateSnapshot, inp: Inputs)
    requires e.Effect? && WellFormed(e)
    ensures EffectView(e, sn, inp).states == NewStates(e, sn, inp)
  {
  }

  /* The records of a batch and its messages */

  /** Whether an effect puts a record in its batch. */
  predicate Fits(e: Effect, sn: StateSnapshot, inp: Inputs, r: Record)
    requires WellFormed(e)
  {
    match r
    case RunInfoRecord(info) => info in NewInfos(e, sn, inp)
    case RunStateRecord(_, _) => r in NewStates(e, sn, inp)
    case TimerRecord(t) => t in NewTimers(e, sn, inp)
    case HistoryRecord(h) => h in NewHistory(e, inp)
    case InboxRecord(d) => d in NewInbox(e)
    case KVRecord(_, _, _) => e.Effect? && r in e.before.kvs
    case WorkerTaskDispatch(d) => d in NewDispatches(e, sn, inp)
    case DirectiveRecord(d) => d in NewQueued(e, sn, inp)
    case BackgroundTaskRecord(t) => t in NewTasks(e, sn)
    case _ => OutcomeOf(e, r)
  }

  /** The view holds what the effect adds; its history is what came before, then any end of the run. */
  predicate ViewOf(e: Effect, sn: StateSnapshot, inp: Inputs, v: View)
    requires WellFormed(e)
  {
    && e.Effect?
    && v.states == NewStates(e, sn, inp) && v.infos == NewInfos(e, sn, inp) && v.timers == NewTimers(e, sn, inp)
    && v.dispatches == NewDispatches(e, sn, inp) && v.queued == NewQueued(e, sn, inp) && v.inbox == NewInbox(e)
    && v.tasks == NewTasks(e, sn) && v.kvs == e.before.kvs
    && (forall r :: r in v.outcomes ==> OutcomeOf(e, r))
    && v.history == NewHistory(e, inp)
  }

  /** The events an effect ends the run with: one if it does, none otherwise. */
  function Ending(e: Effect): seq<HistoryEvent>
    requires WellFormed(e)
  {
    if EndHistory(e).Some? then [EndHistory(e).value] else []
  }

  lemma EndFields(e: Effect, inp: Inputs)
    requires e.Effect? && WellFormed(e)
    ensures EndEvents(NewHistory(e, inp)) == EndEvents(e.before.history) + Ending(e)
  {
    hide EndEvents, MoveHistory;
    EndEventsAppend(e.before.history, MoveHistory(e, inp));
    MoveEnds(e, inp);
  }

  lemma MoveEnds(e: Effect, inp: Inputs)
    requires e.Effect? && WellFormed(e)
    ensures EndEvents(MoveHistory(e, inp)) == Ending(e)
  {
    var more := MoveHistory(e, inp);
    if e.move.ToEnd? {
      assert more == [EndHistory(e).value] && more[1..] == [];
    } else {
      NoEndEvents(more);
    }
  }

  lemma EffectViewOf(e: Effect, sn: StateSnapshot, inp: Inputs)
    requires e.Effect? && WellFormed(e)
    ensures ViewOf(e, sn, inp, EffectView(e, sn, inp))
  {
    TimerFields(e, sn, inp);
    InfoFields(e, sn, inp);
    QueueFields(e, sn, inp);
    TaskFields(e, sn, inp);
    HistoryFields(e, sn, inp);
    StateFields(e, sn, inp);
  }

  /** The kinds of records that an effect pins down completely. */
  predicate Pinned(r: Record) {
    !r.RunInputRecord? && !r.RunOutputRecord? && !r.RunErrorRecord?
  }

  /** The batch of an effect holds the records that fit it and, of the pinned kinds, all of them. */
  lemma BatchFits(e: Effect, sn: StateSnapshot, inp: Inputs, batch: seq<Record>, r: Record)
    requires WellFormed(e) && ViewOf(e, sn, inp, Of(batch))
    ensures r in batch ==> Fits(e, sn, inp, r)
    ensures Pinned(r) && Fits(e, sn, inp, r) ==> r in batch
  {
    OfMembers(batch, r);
  }
}
