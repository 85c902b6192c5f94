/** What the engine may count on: how directives come about, that generated IDs are fresh, that a start is
    applied once, and that a workflow ID is only reused once what the run before left behind is gone. */
module Discipline {
  import opened Types
  import opened Stream
  import opened Effects
  import opened Protocol
  import opened Worlds

  /** What never changes about a run. */
  datatype Identity = Identity(id: RunID, wfID: WFID, wfType: WFType, parentWFID: Option<WFID>,
    callback: Option<string>)

  function IdentityOf(ri: RunInfo): Identity {
    Identity(ri.id, ri.wfID, ri.wfType, ri.parentWFID, ri.parentCallbackStep)
  }

  predicate FreshID(w: World, id: DirectiveID) {
    id.Base? && id !in w.used
  }

  /** A run info some reader got from the store. */
  predicate Known(log: seq<Message>, ri: RunInfo) {
    Stored(RunInfoRecord(ri)) in log
  }

  /** A run info a worker was handed with a task. */
  predicate Assigned(log: seq<Message>, ri: RunInfo) {
    exists m :: m in log && m.Stored? && m.record.WorkerTaskDispatch? && m.record.directive.runInfo == ri
  }

  /** The callback to a parent: its ID is derived from the notify task of the child. */
  predicate IsCallback(log: seq<Message>, id: DirectiveID) {
    && id.Callback?
    && exists m ::
         && m in log && m.Stored? && m.record.BackgroundTaskRecord?
         && m.record.task.kind == NotifyTask && m.record.task.dedupID == id.parent
  }

  predicate MayEnqueue(w: World, d: Directive) {
    && Shaped(d)
    && match d.kind
       case StartKind => FreshID(w, d.id) && d.Key() in w.runs && d.runInfo == w.runs[d.Key()]
       case EventKind => (FreshID(w, d.id) || IsCallback(w.stream.log, d.id)) && Known(w.stream.log, d.runInfo)
       case CancelKind => FreshID(w, d.id) && Known(w.stream.log, d.runInfo)
       case TerminateKind => FreshID(w, d.id) && Known(w.stream.log, d.runInfo)
       case StepPickedUpKind => FreshID(w, d.id) && Assigned(w.stream.log, d.runInfo)
       case StepResultKind => FreshID(w, d.id) && Assigned(w.stream.log, d.runInfo)
       case _ => false
  }

  /** The check a start request makes: there is no run of the workflow ID, or its last run has ended. */
  predicate MayStart(w: World, info: RunInfo) {
    && info.Key() !in w.runs && info.wfID != "" && info.id != "" && !info.status.IsTerminal()
    && var q := LastInfo(w.stream.log, info.wfID);
       q > 0 ==> w.stream.log[q - 1].record.info.status.IsTerminal()
  }

  /** The inbox of a workflow ID holds events of one run only. */
  predicate OwnInbox(st: Stream, key: RunKey) {
    forall i {:trigger st.log[i]} ::
      0 <= i < |st.log| && st.Visible(i + 1) && st.log[i].Subject() == InboxSubject(key.wfID) ==>
        st.log[i].record.directive.Key() == key
  }

  predicate Allowed(w: World, a: Action)
    requires Enabled(w, a)
  {
    match a
    case Enqueue(d) => MayEnqueue(w, d)
    case CheckStart(info) => w.starting.None? && MayStart(w, info)
    case CreateRun(info) => w.starting == Some(info)
    case ReadEvent(h) => w.handlers[h].state.IsTerminal() || OwnInbox(w.stream, w.handlers[h].d.Key())
    case Finish(h, inp, _, _, _, e) =>
      && FreshID(w, inp.newID)
      && (e.Effect? && e.move.Begin? ==> RunStateOf(w.stream.log, w.handlers[h].d.Key()) == NO_STATE)
    case HandleFired(_, newID, _, _, _) => FreshID(w, newID)
    case Purge(q) =>
      forall key :: key in w.runs && key.wfID == TaskAt(w.stream.log, q).value.wfID ==>
        RunStateOf(w.stream.log, key).IsTerminal()
    case _ => true
  }

  /** A world that some n steps lead to, each of them allowed where it happens. */
  ghost predicate Reached(w: World, n: nat)
    decreases n, 1
  {
    if n == 0 then w == INIT else exists w0, a :: ReachedStep(w0, a, w, n)
  }

  ghost predicate ReachedStep(w0: World, a: Action, w: World, n: nat)
    requires n > 0
    decreases n, 0
  {
    Reached(w0, n - 1) && Enabled(w0, a) && Honest(w0, a) && Allowed(w0, a) && w == Apply(w0, a)
  }

  lemma ReachedFrom(w: World, n: nat) returns (w0: World, a: Action)
    requires n > 0 && Reached(w, n)
    ensures Reached(w0, n - 1) && Enabled(w0, a) && Honest(w0, a) && Allowed(w0, a) && w == Apply(w0, a)
  {
    hide Enabled, Honest, Allowed, Apply;
    w0, a :| ReachedStep(w0, a, w, n);
  }
}
