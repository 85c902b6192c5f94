/** The system as a state machine: directives are queued, delivered any number of times and handled
    concurrently. A handler reads the run state, the last history sequence and the next inbox event in
    three separate steps and then commits one batch; every other step may come in between. */
module Worlds {
  import opened Types
  import opened Stream
  import opened Wire
  import opened Planner
  import opened Effects

  /** A delivery being handled. `readAt` is the length of the log when the last history sequence was read. */
  datatype Handler = Handler(d: Directive, stage: nat, state: RunState, lastHistory: nat, readAt: nat,
    event: Option<Directive>) {
    function Snapshot(): StateSnapshot { StateSnapshot(state, event, lastHistory) }
  }

  /** A batch in the log: what was handled, what the handler had read, what it did to the run, and where
      the messages went. */
  datatype Commit = Commit(d: Directive, sn: StateSnapshot, inp: Inputs, effect: Effect, msgs: seq<Message>, at: nat,
    readAt: nat)

  datatype World = World(
    stream: Stream,
    queue: set<Directive>,   // every directive that was ever queued
    acked: set<Directive>,   // those a handler has acknowledged at least once
    gone: set<Directive>,    // those and the ones that were purged: they may not be delivered again
    handlers: map<nat, Handler>,
    commits: seq<Commit>,    // every batch applied so far, in order
    fired: set<nat>,         // timers that fired and whose handling has not been acknowledged
    runs: map<RunKey, RunInfo>,  // the runs that were created, as they were created
    starting: Option<RunInfo>,   // the start request that has passed its check and not been written yet
    used: set<DirectiveID>)      // the IDs generated so far

  const INIT := World(EMPTY, {}, {}, {}, map[], [], {}, map[], None, {NO_ID})

  datatype Action =
    | Enqueue(d: Directive)
    | CheckStart(info: RunInfo)
    | CreateRun(info: RunInfo)
    | WorkerHistory(entry: HistoryEvent)
    | Deliver(h: nat, d: Directive)
    | ReadState(h: nat)
    | ReadHistory(h: nat)
    | ReadEvent(h: nat)
    | Finish(h: nat, inp: Inputs, order: seq<string>, fault: Fault, decision: Decision, effect: Effect)
    | Lose(h: nat)
    | Fire(seqID: nat)
    | HandleFired(seqID: nat, newID: DirectiveID, now: Time, exhausted: bool, done: bool)
    | CancelTimer(seqID: nat)
    | Purge(seqID: nat)

  /** The directive a fired timer turns into (run/timer.go). */
  function TimeoutDirective(t: Timer, newID: DirectiveID, now: Time, exhausted: bool): Directive {
    if exhausted then
      Directive(newID, now, FailKind, t.directive.runInfo,
        FailMsg(ErrorDetails("TimerExhausted", "timer exceeded max delivery count")))
    else match t.kind
      case StepTimer =>
        if t.directive.msg.Dispatchable()
        then Directive(newID, 0, StepTimeoutKind, t.directive.runInfo,
          StepTimeoutMsg(t.directive.msg.DispatchName(), t.directive.id))
        else Directive(newID, now, FailKind, t.directive.runInfo,
          FailMsg(ErrorDetails("TimerExhausted", "failed to build step timeout directive")))
      case WaitTimer =>
        if t.directive.msg.WaitMsg?
        then Directive(newID, 0, WaitTimeoutKind, t.directive.runInfo,
          WaitTimeoutMsg(t.directive.msg.timeoutStepName, t.directive.id))
        else Directive(newID, now, FailKind, t.directive.runInfo,
          FailMsg(ErrorDetails("TimerExhausted", "failed to build wait timeout directive")))
  }

  function TaskAt(log: seq<Message>, seqID: nat): Option<TaskPayload> {
    if 1 <= seqID <= |log| && log[seqID - 1].Stored? && log[seqID - 1].record.BackgroundTaskRecord?
    then Some(log[seqID - 1].record.task.payload) else None
  }

  predicate IsTimer(log: seq<Message>, seqID: nat) {
    1 <= seqID <= |log| && log[seqID - 1].Stored? && log[seqID - 1].record.TimerRecord?
  }

  predicate Enabled(w: World, a: Action) {
    match a
    case Enqueue(_) => true
    case CheckStart(_) => true
    case CreateRun(_) => true
    case WorkerHistory(entry) => entry.msg.WorkerRecorded?
    case Deliver(h, d) => h !in w.handlers && d in w.queue
    case ReadState(h) => h in w.handlers && w.handlers[h].stage == 0
    case ReadHistory(h) => h in w.handlers && w.handlers[h].stage == 1
    case ReadEvent(h) => h in w.handlers && w.handlers[h].stage == 2
    case Finish(h, _, order, _, decision, _) =>
      h in w.handlers && w.handlers[h].stage == 3 && (decision.Write? ==> OrderFor(decision.batch, order))
    case Lose(h) => h in w.handlers
    case Fire(q) => w.stream.Visible(q) && IsTimer(w.stream.log, q)
    case HandleFired(q, _, _, _, _) => q in w.fired && IsTimer(w.stream.log, q)
    case CancelTimer(q) => TaskAt(w.stream.log, q).Some? && TaskAt(w.stream.log, q).value.DeleteTimerPayload?
    case Purge(q) => TaskAt(w.stream.log, q).Some? && TaskAt(w.stream.log, q).value.PurgePayload?
  }

  function AppendOne(w: World, m: Message): World {
    w.(stream := Append(w.stream, [m]))
  }

  function EnqueueIn(w: World, d: Directive): World {
    if d.id in w.stream.ids then w
    else w.(stream := PublishDirective(w.stream, d), queue := w.queue + {d})
  }

  function QueuedBy(batch: seq<Record>): set<Directive> {
    set r | r in batch && r.DirectiveRecord? :: r.directive
  }

  function AckIn(w: World, d: Directive): World {
    w.(acked := w.acked + {d}, gone := w.gone + {d})
  }

  /** A handler is done with its directive when its batch is in, or was in before. */
  predicate IsProcessed(r: CommitResult) {
    r.Committed? || r.DuplicateMessage?
  }

  function FinishIn(w: World, h: nat, inp: Inputs, order: seq<string>, fault: Fault, decision: Decision,
    effect: Effect): World
    requires h in w.handlers && (decision.Write? ==> OrderFor(decision.batch, order))
  {
    var x := w.handlers[h];
    var w1 := w.(handlers := w.handlers - {h}, used := w.used + {inp.newID});
    match decision
    case Crash => w1
    case GiveUp => AckIn(w1, x.d)
    case Write(batch) =>
      var (stream, result) := Wire.Commit(w.stream, batch, order, fault);
      var w2 := if IsProcessed(result) then AckIn(w1, x.d) else w1;
      if stream == w.stream then w2
      else w2.(stream := stream, queue := w.queue + QueuedBy(batch),
               commits := w.commits + [Commit(x.d, x.Snapshot(), inp, effect, BatchMessages(batch, order),
                 |w.stream.log|, x.readAt)])
  }

  function Apply(w: World, a: Action): World
    requires Enabled(w, a)
  {
    match a
    case Enqueue(d) => EnqueueIn(w, d).(used := w.used + {d.id})
    case CheckStart(info) => w.(starting := Some(info))
    case CreateRun(info) =>
      AppendOne(w, Stored(RunInfoRecord(info))).(runs := w.runs[info.Key() := info], starting := None)
    case WorkerHistory(entry) => AppendOne(w, Stored(HistoryRecord(entry)))
    case Deliver(h, d) => w.(handlers := w.handlers[h := Handler(d, 0, NO_STATE, 0, 0, None)])
    case ReadState(h) =>
      var x := w.handlers[h];
      w.(handlers := w.handlers[h := x.(stage := 1, state := RunStateOf(w.stream.log, x.d.Key()))])
    case ReadHistory(h) =>
      var x := w.handlers[h];
      w.(handlers := w.handlers[h := x.(stage := 2, lastHistory := LastHistory(w.stream.log, x.d.Key()),
        readAt := |w.stream.log|)])
    case ReadEvent(h) =>
      var x := w.handlers[h];
      w.(handlers := w.handlers[h := x.(stage := 3,
        event := NextEvent(w.stream, x.d.runInfo.wfID, x.state.lastEventSeqID))])
    case Finish(h, inp, order, fault, decision, effect) => FinishIn(w, h, inp, order, fault, decision, effect)
    case Lose(h) => w.(handlers := w.handlers - {h})
    case Fire(q) =>
      w.(stream := Append(w.stream.(removed := w.stream.removed + {q}), [Fired(w.stream.log[q - 1].record.timer)]),
         fired := w.fired + {q})
    case HandleFired(q, newID, now, exhausted, done) =>
      EnqueueIn(w, TimeoutDirective(w.stream.log[q - 1].record.timer, newID, now, exhausted)).(
        fired := if done then w.fired - {q} else w.fired, used := w.used + {newID})
    case CancelTimer(q) =>
      var p := TaskAt(w.stream.log, q).value;
      w.(stream := PurgeSubject(w.stream, TimerSubject(p.wfID, p.kind, p.timerID)))
    case Purge(q) =>
      var wfID := TaskAt(w.stream.log, q).value.wfID;
      w.(stream := PurgeRunResidue(w.stream, wfID), gone := w.gone + set d | d in w.queue && d.runInfo.wfID == wfID)
  }

  /** A handler does what the manager's code does with what it has read. */
  predicate Honest(w: World, a: Action)
    requires Enabled(w, a)
  {
    a.Finish? ==>
      var x := w.handlers[a.h];
      a.decision == Decide(x.d, x.Snapshot(), a.inp) && a.effect == EffectOf(x.d, x.Snapshot(), a.inp)
  }

  /** A world that some n steps lead to, whatever directives come in. */
  ghost predicate Possible(w: World, n: nat)
    decreases n, 1
  {
    if n == 0 then w == INIT else exists w0, a :: PossibleStep(w0, a, w, n)
  }

  ghost predicate PossibleStep(w0: World, a: Action, w: World, n: nat)
    requires n > 0
    decreases n, 0
  {
    Possible(w0, n - 1) && Enabled(w0, a) && Honest(w0, a) && w == Apply(w0, a)
  }

  lemma PossibleFrom(w: World, n: nat) returns (w0: World, a: Action)
    requires n > 0 && Possible(w, n)
    ensures Possible(w0, n - 1) && Enabled(w0, a) && Honest(w0, a) && w == Apply(w0, a)
  {
    hide Enabled, Honest, Apply;
    w0, a :| PossibleStep(w0, a, w, n);
  }

  /** The run state that the committed batches leave a run in. */
  function StateAfter(commits: seq<Commit>, key: RunKey): RunState {
    if commits == [] then NO_STATE
    else
      var c := commits[|commits| - 1];
      var q := LastOn(c.msgs, StateSubject(key.wfID, key.runID));
      if q > 0 then c.msgs[q - 1].record.state.(seqID := c.at + q) else StateAfter(commits[..|commits| - 1], key)
  }
}
