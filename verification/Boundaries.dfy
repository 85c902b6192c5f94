/** Two things every worker relies on: the start time of its run, and a history sequence that separates what was
    recorded before its task from what comes after. */
module Boundaries {
  import opened Types
  import opened Stream
  import opened Wire
  import opened Planner
  import opened Effects
  import opened Moves
  import opened Protocol
  import opened Worlds
  import opened Serial
  import opened Discipline
  import opened Bookkeeping
  import opened Steps
  import opened Acknowledged
  import opened Fifo
  import RunRecords
  import Terminal
  import Stretches

  /* The start time */

  /** Every dispatch and every timer in the log carries the start time of its run, even for an event that was
      sent before the run started. */
  lemma StartTimeReachesAll(w: World, n: nat, m: Message)
    requires Reached(w, n) && m in w.stream.log && m.Stored?
    ensures m.record.WorkerTaskDispatch? ==> m.record.directive.runInfo.startedAt.Some?
    ensures m.record.TimerRecord? ==> m.record.timer.directive.runInfo.startedAt.Some?
  {
    hide Reached, Good;
    GoodHolds(w, n);
    MessageIsOK(w, m);
  }

  lemma MessageIsOK(w: World, m: Message)
    requires Good(w) && m in w.stream.log
    ensures MessageOK(w.runs, w.queue, m)
  {
    hide Inv, Journal, QueueOK, IDsOK, HandlersOK, CommitsOK, RunsOK, MessageOK;
  }

  /** So no handler ever fails for want of a start time. */
  lemma NeverWithoutStart(w: World, n: nat, h: nat, inp: Inputs)
    requires Reached(w, n) && h in w.handlers && w.handlers[h].stage == 3
    ensures var x := w.handlers[h]; Plan(x.d, x.Snapshot(), inp) != Err(NoStartTime)
  {
    hide Reached, Inv, Orderly, Journal, Plan, Tame, StateOK, EventOK;
    GoodHolds(w, n);
    HandlerIsTame(w, h);
    var x := w.handlers[h];
    PlansWithStart(x.d, x.Snapshot(), inp);
  }

  lemma PlansWithStart(d: Directive, sn: StateSnapshot, inp: Inputs)
    requires Tame(d) && TameEvent(sn.event) && TameState(sn.runState)
    ensures Plan(d, sn, inp) != Err(NoStartTime)
  {
    hide Transition, FromStepResult;
    if d.kind == StepResultKind {
      ResultWithStart(d, sn, inp);
    } else {
      TransitionWithStart(d, sn, inp);
      if sn.event.Some? { TransitionWithStart(sn.event.value, sn, inp); }
    }
  }

  lemma TransitionWithStart(d: Directive, sn: StateSnapshot, inp: Inputs)
    requires d.runInfo.startedAt.Some? || d.kind == EventKind || d.kind == TerminateKind ||
      d.kind == WakeFromInboxKind || d.kind == CancelKind || d.kind == StartKind
    ensures Transition(d, sn, inp) != Err(NoStartTime)
  {
  }

  lemma ResultWithStart(d: Directive, sn: StateSnapshot, inp: Inputs)
    requires d.runInfo.startedAt.Some? && TameState(sn.runState)
    ensures FromStepResult(d, sn, inp) != Err(NoStartTime)
  {
    hide Transition;
    if d.msg.StepResultMsg? { TransitionWithStart(NextDirective(d, sn.lastHistorySeqID, inp.now), sn, inp); }
  }

  /** The directive would end the run as cancelled, for a cancel that was sent before the run started. */
  predicate CancelsUnstarted(d: Directive, s: RunState)
    requires Tame(d)
  {
    match d.kind
    case CancelKind => s.kind != StepState && d.runInfo.startedAt.None?
    case StepResultKind => d.msg.nextKind != FailStepKind && s.pendingCancel.Some? &&
      s.pendingCancel.value.runInfo.startedAt.None?
    case _ => false
  }

  /** The one place where a missing start time does harm: ending a run as cancelled dereferences it unchecked.
      A handler crashes exactly if it is about to do that for a cancel that was sent before the run started. */
  lemma CrashIff(d: Directive, sn: StateSnapshot, inp: Inputs)
    requires Tame(d) && TameEvent(sn.event) && TameState(sn.runState)
    ensures Decide(d, sn, inp) == Crash <==> !sn.runState.IsTerminal() && CancelsUnstarted(d, sn.runState)
  {
    FailureNeverCrashes(d, sn.runState, inp);
    hide RunRecords.BuildUnexpectedFailure;
    if d.kind == StepResultKind { ResultCrashIff(d, sn, inp); } else { OtherCrashIff(d, sn, inp); }
  }

  lemma FailureNeverCrashes(d: Directive, state: RunState, inp: Inputs)
    ensures !RunRecords.BuildUnexpectedFailure(d, state, inp).Panic?
  {
  }

  lemma ResultCrashIff(d: Directive, sn: StateSnapshot, inp: Inputs)
    requires Tame(d) && d.kind == StepResultKind && TameState(sn.runState)
    ensures Plan(d, sn, inp).Panic? <==>
      !sn.runState.IsTerminal() && d.msg.nextKind != FailStepKind && sn.runState.pendingCancel.Some? &&
        sn.runState.pendingCancel.value.runInfo.startedAt.None?
  {
  }

  lemma OtherCrashIff(d: Directive, sn: StateSnapshot, inp: Inputs)
    requires Tame(d) && d.kind != StepResultKind && TameEvent(sn.event)
    ensures Plan(d, sn, inp).Panic? <==>
      !sn.runState.IsTerminal() && d.kind == CancelKind && sn.runState.kind != StepState && d.runInfo.startedAt.None?
  {
  }

  /* The replay boundary */

  predicate IsHistory(m: Message, key: RunKey) {
    m.Subject() == HistorySubject(key.wfID, key.runID)
  }

  /** What a batch says about the history it was planned after. */
  predicate Bounded(log: seq<Message>, c: Commit) {
    c.readAt <= c.at <= |log| && c.sn.lastHistorySeqID == LastHistory(log[..c.readAt], c.d.Key())
  }

  lemma BoundedStays(log: seq<Message>, log': seq<Message>, c: Commit)
    requires Bounded(log, c) && log <= log'
    ensures Bounded(log', c)
  {
    assert log'[..c.readAt] == log[..c.readAt];
  }

  lemma AcceptedBounded(w: World, w': World, h: nat, c: Commit)
    requires Good(w) && Accepted(w, w', h, c)
    ensures Bounded(w.stream.log, c) && c.at == |w.stream.log|
  {
    hide Inv, Orderly, Journal, Accepted, LastHistory;
    AcceptedHandler(w, w', h, c);
    Terminal.AcceptedAt(w, w', h, c);
    HandlerIsOK(w, h);
  }

  lemma {:induction false} BoundsHold(w: World, n: nat, c: Commit)
    requires Reached(w, n) && c in w.commits
    ensures Bounded(w.stream.log, c)
    decreases n
  {
    hide Good, Bounded, Apply, Enabled, Honest, Allowed, Accepted, Noted;
    if n > 0 {
      var w0, a := ReachedFrom(w, n);
      GoodHolds(w0, n - 1);
      LogGrows(w0, a);
      if c in w0.commits {
        BoundsHold(w0, n - 1, c);
      } else {
        NewCommit(w0, a, c);
      }
      BoundedStays(w0.stream.log, Apply(w0, a).stream.log, c);
    }
  }

  lemma NewCommit(w: World, a: Action, c: Commit)
    requires Good(w) && Enabled(w, a) && Honest(w, a) && Allowed(w, a) && c in Apply(w, a).commits && c !in w.commits
    ensures Bounded(w.stream.log, c)
  {
    hide Good, Bounded, Apply, Enabled, Honest, Allowed, Accepted, Noted;
    var h, c' := StepKinds(w, a);
    if c'.Some? {
      AcceptedCommits(w, Apply(w, a), h, c'.value);
      AcceptedBounded(w, Apply(w, a), h, c'.value);
    } else {
      Stretches.NotedCommits(w, Apply(w, a));
    }
  }

  /** What is dispatched after a step result carries the boundary the batch was planned with. */
  lemma DispatchBoundary(c: Commit, d: Directive)
    requires Tame(c.d) && Explains(c.d, c.sn, c.inp, c.effect) && c.effect.Effect? && c.d.kind == StepResultKind
    requires d in NewDispatches(c.effect, c.sn, c.inp)
    ensures d.runInfo.historySeqID == c.sn.lastHistorySeqID + 1
  {
    hide ResultFirst;
  }

  /** The replay boundary is exact: the history sequence dispatched after a step result is above every entry of
      the run that was in the log when its snapshot read the last one, and not above any entry appended since,
      those of the batch itself included. */
  lemma ReplayBoundary(w: World, n: nat, i: nat, d: Directive, p: nat)
    requires Reached(w, n) && i < |w.commits| && p < |w.stream.log|
    requires var c := w.commits[i];
             c.d.kind == StepResultKind && d in NewDispatches(c.effect, c.sn, c.inp) &&
               IsHistory(w.stream.log[p], c.d.Key())
    ensures var c := w.commits[i];
            if p < c.readAt then p + 1 < d.runInfo.historySeqID else d.runInfo.historySeqID <= p + 1
    ensures w.commits[i].readAt <= w.commits[i].at
  {
    hide Reached, Good, Explains, Tame, StateOK, EventOK, Lawful, Current, Grounded, NewDispatches;
    GoodHolds(w, n);
    var c := w.commits[i];
    BatchFacts(w, i);
    LawfulShape(c);
    BoundsHold(w, n, c);
    DispatchBoundary(c, d);
    if p < c.readAt { assert w.stream.log[..c.readAt][p] == w.stream.log[p]; }
  }
}
