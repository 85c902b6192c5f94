/** A cancel that was accepted is never lost: it ends the run at once, or stays pending, with no further work
    handed out, until the run ends. */
module Cancellation {
  import opened Types
  import opened Stream
  import opened Effects
  import opened Moves
  import opened Protocol
  import opened Worlds
  import opened Serial
  import opened Discipline
  import opened Bookkeeping
  import opened Steps
  import opened Terminal
  import opened Planner
  import Boundaries
  import Progress

  predicate Pending(s: RunState) { s.pendingCancel.Some? && !s.IsTerminal() }

  /** A step result that is not a failure. */
  predicate Succeeds(d: Directive) { d.kind == StepResultKind && d.msg.StepResultMsg? &&
    d.msg.nextKind != FailStepKind }

  /** What a batch can do to a run with a cancel pending. */
  lemma WhilePending(c: Commit)
    requires Tame(c.d) && Explains(c.d, c.sn, c.inp, c.effect) && Grounded(c) && !c.effect.move.Begin?
    requires Pending(c.sn.runState) && c.sn.runState.kind == StepState
    ensures c.effect.move.Receive? || c.effect.move.Stay? || c.effect.move.ToEnd?
    ensures c.effect.move.Stay? ==>
      var s := c.effect.move.state;
      Pending(s) && s.kind == StepState && s.activeDirectiveID == c.sn.runState.activeDirectiveID
    ensures Succeeds(c.d) ==> c.effect.move == ToEnd(c.sn.runState.pendingCancel.value, CancelState)
    ensures NewDispatches(c.effect, c.sn, c.inp) == []
  {
    hide ResultFirst, Plain;
  }

  /** A run stays in the step a cancel is pending in, or ends. */
  predicate HeldFrom(s: RunState, s': RunState) {
    s'.IsTerminal() || (Pending(s') && s'.kind == StepState && s'.activeDirectiveID == s.activeDirectiveID)
  }

  lemma PendingStep(w: World, i: nat, key: RunKey)
    requires Good(w) && i < |w.commits| && w.commits[i].d.Key() == key && Pending(StateAfter(w.commits[..i], key))
    ensures var c := w.commits[i];
            && NewDispatches(c.effect, c.sn, c.inp) == []
            && (Succeeds(c.d) ==> StateAfter(w.commits[..i + 1], key).kind == CancelState)
            && StateAfter(w.commits[..i], key).kind == StepState
            && HeldFrom(StateAfter(w.commits[..i], key), StateAfter(w.commits[..i + 1], key))
  {
    hide Good, StateAfter, Explains, Tame, Lawful, Current;
    var c := w.commits[i];
    BatchFacts(w, i);
    NextState(w, i, key);
    WrittenKey(c);
    StateMoves(c);
    PendingIsStep(w, i, key);
    if c.effect.move.Receive? {
      ReceiveGivesNothing(c);
    } else {
      WhilePending(c);
    }
  }

  lemma ReceiveGivesNothing(c: Commit)
    requires c.effect.Effect? && c.effect.move.Receive?
    ensures NewDispatches(c.effect, c.sn, c.inp) == []
  {
  }

  /** A cancel is only ever pending during a step. */
  lemma {:induction false} PendingIsStep(w: World, i: nat, key: RunKey)
    requires Good(w) && i <= |w.commits| && Pending(StateAfter(w.commits[..i], key))
    ensures StateAfter(w.commits[..i], key).kind == StepState
  {
    hide Good, StateAfter, Explains, Tame, Lawful, Current;
    if i == 0 {
      NoneAtFirst(key);
    } else {
      var c := w.commits[i - 1];
      BatchFacts(w, i - 1);
      NextState(w, i - 1, key);
      if c.d.Key() == key && Written(c).Some? {
        ViaStands(w, c);
        WrittenOK(w, c);
      } else {
        PendingIsStep(w, i - 1, key);
      }
    }
  }

  lemma NoneAtFirst(key: RunKey)
    ensures StateAfter([], key) == NO_STATE
  {
  }

  lemma ViaStands(w: World, c: Commit)
    requires Good(w) && CommitOK(w.runs, w.queue, c) && Grounded(c) && c in w.commits
    ensures ViaOK(w.runs, w.used, c)
  {
    hide Inv, Explains, Tame, StateOK, EventOK, ViaOK, QueueOK, LogOK, IDsOK, HandlersOK, CommitsOK, RunsOK, IDsOf,
      Refinement.Chained, Sourced;
    CommitVia(w, c);
    assert w.used + {c.inp.newID} == w.used;
  }

  lemma WrittenOK(w: World, c: Commit)
    requires CommitOK(w.runs, w.queue, c) && Grounded(c) && ViaOK(w.runs, w.used, c) && Written(c).Some?
    ensures StateOK(w.runs, w.queue, Written(c).value)
  {
    hide Explains, Tame, StateOK, Root;
    var states := NewStates(c.effect, c.sn, c.inp);
    StatesOK(w, w.used, c, states[|states| - 1]);
  }

  /** From the moment a cancel is pending the run stays in the same step, with the cancel pending and nothing
      dispatched, until it ends; and the next successful step result ends it as cancelled. */
  lemma {:induction false} PendingIsKept(w: World, i: nat, j: nat, key: RunKey)
    requires Good(w) && i <= j <= |w.commits| && Pending(StateAfter(w.commits[..i], key))
    ensures HeldFrom(StateAfter(w.commits[..i], key), StateAfter(w.commits[..j], key))
    ensures forall k :: i <= k < j && w.commits[k].d.Key() == key ==>
      NewDispatches(w.commits[k].effect, w.commits[k].sn, w.commits[k].inp) == []
  {
    hide Good, StateAfter, NewDispatches;
    if i == j {
      PendingIsStep(w, i, key);
    } else {
      PendingIsKept(w, i, j - 1, key);
      var s := StateAfter(w.commits[..j - 1], key);
      NextState(w, j - 1, key);
      if w.commits[j - 1].d.Key() == key {
        if s.IsTerminal() {
          EndedTakesEventsOnly(w, j - 1);
          ReceiveGivesNothing(w.commits[j - 1]);
          TerminalStays(w, j - 1, j, key);
        } else {
          PendingStep(w, j - 1, key);
        }
      }
    }
  }

  /** Accepting a cancel ends the run as cancelled, or leaves the cancel pending. */
  lemma CancelIsAccepted(w: World, i: nat)
    requires Good(w) && i < |w.commits| && w.commits[i].d.kind == CancelKind
    ensures var s := StateAfter(w.commits[..i + 1], w.commits[i].d.Key());
            s.kind == CancelState || (Pending(s) && s.pendingCancel == Some(w.commits[i].d))
  {
    hide Good, StateAfter, Lawful, Current, StateOK, EventOK, Plain;
    var c := w.commits[i];
    BatchFacts(w, i);
    NextState(w, i, c.d.Key());
  }

  /** A handler has a successful result of a run with a cancel pending, and has read the state the run is in. */
  predicate AboutToCancel(w: World, x: Handler) {
    x.stage == 3 && x.state == RunStateOf(w.stream.log, x.d.Key()) && Pending(x.state) && Succeeds(x.d)
  }

  /** A handler decides to commit the end of the run as cancelled. */
  predicate Cancels(x: Handler, inp: Inputs) {
    var e := EffectOf(x.d, x.Snapshot(), inp);
    && Decide(x.d, x.Snapshot(), inp).Write? && e.Effect? && x.state.pendingCancel.Some?
    && e.move == ToEnd(x.state.pendingCancel.value, CancelState)
  }

  /** What a handler makes of a successful result while a cancel is pending, if it has read the state the run is in:
      it ends the run as cancelled exactly if the cancel carries a start time, and crashes otherwise. */
  lemma NextResultCancelsIff(w: World, n: nat, h: nat, inp: Inputs)
    requires Reached(w, n) && h in w.handlers && AboutToCancel(w, w.handlers[h])
    ensures var x := w.handlers[h];
            && (Cancels(x, inp) <==> x.state.pendingCancel.value.runInfo.startedAt.Some?)
            && (Decide(x.d, x.Snapshot(), inp) == Crash <==> x.state.pendingCancel.value.runInfo.startedAt.None?)
  {
    hide Reached, Inv, Orderly, Journal, RunStateOf, Decide, EffectOf, Tame, StateOK, EventOK;
    var x := w.handlers[h];
    GoodHolds(w, n);
    HandlerIsTame(w, h);
    Boundaries.CrashIff(x.d, x.Snapshot(), inp);
    EffectIsBatch(x.d, x.Snapshot(), inp);
    Explained(x.d, x.Snapshot(), inp);
    Progress.MovesIff(x.d, x.Snapshot(), inp);
    if EffectOf(x.d, x.Snapshot(), inp).Effect? {
      CancelIsPlanned(x.d, x.Snapshot(), inp, EffectOf(x.d, x.Snapshot(), inp));
    }
  }

  lemma CancelIsPlanned(d: Directive, sn: StateSnapshot, inp: Inputs, e: Effect)
    requires Tame(d) && Succeeds(d) && sn.runState.pendingCancel.Some? && e.Effect? && Explains(d, sn, inp, e)
    ensures e.move == ToEnd(sn.runState.pendingCancel.value, CancelState)
  {
    hide ResultFirst;
  }

  /** An accepted cancel is never lost, in any run of the system that follows the protocol. */
  lemma CancelIsNeverLost(w: World, n: nat, i: nat, j: nat)
    requires Reached(w, n) && i < j <= |w.commits| && w.commits[i].d.kind == CancelKind
    ensures var commits := w.commits;
            var key := commits[i].d.Key();
            var accepted, later := StateAfter(commits[..i + 1], key), StateAfter(commits[..j], key);
            && (accepted.kind == CancelState || (Pending(accepted) && accepted.pendingCancel == Some(commits[i].d)))
            && HeldFrom(accepted, later)
            && forall k :: i < k < j && commits[k].d.Key() == key ==>
                 && NewDispatches(commits[k].effect, commits[k].sn, commits[k].inp) == []
                 && (Pending(StateAfter(commits[..k], key)) && Succeeds(commits[k].d) ==>
                   StateAfter(commits[..k + 1], key).kind == CancelState)
    ensures forall h, inp :: h in w.handlers && AboutToCancel(w, w.handlers[h]) ==>
              (Cancels(w.handlers[h], inp) <==> w.handlers[h].state.pendingCancel.value.runInfo.startedAt.Some?)
  {
    hide Reached, Good, StateAfter, NewDispatches, Cancels, RunStateOf;
    GoodHolds(w, n);
    var key := w.commits[i].d.Key();
    CancelIsAccepted(w, i);
    if Pending(StateAfter(w.commits[..i + 1], key)) {
      PendingIsKept(w, i + 1, j, key);
    } else {
      TerminalStays(w, i + 1, j, key);
      forall k | i < k < j && w.commits[k].d.Key() == key
        ensures NewDispatches(w.commits[k].effect, w.commits[k].sn, w.commits[k].inp) == []
      {
        TerminalStays(w, i + 1, k, key);
        EndedTakesEventsOnly(w, k);
        ReceiveGivesNothing(w.commits[k]);
      }
    }
    forall h, inp | h in w.handlers && AboutToCancel(w, w.handlers[h])
      ensures Cancels(w.handlers[h], inp) <==> w.handlers[h].state.pendingCancel.value.runInfo.startedAt.Some?
    {
      NextResultCancelsIff(w, n, h, inp);
    }
    forall k | i < k < j && w.commits[k].d.Key() == key && Pending(StateAfter(w.commits[..k], key)) &&
      Succeeds(w.commits[k].d)
      ensures StateAfter(w.commits[..k + 1], key).kind == CancelState
    {
      PendingStep(w, k, key);
    }
  }
}
