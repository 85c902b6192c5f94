/** A run ends at most once: its terminal state is never left, there is one history event that ends it, and
    after the batch that ended it nothing but late events is written for it. */
module Terminal {
  import opened Types
  import opened Stream
  import opened Wire
  import opened Views
  import opened Effects
  import opened Moves
  import opened Protocol
  import opened Worlds
  import opened Serial
  import opened Discipline
  import opened Bookkeeping
  import opened Steps

  /* States */

  lemma WrittenIsLive(c: Commit)
    requires Tame(c.d) && Explains(c.d, c.sn, c.inp, c.effect) && Grounded(c)
    ensures !c.sn.runState.IsTerminal()
    ensures Written(c).Some? ==> (Written(c).value.IsTerminal() <==> c.effect.move.ToEnd?)
    ensures c.effect.move.ToEnd? ==> Written(c).value.kind == c.effect.move.kind
  {
    hide Explains, Tame;
    StateMoves(c);
  }

  /** A directive for a run that has ended has no effect, unless it is an event whose handler read the state
      before the end. */
  lemma EndedTakesEventsOnly(w: World, i: nat)
    requires Good(w) && i < |w.commits| && StateAfter(w.commits[..i], w.commits[i].d.Key()).IsTerminal()
    ensures w.commits[i].effect.Effect? && w.commits[i].effect.move.Receive?
  {
    hide Good, StateAfter, Explains, Tame, Lawful, StateOK, Current;
    var c := w.commits[i];
    BatchFacts(w, i);
    WrittenIsLive(c);
    WrittenKey(c);
    NextState(w, i, c.d.Key());
  }

  /** Terminal is absorbing, over any continuation of the journal. */
  lemma {:induction false} TerminalStays(w: World, i: nat, j: nat, key: RunKey)
    requires Good(w) && i <= j <= |w.commits| && StateAfter(w.commits[..i], key).IsTerminal()
    ensures StateAfter(w.commits[..j], key) == StateAfter(w.commits[..i], key)
  {
    hide Good, StateAfter, Explains, Tame, Lawful, StateOK, EventOK, Current, NewState;
    if i < j {
      TerminalStays(w, i, j - 1, key);
      NextState(w, j - 1, key);
      if w.commits[j - 1].d.Key() == key {
        EndedTakesEventsOnly(w, j - 1);
        BatchFacts(w, j - 1);
        WrittenKey(w.commits[j - 1]);
      }
    }
  }

  lemma EndIsTerminal(w: World, i: nat)
    requires Good(w) && i < |w.commits| && w.commits[i].effect.Effect? && w.commits[i].effect.move.ToEnd?
    ensures StateAfter(w.commits[..i + 1], w.commits[i].d.Key()).IsTerminal()
  {
    hide Good, StateAfter, Explains, Tame, Lawful, StateOK, Current;
    BatchFacts(w, i);
    WrittenIsLive(w.commits[i]);
    WrittenKey(w.commits[i]);
    NextState(w, i, w.commits[i].d.Key());
  }

  /** Of all the batches of a run at most one ends it, and later ones only take in events. */
  lemma OneEnding(w: World, i: nat, j: nat)
    requires Good(w) && i < j < |w.commits| && w.commits[i].d.Key() == w.commits[j].d.Key()
    requires w.commits[i].effect.Effect? && w.commits[i].effect.move.ToEnd?
    ensures w.commits[j].effect.Effect? && w.commits[j].effect.move.Receive?
  {
    hide Good, StateAfter;
    EndIsTerminal(w, i);
    TerminalStays(w, i + 1, j, w.commits[i].d.Key());
    EndedTakesEventsOnly(w, j);
  }

  /* The event that ends a run */

  function EndsFor(ends: seq<HistoryEvent>, key: RunKey): seq<HistoryEvent> {
    if ends == [] then []
    else (if RunKey(ends[0].wfID, ends[0].runID) == key then [ends[0]] else []) + EndsFor(ends[1..], key)
  }

  lemma {:induction false} EndsForAppend(a: seq<HistoryEvent>, b: seq<HistoryEvent>, key: RunKey)
    ensures EndsFor(a + b, key) == EndsFor(a, key) + EndsFor(b, key)
  {
    if a == [] {
      assert a + b == b;
    } else {
      var head := if RunKey(a[0].wfID, a[0].runID) == key then [a[0]] else [];
      assert (a + b)[1..] == a[1..] + b && (a + b)[0] == a[0];
      EndsForAppend(a[1..], b, key);
      assert EndsFor(a + b, key) == head + EndsFor(a[1..] + b, key);
    }
  }

  predicate EndsAs(h: HistoryEvent, kind: RunStateKind) {
    match kind
    case CompleteState => h.msg.RunCompleted?
    case FailState => h.msg.RunFailed?
    case CancelState => h.msg.RunCancelled?
    case TerminateState => h.msg.RunTerminated?
    case _ => false
  }

  /** The log holds exactly one event that ends the run if the run has ended, of the kind it ended with, and
      none otherwise. */
  predicate OneEnd(log: seq<Message>, key: RunKey) {
    var ends, s := EndsFor(EndsOf(log), key), RunStateOf(log, key);
    if s.IsTerminal() then |ends| == 1 && EndsAs(ends[0], s.kind) else ends == []
  }

  /** Nothing ahead of a move ends the run. */
  lemma BeforeHasNoEnd(c: Commit)
    requires Tame(c.d) && c.effect.Effect? && Explains(c.d, c.sn, c.inp, c.effect)
    ensures EndEvents(c.effect.before.history) == []
  {
    hide ExplainsResult, StaleStep, StaleWait;
    NoEndEvents(c.effect.before.history);
  }

  lemma EndingIs(e: Effect)
    requires WellFormed(e)
    ensures e.NoEffect? || !e.move.ToEnd? ==> Ending(e) == []
    ensures e.Effect? && e.move.ToEnd? ==>
      |Ending(e)| == 1 && EndsAs(Ending(e)[0], e.move.kind)
      && Ending(e)[0].wfID == e.move.via.runInfo.wfID && Ending(e)[0].runID == e.move.via.runInfo.id
  {
  }

  /** What a batch adds to the events that end a run. */
  lemma BatchEnds(w: World, w': World, h: nat, c: Commit, key: RunKey)
    requires Good(w) && Accepted(w, w', h, c)
    ensures var more := EndsFor(EndsOf(c.msgs), key);
            if c.effect.Effect? && c.effect.move.ToEnd? && c.d.Key() == key then |more| == 1 &&
              EndsAs(more[0], c.effect.move.kind) else more == []
  {
    hide Good, Accepted, Explains, Tame, Lawful, Ending, EndEvents, EndsOf, EndsAs, Root;
    AcceptedFacts(w, w', h, c);
    LawfulEnds(c);
    BeforeHasNoEnd(c);
    EndingIs(c.effect);
    assert EndsOf(c.msgs) == Ending(c.effect);
    if c.effect.move.ToEnd? {
      var end := Ending(c.effect);
      assert end == [end[0]] && end[1..] == [];
    }
  }

  lemma LawfulEnds(c: Commit)
    requires Lawful(c)
    ensures c.effect.Effect? && WellFormed(c.effect)
    ensures EndsOf(c.msgs) == EndEvents(c.effect.before.history) + Ending(c.effect)
  {
    hide Fits, StateAt, Puts, LedMessages, TasksIn, QueuedIn, EndsOf, EndEvents, Ending;
  }

  lemma AcceptedKeepsEnds(w: World, w': World, h: nat, c: Commit, key: RunKey)
    requires Good(w) && Good(w') && Accepted(w, w', h, c) && OneEnd(w.stream.log, key)
    ensures OneEnd(w'.stream.log, key)
  {
    hide Good, Accepted, Explains, Tame, Lawful, EndsOf, EndsFor, EndsAs, RunStateOf, StateOK, NewState, Root;
    AcceptedFacts(w, w', h, c);
    BatchEnds(w, w', h, c, key);
    EndsOfAppend(w.stream.log, c.msgs);
    EndsForAppend(EndsOf(w.stream.log), EndsOf(c.msgs), key);
    AcceptedState(w, w', h, c, key);
    WrittenIsLive(c);
    WrittenKey(c);
  }

  lemma {:induction false} NotedEnds(log: seq<Message>, log': seq<Message>)
    requires |log| <= |log'| && log'[..|log|] == log && forall i :: |log| <= i < |log'| ==> Outside(log'[i])
    ensures EndsOf(log') == EndsOf(log)
    ensures forall key :: RunStateOf(log', key) == RunStateOf(log, key)
  {
    hide EndsOf;
    var more := log'[|log|..];
    assert log' == log + more && forall m :: m in more ==> Outside(m);
    EndsOfAppend(log, more);
    NoEnds(more);
    forall key ensures RunStateOf(log', key) == RunStateOf(log, key) {
      LastOnIs(more, StateSubject(key.wfID, key.runID), 0);
      RunStateAppend(log, more, key);
    }
  }

  lemma {:induction false} EndsHold(w: World, n: nat, key: RunKey)
    requires Reached(w, n)
    ensures OneEnd(w.stream.log, key)
    decreases n
  {
    hide Good, OneEnd, Accepted, Noted, Apply, Enabled, Honest, Allowed;
    GoodHolds(w, n);
    if n == 0 {
      NoEndAtFirst(key);
    } else {
      var w0, a := ReachedFrom(w, n);
      EndsHold(w0, n - 1, key);
      GoodHolds(w0, n - 1);
      var h, c := StepKinds(w0, a);
      if c.Some? {
        AcceptedKeepsEnds(w0, Apply(w0, a), h, c.value, key);
      } else {
        NotedKeepsEnds(w0, Apply(w0, a), key);
      }
    }
  }

  lemma NotedKeepsEnds(w: World, w': World, key: RunKey)
    requires Noted(w, w') && OneEnd(w.stream.log, key)
    ensures OneEnd(w'.stream.log, key)
  {
    hide EndsOf, EndsFor, RunStateOf, EndsAs;
    NotedEnds(w.stream.log, w'.stream.log);
  }

  lemma NoEndAtFirst(key: RunKey)
    ensures OneEnd(INIT.stream.log, key)
  {
  }

  /** In every run of the system that follows the protocol, whatever the interleaving, the redeliveries and
      the faults: one event ends a run if its state is terminal, of the same kind, and none does otherwise. */
  lemma OneTerminalEvent(w: World, n: nat, key: RunKey)
    requires Reached(w, n)
    ensures var log := w.stream.log;
            var ends, s := EndsFor(EndsOf(log), key), RunStateOf(log, key);
            if s.IsTerminal() then |ends| == 1 && EndsAs(ends[0], s.kind) else ends == []
  {
    hide EndsOf, EndsFor, RunStateOf, EndsAs, Reached;
    EndsHold(w, n, key);
  }

  /* Nothing is written for a run that has ended */

  /** Messages that only a run in progress may cause. */
  predicate Late(m: Message, key: RunKey) {
    match m
    case KVPut(wfID, runID, _, _) => RunKey(wfID, runID) == key
    case Fired(_) => false
    case Stored(r) =>
      match r
      case RunInfoRecord(info) => info.Key() == key
      case RunInputRecord(wfID, runID, _) => RunKey(wfID, runID) == key
      case RunOutputRecord(wfID, runID, _) => RunKey(wfID, runID) == key
      case RunErrorRecord(wfID, runID, _) => RunKey(wfID, runID) == key
      case RunStateRecord(s, _) => s.Key() == key
      case TimerRecord(t) => t.directive.Key() == key
      case WorkerTaskDispatch(d) => d.Key() == key
      case HistoryRecord(h) => h.EndsRun() && RunKey(h.wfID, h.runID) == key
      case _ => false
  }

  lemma KVIsOwn(c: Commit, m: Message)
    requires Tame(c.d) && Explains(c.d, c.sn, c.inp, c.effect) && Lawful(c) && m.KVPut? && m in c.msgs
    ensures RunKey(m.wfID, m.runID) == c.d.Key() && !c.effect.move.Receive?
  {
    hide ExplainsResult, StaleStep, StaleWait, Fits, StateAt, LedMessages, TasksIn, QueuedIn, EndsOf,
      EndEvents;
    assert Puts(c.effect.before.kvs, m);
  }

  lemma EndIsOwn(c: Commit, h: HistoryEvent)
    requires Tame(c.d) && Explains(c.d, c.sn, c.inp, c.effect) && Lawful(c) && Stored(HistoryRecord(h)) in c.msgs
    requires h.EndsRun()
    ensures c.effect.move.ToEnd? && h.wfID == c.effect.move.via.runInfo.wfID && h.runID == c.effect.move.via.runInfo.id
  {
    hide Explains, Lawful, Tame, EndEvents;
    Member(c, HistoryRecord(h));
    BeforeHasNoEnd(c);
    NotAmongEnds(c.effect.before.history, h);
    EndingIs(c.effect);
    assert h in MoveHistory(c.effect, c.inp);
    assert Ending(c.effect) == [h];
  }

  lemma {:induction false} NotAmongEnds(history: seq<HistoryEvent>, h: HistoryEvent)
    requires EndEvents(history) == [] && h.EndsRun()
    ensures h !in history
  {
    if history != [] { NotAmongEnds(history[1..], h); }
  }

  lemma RecordIsOwn(w: World, w': World, h: nat, c: Commit, r: Record, key: RunKey)
    requires Good(w) && Accepted(w, w', h, c) && Stored(r) in c.msgs && Late(Stored(r), key)
    ensures key == c.d.Key() && !c.effect.move.Receive?
  {
    hide Good, Accepted, Explains, Tame, Lawful, NewInfos, NewStates, NewTimers, NewDispatches, NewTasks, NewQueued,
      EndHistory, Root, StateOK, EventOK, Grounded;
    AcceptedFacts(w, w', h, c);
    Member(c, r);
    StateMoves(c);
    match r {
      case RunInfoRecord(info) => InfoIsOwn(c, info);
      case RunStateRecord(s, _) => StateIsOwn(c, r);
      case TimerRecord(t) => StepIsOwn(c);
      case WorkerTaskDispatch(d) => StepIsOwn(c);
      case HistoryRecord(e) => EndIsOwn(c, e);
      case _ =>
    }
  }

  lemma InfoIsOwn(c: Commit, info: RunInfo)
    requires WellFormed(c.effect) && info in NewInfos(c.effect, c.sn, c.inp)
    ensures c.effect.Effect? && !c.effect.move.Receive? && !c.effect.move.Stay? && info.Key() == c.effect.move.via.Key()
  {
  }

  lemma StateIsOwn(c: Commit, r: Record)
    requires Grounded(c) && (c.effect.move.Begin? ==> c.effect.move.via == c.d) && r in NewStates(c.effect, c.sn, c.inp)
    requires c.effect.move.Stay? ==> c.effect.move.state.Key() == c.sn.runState.Key()
    ensures !c.effect.move.Receive? && r.state.Key() == c.d.Key()
  {
  }

  lemma StepIsOwn(c: Commit)
    requires WellFormed(c.effect)
    ensures forall t :: t in NewTimers(c.effect, c.sn, c.inp) ==>
      !c.effect.move.Receive? && !c.effect.move.Stay? && t.directive.Key() == c.effect.move.via.Key()
    ensures forall d :: d in NewDispatches(c.effect, c.sn, c.inp) ==>
      !c.effect.move.Receive? && !c.effect.move.Stay? && d.Key() == c.effect.move.via.Key()
  {
  }

  lemma BatchIsOwn(w: World, w': World, h: nat, c: Commit, m: Message, key: RunKey)
    requires Good(w) && Accepted(w, w', h, c) && m in c.msgs && Late(m, key)
    ensures key == c.d.Key() && c.effect.Effect? && !c.effect.move.Receive?
  {
    hide Good, Accepted, Explains, Tame, Lawful, Root, StateOK, EventOK;
    AcceptedFacts(w, w', h, c);
    if m.Stored? {
      RecordIsOwn(w, w', h, c, m.record, key);
    } else {
      hide Late;
      KVIsOwn(c, m);
      LatePut(m, key);
    }
  }

  lemma LatePut(m: Message, key: RunKey)
    requires m.KVPut? && Late(m, key)
    ensures RunKey(m.wfID, m.runID) == key
  {
  }

  predicate Ends(c: Commit) { c.effect.Effect? && c.effect.move.ToEnd? }

  /** Behind a batch that ended a run there is nothing that only a run in progress may cause. */
  predicate Sealed(w: World) {
    forall i, q ::
      0 <= i < |w.commits| && Ends(w.commits[i]) && w.commits[i].at + |w.commits[i].msgs| <= q < |w.stream.log| ==>
      !Late(w.stream.log[q], w.commits[i].d.Key())
  }

  lemma AcceptedKeepsSealed(w: World, w': World, h: nat, c: Commit)
    requires Good(w) && Good(w') && Accepted(w, w', h, c) && Sealed(w)
    ensures Sealed(w')
  {
    hide Good, Accepted, Explains, Tame, Lawful, Root, StateOK, EventOK, Late, Ends, ViaOK, Grounded, WellFormed;
    AcceptedFacts(w, w', h, c);
    AcceptedAt(w, w', h, c);
    forall i, q | 0 <= i < |w'.commits| && Ends(w'.commits[i]) &&
      w'.commits[i].at + |w'.commits[i].msgs| <= q < |w'.stream.log|
      ensures !Late(w'.stream.log[q], w'.commits[i].d.Key())
    {
      var key := w'.commits[i].d.Key();
      if q >= |w.stream.log| && Late(w'.stream.log[q], key) {
        assert w'.stream.log[q] == c.msgs[q - |w.stream.log|];
        BatchIsOwn(w, w', h, c, c.msgs[q - |w.stream.log|], key);
        EndsMeans(w'.commits[i]);
        OneEnding(w', i, |w.commits|);
      }
    }
  }

  lemma EndsMeans(c: Commit)
    requires Ends(c)
    ensures c.effect.Effect? && c.effect.move.ToEnd?
  {
  }

  lemma AcceptedAt(w: World, w': World, h: nat, c: Commit)
    requires Accepted(w, w', h, c)
    ensures c.at == |w.stream.log|
  {
    hide Lawful, Current, CommitOK, Grounded, Check, Append;
  }

  lemma OutsideIsNotLate(w: World, m: Message, key: RunKey)
    requires OutsideOf(w, m) && key in w.runs
    ensures !Late(m, key)
  {
  }

  lemma NotedKeepsSealed(w: World, w': World)
    requires Good(w) && Noted(w, w') && Sealed(w)
    ensures Sealed(w')
  {
    hide Good, Ends, Late, OutsideOf, Grows;
    forall i, q | 0 <= i < |w'.commits| && Ends(w'.commits[i]) &&
      w'.commits[i].at + |w'.commits[i].msgs| <= q < |w'.stream.log|
      ensures !Late(w'.stream.log[q], w'.commits[i].d.Key())
    {
      if q >= |w.stream.log| {
        RunOfBatch(w, i);
        OutsideIsNotLate(w, w'.stream.log[q], w'.commits[i].d.Key());
      } else {
        assert w'.stream.log[q] == w'.stream.log[..|w.stream.log|][q];
      }
    }
  }

  lemma RunOfBatch(w: World, i: nat)
    requires Good(w) && i < |w.commits|
    ensures w.commits[i].d.Key() in w.runs
  {
    hide Inv, Journal, CommitOK, LogOK, HandlersOK, RunsOK, IDsOK, Tame;
    assert w.commits[i] in w.commits;
    CommitRegistered(w, w.commits[i]);
  }

  lemma CommitRegistered(w: World, c: Commit)
    requires QueueOK(w) && CommitOK(w.runs, w.queue, c)
    ensures c.d.Key() in w.runs
  {
    hide Tame, Explains, StateOK, EventOK;
    assert DirectiveOK(w.runs, w.stream.ids, c.d);
  }

  lemma {:induction false} SealedHolds(w: World, n: nat)
    requires Reached(w, n)
    ensures Sealed(w)
    decreases n
  {
    hide Good, Sealed, Accepted, Noted, Apply, Enabled, Honest, Allowed;
    GoodHolds(w, n);
    if n == 0 {
      SealedAtFirst();
    } else {
      var w0, a := ReachedFrom(w, n);
      SealedHolds(w0, n - 1);
      GoodHolds(w0, n - 1);
      var h, c := StepKinds(w0, a);
      if c.Some? {
        AcceptedKeepsSealed(w0, Apply(w0, a), h, c.value);
      } else {
        NotedKeepsSealed(w0, Apply(w0, a));
      }
    }
  }

  lemma SealedAtFirst()
    ensures Sealed(INIT)
  {
  }

  /** Once a batch has ended a run, no run state, run info, output, error, timer, dispatch, key-value update
      or terminal event of that run is appended any more, whatever is redelivered or still in flight. */
  lemma NothingAfterTheEnd(w: World, n: nat, i: nat, q: nat)
    requires Reached(w, n)
    requires i < |w.commits| && Ends(w.commits[i]) && w.commits[i].at + |w.commits[i].msgs| <= q < |w.stream.log|
    ensures !Late(w.stream.log[q], w.commits[i].d.Key())
  {
    hide Reached, Late, Ends;
    SealedHolds(w, n);
  }
}
