/** The log is what a serial execution would have produced: re-planning the committed directives one
    after the other, each from the state the one before it left, gives the state the stream holds. */
module Refinement {
  import opened Types
  import opened Stream
  import opened Wire
  import opened Views
  import opened Planner
  import opened Effects
  import opened Moves
  import opened Worlds
  import opened Serial

  /** A commit is the batch decided on for its directive and snapshot, as messages in some key order. */
  ghost predicate Genuine(c: Commit) {
    && Decide(c.d, c.sn, c.inp).Write? && Decide(c.d, c.sn, c.inp).batch != []
    && c.effect == EffectOf(c.d, c.sn, c.inp)
    && var batch := Decide(c.d, c.sn, c.inp).batch;
       exists order :: OrderFor(batch, order) && c.msgs == BatchMessages(batch, order)
  }

  lemma FinishIsGenuine(w: World, a: Action)
    requires a.Finish? && Enabled(w, a) && Honest(w, a)
    ensures forall c :: c in Apply(w, a).commits && c !in w.commits ==> Genuine(c)
  {
    var w' := Apply(w, a);
    FinishCases(w, a.h, a.inp, a.order, a.fault, a.decision, a.effect);
    forall c | c in w'.commits && c !in w.commits ensures Genuine(c) {
      assert c == w'.commits[|w.commits|];
    }
  }

  lemma {:induction false} CommitsAreGenuine(w: World, n: nat)
    requires Possible(w, n)
    ensures forall c :: c in w.commits ==> Genuine(c)
    decreases n
  {
    if n > 0 {
      hide Genuine, Enabled, Honest, Apply;
      var w0, a := PossibleFrom(w, n);
      CommitsAreGenuine(w0, n - 1);
      if a.Finish? {
        FinishIsGenuine(w0, a);
      } else {
        OnlyFinishCommits(w0, a);
      }
    }
  }

  lemma OnlyFinishCommits(w: World, a: Action)
    requires Enabled(w, a) && !a.Finish?
    ensures Apply(w, a).commits == w.commits
  {
  }

  /** The batch is the one decided on and, if it writes a state other than by starting a run, it writes one,
      and was decided on from exactly the state before it. */
  ghost predicate Serialised(commits: seq<Commit>, i: nat)
    requires i < |commits|
  {
    var c := commits[i];
    && Genuine(c)
    && c.effect.Effect?
    && (StatesWritten(c) != [] && !c.effect.move.Begin? ==>
          && |StatesWritten(c)| == 1
          && StatesWritten(c)[0].RunStateRecord? && StatesWritten(c)[0].expectedSeq == c.sn.runState.seqID > 0
          && c.sn.runState == StateAfter(commits[..i], c.d.Key())
          && !c.sn.runState.IsTerminal())
  }

  function StatesWritten(c: Commit): seq<Record> {
    match Decide(c.d, c.sn, c.inp)
    case Write(batch) => Of(batch).states
    case _ => []
  }

  lemma CommitIsSerialised(commits: seq<Commit>, i: nat)
    requires i < |commits| && Genuine(commits[i]) && Current(commits, i)
    ensures Serialised(commits, i)
  {
    StatesOfCommit(commits[i]);
    TerminalHasNoEffect(commits[i].d, commits[i].sn, commits[i].inp);
  }

  /** The main result on concurrency: in every run of the system, for any directives, interleaving,
      redelivery and faults, the stream's state of each run is the one the last committed batch wrote, and every
      committed batch is serialised. */
  lemma OptimisticCommitsAreSerial(w: World, n: nat)
    requires Possible(w, n)
    ensures forall i :: 0 <= i < |w.commits| ==> Serialised(w.commits, i)
    ensures forall key :: RunStateOf(w.stream.log, key) == StateAfter(w.commits, key)
  {
    InvHolds(w, n);
    CommitsAreGenuine(w, n);
    var commits := w.commits;
    forall i | 0 <= i < |commits| ensures Serialised(commits, i) {
      assert Genuine(commits[i]);
      CommitIsSerialised(commits, i);
    }
  }

  lemma StatesOfCommit(c: Commit)
    requires Genuine(c)
    ensures c.effect.Effect? && WellFormed(c.effect)
    ensures Of(Decide(c.d, c.sn, c.inp).batch).states == NewStates(c.effect, c.sn, c.inp)
  {
    EffectIsBatch(c.d, c.sn, c.inp);
    StateFields(c.effect, c.sn, c.inp);
  }

  /** A directive for a finished run does nothing. */
  lemma TerminalHasNoEffect(d: Directive, sn: StateSnapshot, inp: Inputs)
    requires EffectOf(d, sn, inp).Effect?
    ensures !sn.runState.IsTerminal()
  {
  }

  /* Replaying the commits one after the other */

  function ReplayOne(c: Commit, prior: RunState, key: RunKey): RunState {
    match Decide(c.d, c.sn.(runState := prior), c.inp)
    case Write(batch) =>
      var s := LastOfKey(Of(batch).states, key);
      if s.Some? then s.value.(seqID := c.at + LastOn(c.msgs, StateSubject(key.wfID, key.runID))) else prior
    case _ => prior
  }

  function Replay(commits: seq<Commit>, key: RunKey): RunState {
    if commits == [] then NO_STATE
    else
      var prior := Replay(commits[..|commits| - 1], key);
      var c := commits[|commits| - 1];
      if c.d.Key() == key then ReplayOne(c, prior, key) else prior
  }

  /** Starts are applied to runs that have no state yet. */
  predicate StartsOnce(commits: seq<Commit>) {
    forall i :: 0 <= i < |commits| && commits[i].effect.Effect? && commits[i].effect.move.Begin? ==>
      StateAfter(commits[..i], commits[i].d.Key()) == NO_STATE
  }

  /** The same of one run. */
  predicate StartedOnceOnly(commits: seq<Commit>, key: RunKey) {
    forall i ::
      0 <= i < |commits| && commits[i].d.Key() == key && commits[i].effect.Effect? && commits[i].effect.move.Begin? ==>
        StateAfter(commits[..i], key) == NO_STATE
  }

  lemma ReplayByEffect(c: Commit, prior: RunState, key: RunKey)
    ensures var sn := c.sn.(runState := prior);
            var s := NewState(EffectOf(c.d, sn, c.inp), sn, c.inp);
            ReplayOne(c, prior, key) ==
              if s.Some? && s.value.Key() == key then s.value.(seqID := c.at + LastOn(c.msgs,
                StateSubject(key.wfID, key.runID))) else prior
  {
    var sn := c.sn.(runState := prior);
    var e := EffectOf(c.d, sn, c.inp);
    EffectIsBatch(c.d, sn, c.inp);
    if e.Effect? {
      StateFields(e, sn, c.inp);
      StatesOfEffect(e, sn, c.inp, key);
    }
  }

  /** Re-planning a commit from the state before it gives the state it wrote. */
  lemma ReplayedState(c: Commit, prior: RunState)
    requires c.effect.Effect? && WellFormed(c.effect) && c.effect == EffectOf(c.d, c.sn, c.inp)
    requires c.effect.move.Begin? ==> prior == NO_STATE
    requires !c.effect.move.Begin? && !c.effect.move.Receive? ==> c.sn.runState == prior
    ensures var sn := c.sn.(runState := prior);
            NewState(EffectOf(c.d, sn, c.inp), sn, c.inp) == NewState(c.effect, c.sn, c.inp)
  {
    var sn := c.sn.(runState := prior);
    MoveOrigin(c.d, c.sn, c.inp);
    if c.effect.move.Begin? {
      StartEffect(c.d, sn, c.inp);
    } else if c.effect.move.Receive? {
      EventEffect(c.d, sn, c.inp);
    } else {
      assert sn == c.sn;
    }
  }

  lemma ReplayStep(commits: seq<Commit>, c: Commit, key: RunKey)
    requires Lawful(c) && Current(commits + [c], |commits|) && StartedOnceOnly(commits + [c], key)
    requires c.effect == EffectOf(c.d, c.sn, c.inp)
    ensures StateAfter(commits + [c], key) == if c.d.Key() == key then ReplayOne(c, StateAfter(commits, key), key)
      else StateAfter(commits, key)
  {
    hide StateAfter, Fits, Puts, LedMessages, TasksIn, QueuedIn, EndsOf, EndEvents, StartedOnceOnly, Current,
      EffectOf, ReplayOne;
    var prior := StateAfter(commits, key);
    StateAfterPush(commits, c, key);
    assert StateAt(c, key);
    CurrentFacts(commits, c);
    if c.d.Key() == key {
      StartIsFirst(commits, c, key);
      ReplayByEffect(c, prior, key);
      ReplayedState(c, prior);
    }
  }

  lemma CurrentFacts(commits: seq<Commit>, c: Commit)
    requires Lawful(c) && Current(commits + [c], |commits|)
    ensures NewState(c.effect, c.sn, c.inp).Some? ==> NewState(c.effect, c.sn, c.inp).value.Key() == c.d.Key()
    ensures !c.effect.move.Begin? && !c.effect.move.Receive? ==> c.sn.runState == StateAfter(commits, c.d.Key())
  {
    hide StateAfter, Lawful;
    LawfulShape(c);
    assert (commits + [c])[..|commits|] == commits;
    assert (commits + [c])[|commits|] == c;
  }

  lemma StartIsFirst(commits: seq<Commit>, c: Commit, key: RunKey)
    requires StartedOnceOnly(commits + [c], key) && c.d.Key() == key && c.effect.Effect?
    ensures c.effect.move.Begin? ==> StateAfter(commits, key) == NO_STATE
  {
    hide StateAfter;
    assert (commits + [c])[..|commits|] == commits;
    assert (commits + [c])[|commits|] == c;
  }

  lemma StartedOnce(commits: seq<Commit>, i: nat)
    requires StartsOnce(commits) && i < |commits|
    ensures commits[i].effect.Effect? && commits[i].effect.move.Begin? ==>
      StateAfter(commits[..i], commits[i].d.Key()) == NO_STATE
  {
    hide StateAfter;
  }

  ghost predicate Chained(commits: seq<Commit>) {
    && StartsOnce(commits)
    && forall i :: 0 <= i < |commits| ==> Lawful(commits[i]) && Current(commits, i)
  }

  /** The batches are lawful and follow one another, and the run is started once. */
  ghost predicate ChainedFor(commits: seq<Commit>, key: RunKey) {
    && StartedOnceOnly(commits, key)
    && forall i :: 0 <= i < |commits| ==> Lawful(commits[i]) && Current(commits, i)
  }

  lemma ChainedPrefix(commits: seq<Commit>, key: RunKey)
    requires ChainedFor(commits, key) && commits != []
    ensures ChainedFor(commits[..|commits| - 1], key)
  {
    hide Lawful, StateAfter, NewState;
    var front := commits[..|commits| - 1];
    forall i | 0 <= i < |front| ensures Lawful(front[i]) && Current(front, i) {
      assert front[..i] == commits[..i];
      assert Lawful(commits[i]) && Current(commits, i);
    }
    assert forall i :: 0 <= i < |front| ==> front[..i] == commits[..i];
  }

  lemma GenuineEffect(c: Commit)
    requires Genuine(c)
    ensures c.effect == EffectOf(c.d, c.sn, c.inp)
  {
    hide Decide, EffectOf;
  }

  lemma ReplayNone(key: RunKey)
    ensures Replay([], key) == StateAfter([], key)
  {
  }

  lemma ReplayPush(commits: seq<Commit>, c: Commit, key: RunKey)
    ensures Replay(commits + [c], key) == if c.d.Key() == key then ReplayOne(c, Replay(commits, key), key)
      else Replay(commits, key)
  {
    hide ReplayOne;
    assert (commits + [c])[..|commits|] == commits;
  }

  lemma ChainedLast(commits: seq<Commit>, c: Commit, key: RunKey)
    requires ChainedFor(commits + [c], key)
    ensures Lawful(c) && Current(commits + [c], |commits|) && StartedOnceOnly(commits + [c], key)
  {
    hide Lawful, Current, StartedOnceOnly;
    assert Lawful((commits + [c])[|commits|]);
  }

  lemma ReplayExtends(commits: seq<Commit>, c: Commit, key: RunKey)
    requires ChainedFor(commits + [c], key) && Genuine(c) && Replay(commits, key) == StateAfter(commits, key)
    ensures Replay(commits + [c], key) == StateAfter(commits + [c], key)
  {
    hide ChainedFor, Genuine, StateAfter, Replay, ReplayOne, Lawful, Current, StartedOnceOnly, EffectOf;
    ChainedLast(commits, c, key);
    GenuineEffect(c);
    ReplayPush(commits, c, key);
    ReplayStep(commits, c, key);
  }

  lemma {:induction false} ReplayGivesState(commits: seq<Commit>, key: RunKey)
    requires ChainedFor(commits, key)
    requires forall c :: c in commits ==> Genuine(c)
    ensures Replay(commits, key) == StateAfter(commits, key)
  {
    hide ChainedFor, Genuine, StateAfter, Replay;
    if commits == [] {
      ReplayNone(key);
    } else {
      var front, c := commits[..|commits| - 1], commits[|commits| - 1];
      ChainedPrefix(commits, key);
      ReplayGivesState(front, key);
      assert commits == front + [c] && c in commits;
      ReplayExtends(front, c, key);
    }
  }

  /** Concurrent handling refines serial handling: if the start of a run is applied once, the stream holds for it the
      state that planning its committed directives one after the other gives, each from the state before it and
      from the event and the last history that its handler had read. */
  lemma ConcurrentRefinesSerial(w: World, n: nat, key: RunKey)
    requires Possible(w, n) && StartedOnceOnly(w.commits, key)
    ensures RunStateOf(w.stream.log, key) == Replay(w.commits, key)
  {
    hide Possible, Replay, Genuine, StateAfter, RunStateOf;
    InvHolds(w, n);
    CommitsAreGenuine(w, n);
    LinkedFor(w, key);
    ReplayGivesState(w.commits, key);
  }

  lemma LinkedFor(w: World, key: RunKey)
    requires Inv(w) && StartedOnceOnly(w.commits, key)
    ensures ChainedFor(w.commits, key) && RunStateOf(w.stream.log, key) == StateAfter(w.commits, key)
  {
    hide Lawful, StateAfter, RunStateOf, Current, StartedOnceOnly, HandlerOK;
  }
}
