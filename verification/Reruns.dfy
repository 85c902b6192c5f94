/** Handling the directives of a run strictly one at a time: each of the committed directives is planned again from
    the state the ones before it leave behind and from what the log held at its commit. In every run of the system
    this ends in the state that the stream holds. */
module Reruns {
  import opened Types
  import opened Stream
  import opened Wire
  import opened Effects
  import opened Moves
  import opened Protocol
  import opened Worlds
  import opened Serial
  import opened Refinement
  import opened Discipline
  import opened Bookkeeping
  import opened Steps
  import opened Terminal
  import opened Fifo
  import opened Progress
  import opened Stretches
  import Entries
  import Views

  /* Reading again */

  /** The first entry in the inbox of a run behind a cursor. */
  function Unread(log: seq<Message>, key: RunKey, cursor: nat): Option<Directive>
    decreases |log| - cursor
  {
    if cursor >= |log| then None
    else if IsEntry(log[cursor], key) then Some(Stamped(log[cursor].record.directive, cursor + 1))
    else Unread(log, key, cursor + 1)
  }

  /** What the log held when a batch was committed. */
  function Before(log: seq<Message>, c: Commit): seq<Message> {
    if c.at <= |log| then log[..c.at] else log
  }

  /** The snapshot of a handler that reads everything at the moment of the commit. */
  function Reread(log: seq<Message>, c: Commit, prior: RunState): StateSnapshot {
    var key := c.d.Key();
    StateSnapshot(prior, Unread(Before(log, c), key, prior.lastEventSeqID), LastHistory(Before(log, c), key))
  }

  function RerunOne(log: seq<Message>, c: Commit, prior: RunState, key: RunKey): RunState {
    ReplayOne(c.(sn := Reread(log, c, prior)), prior, key)
  }

  function Rerun(log: seq<Message>, commits: seq<Commit>, key: RunKey): RunState {
    if commits == [] then NO_STATE
    else
      var c, prior := commits[|commits| - 1], Rerun(log, commits[..|commits| - 1], key);
      if c.d.Key() == key then RerunOne(log, c, prior, key) else prior
  }

  lemma {:induction false} UnreadIs(log: seq<Message>, key: RunKey, cursor: nat, q: nat)
    requires cursor < q <= |log| && IsEntry(log[q - 1], key) && forall p :: cursor <= p < q - 1 ==>
      !IsEntry(log[p], key)
    ensures Unread(log, key, cursor) == Some(Stamped(log[q - 1].record.directive, q))
    decreases q - cursor
  {
    if cursor < q - 1 { UnreadIs(log, key, cursor + 1, q); }
  }

  lemma {:induction false} UnreadFrom(log: seq<Message>, key: RunKey, cursor: nat) returns (p: nat)
    requires Unread(log, key, cursor).Some?
    ensures p < |log| && IsEntry(log[p], key)
    ensures Unread(log, key, cursor).value == Stamped(log[p].record.directive, p + 1)
    decreases |log| - cursor
  {
    if IsEntry(log[cursor], key) { p := cursor; } else { p := UnreadFrom(log, key, cursor + 1); }
  }

  /* A handler that gives out an event has read the first one that is unread at its commit */

  ghost predicate ReadsStand(w: World) {
    forall c :: c in w.commits && c.d.kind == WakeFromInboxKind ==>
      Unread(Before(w.stream.log, c), c.d.Key(), c.sn.runState.lastEventSeqID) == c.sn.event
  }

  lemma AcceptedReads(w: World, w': World, h: nat, c: Commit)
    requires Good(w) && Good(w') && FifoInv(w) && Accepted(w, w', h, c) && c.d.kind == WakeFromInboxKind
    ensures Unread(w.stream.log, c.d.Key(), c.sn.runState.lastEventSeqID) == c.sn.event
  {
    hide Good, Accepted, Explains, Tame, Lawful, StateOK, ViaOK, WellFormed, RunStateOf, NewState, InOrder,
      KeptWhileLive;
    AcceptedFacts(w, w', h, c);
    AcceptedHandler(w, w', h, c);
    AcceptedState(w, w', h, c, c.d.Key());
    WrittenIsLive(c);
    WakeTakes(c);
    UnreadIs(w.stream.log, c.d.Key(), c.sn.runState.lastEventSeqID, c.sn.event.value.msg.eventSeqID.value);
  }

  lemma WakeTakes(c: Commit)
    requires Tame(c.d) && c.effect.Effect? && Explains(c.d, c.sn, c.inp, c.effect) && c.d.kind == WakeFromInboxKind
    ensures c.sn.event.Some? && Written(c).Some? && c.effect.move.ToStep?
  {
  }

  lemma StepKeepsReads(w: World, a: Action)
    requires Good(w) && Enabled(w, a) && Honest(w, a) && Allowed(w, a) && Good(Apply(w, a)) && FifoInv(w)
    requires Placed(w) && ReadsStand(w)
    ensures ReadsStand(Apply(w, a))
  {
    hide Good, FifoInv, Honest, Allowed, Apply, Enabled, Accepted, Noted, Unread;
    var w' := Apply(w, a);
    var h, c := StepKinds(w, a);
    LogGrows(w, a);
    if c.Some? {
      AcceptedAt(w, w', h, c.value);
      AcceptedLog(w, w', h, c.value);
      if c.value.d.kind == WakeFromInboxKind { AcceptedReads(w, w', h, c.value); }
    } else {
      NotedCommits(w, w');
    }
    forall c' | c' in w'.commits && c'.d.kind == WakeFromInboxKind
      ensures Unread(Before(w'.stream.log, c'), c'.d.Key(), c'.sn.runState.lastEventSeqID) == c'.sn.event
    {
      if c' in w.commits {
        assert PlacedAt(w.stream.log, c');
        assert Before(w'.stream.log, c') == Before(w.stream.log, c');
      } else {
        assert Before(w'.stream.log, c') == w.stream.log;
      }
    }
  }

  lemma AcceptedLog(w: World, w': World, h: nat, c: Commit)
    requires Accepted(w, w', h, c)
    ensures w'.commits == w.commits + [c] && w'.stream.log == w.stream.log + c.msgs
  {
    hide Lawful, Check, Current, CommitOK, Grounded, IDsOf;
  }

  lemma {:induction false} ReadsHold(w: World, n: nat)
    requires Reached(w, n)
    ensures ReadsStand(w)
    decreases n
  {
    hide Good, FifoInv, Placed, ReadsStand, Apply, Enabled, Honest, Allowed;
    if n == 0 {
      ReadsAtFirst();
    } else {
      var w0, a := ReachedFrom(w, n);
      ReadsHold(w0, n - 1);
      GoodHolds(w0, n - 1);
      GoodHolds(w, n);
      FifoHolds(w0, n - 1);
      PlacedHolds(w0, n - 1);
      StepKeepsReads(w0, a);
    }
  }

  lemma ReadsAtFirst()
    ensures ReadsStand(INIT)
  {
  }

  /* Planning again */

  /** What a directive of the protocol does to the state of a run depends on nothing but that state, and on the event
      if it is a wake directive. */
  lemma SameState(d: Directive, sn: StateSnapshot, sn': StateSnapshot, inp: Inputs)
    requires Tame(d) && TameEvent(sn.event) && TameState(sn.runState) && TameEvent(sn'.event) && TameState(sn'.runState)
    requires EffectOf(d, sn, inp).Effect?
    requires d.kind == StartKind ==> sn'.runState == NO_STATE
    requires d.kind != StartKind && d.kind != EventKind ==> sn'.runState == sn.runState
    requires d.kind == WakeFromInboxKind ==> sn'.event == sn.event
    ensures NewState(EffectOf(d, sn', inp), sn', inp) == NewState(EffectOf(d, sn, inp), sn, inp)
  {
    hide EffectOf;
    Explained(d, sn, inp);
    Explained(d, sn', inp);
    MovesIff(d, sn, inp);
    MovesIff(d, sn', inp);
    SameWritten(d, sn, sn', inp, EffectOf(d, sn, inp), EffectOf(d, sn', inp));
  }

  lemma SameWritten(d: Directive, sn: StateSnapshot, sn': StateSnapshot, inp: Inputs, e: Effect, e': Effect)
    requires Tame(d) && Explains(d, sn, inp, e) && Explains(d, sn', inp, e') && e.Effect? && !GetsNowhere(d, sn)
    requires e'.Effect? <==> !GetsNowhere(d, sn')
    requires d.kind == StartKind ==> sn'.runState == NO_STATE
    requires d.kind != StartKind && d.kind != EventKind ==> sn'.runState == sn.runState
    requires d.kind == WakeFromInboxKind ==> sn'.event == sn.event
    ensures NewState(e', sn', inp) == NewState(e, sn, inp)
  {
    hide ResultFirst, Plain;
  }

  lemma RereadIsTame(w: World, c: Commit, prior: RunState)
    requires Good(w) && (prior == NO_STATE || StateOK(w.runs, w.queue, prior))
    ensures TameEvent(Reread(w.stream.log, c, prior).event) && TameState(prior)
  {
    hide Inv, Journal, IDsOK, HandlersOK, CommitsOK, RunsOK, Unread, LastHistory;
    var log := Before(w.stream.log, c);
    if prior.pendingCancel.Some? { PlainCancel(w, prior.pendingCancel.value); }
    if Unread(log, c.d.Key(), prior.lastEventSeqID).Some? {
      var p := UnreadFrom(log, c.d.Key(), prior.lastEventSeqID);
      assert log[p] == w.stream.log[p];
      assert MessageOK(w.runs, w.queue, w.stream.log[p]);
      PlainCancel(w, log[p].record.directive);
    }
  }

  lemma PlainCancel(w: World, d: Directive)
    requires QueueOK(w) && d in w.queue
    ensures d.msg.Kind() == d.kind
  {
    assert DirectiveOK(w.runs, w.stream.ids, d);
  }

  /** What a batch was planned from and what the log held at its commit go together. */
  lemma PriorFits(w: World, i: nat)
    requires Good(w) && ReadsStand(w) && i < |w.commits|
    ensures var c := w.commits[i];
            var prior := StateAfter(w.commits[..i], c.d.Key());
            && Tame(c.d) && c.effect.Effect?
            && (c.d.kind == StartKind ==> prior == NO_STATE)
            && (c.d.kind != StartKind && c.d.kind != EventKind ==>
              c.sn.runState == prior && StateOK(w.runs, w.queue, prior))
            && (c.d.kind == WakeFromInboxKind ==> Reread(w.stream.log, c, prior).event == c.sn.event)
  {
    hide Good, StateAfter, Explains, Tame, Lawful, Current, StateOK, EventOK, NewState, Unread;
    var c := w.commits[i];
    BatchFacts(w, i);
    KindOfMove(c.d, c.sn, c.inp, c.effect);
    NextState(w, i, c.d.Key());
    WrittenKey(c);
    if c.effect.move.Begin? { BeginFacts(w, i); }
  }

  /** The handler of a batch had read what the protocol lets it read. */
  lemma SnapshotIsTame(w: World, i: nat)
    requires Good(w) && i < |w.commits|
    ensures TameEvent(w.commits[i].sn.event) && TameState(w.commits[i].sn.runState)
  {
    hide Good, Explains, Tame, Lawful, Current, Grounded, QueueOK;
    BatchFacts(w, i);
    Entries.GoodQueue(w);
    var s := w.commits[i].sn.runState;
    if s != NO_STATE && s.pendingCancel.Some? { PlainCancel(w, s.pendingCancel.value); }
  }

  /** Planning a batch again gives the state it wrote. */
  lemma RerunWrites(w: World, i: nat)
    requires Good(w) && ReadsStand(w) && i < |w.commits| && Genuine(w.commits[i])
    ensures var c := w.commits[i];
            var sn := Reread(w.stream.log, c, StateAfter(w.commits[..i], c.d.Key()));
            NewState(EffectOf(c.d, sn, c.inp), sn, c.inp) == Written(c)
  {
    hide Good, Genuine, StateAfter, StateOK, NewState, EffectOf, Unread, LastHistory;
    var c := w.commits[i];
    var prior := StateAfter(w.commits[..i], c.d.Key());
    PriorFits(w, i);
    GenuineEffect(c);
    SnapshotIsTame(w, i);
    if c.d.kind == EventKind {
      EventWrites(c.d, c.sn, c.inp);
      EventWrites(c.d, Reread(w.stream.log, c, prior), c.inp);
    } else {
      RereadIsTame(w, c, prior);
      SameState(c.d, c.sn, Reread(w.stream.log, c, prior), c.inp);
    }
  }

  lemma EventWrites(d: Directive, sn: StateSnapshot, inp: Inputs)
    requires Tame(d) && d.kind == EventKind
    ensures NewState(EffectOf(d, sn, inp), sn, inp) == None
  {
    hide EffectOf;
    EventEffect(d, sn, inp);
  }

  lemma RerunStep(w: World, i: nat, key: RunKey)
    requires Good(w) && ReadsStand(w) && i < |w.commits| && Genuine(w.commits[i]) && w.commits[i].d.Key() == key
    ensures RerunOne(w.stream.log, w.commits[i], StateAfter(w.commits[..i], key), key)
      == StateAfter(w.commits[..i + 1], key)
  {
    hide Good, Genuine, StateAfter, CommitOK, Lawful, Current, NewState, ReplayOne, EffectOf, Unread, LastHistory,
      LastOn;
    var c, prior := w.commits[i], StateAfter(w.commits[..i], key);
    assert w.commits[..i + 1] == w.commits[..i] + [c];
    BatchFacts(w, i);
    RerunWrites(w, i);
    ReplayByEffect(c.(sn := Reread(w.stream.log, c, prior)), prior, key);
    StateAfterPush(w.commits[..i], c, key);
    StateAtKey(c, key);
    WrittenIsOwn(w, i);
  }

  lemma StateAtKey(c: Commit, key: RunKey)
    requires Lawful(c)
    ensures StateAt(c, key)
  {
    hide StateAt, Fits, Puts, LedMessages, TasksIn, QueuedIn, EndsOf, Views.EndEvents;
  }

  lemma WrittenIsOwn(w: World, i: nat)
    requires Good(w) && i < |w.commits|
    ensures Written(w.commits[i]).Some? ==> Written(w.commits[i]).value.Key() == w.commits[i].d.Key()
  {
    hide Good, StateAfter, Explains, Tame, Lawful, Current, StateOK, EventOK;
    var c := w.commits[i];
    BatchFacts(w, i);
    StateMoves(c);
    WrittenKey(c);
  }

  lemma RerunPush(log: seq<Message>, commits: seq<Commit>, c: Commit, key: RunKey)
    ensures Rerun(log, commits + [c], key) == if c.d.Key() == key then RerunOne(log, c, Rerun(log, commits, key), key)
      else Rerun(log, commits, key)
  {
    hide RerunOne;
    assert (commits + [c])[..|commits|] == commits;
  }

  lemma {:induction false} RerunGivesState(w: World, i: nat, key: RunKey)
    requires Good(w) && ReadsStand(w) && (forall c :: c in w.commits ==> Genuine(c)) && i <= |w.commits|
    ensures Rerun(w.stream.log, w.commits[..i], key) == StateAfter(w.commits[..i], key)
  {
    hide Good, ReadsStand, Genuine, StateAfter, Rerun, RerunOne;
    if i == 0 {
      RerunNothing(w.stream.log, key);
    } else {
      var c := w.commits[i - 1];
      RerunGivesState(w, i - 1, key);
      assert w.commits[..i] == w.commits[..i - 1] + [c] && c in w.commits;
      RerunPush(w.stream.log, w.commits[..i - 1], c, key);
      if c.d.Key() == key { RerunStep(w, i - 1, key); } else { NextState(w, i - 1, key); }
    }
  }

  lemma RerunNothing(log: seq<Message>, key: RunKey)
    ensures Rerun(log, [], key) == StateAfter([], key)
  {
  }

  lemma {:induction false} ReachedIsPossible(w: World, n: nat)
    requires Reached(w, n)
    ensures Possible(w, n)
    decreases n
  {
    hide Enabled, Honest, Allowed, Apply;
    if n > 0 {
      var w0, a := ReachedFrom(w, n);
      ReachedIsPossible(w0, n - 1);
      assert PossibleStep(w0, a, w, n);
    }
  }

  /** Concurrent handling is serial handling. In every run of the system, whatever the interleaving, the redeliveries
      and the faults, the stream holds for each run the state in which handling its committed directives strictly one
      at a time ends, where each handler reads state, event and history at the moment of its commit. */
  lemma ConcurrentIsSerial(w: World, n: nat, key: RunKey)
    requires Reached(w, n)
    ensures RunStateOf(w.stream.log, key) == Rerun(w.stream.log, w.commits, key)
  {
    hide Reached, Possible, Good, ReadsStand, Genuine, StateAfter, Rerun, RunStateOf;
    GoodHolds(w, n);
    ReadsHold(w, n);
    ReachedIsPossible(w, n);
    CommitsAreGenuine(w, n);
    GoodState(w, key);
    assert w.commits[..|w.commits|] == w.commits;
    RerunGivesState(w, |w.commits|, key);
  }
}
