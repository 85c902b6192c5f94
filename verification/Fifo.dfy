/** Events are dispatched first in, first out and exactly once: at any time the events a run was given are the
    entries of its inbox up to the cursor in its state, one by one and in order. */
module Fifo {
  import opened Types
  import opened Stream
  import opened Effects
  import opened Moves
  import opened Protocol
  import opened Worlds
  import opened Serial
  import opened Discipline
  import opened Bookkeeping
  import opened Steps
  import opened Terminal
  import opened Acknowledged

  /* Inbox entries */

  predicate IsEntry(m: Message, key: RunKey) {
    m.Stored? && m.record.InboxRecord? && m.record.directive.Key() == key
  }

  /** The events in a run's inbox up to a sequence, in order. */
  function InboxUpTo(log: seq<Message>, key: RunKey, upto: nat): seq<Directive>
    requires upto <= |log|
  {
    if upto == 0 then []
    else InboxUpTo(log, key, upto - 1) + (if IsEntry(log[upto - 1], key)
      then [Stamped(log[upto - 1].record.directive, upto)] else [])
  }

  predicate GivesEvent(c: Commit, key: RunKey) {
    c.d.Key() == key && c.effect.Effect? && c.effect.move.ToStep? && c.effect.move.via.kind == EventKind
  }

  /** The events a run was given to handle, in the order it was given them. */
  function Dispatched(commits: seq<Commit>, key: RunKey): seq<Directive> {
    if commits == [] then []
    else
      var c := commits[|commits| - 1];
      Dispatched(commits[..|commits| - 1], key) + (if GivesEvent(c, key) then [c.effect.move.via] else [])
  }

  lemma DispatchedPush(commits: seq<Commit>, c: Commit, key: RunKey)
    ensures Dispatched(commits + [c], key) == Dispatched(commits, key) + (if GivesEvent(c, key) then [c.effect.move.via]
      else [])
  {
    hide GivesEvent;
    assert (commits + [c])[..|commits|] == commits;
  }

  lemma {:induction false} InboxStays(log: seq<Message>, more: seq<Message>, key: RunKey, upto: nat)
    requires upto <= |log|
    ensures InboxUpTo(log + more, key, upto) == InboxUpTo(log, key, upto)
  {
    if upto > 0 { InboxStays(log, more, key, upto - 1); }
  }

  /** Without entries in between, the inbox up to one sequence is the inbox up to the other. */
  lemma {:induction false} InboxSkips(log: seq<Message>, key: RunKey, lo: nat, hi: nat)
    requires lo <= hi <= |log| && forall p :: lo <= p < hi ==> !IsEntry(log[p], key)
    ensures InboxUpTo(log, key, hi) == InboxUpTo(log, key, lo)
  {
    if lo < hi { InboxSkips(log, key, lo, hi - 1); }
  }

  lemma InboxGrows(log: seq<Message>, key: RunKey, lo: nat, q: nat)
    requires lo < q <= |log| && IsEntry(log[q - 1], key) && forall p :: lo <= p < q - 1 ==> !IsEntry(log[p], key)
    ensures InboxUpTo(log, key, q) == InboxUpTo(log, key, lo) + [Stamped(log[q - 1].record.directive, q)]
  {
    InboxSkips(log, key, lo, q - 1);
  }

  /* The cursor */

  /** Only taking an event from the inbox moves the cursor. */
  lemma CursorMoves(c: Commit)
    requires Tame(c.d) && Explains(c.d, c.sn, c.inp, c.effect) && Grounded(c) && Written(c).Some?
    requires c.sn.event.Some? ==>
      c.sn.event.value.kind == EventKind && c.sn.event.value.msg.EventMsg? && c.sn.event.value.msg.eventSeqID.Some?
    ensures Written(c).value.lastEventSeqID ==
      if c.effect.move.Begin? then 0
      else if GivesEvent(c, c.d.Key()) then c.sn.event.value.msg.eventSeqID.value
      else c.sn.runState.lastEventSeqID
    ensures GivesEvent(c, c.d.Key()) ==> c.sn.event.Some? && c.effect.move.via == c.sn.event.value
  {
    hide ResultFirst, Plain, StaleStep, StaleWait;
  }

  /* What handlers have read */

  /** The event a handler read is the first of the run's inbox behind the cursor it read, unless the run has
      ended and its inbox was purged. */
  predicate NextOK(log: seq<Message>, x: Handler) {
    x.stage >= 3 && x.event.Some? && !x.state.IsTerminal() ==>
      && x.event.value.msg.EventMsg? && x.event.value.msg.eventSeqID.Some?
      && var q := x.event.value.msg.eventSeqID.value;
         && x.state.lastEventSeqID < q <= |log|
         && IsEntry(log[q - 1], x.d.Key()) && Stamped(log[q - 1].record.directive, q) == x.event.value
         && (RunStateOf(log, x.d.Key()).IsTerminal() || forall p :: x.state.lastEventSeqID <= p < q - 1 ==>
           !IsEntry(log[p], x.d.Key()))
  }

  /** Inbox entries are only removed after the end of their run. */
  predicate KeptWhileLive(st: Stream) {
    && (forall q :: q in st.removed ==> 1 <= q <= |st.log|)
    && forall i: nat {:trigger st.log[i]} ::
      i < |st.log| && i + 1 in st.removed && st.log[i].Stored? && st.log[i].record.InboxRecord? ==>
      RunStateOf(st.log, st.log[i].record.directive.Key()).IsTerminal()
  }

  predicate InOrder(w: World, key: RunKey) {
    var cursor := RunStateOf(w.stream.log, key).lastEventSeqID;
    cursor <= |w.stream.log| && Dispatched(w.commits, key) == InboxUpTo(w.stream.log, key, cursor)
  }

  ghost predicate FifoInv(w: World) {
    && (forall key :: InOrder(w, key))
    && KeptWhileLive(w.stream)
    && (forall h :: h in w.handlers ==> NextOK(w.stream.log, w.handlers[h]))
  }

  /* Preservation */

  lemma AcceptedKeepsOrder(w: World, w': World, h: nat, c: Commit, key: RunKey)
    requires Good(w) && Good(w') && Accepted(w, w', h, c) && InOrder(w, key) && NextOK(w.stream.log, w.handlers[h])
    ensures InOrder(w', key)
  {
    hide Good, Accepted, Explains, Tame, Lawful, RunStateOf, StateOK, NewState, Root, InboxUpTo, Dispatched, NextOK,
      Grounded, WellFormed;
    AcceptedFacts(w, w', h, c);
    AcceptedState(w, w', h, c, key);
    DispatchedPush(w.commits, c, key);
    var cursor := RunStateOf(w.stream.log, key).lastEventSeqID;
    InboxStays(w.stream.log, c.msgs, key, cursor);
    if c.d.Key() == key && Written(c).Some? {
      CursorMoves(c);
      if GivesEvent(c, key) {
        TakesNext(w, w', h, c);
        var q := c.sn.event.value.msg.eventSeqID.value;
        InboxStays(w.stream.log, c.msgs, key, q);
      }
    } else {
      NoEventGiven(c, key);
    }
  }

  lemma NoEventGiven(c: Commit, key: RunKey)
    requires c.d.Key() != key || Written(c).None?
    ensures !GivesEvent(c, key)
  {
  }

  /** The event a batch takes is the next one in the inbox of its run. */
  lemma TakesNext(w: World, w': World, h: nat, c: Commit)
    requires Good(w) && Good(w') && Accepted(w, w', h, c) && NextOK(w.stream.log, w.handlers[h])
    requires GivesEvent(c, c.d.Key())
    requires EventOK(w.queue, c.d.Key(), c.sn.event) && c.sn.event.Some? && Written(c).Some?
    ensures var q, cursor := c.sn.event.value.msg.eventSeqID.value, RunStateOf(w.stream.log, c.d.Key()).lastEventSeqID;
            && cursor < q <= |w.stream.log|
            && InboxUpTo(w.stream.log, c.d.Key(), q) == InboxUpTo(w.stream.log, c.d.Key(), cursor) + [c.sn.event.value]
  {
    hide Good, Accepted, Explains, Tame, Lawful, RunStateOf, StateOK, NewState, Root, InboxUpTo, Dispatched, WellFormed;
    AcceptedFacts(w, w', h, c);
    AcceptedHandler(w, w', h, c);
    AcceptedState(w, w', h, c, c.d.Key());
    WrittenIsLive(c);
    var q := c.sn.event.value.msg.eventSeqID.value;
    InboxGrows(w.stream.log, c.d.Key(), c.sn.runState.lastEventSeqID, q);
  }

  lemma AcceptedHandler(w: World, w': World, h: nat, c: Commit)
    requires Accepted(w, w', h, c)
    ensures h in w.handlers && c.d == w.handlers[h].d && c.sn == w.handlers[h].Snapshot() && w.handlers[h].stage == 3
    ensures c.readAt == w.handlers[h].readAt
    ensures w'.handlers == w.handlers - {h} && w'.stream.removed == w.stream.removed
  {
    hide Lawful, Check, Current, CommitOK, Grounded;
  }

  lemma NotedKeepsOrder(w: World, w': World, key: RunKey)
    requires Noted(w, w') && InOrder(w, key)
    ensures InOrder(w', key)
  {
    hide RunStateOf, InboxUpTo, Dispatched, OutsideOf, Grows;
    NotedKeepsState(w, w', key);
    var more := w'.stream.log[|w.stream.log|..];
    assert w'.stream.log == w.stream.log + more;
    InboxStays(w.stream.log, more, key, RunStateOf(w.stream.log, key).lastEventSeqID);
  }

  lemma LogGrows(w: World, a: Action)
    requires Good(w) && Enabled(w, a) && Honest(w, a) && Allowed(w, a)
    ensures w.stream.log <= Apply(w, a).stream.log
  {
    hide Good, Honest, Allowed, Apply, Enabled, Accepted, Noted;
    var h, c := StepKinds(w, a);
    if c.Some? {
      hide Lawful, Explains, Tame, Grounded, StateOK, EventOK, ViaOK;
      AcceptedFacts(w, Apply(w, a), h, c.value);
    } else {
      NotedGrows(w, Apply(w, a));
    }
  }

  lemma NotedGrows(w: World, w': World)
    requires Noted(w, w')
    ensures w.stream.log <= w'.stream.log
  {
    hide OutsideOf, Grows;
  }

  /** A step removes an inbox entry only by purging its workflow. */
  lemma RemovedBy(w: World, a: Action, q: nat)
    requires Enabled(w, a) && q in Apply(w, a).stream.removed && q !in w.stream.removed
    ensures 1 <= q <= |w.stream.log|
    ensures w.stream.log[q - 1].Subject().InboxSubject? ==>
      a.Purge? && w.stream.log[q - 1].Subject() == InboxSubject(TaskAt(w.stream.log, a.seqID).value.wfID)
  {
    hide RunStateOf, NextEvent, IDsOf, LastHistory, TimeoutDirective, FinishIn;
    if a.Finish? { RemovedByFinish(w, a); }
  }

  lemma RemovedByFinish(w: World, a: Action)
    requires Enabled(w, a) && a.Finish?
    ensures Apply(w, a).stream.removed == w.stream.removed
  {
    hide Check, IDsOf, Wire.BatchMessages, Wire.Encodable;
  }

  lemma StepKeepsKept(w: World, a: Action)
    requires Good(w) && Enabled(w, a) && Honest(w, a) && Allowed(w, a) && Good(Apply(w, a)) && KeptWhileLive(w.stream)
    ensures KeptWhileLive(Apply(w, a).stream)
  {
    hide Good, Honest, Enabled, Apply, RunStateOf;
    var st := Apply(w, a).stream;
    LogGrows(w, a);
    forall q | q in st.removed ensures 1 <= q <= |st.log| {
      if q !in w.stream.removed { RemovedBy(w, a, q); }
    }
    forall i: nat | i < |st.log| && i + 1 in st.removed && st.log[i].Stored? && st.log[i].record.InboxRecord?
      ensures RunStateOf(st.log, st.log[i].record.directive.Key()).IsTerminal()
    {
      var key := st.log[i].record.directive.Key();
      if i + 1 !in w.stream.removed { RemovedBy(w, a, i + 1); }
      assert st.log[i] == w.stream.log[i];
      EntryIsOfRun(w, i);
      assert RunStateOf(w.stream.log, key).IsTerminal();
      TerminalKept(w, a, key);
    }
  }

  lemma EntryIsOfRun(w: World, i: nat)
    requires Good(w) && i < |w.stream.log| && w.stream.log[i].Stored? && w.stream.log[i].record.InboxRecord?
    ensures w.stream.log[i].record.directive.Key() in w.runs
    ensures w.stream.log[i].Subject() == InboxSubject(w.stream.log[i].record.directive.Key().wfID)
  {
    hide Inv, Journal, QueueOK, IDsOK, HandlersOK, CommitsOK, RunsOK;
    assert MessageOK(w.runs, w.queue, w.stream.log[i]);
    RunIsKnown(w, w.stream.log[i].record.directive);
  }

  /* Handlers */

  lemma HandlerChanges(w: World, a: Action, h: nat)
    requires Enabled(w, a) && h in Apply(w, a).handlers
    ensures var x' := Apply(w, a).handlers[h];
            || (h in w.handlers && x' == w.handlers[h])
            || x'.stage < 3
            || (a.ReadEvent? && a.h == h && h in w.handlers
                && x' == w.handlers[h].(stage := 3,
                  event := NextEvent(w.stream, w.handlers[h].d.runInfo.wfID, w.handlers[h].state.lastEventSeqID)))
  {
    hide Wire.Commit, Wire.OrderFor, Wire.BatchMessages, TimeoutDirective, RunStateOf, NextEvent, IDsOf, LastHistory;
  }

  lemma NextStays(w: World, a: Action, x: Handler)
    requires Good(w) && Enabled(w, a) && Honest(w, a) && Allowed(w, a) && Good(Apply(w, a)) && NextOK(w.stream.log, x)
    ensures NextOK(Apply(w, a).stream.log, x)
  {
    hide Good, Honest, Enabled, Allowed, Apply, RunStateOf, IsEntry;
    LogGrows(w, a);
    if RunStateOf(w.stream.log, x.d.Key()).IsTerminal() { TerminalKept(w, a, x.d.Key()); }
  }

  lemma NoEarlierEntry(st: Stream, key: RunKey, cursor: nat, p: nat)
    requires KeptWhileLive(st) && !RunStateOf(st.log, key).IsTerminal()
    requires cursor <= p < FirstAfter(st, InboxSubject(key.wfID), cursor) - 1
    ensures !IsEntry(st.log[p], key)
  {
    hide RunStateOf;
    assert IsEntry(st.log[p], key) ==> st.log[p].Subject() == InboxSubject(key.wfID);
  }

  /** A handler that reads its event reads the first entry behind its cursor that is still there. */
  lemma ReadsNext(w: World, x: Handler)
    requires KeptWhileLive(w.stream) && QueueOK(w) && LogOK(w)
    requires x.state.IsTerminal() || OwnInbox(w.stream, x.d.Key())
    ensures NextOK(w.stream.log, x.(stage := 3, event := NextEvent(w.stream, x.d.runInfo.wfID, x.state.lastEventSeqID)))
  {
    hide RunStateOf, FirstAfter, QueueOK, KeptWhileLive;
    var key, cursor := x.d.Key(), x.state.lastEventSeqID;
    var q := FirstAfter(w.stream, InboxSubject(key.wfID), cursor);
    if q > 0 && !x.state.IsTerminal() {
      var m := w.stream.log[q - 1];
      assert MessageOK(w.runs, w.queue, m) && m.record.directive.Key() == key;
      TameEntry(w, m.record.directive);
      if !RunStateOf(w.stream.log, key).IsTerminal() { NoneBefore(w.stream, key, cursor, q); }
    }
  }

  lemma NoneBefore(st: Stream, key: RunKey, cursor: nat, q: nat)
    requires KeptWhileLive(st) && !RunStateOf(st.log, key).IsTerminal()
    requires q == FirstAfter(st, InboxSubject(key.wfID), cursor) > 0
    ensures forall p :: cursor <= p < q - 1 ==> !IsEntry(st.log[p], key)
  {
    hide RunStateOf, FirstAfter, KeptWhileLive;
    forall p: nat | cursor <= p < q - 1 ensures !IsEntry(st.log[p], key) { NoEarlierEntry(st, key, cursor, p); }
  }

  lemma TameEntry(w: World, d: Directive)
    requires QueueOK(w) && d in w.queue && d.kind == EventKind
    ensures d.msg.EventMsg?
  {
    assert DirectiveOK(w.runs, w.stream.ids, d);
  }

  lemma StepKeepsNext(w: World, a: Action, h: nat)
    requires Good(w) && Enabled(w, a) && Honest(w, a) && Allowed(w, a) && Good(Apply(w, a)) && FifoInv(w)
    requires h in Apply(w, a).handlers
    ensures NextOK(Apply(w, a).stream.log, Apply(w, a).handlers[h])
  {
    hide Good, Honest, Enabled, Apply, InOrder, NextEvent, OwnInbox, KeptWhileLive, RunStateOf;
    HandlerChanges(w, a, h);
    var x' := Apply(w, a).handlers[h];
    if x'.stage < 3 {
    } else if h in w.handlers && x' == w.handlers[h] {
      NextStays(w, a, x');
    } else {
      ReadKeepsNext(w, a);
    }
  }

  lemma ReadKeepsNext(w: World, a: Action)
    requires Good(w) && a.ReadEvent? && Enabled(w, a) && Honest(w, a) && Allowed(w, a) && Good(Apply(w, a))
    requires KeptWhileLive(w.stream)
    ensures var x := w.handlers[a.h];
            NextOK(Apply(w, a).stream.log, x.(stage := 3,
              event := NextEvent(w.stream, x.d.runInfo.wfID, x.state.lastEventSeqID)))
  {
    hide Inv, Journal, QueueOK, LogOK, IDsOK, HandlersOK, CommitsOK, RunsOK, NextOK, KeptWhileLive, OwnInbox,
      NextEvent, Honest;
    ReadsNext(w, w.handlers[a.h]);
  }

  lemma StepKeepsFifo(w: World, a: Action)
    requires Good(w) && Enabled(w, a) && Honest(w, a) && Allowed(w, a) && Good(Apply(w, a)) && FifoInv(w)
    ensures FifoInv(Apply(w, a))
  {
    hide Good, Honest, Enabled, Allowed, Apply, InOrder, KeptWhileLive, NextOK, Accepted, Noted;
    StepKeepsKept(w, a);
    forall h | h in Apply(w, a).handlers
      ensures NextOK(Apply(w, a).stream.log, Apply(w, a).handlers[h])
    {
      StepKeepsNext(w, a, h);
    }
    var h, c := StepKinds(w, a);
    forall key ensures InOrder(Apply(w, a), key) {
      if c.Some? {
        AcceptedHandler(w, Apply(w, a), h, c.value);
        AcceptedKeepsOrder(w, Apply(w, a), h, c.value, key);
      } else {
        NotedKeepsOrder(w, Apply(w, a), key);
      }
    }
  }

  lemma {:induction false} FifoHolds(w: World, n: nat)
    requires Reached(w, n)
    ensures FifoInv(w)
    decreases n
  {
    hide Good, FifoInv, Apply, Enabled, Honest, Allowed;
    GoodHolds(w, n);
    if n == 0 {
      FifoAtFirst();
    } else {
      var w0, a := ReachedFrom(w, n);
      FifoHolds(w0, n - 1);
      GoodHolds(w0, n - 1);
      StepKeepsFifo(w0, a);
    }
  }

  lemma FifoAtFirst()
    ensures FifoInv(INIT)
  {
  }

  /** The events a run has been given to handle are exactly its inbox entries up to the cursor, each once and
      in the order they arrived, under every interleaving, redelivery and fault. */
  lemma EventsInOrder(w: World, n: nat, key: RunKey)
    requires Reached(w, n)
    ensures var cursor := RunStateOf(w.stream.log, key).lastEventSeqID;
            cursor <= |w.stream.log| && Dispatched(w.commits, key) == InboxUpTo(w.stream.log, key, cursor)
  {
    hide Reached, RunStateOf, Dispatched, InboxUpTo, NextOK, KeptWhileLive;
    FifoHolds(w, n);
    assert InOrder(w, key);
  }

  /* The cursor never goes back */

  lemma StepMovesCursor(w: World, a: Action, key: RunKey)
    requires Good(w) && Enabled(w, a) && Honest(w, a) && Allowed(w, a) && Good(Apply(w, a)) && FifoInv(w)
    ensures RunStateOf(w.stream.log, key).lastEventSeqID <= RunStateOf(Apply(w, a).stream.log, key).lastEventSeqID
  {
    hide Good, Honest, Enabled, Allowed, Apply, InOrder, KeptWhileLive, NextOK, Accepted, Noted, RunStateOf;
    var h, c := StepKinds(w, a);
    if c.Some? {
      AcceptedHandler(w, Apply(w, a), h, c.value);
      AcceptedMovesCursor(w, Apply(w, a), h, c.value, key);
    } else {
      NotedKeepsState(w, Apply(w, a), key);
    }
  }

  lemma AcceptedMovesCursor(w: World, w': World, h: nat, c: Commit, key: RunKey)
    requires Good(w) && Good(w') && Accepted(w, w', h, c) && NextOK(w.stream.log, w.handlers[h])
    ensures RunStateOf(w.stream.log, key).lastEventSeqID <= RunStateOf(w'.stream.log, key).lastEventSeqID
  {
    hide Good, Accepted, Explains, Tame, Lawful, RunStateOf, StateOK, NewState, Root, InboxUpTo, NextOK, Grounded,
      WellFormed;
    AcceptedFacts(w, w', h, c);
    AcceptedState(w, w', h, c, key);
    if c.d.Key() == key && Written(c).Some? {
      CursorMoves(c);
      if GivesEvent(c, key) { TakesNext(w, w', h, c); }
    }
  }

  /** No step of any run of the system moves the cursor of a run back. */
  lemma CursorNeverBack(w0: World, a: Action, w: World, n: nat, key: RunKey)
    requires n > 0 && ReachedStep(w0, a, w, n)
    ensures RunStateOf(w0.stream.log, key).lastEventSeqID <= RunStateOf(w.stream.log, key).lastEventSeqID
  {
    hide Good, FifoInv, Apply, Enabled, Honest, Allowed, RunStateOf;
    assert Reached(w, n);
    GoodHolds(w0, n - 1);
    GoodHolds(w, n);
    FifoHolds(w0, n - 1);
    StepMovesCursor(w0, a, key);
  }
}
