/** Every time a run enters a step or a wait it does so under an ID that is used for that once, so that a state
    entry is known by its active ID; the one exception is a step for an event that the run is given twice. */
module Entries {
  import opened Types
  import opened Stream
  import opened Wire
  import opened Effects
  import opened Moves
  import opened Protocol
  import opened Worlds
  import opened Serial
  import opened Discipline
  import opened Bookkeeping
  import opened Steps
  import opened Terminal
  import opened ExactlyOnce
  import opened Fifo

  predicate Enters(c: Commit) {
    c.effect.Effect? && (c.effect.move.Begin? || c.effect.move.ToStep? || c.effect.move.ToWait?)
  }

  function EntryID(c: Commit): DirectiveID
    requires Enters(c)
  {
    c.effect.move.via.id
  }

  predicate Takes(c: Commit) { c.effect.Effect? && c.effect.move.Receive? }

  /* Inbox entries and their batches */

  lemma EntryIsTaken(w: World, c: Commit, m: Message)
    requires CommitOK(w.runs, w.queue, c) && Lawful(c) && m in c.msgs && IsInbox(m)
    ensures Takes(c) && m.record.directive == c.d
  {
    hide CommitOK, Lawful;
    Member(c, m.record);
    ReceivedOK(w, c, m.record.directive);
  }

  lemma BatchOf(w: World, m: Message) returns (c: Commit)
    requires Good(w) && m in w.stream.log && OnlyInBatches(m)
    ensures c in w.commits && m in c.msgs
  {
    hide Inv, Orderly, Refinement.Chained, IDsOf, Sourced, Unshared, OnlyInBatches;
    c :| c in w.commits && m in c.msgs;
  }

  lemma AcceptedOK(w: World, w': World, h: nat, c: Commit)
    requires Accepted(w, w', h, c)
    ensures CommitOK(w.runs, w.queue, c) && FreshID(w, c.inp.newID)
  {
    hide Lawful, Check, Current, CommitOK, Grounded;
  }

  lemma NotedInbox(w: World, w': World, q: nat)
    requires Noted(w, w') && q < |w'.stream.log| && IsInbox(w'.stream.log[q])
    ensures q < |w.stream.log|
  {
    hide Grows, FreshID;
  }

  /* Events that are given out twice */

  /** The batch gives a run the event with an ID. */
  predicate Gives(c: Commit, key: RunKey, id: DirectiveID) {
    GivesEvent(c, key) && c.effect.move.via.id == id
  }

  /** A run was given the same event twice. */
  predicate GivenTwice(commits: seq<Commit>, key: RunKey, id: DirectiveID) {
    exists i, j :: 0 <= i < j < |commits| && Gives(commits[i], key, id) && Gives(commits[j], key, id)
  }

  predicate EntryOf(m: Message, key: RunKey, id: DirectiveID) {
    IsEntry(m, key) && m.record.directive.id == id
  }

  /** An event is in the inbox of a run twice, up to a sequence. */
  predicate InboxTwice(log: seq<Message>, key: RunKey, upto: nat, id: DirectiveID)
    requires upto <= |log|
  {
    exists p, q :: 0 <= p < q < upto && EntryOf(log[p], key, id) && EntryOf(log[q], key, id)
  }

  lemma {:induction false} InboxMember(log: seq<Message>, key: RunKey, upto: nat, a: nat) returns (p: nat)
    requires upto <= |log| && a < |InboxUpTo(log, key, upto)|
    ensures p < upto && IsEntry(log[p], key) && log[p].record.directive.id == InboxUpTo(log, key, upto)[a].id
    ensures a == |InboxUpTo(log, key, p)|
  {
    if a < |InboxUpTo(log, key, upto - 1)| {
      p := InboxMember(log, key, upto - 1, a);
    } else {
      p := upto - 1;
    }
  }

  /** Where an entry is among the entries of its run. */
  lemma {:induction false} InboxIndex(log: seq<Message>, key: RunKey, upto: nat, p: nat)
    requires p < upto <= |log| && IsEntry(log[p], key)
    ensures var a := |InboxUpTo(log, key, p)|;
            a < |InboxUpTo(log, key, upto)| && InboxUpTo(log, key, upto)[a].id == log[p].record.directive.id
  {
    if p < upto - 1 { InboxIndex(log, key, upto - 1, p); }
  }

  lemma {:induction false} DispatchedIndex(commits: seq<Commit>, key: RunKey, i: nat) returns (a: nat)
    requires i < |commits| && GivesEvent(commits[i], key)
    ensures a < |Dispatched(commits, key)| && Dispatched(commits, key)[a] == commits[i].effect.move.via
    ensures a == |Dispatched(commits[..i], key)|
  {
    var front := commits[..|commits| - 1];
    if i == |front| {
      a := |Dispatched(front, key)|;
    } else {
      assert front[i] == commits[i] && front[..i] == commits[..i];
      a := DispatchedIndex(front, key, i);
    }
  }

  /** Which batch gave out an event. */
  lemma {:induction false} DispatchedBy(commits: seq<Commit>, key: RunKey, a: nat) returns (i: nat)
    requires a < |Dispatched(commits, key)|
    ensures i < |commits| && GivesEvent(commits[i], key) && Dispatched(commits, key)[a] == commits[i].effect.move.via
    ensures a == |Dispatched(commits[..i], key)|
  {
    var front := commits[..|commits| - 1];
    if a < |Dispatched(front, key)| {
      i := DispatchedBy(front, key, a);
      assert front[..i] == commits[..i];
    } else {
      i := |front|;
    }
  }

  lemma {:induction false} DispatchedGrows(commits: seq<Commit>, key: RunKey, i: nat, j: nat)
    requires i < j <= |commits| && GivesEvent(commits[i], key)
    ensures |Dispatched(commits[..i], key)| < |Dispatched(commits[..j], key)|
    decreases j
  {
    var front := commits[..j];
    assert front[..j - 1] == commits[..j - 1];
    if i < j - 1 { DispatchedGrows(commits, key, i, j - 1); }
  }

  lemma GivenIsInInbox(w: World, key: RunKey, id: DirectiveID)
    requires InOrder(w, key) && GivenTwice(w.commits, key, id)
    ensures InboxTwice(w.stream.log, key, RunStateOf(w.stream.log, key).lastEventSeqID, id)
  {
    hide Dispatched, InboxUpTo, RunStateOf, GivesEvent;
    var log, cursor := w.stream.log, RunStateOf(w.stream.log, key).lastEventSeqID;
    var i, j :| 0 <= i < j < |w.commits| && Gives(w.commits[i], key, id) && Gives(w.commits[j], key, id);
    var a := DispatchedIndex(w.commits, key, i);
    var b := DispatchedIndex(w.commits, key, j);
    DispatchedGrows(w.commits, key, i, j);
    var p := InboxMember(log, key, cursor, a);
    var q := InboxMember(log, key, cursor, b);
    assert EntryOf(log[p], key, id) && EntryOf(log[q], key, id);
  }

  lemma InboxIsGiven(w: World, key: RunKey, id: DirectiveID)
    requires InOrder(w, key) && InboxTwice(w.stream.log, key, RunStateOf(w.stream.log, key).lastEventSeqID, id)
    ensures GivenTwice(w.commits, key, id)
  {
    hide Dispatched, InboxUpTo, RunStateOf, GivesEvent;
    var log, cursor := w.stream.log, RunStateOf(w.stream.log, key).lastEventSeqID;
    var p, q :| 0 <= p < q < cursor && EntryOf(log[p], key, id) && EntryOf(log[q], key, id);
    InboxIndex(log, key, cursor, p);
    InboxIndex(log, key, cursor, q);
    InboxIndex(log, key, q, p);
    var i := DispatchedBy(w.commits, key, |InboxUpTo(log, key, p)|);
    var j := DispatchedBy(w.commits, key, |InboxUpTo(log, key, q)|);
    assert Gives(w.commits[i], key, id) && Gives(w.commits[j], key, id);
  }

  /** A run was given an event twice exactly if the event is in its inbox twice, up to the cursor. */
  lemma GivenTwiceIff(w: World, n: nat, key: RunKey, id: DirectiveID)
    requires Reached(w, n)
    ensures RunStateOf(w.stream.log, key).lastEventSeqID <= |w.stream.log|
    ensures GivenTwice(w.commits, key, id) <==> InboxTwice(w.stream.log, key,
      RunStateOf(w.stream.log, key).lastEventSeqID, id)
  {
    hide Reached, RunStateOf, GivenTwice, InboxTwice, KeptWhileLive, NextOK, Dispatched, InboxUpTo;
    FifoHolds(w, n);
    assert InOrder(w, key);
    if GivenTwice(w.commits, key, id) { GivenIsInInbox(w, key, id); }
    if InboxTwice(w.stream.log, key, RunStateOf(w.stream.log, key).lastEventSeqID, id) { InboxIsGiven(w, key, id); }
  }

  /* State entries */

  /** What the state of a run says about how it was entered. */
  predicate EnteredAs(c: Commit, s: RunState) {
    Enters(c) && s.activeDirectiveID == EntryID(c) && s.kind == (if c.effect.move.ToWait? then WaitState else StepState)
  }

  predicate Idle(c: Commit) { c.effect.Effect? && (c.effect.move.Stay? || c.effect.move.Receive?) }

  lemma WrittenEnters(c: Commit)
    requires Grounded(c) && (Enters(c) || c.effect.move.ToEnd?)
    ensures Enters(c) ==> EnteredAs(c, Written(c).value)
  {
  }

  lemma WrittenStays(c: Commit)
    requires Tame(c.d) && Explains(c.d, c.sn, c.inp, c.effect) && Grounded(c) && c.effect.move.Stay?
    ensures Written(c).value.activeDirectiveID == c.sn.runState.activeDirectiveID
    ensures Written(c).value.kind == c.sn.runState.kind
  {
    hide Explains, Tame;
    StateMoves(c);
  }

  /** The batch by which a run came to be in the step or wait it is in; since then it only stayed there. */
  lemma {:induction false} EnteredBy(w: World, i: nat, key: RunKey) returns (m: nat)
    requires Good(w) && i <= |w.commits| && StateAfter(w.commits[..i], key).seqID > 0
    requires !StateAfter(w.commits[..i], key).IsTerminal()
    ensures m < i && w.commits[m].d.Key() == key && EnteredAs(w.commits[m], StateAfter(w.commits[..i], key))
    ensures forall k :: m < k < i && w.commits[k].d.Key() == key ==> Idle(w.commits[k])
  {
    hide Good, StateAfter, Explains, Tame, Lawful, Current, NewState, EnteredAs, Idle;
    NotAtFirst(w.commits, i, key);
    var c := w.commits[i - 1];
    BatchFacts(w, i - 1);
    NextState(w, i - 1, key);
    WrittenKey(c);
    WrittenIsLive(c);
    if c.d.Key() == key && Enters(c) {
      m := i - 1;
      WrittenEnters(c);
      SameEntry(c, Written(c).value, StateAfter(w.commits[..i], key));
    } else {
      m := EnteredBy(w, i - 1, key);
      if c.d.Key() == key {
        IdleIs(c);
        if c.effect.move.Stay? { WrittenStays(c); }
      }
      SameEntry(w.commits[m], StateAfter(w.commits[..i - 1], key), StateAfter(w.commits[..i], key));
    }
  }

  lemma NotAtFirst(commits: seq<Commit>, i: nat, key: RunKey)
    requires i <= |commits| && StateAfter(commits[..i], key).seqID > 0
    ensures i > 0
  {
    assert commits[..0] == [];
  }

  lemma SameEntry(c: Commit, s: RunState, s': RunState)
    requires EnteredAs(c, s) && s.activeDirectiveID == s'.activeDirectiveID && s.kind == s'.kind
    ensures EnteredAs(c, s')
  {
  }

  lemma IdleIs(c: Commit)
    requires Grounded(c)
    ensures !Enters(c) && !c.effect.move.ToEnd? ==> Idle(c)
  {
  }

  /* Entry IDs are never used twice, except for events */

  datatype EntryCause = ByStart | ByResult | ByTimeout | ByEvent(event: Directive)

  /** What a run enters a step or a wait for, and how the entry is called. */
  lemma EntryVia(w: World, c: Commit) returns (cause: EntryCause)
    requires QueueOK(w) && CommitOK(w.runs, w.queue, c) && Grounded(c) && Enters(c)
    ensures match cause
            case ByStart => c.d.kind == StartKind && EntryID(c) == c.d.id && !c.d.id.Next? && c.effect.move.Begin?
            case ByResult => c.d.kind == StepResultKind && EntryID(c) == Next(c.d.id)
            case ByTimeout =>
              && c.d.kind == WaitTimeoutKind && EntryID(c) == Next(c.d.id) && c.effect.move.ToStep?
              && c.sn.runState.activeDirectiveID == c.d.msg.original && c.sn.runState.kind == WaitState
            case ByEvent(d) =>
              d in w.queue && d.kind == EventKind && EntryID(c) == d.id && !d.id.Next? && d.Key() == c.d.Key() &&
                GivesEvent(c, c.d.Key())
  {
    hide QueueOK, ResultFirst, Plain;
    StateMoves(c);
    if c.effect.move.Begin? {
      cause := ByStart;
      PlainID(w, c.d);
    } else if c.d.kind == StepResultKind {
      cause := ByResult;
    } else if c.d.kind == WaitTimeoutKind {
      cause := ByTimeout;
    } else {
      var ev := c.sn.event.value;
      cause := ByEvent(ev.(msg := ev.msg.(eventSeqID := None)));
      PlainID(w, cause.event);
    }
  }

  lemma {:induction false} StatePersists(w: World, i: nat, j: nat, key: RunKey)
    requires Good(w) && i <= j <= |w.commits| && StateAfter(w.commits[..i], key).seqID > 0
    ensures StateAfter(w.commits[..j], key).seqID > 0
  {
    hide Good, StateAfter;
    if i < j {
      StatePersists(w, i, j - 1, key);
      NextState(w, j - 1, key);
    }
  }

  lemma StartsDiffer(w: World, i: nat, j: nat)
    requires Good(w) && i < j < |w.commits| && w.commits[i].effect.Effect? && w.commits[i].effect.move.Begin?
    requires w.commits[j].effect.Effect? && w.commits[j].effect.move.Begin?
    ensures w.commits[i].d.Key() != w.commits[j].d.Key()
  {
    hide Good, StateAfter, CommitOK, Lawful, Current;
    var key := w.commits[i].d.Key();
    BatchFacts(w, i);
    WrittenKey(w.commits[i]);
    NextState(w, i, key);
    StatePersists(w, i + 1, j, key);
    BeginFacts(w, j);
  }

  /** The states a timeout of a wait takes effect in. */
  lemma TimeoutEntry(w: World, i: nat) returns (m: nat)
    requires Good(w) && i < |w.commits| && w.commits[i].d.kind == WaitTimeoutKind && Enters(w.commits[i])
    requires !w.commits[i].effect.move.Begin?
    requires w.commits[i].d.msg.WaitTimeoutMsg?
    requires w.commits[i].sn.runState.activeDirectiveID == w.commits[i].d.msg.original
    requires w.commits[i].sn.runState.kind == WaitState
    ensures m < i && Enters(w.commits[m]) && w.commits[m].effect.move.ToWait?
    ensures w.commits[m].d.Key() == w.commits[i].d.Key()
    ensures EntryID(w.commits[m]) == w.commits[i].d.msg.original
    ensures forall k :: m < k < i && w.commits[k].d.Key() == w.commits[i].d.Key() ==> Idle(w.commits[k])
  {
    hide Good, StateAfter, Explains, Tame, Lawful, Current, Idle, StateOK, EventOK;
    var c := w.commits[i];
    BatchFacts(w, i);
    NextState(w, i, c.d.Key());
    WrittenKey(c);
    WrittenIsLive(c);
    m := EnteredBy(w, i, c.d.Key());
  }

  lemma EntersIsNotIdle(c: Commit)
    ensures Enters(c) ==> !Idle(c)
  {
  }

  lemma GoodQueue(w: World)
    requires Good(w)
    ensures QueueOK(w)
  {
    hide Inv, Journal, QueueOK, LogOK, IDsOK, HandlersOK, CommitsOK, RunsOK;
  }

  /** One ID, one directive. */
  lemma ToldApart(w: World, d: Directive, d': Directive)
    requires QueueOK(w) && d in w.queue && d' in w.queue
    ensures d.id == d'.id ==> d == d'
  {
    hide DirectiveOK;
  }

  /** No two batches take a run to wait under the same ID. */
  lemma WaitsDiffer(w: World, i: nat, j: nat)
    requires Good(w) && i < |w.commits| && j < |w.commits| && i != j && Enters(w.commits[i]) && Enters(w.commits[j])
    requires w.commits[i].effect.move.ToWait? && w.commits[j].effect.move.ToWait?
    ensures EntryID(w.commits[i]) != EntryID(w.commits[j])
  {
    hide Good, CommitOK, Lawful, Grounded, Current, QueueOK;
    BatchFacts(w, i);
    BatchFacts(w, j);
    GoodQueue(w);
    WaitIsResult(w, i);
    WaitIsResult(w, j);
    if i < j { ResultsDiffer(w, i, j); } else { ResultsDiffer(w, j, i); }
  }

  lemma WaitIsResult(w: World, i: nat)
    requires QueueOK(w) && i < |w.commits| && CommitOK(w.runs, w.queue, w.commits[i]) && Enters(w.commits[i])
    requires w.commits[i].effect.move.ToWait?
    ensures w.commits[i].d.kind == StepResultKind && EntryID(w.commits[i]) == Next(w.commits[i].d.id)
  {
    hide QueueOK, Explains, Tame, StateOK, EventOK;
    WakeVia(w, w.commits[i]);
    StateMoves(w.commits[i]);
  }

  /** The same timeout does not take a run out of a wait twice. */
  lemma TimeoutsDiffer(w: World, i: nat, j: nat)
    requires Good(w) && i < j < |w.commits| && Enters(w.commits[i]) && Enters(w.commits[j])
    requires forall k :: k in {i, j} ==>
      && w.commits[k].d.kind == WaitTimeoutKind && w.commits[k].d.msg.WaitTimeoutMsg? &&
        !w.commits[k].effect.move.Begin?
      && w.commits[k].sn.runState.activeDirectiveID == w.commits[k].d.msg.original &&
        w.commits[k].sn.runState.kind == WaitState
    ensures w.commits[i].d != w.commits[j].d
  {
    hide Good, EntryID, Idle;
    assert i in {i, j} && j in {i, j};
    var mi := TimeoutEntry(w, i);
    var mj := TimeoutEntry(w, j);
    if w.commits[i].d == w.commits[j].d {
      EntersIsNotIdle(w.commits[i]);
      if mi != mj { WaitsDiffer(w, mi, mj); }
    }
  }

  /** Both batches give the same event to the same run. */
  predicate GivesAgain(c: Commit, c': Commit) {
    GivesEvent(c', c'.d.Key()) && Gives(c, c'.d.Key(), c'.effect.move.via.id)
  }

  /** Two batches, of whatever runs, enter a step or a wait under the same ID exactly if both give the same event
      to the same run. */
  lemma EntriesDiffer(w: World, i: nat, j: nat)
    requires Good(w) && i < j < |w.commits| && Enters(w.commits[i]) && Enters(w.commits[j])
    ensures EntryID(w.commits[i]) == EntryID(w.commits[j]) <==> GivesAgain(w.commits[i], w.commits[j])
  {
    hide Good, Explains, StateOK, EventOK, Lawful, Current, Grounded, QueueOK, Enters, Idle;
    BatchFacts(w, i);
    BatchFacts(w, j);
    GoodQueue(w);
    LawfulShape(w.commits[i]);
    LawfulShape(w.commits[j]);
    var a := EntryVia(w, w.commits[i]);
    var b := EntryVia(w, w.commits[j]);
    ToldApart(w, w.commits[i].d, w.commits[j].d);
    if a.ByStart? && b.ByStart? {
      StartsDiffer(w, i, j);
    } else if a.ByResult? && b.ByResult? {
      ResultsDiffer(w, i, j);
    } else if a.ByTimeout? && b.ByTimeout? {
      TimeoutsDiffer(w, i, j);
    } else if a.ByEvent? && b.ByEvent? {
      ToldApart(w, a.event, b.event);
    } else if a.ByEvent? {
      ToldApart(w, a.event, w.commits[j].d);
    } else if b.ByEvent? {
      ToldApart(w, w.commits[i].d, b.event);
    }
  }

  /* Entries that are alone under their ID */

  /** No other batch enters a step or a wait under the ID of this one. */
  predicate Sole(commits: seq<Commit>, m: nat)
    requires m < |commits| && Enters(commits[m])
  {
    forall k :: 0 <= k < |commits| && k != m && Enters(commits[k]) ==> EntryID(commits[k]) != EntryID(commits[m])
  }

  /** An entry is alone under its ID exactly if it is not for an event that the run was given twice. */
  lemma SoleIff(w: World, m: nat)
    requires Good(w) && m < |w.commits| && Enters(w.commits[m])
    ensures Sole(w.commits, m) <==> !GivenTwice(w.commits, w.commits[m].d.Key(), EntryID(w.commits[m]))
    ensures !GivesEvent(w.commits[m], w.commits[m].d.Key()) ==> Sole(w.commits, m)
  {
    hide Good;
    var key, id := w.commits[m].d.Key(), EntryID(w.commits[m]);
    forall k | 0 <= k < |w.commits| && k != m && Enters(w.commits[k]) && EntryID(w.commits[k]) == id
      ensures Gives(w.commits[k], key, id) && Gives(w.commits[m], key, id)
    {
      if k < m { EntriesDiffer(w, k, m); } else { EntriesDiffer(w, m, k); }
    }
    if GivenTwice(w.commits, key, id) {
      var i, j :| 0 <= i < j < |w.commits| && Gives(w.commits[i], key, id) && Gives(w.commits[j], key, id);
      assert Enters(w.commits[i]) && Enters(w.commits[j]);
    }
  }
}
