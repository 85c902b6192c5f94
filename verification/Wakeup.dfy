/** Wake-ups: a run that waits with an event in its inbox should have an unacknowledged wake directive in the
    queue. That holds when directives are handled one at a time, and the steps that break it otherwise are
    exactly those of a handler that has overlooked something. */
module Wakeup {
  import opened Types
  import opened Stream
  import opened Wire
  import opened Effects
  import opened Moves
  import opened Protocol
  import opened Worlds
  import opened Serial
  import opened Discipline
  import opened Bookkeeping
  import opened Steps
  import opened Acknowledged
  import opened Fifo
  import opened Guard
  import opened Progress
  import opened Entries

  /* Handling one directive at a time */

  /** While a directive is being handled nothing else happens. */
  predicate Exclusive(w: World, a: Action) {
    w.handlers != map[] ==> a.ReadState? || a.ReadHistory? || a.ReadEvent? || a.Finish? || a.Lose?
  }

  /** A world that is reached by handling one directive at a time. */
  ghost predicate ReachedAlone(w: World, n: nat)
    decreases n, 1
  {
    if n == 0 then w == INIT else exists w0, a :: AloneStep(w0, a, w, n)
  }

  ghost predicate AloneStep(w0: World, a: Action, w: World, n: nat)
    requires n > 0
    decreases n, 0
  {
    ReachedAlone(w0, n - 1) && ReachedStep(w0, a, w, n) && Exclusive(w0, a)
  }

  lemma AloneFrom(w: World, n: nat) returns (w0: World, a: Action)
    requires n > 0 && ReachedAlone(w, n)
    ensures ReachedAlone(w0, n - 1) && Exclusive(w0, a) && Reached(w0, n - 1) && Reached(w, n)
    ensures Enabled(w0, a) && Honest(w0, a) && Allowed(w0, a) && w == Apply(w0, a)
  {
    hide Enabled, Honest, Allowed, Apply, Exclusive;
    w0, a :| AloneStep(w0, a, w, n);
  }

  /** What a handler has read is still so. */
  predicate UpToDate(w: World) {
    && (forall h, h' :: h in w.handlers && h' in w.handlers ==> h == h')
    && forall h :: h in w.handlers ==>
         var x := w.handlers[h];
         && (x.stage >= 1 ==> x.state == RunStateOf(w.stream.log, x.d.Key()))
         && (x.stage >= 3 ==>
               && x.event == NextEvent(w.stream, x.d.runInfo.wfID, x.state.lastEventSeqID)
               && (x.state.IsTerminal() || OwnInbox(w.stream, x.d.Key())))
  }

  lemma StepKeepsUpToDate(w: World, a: Action)
    requires UpToDate(w) && Enabled(w, a) && Exclusive(w, a) && Allowed(w, a)
    ensures UpToDate(Apply(w, a))
  {
    hide OwnInbox, MayEnqueue, MayStart, FreshID, RunStateOf, NextEvent, LastHistory, Wire.Commit, OrderFor,
      BatchMessages, TimeoutDirective, IDsOf;
  }

  /* The wake-up invariant */

  predicate HasMail(log: seq<Message>, key: RunKey) {
    exists p :: RunStateOf(log, key).lastEventSeqID <= p < |log| && IsEntry(log[p], key)
  }

  predicate Called(w: World, key: RunKey) {
    exists d :: d in w.queue && d !in w.gone && d.kind == WakeFromInboxKind && d.Key() == key
  }

  predicate Awake(w: World, key: RunKey) {
    RunStateOf(w.stream.log, key).kind == WaitState && HasMail(w.stream.log, key) ==> Called(w, key)
  }

  lemma CalledStays(w: World, w': World, key: RunKey)
    requires Called(w, key) && w.queue <= w'.queue
    requires forall d :: d in w'.gone && d !in w.gone ==> d.kind != WakeFromInboxKind || d.Key() != key
    ensures Called(w', key)
  {
    var d :| d in w.queue && d !in w.gone && d.kind == WakeFromInboxKind && d.Key() == key;
    assert d in w'.queue && d !in w'.gone;
  }

  /** A batch that takes an event from the inbox carries no IDs, so it is never called a duplicate. */
  lemma WakeIsNoDuplicate(w: World, c: Commit)
    requires Lawful(c) && Tame(c.d) && Explains(c.d, c.sn, c.inp, c.effect) && c.d.kind == WakeFromInboxKind
    ensures Check(w.stream.log, w.stream.ids, c.msgs) != DuplicateMessage
  {
    hide Lawful, Check, NewTasks, NewQueued, EndTasks;
    if Check(w.stream.log, w.stream.ids, c.msgs) == DuplicateMessage {
      var p := CheckDuplicate(w.stream.log, w.stream.ids, c.msgs);
      NoIDsInWake(c, c.msgs[p]);
    }
  }

  lemma NoIDsInWake(c: Commit, m: Message)
    requires Lawful(c) && Tame(c.d) && Explains(c.d, c.sn, c.inp, c.effect) && c.d.kind == WakeFromInboxKind
    requires m in c.msgs
    ensures m.MsgID().None?
  {
    hide Lawful, Explains, Tame, NewTasks, NewQueued, EndTasks;
    if m.MsgID().Some? {
      Member(c, m.record);
      WakeSteps(c);
      if m.record.DirectiveRecord? {
        QueuedIs(c.effect, c.sn, c.inp, m.record.directive);
      } else {
        TasksOf(c, m.record.task);
      }
    }
  }

  lemma WakeSteps(c: Commit)
    requires Tame(c.d) && Explains(c.d, c.sn, c.inp, c.effect) && c.effect.Effect? && c.d.kind == WakeFromInboxKind
    ensures c.effect.move.ToStep?
  {
  }

  /* What handlers read about the inbox */

  /** A handler that is up to date has read an event exactly if the run has mail. */
  lemma ReadsMail(w: World, key: RunKey)
    requires Good(w) && KeptWhileLive(w.stream) && OwnInbox(w.stream, key)
    requires !RunStateOf(w.stream.log, key).IsTerminal()
    ensures NextEvent(w.stream, key.wfID, RunStateOf(w.stream.log, key).lastEventSeqID).Some? <==>
      HasMail(w.stream.log, key)
  {
    hide Good, RunStateOf, FirstAfter, KeptWhileLive;
    var cursor := RunStateOf(w.stream.log, key).lastEventSeqID;
    var q := FirstAfter(w.stream, InboxSubject(key.wfID), cursor);
    if q > 0 {
      EntryIsOfRun(w, q - 1);
      EntryIsNamed(w, q - 1);
      assert IsEntry(w.stream.log[q - 1], key);
    }
    if HasMail(w.stream.log, key) {
      var p :| cursor <= p < |w.stream.log| && IsEntry(w.stream.log[p], key);
      EntryIsKept(w.stream, p, key);
      assert w.stream.log[p].Subject() == InboxSubject(key.wfID);
    }
  }

  lemma EntryIsKept(st: Stream, p: nat, key: RunKey)
    requires KeptWhileLive(st) && p < |st.log| && IsEntry(st.log[p], key) && !RunStateOf(st.log, key).IsTerminal()
    ensures st.Visible(p + 1)
  {
    hide RunStateOf;
  }

  lemma EntryIsNamed(w: World, p: nat)
    requires Good(w) && p < |w.stream.log| && w.stream.log[p].Stored? && w.stream.log[p].record.InboxRecord?
    ensures w.stream.log[p].record.directive.id != NO_ID
  {
    hide Inv, QueueOK, HandlersOK, CommitsOK, RunsOK, Refinement.Chained, IDsOf, Sourced, Unshared, Batched;
    assert MessageOK(w.runs, w.queue, w.stream.log[p]);
    KnownID(w, w.stream.log[p].record.directive);
  }

  /* Preservation */

  lemma NewCallIsUnacked(w: World, w': World, h: nat, c: Commit, key: RunKey)
    requires Good(w) && Accounted(w) && Accepted(w, w', h, c) && c.d.Key() == key && w'.gone <= w.gone + {c.d}
    requires c.d.kind != WakeFromInboxKind && NewQueued(c.effect, c.sn, c.inp) != []
    ensures Called(w', key)
  {
    hide Inv, Journal, QueueOK, LogOK, IDsOK, HandlersOK, CommitsOK, RunsOK, Accepted, Explains, Tame, Lawful,
      StateOK, EventOK, Root, RunStateOf, Registered, NewQueued;
    AcceptedFacts(w, w', h, c);
    var d := NewQueued(c.effect, c.sn, c.inp)[0];
    QueuedIs(c.effect, c.sn, c.inp, d);
    Member(c, DirectiveRecord(d));
    AcceptedQueues(w, w', h, c, d);
    KnownID(w, d);
    assert d in w'.queue && d !in w'.gone;
  }

  lemma AcceptedQueues(w: World, w': World, h: nat, c: Commit, d: Directive)
    requires Accepted(w, w', h, c) && Stored(DirectiveRecord(d)) in c.msgs
    ensures d in w'.queue && d.id !in w.stream.ids
  {
    hide Lawful, Current, CommitOK, Grounded, Check, Append, RunStateOf;
    PushedIDsNew(w, w', h, c, d);
  }

  lemma NoMailIn(w: World, w': World, h: nat, c: Commit, key: RunKey)
    requires Good(w) && Good(w') && Accepted(w, w', h, c)
    requires (c.d.Key() != key || (c.effect.Effect? && !c.effect.move.Receive?))
    requires RunStateOf(w'.stream.log, key).lastEventSeqID == RunStateOf(w.stream.log, key).lastEventSeqID
    ensures HasMail(w'.stream.log, key) ==> HasMail(w.stream.log, key)
  {
    hide Good, RunStateOf, Accepted, Explains, Tame, Lawful, StateOK, EventOK, Root, WellFormed, ViaOK, Grounded;
    AcceptedFacts(w, w', h, c);
    if HasMail(w'.stream.log, key) {
      var p :| RunStateOf(w'.stream.log, key).lastEventSeqID <= p < |w'.stream.log| && IsEntry(w'.stream.log[p], key);
      NotInBatch(w, w', h, c, p, key);
      assert w.stream.log[p] == w'.stream.log[p];
    }
  }

  lemma NotInBatch(w: World, w': World, h: nat, c: Commit, p: nat, key: RunKey)
    requires Good(w) && Accepted(w, w', h, c) && (c.d.Key() != key || (c.effect.Effect? && !c.effect.move.Receive?))
    requires p < |w'.stream.log| && IsEntry(w'.stream.log[p], key)
    ensures p < |w.stream.log|
  {
    hide Good, Accepted, Explains, Tame, Lawful, StateOK, EventOK, Root, WellFormed, ViaOK, Grounded, CommitOK;
    AcceptedFacts(w, w', h, c);
    AcceptedOK(w, w', h, c);
    if p >= |w.stream.log| {
      assert w'.stream.log[p] == c.msgs[p - |w.stream.log|];
      EntryIsTaken(w, c, c.msgs[p - |w.stream.log|]);
    }
  }

  /** A batch goes in, and its directive is all that is acknowledged with it. */
  ghost predicate Taken(w: World, w': World, h: nat, c: Commit) {
    && Good(w) && Good(w') && Accounted(w) && FifoInv(w) && Accepted(w, w', h, c)
    && w.gone <= w'.gone <= w.gone + {c.d}
  }

  lemma QueuesNothing(w: World, w': World, h: nat, c: Commit)
    requires Accepted(w, w', h, c) && NewQueued(c.effect, c.sn, c.inp) == []
    ensures w'.queue == w.queue
  {
    hide Lawful, Current, CommitOK, Grounded, Check, Append, RunStateOf, NewQueued;
    forall d ensures Stored(DirectiveRecord(d)) !in c.msgs { Member(c, DirectiveRecord(d)); }
  }

  /** A batch that queues nothing and is not for a wake directive leaves the wake directives as they are. */
  lemma SameCalls(w: World, w': World, h: nat, c: Commit, key: RunKey)
    requires Accepted(w, w', h, c) && w.gone <= w'.gone <= w.gone + {c.d} && c.d.kind != WakeFromInboxKind
    requires NewQueued(c.effect, c.sn, c.inp) == []
    ensures Called(w', key) <==> Called(w, key)
  {
    hide Accepted, NewQueued;
    QueuesNothing(w, w', h, c);
    if Called(w, key) { CalledStays(w, w', key); }
    if Called(w', key) {
      var d :| d in w'.queue && d !in w'.gone && d.kind == WakeFromInboxKind && d.Key() == key;
      assert d in w.queue && d !in w.gone;
    }
  }

  /** Going to wait loses a wake-up exactly if the event is behind the handler's back. */
  lemma WaitLosesIff(w: World, w': World, h: nat, c: Commit)
    requires Taken(w, w', h, c) && c.effect.Effect? && c.effect.move.ToWait?
    ensures Awake(w', c.d.Key()) <==> c.sn.event.Some? || !HasMail(w.stream.log, c.d.Key()) || Called(w, c.d.Key())
  {
    hide Good, Accounted, FifoInv, Accepted, Explains, Tame, Lawful, StateOK, EventOK, Root, WellFormed, ViaOK,
      RunStateOf, HasMail, Called;
    var key := c.d.Key();
    AcceptedFacts(w, w', h, c);
    AcceptedState(w, w', h, c, key);
    StateMoves(c);
    if c.sn.event.Some? {
      NewCallIsUnacked(w, w', h, c, key);
    } else {
      CursorStays(w, w', h, c);
      NoMailIn(w, w', h, c, key);
      MailStays(w.stream.log, c.msgs, key);
      SameCalls(w, w', h, c, key);
    }
  }

  lemma MailStays(log: seq<Message>, more: seq<Message>, key: RunKey)
    requires RunStateOf(log + more, key).lastEventSeqID == RunStateOf(log, key).lastEventSeqID
    ensures HasMail(log, key) ==> HasMail(log + more, key)
  {
    hide RunStateOf;
    if HasMail(log, key) {
      var p :| RunStateOf(log, key).lastEventSeqID <= p < |log| && IsEntry(log[p], key);
      assert (log + more)[p] == log[p];
    }
  }

  lemma CursorStays(w: World, w': World, h: nat, c: Commit)
    requires Good(w) && Good(w') && Accepted(w, w', h, c) && c.effect.Effect?
    requires (c.effect.move.ToWait? || c.effect.move.Stay?)
    ensures RunStateOf(w'.stream.log, c.d.Key()).lastEventSeqID == RunStateOf(w.stream.log, c.d.Key()).lastEventSeqID
  {
    hide Good, Accepted, Explains, Tame, Lawful, StateOK, Root, WellFormed, ViaOK, RunStateOf, Grounded;
    AcceptedFacts(w, w', h, c);
    AcceptedState(w, w', h, c, c.d.Key());
    WrittenKey(c);
    CursorMoves(c);
  }

  /** An event that comes in brings mail. */
  lemma BringsMail(w: World, w': World, h: nat, c: Commit)
    requires Taken(w, w', h, c) && c.effect.Effect? && c.effect.move.Receive?
    ensures HasMail(w'.stream.log, c.d.Key())
  {
    hide Good, Accounted, Accepted, Explains, Tame, Lawful, StateOK, EventOK, Root, WellFormed, ViaOK, RunStateOf,
      Grounded, NextOK, KeptWhileLive;
    var key := c.d.Key();
    AcceptedFacts(w, w', h, c);
    AcceptedState(w, w', h, c, key);
    WrittenKey(c);
    StateMoves(c);
    Member(c, InboxRecord(c.d));
    assert InOrder(w, key);
    var i :| 0 <= i < |c.msgs| && c.msgs[i] == Stored(InboxRecord(c.d));
    assert w'.stream.log[|w.stream.log| + i] == c.msgs[i];
    assert IsEntry(w'.stream.log[|w.stream.log| + i], key);
  }

  /** Taking in an event loses its wake-up exactly if the run went to wait, or emptied its inbox, behind the
      handler's back. */
  lemma ReceiveLosesIff(w: World, w': World, h: nat, c: Commit)
    requires Taken(w, w', h, c) && c.effect.Effect? && c.effect.move.Receive?
    ensures Awake(w', c.d.Key()) <==>
      || RunStateOf(w.stream.log, c.d.Key()).kind != WaitState || (c.sn.runState.kind == WaitState && c.sn.event.None?)
      || Called(w, c.d.Key())
  {
    hide Good, Accounted, FifoInv, Accepted, Explains, Tame, Lawful, StateOK, EventOK, Root, WellFormed, ViaOK,
      RunStateOf, HasMail, Called, Grounded;
    var key := c.d.Key();
    AcceptedFacts(w, w', h, c);
    AcceptedState(w, w', h, c, key);
    WrittenKey(c);
    StateMoves(c);
    BringsMail(w, w', h, c);
    if c.sn.runState.kind == WaitState && c.sn.event.None? {
      NewCallIsUnacked(w, w', h, c, key);
    } else {
      SameCalls(w, w', h, c, key);
    }
  }

  lemma StayKeepsAwake(w: World, w': World, h: nat, c: Commit)
    requires Taken(w, w', h, c) && Awake(w, c.d.Key()) && c.effect.Effect? && c.effect.move.Stay?
    ensures Awake(w', c.d.Key())
  {
    hide Good, Accounted, FifoInv, Accepted, Explains, Tame, Lawful, StateOK, EventOK, Root, WellFormed, ViaOK,
      RunStateOf, HasMail, Called, NewState, Grounded;
    AcceptedFacts(w, w', h, c);
    AcceptedState(w, w', h, c, c.d.Key());
    WrittenKey(c);
    WrittenStays(c);
    StateMoves(c);
    CursorStays(w, w', h, c);
    NoMailIn(w, w', h, c, c.d.Key());
    if Called(w, c.d.Key()) { CalledStays(w, w', c.d.Key()); }
  }

  lemma LeaveKeepsAwake(w: World, w': World, h: nat, c: Commit)
    requires Good(w) && Good(w') && Accepted(w, w', h, c) && c.effect.Effect?
    requires (c.effect.move.Begin? || c.effect.move.ToStep? || c.effect.move.ToEnd?)
    ensures Awake(w', c.d.Key())
  {
    hide Good, Accepted, Explains, Tame, Lawful, StateOK, EventOK, Root, ViaOK, RunStateOf, HasMail, Called;
    AcceptedFacts(w, w', h, c);
    AcceptedState(w, w', h, c, c.d.Key());
  }

  /** A batch of another run does nothing to a run's mail. */
  lemma OtherKeepsAwake(w: World, w': World, h: nat, c: Commit, key: RunKey)
    requires Taken(w, w', h, c) && Awake(w, key) && c.d.Key() != key
    ensures Awake(w', key)
  {
    hide Good, Accounted, FifoInv, Accepted, Explains, Tame, Lawful, StateOK, EventOK, Root, WellFormed, ViaOK,
      RunStateOf, HasMail, Called, NewState, Grounded;
    AcceptedFacts(w, w', h, c);
    AcceptedState(w, w', h, c, key);
    NoMailIn(w, w', h, c, key);
    if Called(w, key) { CalledStays(w, w', key); }
  }

  /** What a handler overlooks when its batch goes in: mail that came after it looked, as the run goes to wait;
      or, as it takes in an event, that the run has gone to wait or has emptied its inbox since. */
  predicate Overlooks(w: World, x: Handler, e: Effect, key: RunKey) {
    && x.d.Key() == key && e.Effect? && !Called(w, key)
    && (|| (e.move.ToWait? && x.event.None? && HasMail(w.stream.log, key))
        || (e.move.Receive? && RunStateOf(w.stream.log, key).kind == WaitState &&
          (x.state.kind != WaitState || x.event.Some?)))
  }

  lemma AcceptedLosesIff(w: World, w': World, h: nat, c: Commit, key: RunKey)
    requires Taken(w, w', h, c) && Awake(w, key) && h in w.handlers
    ensures Awake(w', key) <==> !Overlooks(w, w.handlers[h], c.effect, key)
  {
    hide Good, Accounted, FifoInv, Accepted, Awake, Lawful, Explains, Tame, StateOK, EventOK, ViaOK, Root, WellFormed,
      Called, HasMail, RunStateOf;
    AcceptedFacts(w, w', h, c);
    AcceptedHandler(w, w', h, c);
    if c.d.Key() != key {
      OtherKeepsAwake(w, w', h, c, key);
    } else {
      match c.effect.move {
        case ToWait(_) => WaitLosesIff(w, w', h, c);
        case Receive(_) => ReceiveLosesIff(w, w', h, c);
        case Stay(_) => StayKeepsAwake(w, w', h, c);
        case _ => LeaveKeepsAwake(w, w', h, c);
      }
    }
  }

  /** A handler that changes nothing does not acknowledge a wake directive. */
  lemma PassAcksNoWake(w: World, a: Action, d: Directive)
    requires Good(w) && a.Finish? && Enabled(w, a) && Honest(w, a) && Allowed(w, a) && Apply(w, a).stream == w.stream
    requires d in Apply(w, a).gone && d !in w.gone
    ensures d.kind != WakeFromInboxKind
  {
    hide Good, Honest, Allowed, Apply, Check, Encodable, BatchMessages, Lawful, Explains, Tame, StateOK, EventOK,
      Grounded, ReadFrom;
    DecidesToWrite(w, a);
    AcksItsOwn(w, a);
    FinishPassesOn(w, a);
    CandidateOffered(w, a);
    if d.kind == WakeFromInboxKind { WakeIsNoDuplicate(w, Candidate(w, a)); }
  }

  /** Steps that append no batch keep the mail and the state of every run. */
  lemma NotedMail(w: World, w': World, key: RunKey)
    requires Noted(w, w')
    ensures RunStateOf(w'.stream.log, key) == RunStateOf(w.stream.log, key)
    ensures HasMail(w'.stream.log, key) ==> HasMail(w.stream.log, key)
  {
    hide RunStateOf, Noted;
    NotedKeepsState(w, w', key);
    NotedGrows(w, w');
    if HasMail(w'.stream.log, key) {
      var p :| RunStateOf(w'.stream.log, key).lastEventSeqID <= p < |w'.stream.log| && IsEntry(w'.stream.log[p], key);
      NotedInbox(w, w', p);
      assert w.stream.log[p] == w'.stream.log[p];
    }
  }

  lemma PurgeAcksOthers(w: World, a: Action, key: RunKey, d: Directive)
    requires Good(w) && a.Purge? && Enabled(w, a) && Allowed(w, a) && RunStateOf(w.stream.log, key).kind == WaitState
    requires d in Apply(w, a).gone && d !in w.gone
    ensures d.Key() != key
  {
    hide Good, RunStateOf;
    RunInUse(w, key);
  }

  lemma AcksKeepCalled(w: World, a: Action, key: RunKey, d: Directive)
    requires Good(w) && Enabled(w, a) && Honest(w, a) && Allowed(w, a) && Apply(w, a).commits == w.commits
    requires RunStateOf(w.stream.log, key).kind == WaitState && d in Apply(w, a).gone && d !in w.gone
    ensures d.kind != WakeFromInboxKind || d.Key() != key
  {
    hide Good, Honest, Allowed, RunStateOf;
    if a.Finish? {
      SameCommitsSameStream(w, a);
      PassAcksNoWake(w, a, d);
    } else if a.Purge? {
      PurgeAcksOthers(w, a, key, d);
    }
  }

  lemma SameCommitsSameStream(w: World, a: Action)
    requires a.Finish? && Enabled(w, a) && Apply(w, a).commits == w.commits
    ensures Apply(w, a).stream == w.stream
  {
    hide Wire.Commit, OrderFor, BatchMessages;
    assert forall c :: w.commits + [c] != w.commits;
  }

  lemma NotedKeepsAwake(w: World, a: Action, key: RunKey)
    requires Good(w) && Enabled(w, a) && Honest(w, a) && Allowed(w, a) && Noted(w, Apply(w, a)) && Awake(w, key)
    ensures Awake(Apply(w, a), key)
  {
    hide Good, Honest, Allowed, RunStateOf, Noted, HasMail, Called, Apply, Enabled;
    var w' := Apply(w, a);
    NotedMail(w, w', key);
    NotedSame(w, w');
    if RunStateOf(w.stream.log, key).kind == WaitState && Called(w, key) {
      forall d | d in w'.gone && d !in w.gone ensures d.kind != WakeFromInboxKind || d.Key() != key {
        AcksKeepCalled(w, a, key, d);
      }
      CalledStays(w, w', key);
    }
  }

  lemma NotedSame(w: World, w': World)
    requires Noted(w, w')
    ensures w'.commits == w.commits && w.queue <= w'.queue
  {
    hide OutsideOf, FreshID;
  }

  /** A step loses a wake-up: the batch of a handler that has overlooked something goes in. */
  ghost predicate Loses(w: World, a: Action, key: RunKey)
    requires Enabled(w, a)
  {
    a.Finish? && GoesIn(w, a) && Overlooks(w, w.handlers[a.h], a.effect, key)
  }

  lemma FinishLosesIff(w: World, a: Action, key: RunKey)
    requires Good(w) && Named(w) && Accounted(w) && FifoInv(w) && Awake(w, key)
    requires a.Finish? && Enabled(w, a) && Honest(w, a) && Allowed(w, a) && Good(Apply(w, a))
    ensures Awake(Apply(w, a), key) <==> !Loses(w, a, key)
  {
    hide Inv, Orderly, Journal, Accounted, FifoInv, Awake, Honest, Allowed, Apply, Accepted, Noted, Overlooks, Named,
      GoesIn;
    GoesInStep(w, a);
    if Apply(w, a).stream == w.stream {
      FinishNoted(w, a);
      NotedKeepsAwake(w, a, key);
    } else {
      var c := FinishAccepted(w, a);
      AcksItsOwn(w, a);
      DoneStays(w, a);
      AcceptedHandler(w, Apply(w, a), a.h, c);
      AcceptedLosesIff(w, Apply(w, a), a.h, c, key);
    }
  }

  lemma StepLosesIff(w: World, a: Action, key: RunKey)
    requires Good(w) && Named(w) && Accounted(w) && FifoInv(w) && Awake(w, key)
    requires Enabled(w, a) && Honest(w, a) && Allowed(w, a) && Good(Apply(w, a))
    ensures Awake(Apply(w, a), key) <==> !Loses(w, a, key)
  {
    hide Good, Named, Accounted, FifoInv, Awake, Honest, Allowed, Apply, Noted, Enabled, Overlooks, GoesIn;
    if a.Finish? {
      FinishLosesIff(w, a, key);
    } else {
      GoodRuns(w);
      OtherNoted(w, a);
      NotedKeepsAwake(w, a, key);
    }
  }

  /** Exactly when a wake-up is lost, whatever the interleaving: at the step at which the batch of a handler goes
      in that has overlooked what happened to the run since it looked. */
  lemma LostIff(w0: World, a: Action, w: World, n: nat, key: RunKey)
    requires n > 0 && ReachedStep(w0, a, w, n) && Awake(w0, key)
    ensures Awake(w, key) <==> !Loses(w0, a, key)
  {
    hide Good, Named, Accounted, FifoInv, Awake, Honest, Allowed, Apply, Enabled, Loses;
    assert Reached(w, n);
    NamedHolds(w0, n - 1);
    GoodHolds(w0, n - 1);
    GoodHolds(w, n);
    FifoHolds(w0, n - 1);
    AccountedHolds(w0, n - 1);
    StepLosesIff(w0, a, key);
  }

  /** A handler that nothing comes in between overlooks nothing. */
  lemma AloneLosesNothing(w: World, a: Action, key: RunKey)
    requires Good(w) && FifoInv(w) && UpToDate(w) && Awake(w, key) && a.Finish? && Enabled(w, a) && Honest(w, a)
    requires a.effect.Effect? && Tame(w.handlers[a.h].d)
    requires Explains(w.handlers[a.h].d, w.handlers[a.h].Snapshot(), a.inp, a.effect)
    ensures !Overlooks(w, w.handlers[a.h], a.effect, key)
  {
    hide Good, Honest, Explains, Tame, RunStateOf, NextEvent, InOrder, NextOK, KeptWhileLive, OwnInbox, HasMail, Called;
    var x := w.handlers[a.h];
    LiveBefore(x.d, x.Snapshot(), a.inp, a.effect);
    ReadsMail(w, x.d.Key());
  }

  lemma LiveBefore(d: Directive, sn: StateSnapshot, inp: Inputs, e: Effect)
    requires Tame(d) && e.Effect? && Explains(d, sn, inp, e)
    ensures !sn.runState.IsTerminal()
  {
  }

  lemma AloneKeepsAwake(w: World, a: Action, key: RunKey)
    requires Good(w) && Named(w) && Accounted(w) && FifoInv(w) && UpToDate(w) && Awake(w, key)
    requires Enabled(w, a) && Honest(w, a) && Allowed(w, a) && Good(Apply(w, a))
    ensures Awake(Apply(w, a), key)
  {
    hide Inv, Orderly, Journal, Named, Accounted, FifoInv, UpToDate, Awake, Honest, Allowed, Apply, Explains, Tame,
      Called,
      HasMail, RunStateOf, InTime;
    StepLosesIff(w, a, key);
    if Loses(w, a, key) {
      FinishExplained(w, a);
      AloneLosesNothing(w, a, key);
    }
  }

  lemma {:induction false} AwakeHolds(w: World, n: nat, key: RunKey)
    requires ReachedAlone(w, n)
    ensures UpToDate(w) && Awake(w, key)
    decreases n
  {
    hide Good, Named, Accounted, FifoInv, UpToDate, Awake, Apply, Enabled, Honest, Allowed, Exclusive;
    if n == 0 {
      AwakeAtFirst(key);
    } else {
      var w0, a := AloneFrom(w, n);
      AwakeHolds(w0, n - 1, key);
      GoodHolds(w0, n - 1);
      GoodHolds(w, n);
      FifoHolds(w0, n - 1);
      AccountedHolds(w0, n - 1);
      NamedHolds(w0, n - 1);
      StepKeepsUpToDate(w0, a);
      AloneKeepsAwake(w0, a, key);
    }
  }

  lemma AwakeAtFirst(key: RunKey)
    ensures UpToDate(INIT) && Awake(INIT, key)
  {
  }

  /** No lost wake-up: with each directive handled on its own, whenever a run waits and its inbox holds an event
      behind the cursor, an unacknowledged wake directive for it is in the queue. */
  lemma NoLostWakeUp(w: World, n: nat, key: RunKey, p: nat)
    requires ReachedAlone(w, n)
    requires var log := w.stream.log;
             RunStateOf(log, key).kind == WaitState && RunStateOf(log, key).lastEventSeqID <= p < |log| &&
               IsEntry(log[p], key)
    ensures exists d :: d in w.queue && d !in w.gone && d.kind == WakeFromInboxKind && d.Key() == key
  {
    hide ReachedAlone, RunStateOf, UpToDate;
    AwakeHolds(w, n, key);
    assert HasMail(w.stream.log, key);
  }
}
