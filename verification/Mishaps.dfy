/** What goes wrong in a run although its directives are handled one at a time, each as a run of the system. A step
    for an event that was taken in twice can lose its timer, and can be ended by the timeout of the step before it.
    The timer of a wait that is over fails the run. A cancel that was looked up before the start crashes the handler
    of the next step result. */
module Mishaps {
  import opened Types
  import opened Stream
  import opened Wire
  import opened Planner
  import opened Effects
  import opened Moves
  import opened Protocol
  import opened Worlds
  import opened Serial
  import opened Discipline
  import opened Bookkeeping
  import opened Steps
  import opened ExactlyOnce
  import opened Acknowledged
  import opened Fifo
  import opened Entries
  import opened Origins
  import opened Timeouts
  import opened Guard
  import opened Progress
  import opened Wakeup
  import opened Scenes
  import opened Races
  import StepRecords
  import opened Boundaries
  import opened Cancellation

  /* Scenes of one run */

  /** Nothing is being handled; the run has been looked up, and a worker has been given a task of it. */
  ghost predicate Calm(w: World, info: RunInfo, ri: RunInfo) {
    && w.handlers == map[] && Known(w.stream.log, info) && Assigned(w.stream.log, ri)
    && ri.Key() == info.Key() && ri.startedAt.Some?
  }

  /** The inbox holds one event, any number of times. */
  predicate OnlyMail(log: seq<Message>, ev: Directive) {
    forall m :: m in log && m.Subject().InboxSubject? ==> m.record.directive == ev
  }

  /** No timer has fired yet. */
  predicate NoTimeouts(w: World) {
    w.fired == {} && forall d :: d in w.queue ==>
      d.kind != StepTimeoutKind && d.kind != WaitTimeoutKind && d.kind != FailKind
  }

  predicate NoBatch(w: World, d: Directive) {
    forall c :: c in w.commits ==> c.d != d
  }

  lemma MailIsOwn(st: Stream, ev: Directive, key: RunKey)
    requires OnlyMail(st.log, ev) && ev.Key() == key
    ensures OwnInbox(st, key)
  {
  }

  lemma CalmStays(w: World, w': World, info: RunInfo, ri: RunInfo)
    requires Calm(w, info, ri) && w.stream.log <= w'.stream.log && w'.handlers == map[]
    ensures Calm(w', info, ri)
  {
    hide Assigned;
    StillAssigned(w.stream.log, w'.stream.log, ri);
    assert Stored(RunInfoRecord(info)) in w'.stream.log;
  }

  /** A directive was sent, and nothing else happened. */
  predicate Sent(w: World, w': World, d: Directive) {
    && w'.stream.log == w.stream.log + [Stored(DirectiveRecord(d))] && w'.queue == w.queue + {d} &&
      w'.commits == w.commits
    && w'.stream.removed == w.stream.removed && w'.fired == w.fired
    && RunStateOf(w'.stream.log, d.Key()) == RunStateOf(w.stream.log, d.Key())
  }

  /** A directive is sent while nothing is going on. */
  lemma SendOne(w: World, n: nat, d: Directive, info: RunInfo, ri: RunInfo, ev: Directive) returns (w': World)
    requires Reached(w, n) && Calm(w, info, ri) && OnlyMail(w.stream.log, ev) && MayEnqueue(w, d) && FreshID(w, d.id)
    ensures Reached(w', n + 1) && Calm(w', info, ri) && OnlyMail(w'.stream.log, ev) && NoBatch(w', d)
    ensures Sent(w, w', d)
  {
    hide Reached, Good, Calm, MayEnqueue, RunStateOf;
    w' := Send(w, n, d);
    GoodHolds(w, n);
    FreshIsUnknown(w, d.id);
    NeverHandled(w, d);
    CalmMeans(w, info, ri);
    CalmStays(w, w', info, ri);
    SameStateAfter(w.stream.log, Stored(DirectiveRecord(d)), d.Key());
  }

  lemma CalmMeans(w: World, info: RunInfo, ri: RunInfo)
    requires Calm(w, info, ri)
    ensures w.handlers == map[] && ri.Key() == info.Key() && ri.startedAt.Some?
  {
  }

  lemma NeverHandled(w: World, d: Directive)
    requires Good(w) && d.id !in w.stream.ids
    ensures NoBatch(w, d) && d !in w.queue
  {
    hide Inv, Journal, LogOK, IDsOK, HandlersOK, RunsOK, Tame, Explains, StateOK, EventOK;
    KnownID(w, d);
  }

  /** What handling a directive leaves as it was. */
  lemma HandledKeeps(w: World, w': World, c: Commit, info: RunInfo, ri: RunInfo, ev: Directive)
    requires Calm(w, info, ri) && OnlyMail(w.stream.log, ev) && Handled(w, w', c)
    requires (c.d.kind == EventKind ==> c.d == ev)
    ensures Calm(w', info, ri) && OnlyMail(w'.stream.log, ev) && (NoTimeouts(w) ==> NoTimeouts(w'))
  {
    hide Good, Calm, Handled, Explains, Tame, Lawful, WellFormed, Grounded;
    HandledFacts(w, w', c);
    CalmStays(w, w', info, ri);
    forall m | m in c.msgs && m.Subject().InboxSubject? ensures m.record.directive == ev { MailInBatch(c, m); }
    forall d | d in w'.queue && d !in w.queue ensures d.kind == WakeFromInboxKind { NewIsWake(w, w', c, d); }
  }

  lemma MailInBatch(c: Commit, m: Message)
    requires Tame(c.d) && c.effect.Effect? && Explains(c.d, c.sn, c.inp, c.effect) && Lawful(c) && m in c.msgs
    requires m.Subject().InboxSubject?
    ensures c.d.kind == EventKind && m.record.directive == c.d
  {
    hide Lawful, Explains, Tame;
    StateMoves(c);
    if m.Stored? { Member(c, m.record); }
    if !c.effect.move.Receive? { OnlyEventsInInbox(c, m); }
  }

  lemma NewIsWake(w: World, w': World, c: Commit, d: Directive)
    requires Handled(w, w', c) && d in w'.queue && d !in w.queue
    ensures d.kind == WakeFromInboxKind
  {
    hide Good, Accounted, FifoInv, Lawful, Current, CommitOK, Grounded, Check, Append, RunStateOf, NewQueued,
      LastHistory,
      NextEvent;
    Member(c, DirectiveRecord(d));
    QueuedIs(c.effect, c.sn, c.inp, d);
  }

  /* Wake directives */

  /** A wake directive that nobody has handled yet. */
  predicate Waking(w: World, d: Directive, key: RunKey) {
    d in w.queue && NoBatch(w, d) && d.kind == WakeFromInboxKind && d.Key() == key
  }

  /** The wake directive that goes with a batch. */
  lemma WakeOf(w: World, w': World, c: Commit) returns (wake: Directive)
    requires Handled(w, w', c) && Good(w) && NewQueued(c.effect, c.sn, c.inp) != [] && c.d.kind != WakeFromInboxKind
    ensures Waking(w', wake, c.d.Key())
  {
    hide Good, Accounted, FifoInv, Accepted, Explains, Tame, Lawful, StateOK, EventOK, WellFormed, Grounded, NewQueued,
      Registered, Root, RunStateOf, LastHistory, NextEvent;
    var w0 := w.(handlers := map[0 := Reading(w, c.d)]);
    AcceptedFacts(w0, w', 0, c);
    wake := NewQueued(c.effect, c.sn, c.inp)[0];
    QueuedIs(c.effect, c.sn, c.inp, wake);
    Member(c, DirectiveRecord(wake));
    AcceptedQueues(w0, w', 0, c, wake);
    NeverHandled(w, wake);
  }

  /** A handler of a live run has read an event exactly if there is mail. */
  lemma ReadsAnEvent(w: World, n: nat, d: Directive)
    requires Reached(w, n) && OwnInbox(w.stream, d.Key()) && !RunStateOf(w.stream.log, d.Key()).IsTerminal()
    ensures Reading(w, d).event.Some? <==> HasMail(w.stream.log, d.Key())
  {
    hide Reached, Good, FifoInv, RunStateOf, LastHistory, NextEvent, OwnInbox, HasMail, KeptWhileLive;
    GoodHolds(w, n);
    FifoHolds(w, n);
    FifoKept(w);
    ReadsMail(w, d.Key());
  }

  /* From a step to a wait */

  /** A step without a pending cancel. */
  predicate AtWork(log: seq<Message>, key: RunKey) {
    RunStateOf(log, key).kind == StepState && RunStateOf(log, key).pendingCancel.None?
  }

  predicate AtRest(log: seq<Message>, key: RunKey) {
    RunStateOf(log, key).kind == WaitState && RunStateOf(log, key).pendingCancel.None?
  }

  lemma ResultHandleable(w: World, ri: RunInfo, r: DirectiveID)
    requires w.handlers == map[] && ResultOf(ri, r) in w.queue && OwnInbox(w.stream, ri.Key()) && ri.startedAt.Some?
    requires AtWork(w.stream.log, ri.Key()) && NoBatch(w, ResultOf(ri, r))
    ensures Handleable(w, ResultOf(ri, r))
  {
    hide RunStateOf, LastHistory, NextEvent, OwnInbox;
  }

  /** The worker answers: go to wait. `w1` is the world in which the answer has been sent. */
  lemma AnswerWait(w: World, n: nat, info: RunInfo, ri: RunInfo, ev: Directive)
    returns (w1: World, w': World, c: Commit, r: DirectiveID)
    requires Reached(w, n) && Calm(w, info, ri) && OnlyMail(w.stream.log, ev) && ev.Key() == info.Key()
    requires AtWork(w.stream.log, info.Key())
    ensures Reached(w1, n + 1) && Calm(w1, info, ri) && OnlyMail(w1.stream.log, ev) && Sent(w, w1, ResultOf(ri, r))
    ensures Reached(w', n + 6) && Calm(w', info, ri) && OnlyMail(w'.stream.log, ev) && Handled(w1, w', c)
    ensures c.d == ResultOf(ri, r) && c.effect.Effect? && c.effect.move.ToWait? && (NoTimeouts(w) ==> NoTimeouts(w'))
  {
    hide Reached, RunStateOf, Good, Explains, Tame, Lawful, WellFormed, Grounded, Calm, OnlyMail, OwnInbox, NextEvent,
      LastHistory, Handleable, Handled, FreshID, NoBatch;
    r := FreshToken(w);
    var d := ResultOf(ri, r);
    MaySendResult(w, info, ri, r);
    w1 := SendOne(w, n, d, info, ri, ev);
    CalmMeans(w1, info, ri);
    MailIsOwn(w1.stream, ev, info.Key());
    ResultHandleable(w1, ri, r);
    w', c := Handle(w1, n + 1, d);
    HandledFacts(w1, w', c);
    HandledState(w1, w', c);
    GoesToWait(c, ri, r);
    HandledKeeps(w1, w', c, info, ri, ev);
  }

  lemma MaySendResult(w: World, info: RunInfo, ri: RunInfo, r: DirectiveID)
    requires Calm(w, info, ri) && FreshID(w, r)
    ensures MayEnqueue(w, ResultOf(ri, r))
  {
    hide Assigned, Known;
  }

  lemma WaitsThen(w: World, w': World, c: Commit)
    requires Handled(w, w', c) && c.effect.Effect? && c.effect.move.ToWait?
    ensures AtRest(w'.stream.log, c.d.Key())
    ensures var s, s' := RunStateOf(w.stream.log, c.d.Key()), RunStateOf(w'.stream.log, c.d.Key());
            s'.lastEventSeqID == s.lastEventSeqID && s'.activeDirectiveID == c.effect.move.via.id
  {
    hide Good, Handled, Explains, Tame, Lawful, WellFormed, Grounded, RunStateOf;
    HandledFacts(w, w', c);
    HandledState(w, w', c);
    StateMoves(c);
  }

  /** The handler of a step result asks to delete the timer of the step. */
  lemma DeletionIn(w: World, w': World, c: Commit) returns (k: nat)
    requires Handled(w, w', c) && c.d.kind == StepResultKind
    ensures k <= |w'.stream.log|
    ensures TaskAt(w'.stream.log, k) == Some(DeleteTimerPayload(c.d.runInfo.wfID, StepTimer,
                                                                TimerID(StepTimer,
                                                                  RunStateOf(w.stream.log,
                                                                  c.d.Key()).activeDirectiveID)))
  {
    hide Good, Handled, Explains, Tame, Lawful, WellFormed, Grounded, RunStateOf;
    HandledFacts(w, w', c);
    HandledState(w, w', c);
    var t := ResultDeletes(c);
    var i :| 0 <= i < |c.msgs| && c.msgs[i] == Stored(BackgroundTaskRecord(t));
    k := |w.stream.log| + i + 1;
    assert w'.stream.log[k - 1] == c.msgs[i];
  }

  lemma ResultDeletes(c: Commit) returns (t: BackgroundTask)
    requires Tame(c.d) && c.effect.Effect? && Explains(c.d, c.sn, c.inp, c.effect) && Lawful(c)
    requires c.d.kind == StepResultKind
    ensures Stored(BackgroundTaskRecord(t)) in c.msgs
    ensures t.payload == DeleteTimerPayload(c.d.runInfo.wfID, StepTimer,
      TimerID(StepTimer, c.sn.runState.activeDirectiveID))
  {
    hide Lawful, ExplainsResult;
    t := StepRecords.DeleteStepTimeoutTimer(c.d, c.sn.runState).task;
    assert t in c.effect.before.tasks;
    LawfulShape(c);
    Member(c, BackgroundTaskRecord(t));
  }

  /* From a wait to a step */

  /** What a handler reads when the inbox holds nothing but one event: that event, and behind it, if it is there
      again, there is still mail. */
  lemma ReadsMailOf(w: World, n: nat, d: Directive, ev: Directive)
    requires Reached(w, n) && OnlyMail(w.stream.log, ev) && ev.Key() == d.Key() && ev.kind == EventKind
    requires ev.msg.EventMsg?
    requires AtRest(w.stream.log, d.Key()) && HasMail(w.stream.log, d.Key())
    ensures var e := Reading(w, d).event;
            && e.Some? && e.value.id == ev.id && e.value.kind == EventKind && e.value.msg.EventMsg? &&
              e.value.msg.eventSeqID.Some?
            && var log := w.stream.log;
               forall p: nat :: RunStateOf(log, d.Key()).lastEventSeqID <= p < |log| && IsEntry(log[p], d.Key()) ==>
                 e.value.msg.eventSeqID.value <= p + 1
  {
    hide Reached, Good, FifoInv, RunStateOf, LastHistory, HasMail, KeptWhileLive, FirstAfter;
    MailIsOwn(w.stream, ev, d.Key());
    ReadsAnEvent(w, n, d);
    FifoHolds(w, n);
    FifoKept(w);
    var s := RunStateOf(w.stream.log, d.Key());
    var q := FirstAfter(w.stream, InboxSubject(d.runInfo.wfID), s.lastEventSeqID);
    assert w.stream.log[q - 1] in w.stream.log;
    forall p: nat | s.lastEventSeqID <= p < |w.stream.log| && IsEntry(w.stream.log[p], d.Key()) ensures q <= p + 1 {
      EntryIsKept(w.stream, p, d.Key());
      assert w.stream.log[p].Subject() == InboxSubject(d.runInfo.wfID);
    }
  }

  lemma WakeHandleable(w: World, wake: Directive)
    requires w.handlers == map[] && Waking(w, wake, wake.Key()) && OwnInbox(w.stream, wake.Key()) && Tame(wake)
    requires AtRest(w.stream.log, wake.Key()) && Reading(w, wake).event.Some?
    ensures Handleable(w, wake)
  {
    hide RunStateOf, LastHistory, NextEvent, OwnInbox;
  }

  /** The cursor is behind no entry but the first that was behind it before. */
  predicate CursorAtMost(log: seq<Message>, log': seq<Message>, key: RunKey) {
    forall p: nat :: RunStateOf(log, key).lastEventSeqID <= p < |log| && IsEntry(log[p], key) ==>
      RunStateOf(log', key).lastEventSeqID <= p + 1
  }

  /** The run is woken and given the event. */
  lemma TakeMail(w: World, n: nat, info: RunInfo, ri: RunInfo, ev: Directive, wake: Directive)
    returns (w': World, c: Commit)
    requires Reached(w, n) && Calm(w, info, ri) && OnlyMail(w.stream.log, ev) && ev.Key() == info.Key()
    requires ev.kind == EventKind && ev.msg.EventMsg?
    requires AtRest(w.stream.log, info.Key()) && HasMail(w.stream.log, info.Key()) && Waking(w, wake, info.Key())
    ensures Reached(w', n + 5) && Calm(w', info, ri) && OnlyMail(w'.stream.log, ev) && Handled(w, w', c) && c.d == wake
    ensures NoTimeouts(w) ==> NoTimeouts(w')
    ensures AtWork(w'.stream.log, info.Key()) && RunStateOf(w'.stream.log, info.Key()).activeDirectiveID == ev.id
    ensures Enters(c) && Gives(c, info.Key(), ev.id) && EntryID(c) == ev.id
    ensures CursorAtMost(w.stream.log, w'.stream.log, info.Key())
  {
    hide Reached, RunStateOf, Good, Explains, Tame, Lawful, WellFormed, Grounded, Calm, OnlyMail, OwnInbox, NextEvent,
      LastHistory, Handleable, Handled, NoBatch, HasMail;
    CalmMeans(w, info, ri);
    MailIsOwn(w.stream, ev, info.Key());
    ReadsMailOf(w, n, wake, ev);
    QueuedIsTame(w, n, wake);
    WakeHandleable(w, wake);
    w', c := Handle(w, n, wake);
    HandledFacts(w, w', c);
    HandledKeeps(w, w', c, info, ri, ev);
    HandledState(w, w', c);
    HandledReads(w, w', c);
    WakeGives(c);
  }

  lemma QueuedIsTame(w: World, n: nat, d: Directive)
    requires Reached(w, n) && d in w.queue
    ensures Tame(d)
  {
    hide Reached, Inv, Orderly, Journal, Tame;
    GoodHolds(w, n);
    GoodQueue(w);
    PlainID(w, d);
  }

  lemma HandledReads(w: World, w': World, c: Commit)
    requires Handled(w, w', c)
    ensures c.sn.event == Reading(w, c.d).event
  {
    hide Taken, RunStateOf, LastHistory, NextEvent;
  }

  lemma WakeGives(c: Commit)
    requires Tame(c.d) && c.effect.Effect? && Explains(c.d, c.sn, c.inp, c.effect) && c.d.kind == WakeFromInboxKind
    requires c.sn.event.Some? && c.sn.event.value.kind == EventKind && c.sn.event.value.msg.EventMsg?
    requires c.sn.event.value.msg.eventSeqID.Some?
    ensures Enters(c) && Gives(c, c.d.Key(), c.sn.event.value.id) && Written(c).Some? && c.sn.runState.kind == WaitState
    ensures Written(c).value.kind == StepState && Written(c).value.activeDirectiveID == c.sn.event.value.id
    ensures Written(c).value.lastEventSeqID == c.sn.event.value.msg.eventSeqID.value
    ensures Written(c).value.pendingCancel == c.sn.runState.pendingCancel
  {
    hide Plain;
  }

  /* A wait and back to a step */

  /** The worker answers with a wait, and as there is mail the run is given the event; `k` is where the deletion of
      the timer of the first step is asked for. */
  lemma Round(w: World, n: nat, info: RunInfo, ri: RunInfo, ev: Directive)
    returns (w': World, c: Commit, k: nat, t: nat)
    requires Reached(w, n) && Calm(w, info, ri) && OnlyMail(w.stream.log, ev) && ev.Key() == info.Key()
    requires ev.kind == EventKind && ev.msg.EventMsg?
    requires AtWork(w.stream.log, info.Key()) && HasMail(w.stream.log, info.Key())
    ensures Reached(w', n + 11) && Calm(w', info, ri) && OnlyMail(w'.stream.log, ev)
    ensures (NoTimeouts(w) ==> NoTimeouts(w'))
    ensures AtWork(w'.stream.log, info.Key()) && RunStateOf(w'.stream.log, info.Key()).activeDirectiveID == ev.id
    ensures w.stream.log <= w'.stream.log && CursorAtMost(w.stream.log, w'.stream.log, info.Key())
    ensures LastEntry(w', c, info.Key(), ev.id) && |w.stream.log| <= c.at <= |w'.stream.log|
    ensures k <= |w'.stream.log| && TaskAt(w'.stream.log, k) == Some(DeletionOfActive(w.stream.log, info.Key()))
    ensures w.queue <= w'.queue
    ensures forall c' :: c' in w'.commits && c' !in w.commits ==>
      c'.d.kind == StepResultKind || c'.d.kind == WakeFromInboxKind
    ensures w'.stream.Visible(t) && TimerFor(w'.stream.log, t, info.Key(), RunStateOf(w'.stream.log, info.Key()))
  {
    hide Reached, RunStateOf, Good, Explains, Tame, Lawful, WellFormed, Grounded, Calm, OnlyMail, Handled, NoTimeouts,
      HasMail,
      NoBatch, AtRest, Gives, TimerFor;
    var key := info.Key();
    var w1, w2, c2, r := AnswerWait(w, n, info, ri, ev);
    CalmMeans(w, info, ri);
    HandledFacts(w1, w2, c2);
    WaitsThen(w1, w2, c2);
    k := DeletionIn(w1, w2, c2);
    MailKept(w.stream.log, w1.stream.log, key);
    MailKept(w1.stream.log, w2.stream.log, key);
    var wake := MailWakes(w1, n + 1, w2, c2, ev);
    w', c := TakeMail(w2, n + 6, info, ri, ev, wake);
    HandledFacts(w2, w', c);
    assert w'.commits[|w'.commits| - 1] == c;
    CursorFollows(w.stream.log, w1.stream.log, w2.stream.log, w'.stream.log, key);
    t := TimerOfEntry(w2, n + 6, w', c);
  }

  /** The timer that is armed with an entry. */
  lemma TimerOfEntry(w: World, n: nat, w': World, c: Commit) returns (t: nat)
    requires Reached(w, n) && Handled(w, w', c) && Enters(c)
    ensures w'.stream.Visible(t) && TimerFor(w'.stream.log, t, c.d.Key(), RunStateOf(w'.stream.log, c.d.Key()))
  {
    hide Reached, Good, FifoInv, RunStateOf, Explains, Tame, Lawful, WellFormed, EntryID, TimerOK, Handled, NewState;
    HandledFacts(w, w', c);
    HandledState(w, w', c);
    FifoHolds(w, n);
    RemovedInLog(w);
    WrittenKey(c);
    WrittenEnters(c);
    MeansEnters(c, Written(c).value);
    assert w'.commits[|w.commits|] == c;
    var timer := EntryTimer(w', |w.commits|);
    var i :| 0 <= i < |c.msgs| && c.msgs[i] == Stored(TimerRecord(timer));
    t := |w.stream.log| + i + 1;
    assert w'.stream.log[t - 1] == c.msgs[i];
  }

  lemma RemovedInLog(w: World)
    requires FifoInv(w)
    ensures forall q :: q in w.stream.removed ==> q <= |w.stream.log|
  {
    hide InOrder, NextOK;
  }

  function DeletionOfActive(log: seq<Message>, key: RunKey): TaskPayload {
    DeleteTimerPayload(key.wfID, StepTimer, TimerID(StepTimer, RunStateOf(log, key).activeDirectiveID))
  }

  /** The last batch entered a step of the run for the event. */
  predicate LastEntry(w: World, c: Commit, key: RunKey, id: DirectiveID) {
    && |w.commits| > 0 && w.commits[|w.commits| - 1] == c && c.d.Key() == key && Enters(c) && EntryID(c) == id &&
      Gives(c, key, id)
  }

  lemma MailKept(log: seq<Message>, log': seq<Message>, key: RunKey)
    requires log <= log' && RunStateOf(log', key).lastEventSeqID == RunStateOf(log, key).lastEventSeqID
    ensures HasMail(log, key) ==> HasMail(log', key)
  {
    hide RunStateOf;
    assert log + log'[|log|..] == log';
    MailStays(log, log'[|log|..], key);
  }

  lemma MailWakes(w: World, n: nat, w': World, c: Commit, ev: Directive) returns (wake: Directive)
    requires Reached(w, n) && Handled(w, w', c) && OnlyMail(w.stream.log, ev) && ev.Key() == c.d.Key()
    requires c.effect.Effect? && c.effect.move.ToWait? && HasMail(w.stream.log, c.d.Key())
    requires !RunStateOf(w.stream.log, c.d.Key()).IsTerminal() && c.d.kind != WakeFromInboxKind
    ensures Waking(w', wake, c.d.Key())
  {
    hide Reached, RunStateOf, Good, Handled, OnlyMail, HasMail, OwnInbox, NextEvent, LastHistory, Waking;
    MailIsOwn(w.stream, ev, c.d.Key());
    ReadsAnEvent(w, n, c.d);
    HandledReads(w, w', c);
    GoodHolds(w, n);
    wake := WakeOf(w, w', c);
  }

  lemma CursorFollows(log: seq<Message>, log1: seq<Message>, log2: seq<Message>, log3: seq<Message>, key: RunKey)
    requires log <= log1 <= log2 <= log3 && CursorAtMost(log2, log3, key)
    requires RunStateOf(log1, key).lastEventSeqID == RunStateOf(log, key).lastEventSeqID
      == RunStateOf(log2, key).lastEventSeqID
    ensures CursorAtMost(log, log3, key)
  {
    hide RunStateOf;
    forall p: nat | RunStateOf(log, key).lastEventSeqID <= p < |log| && IsEntry(log[p], key)
      ensures RunStateOf(log3, key).lastEventSeqID <= p + 1
    {
      assert log2[p] == log[p];
    }
  }

  /* An event that is taken in twice */

  lemma EventHandleable(w: World, ev: Directive)
    requires w.handlers == map[] && ev in w.queue && OwnInbox(w.stream, ev.Key()) && ev.kind == EventKind && Tame(ev)
    requires !RunStateOf(w.stream.log, ev.Key()).IsTerminal() && (AtWork(w.stream.log, ev.Key()) || NoBatch(w, ev))
    ensures Handleable(w, ev)
  {
    hide RunStateOf, LastHistory, NextEvent, OwnInbox;
  }

  /** The event is taken in; the run stays where it is. */
  lemma TakeEventIn(w: World, n: nat, info: RunInfo, ri: RunInfo, ev: Directive) returns (w': World, c: Commit, p: nat)
    requires Reached(w, n) && Calm(w, info, ri) && OnlyMail(w.stream.log, ev) && ev.Key() == info.Key()
    requires ev.kind == EventKind && Tame(ev) && ev in w.queue
    requires !RunStateOf(w.stream.log, ev.Key()).IsTerminal() && (AtWork(w.stream.log, ev.Key()) || NoBatch(w, ev))
    ensures Reached(w', n + 5) && Calm(w', info, ri) && OnlyMail(w'.stream.log, ev)
    ensures (NoTimeouts(w) ==> NoTimeouts(w'))
    ensures Handled(w, w', c) && c.d == ev && c.effect.Effect? && c.effect.move.Receive?
    ensures RunStateOf(w'.stream.log, ev.Key()) == RunStateOf(w.stream.log, ev.Key())
    ensures |w.stream.log| <= p < |w'.stream.log| && IsEntry(w'.stream.log[p], ev.Key())
  {
    hide Reached, RunStateOf, Good, Explains, Tame, Lawful, WellFormed, Grounded, Calm, OnlyMail, OwnInbox, Handled,
      NoBatch,
      NoTimeouts, Handleable, AtWork;
    CalmMeans(w, info, ri);
    MailIsOwn(w.stream, ev, ev.Key());
    EventHandleable(w, ev);
    w', c := Handle(w, n, ev);
    HandledFacts(w, w', c);
    HandledKeeps(w, w', c, info, ri, ev);
    HandledState(w, w', c);
    KindOfMove(c.d, c.sn, c.inp, c.effect);
    WrittenKey(c);
    p := EntryIn(w, w', c);
  }

  lemma EntryIn(w: World, w': World, c: Commit) returns (p: nat)
    requires Handled(w, w', c) && c.effect.Effect? && c.effect.move.Receive?
    ensures |w.stream.log| <= p < |w'.stream.log| && IsEntry(w'.stream.log[p], c.d.Key())
  {
    hide Good, Explains, Tame, Lawful, WellFormed, Grounded, Handled;
    HandledFacts(w, w', c);
    StateMoves(c);
    Member(c, InboxRecord(c.d));
    var i :| 0 <= i < |c.msgs| && c.msgs[i] == Stored(InboxRecord(c.d));
    p := |w.stream.log| + i;
    assert w'.stream.log[p] == c.msgs[i];
  }

  /** The run is in its first step, and an event for it has been sent. */
  ghost predicate EventSent(w: World, info: RunInfo, ri: RunInfo, ev: Directive) {
    && Calm(w, info, ri) && OnlyMail(w.stream.log, ev) && NoTimeouts(w) && AtWork(w.stream.log, info.Key())
    && ev.Key() == info.Key() && ev.kind == EventKind && ev.msg.EventMsg? && Tame(ev) && ev in w.queue
  }

  lemma CalmFirst(w: World, info: RunInfo, ri: RunInfo)
    requires InFirstStep(w, info, ri)
    ensures Calm(w, info, ri) && NoTimeouts(w) && AtWork(w.stream.log, info.Key()) && NoInbox(w.stream.log)
  {
    hide RunStateOf, Assigned, Known;
  }

  lemma ToFirst(info: RunInfo) returns (w: World, ri: RunInfo)
    requires Startable(info)
    ensures Reached(w, 8) && Calm(w, info, ri) && NoTimeouts(w) && AtWork(w.stream.log, info.Key())
    ensures NoInbox(w.stream.log)
  {
    hide Reached, InFirstStep, Calm, NoTimeouts, AtWork, NoInbox;
    w, ri := ToFirstStep(info, Base("a"), Base("b"));
    CalmFirst(w, info, ri);
  }

  lemma MaySendEvent(w: World, info: RunInfo, ri: RunInfo, id: DirectiveID)
    requires Calm(w, info, ri) && FreshID(w, id)
    ensures MayEnqueue(w, EventOf(info, id)) && Tame(EventOf(info, id))
  {
    hide Assigned, Known;
  }

  /** An event is sent to a run that has had none. */
  lemma SendEvent(w: World, n: nat, info: RunInfo, ri: RunInfo) returns (w': World, ev: Directive)
    requires Reached(w, n) && Calm(w, info, ri) && NoInbox(w.stream.log)
    ensures Reached(w', n + 1) && Calm(w', info, ri) && OnlyMail(w'.stream.log, ev) && Sent(w, w', ev)
    ensures NoBatch(w', ev)
    ensures ev.Key() == info.Key() && ev.kind == EventKind && ev.msg.EventMsg? && Tame(ev)
    ensures (NoTimeouts(w) ==> NoTimeouts(w'))
  {
    hide Reached, RunStateOf, Calm, FreshID, NoBatch, Tame;
    var id := FreshToken(w);
    ev := EventOf(info, id);
    MaySendEvent(w, info, ri, id);
    w' := SendOne(w, n, ev, info, ri, ev);
  }

  lemma CursorInLog(w: World, n: nat, key: RunKey)
    requires Reached(w, n)
    ensures RunStateOf(w.stream.log, key).lastEventSeqID <= |w.stream.log|
  {
    hide Reached, RunStateOf, KeptWhileLive, NextOK, Dispatched, InboxUpTo;
    FifoHolds(w, n);
    assert InOrder(w, key);
  }

  /** The event is in the inbox twice, behind the cursor. */
  lemma TwiceIn(info: RunInfo) returns (w: World, ri: RunInfo, ev: Directive, p: nat, q: nat)
    requires Startable(info)
    ensures Reached(w, 19) && EventSent(w, info, ri, ev)
    ensures RunStateOf(w.stream.log, info.Key()).lastEventSeqID <= p < q < |w.stream.log|
    ensures IsEntry(w.stream.log[p], info.Key()) && IsEntry(w.stream.log[q], info.Key())
  {
    hide Reached, RunStateOf, Good, FifoInv, Calm, OnlyMail, NoTimeouts, Tame, NoBatch, Handled, Startable, Explains,
      Lawful,
      WellFormed, Grounded;
    var w8, c1, c2;
    w8, ri := ToFirst(info);
    var w9, w14;
    w9, ev := SendEvent(w8, 8, info, ri);
    CursorInLog(w9, 9, info.Key());
    w14, c1, p := TakeEventIn(w9, 9, info, ri, ev);
    HandledFacts(w9, w14, c1);
    w, c2, q := TakeEventIn(w14, 14, info, ri, ev);
    HandledFacts(w14, w, c2);
    assert w.stream.log[p] == w14.stream.log[p];
  }

  /** The run is in a step for an event, and the event is in its inbox again. */
  lemma InStepWithMail(info: RunInfo) returns (w: World, ri: RunInfo, ev: Directive, t: nat)
    requires Startable(info)
    ensures w.stream.Visible(t) && TimerFor(w.stream.log, t, info.Key(), RunStateOf(w.stream.log, info.Key()))
    ensures Reached(w, 30) && EventSent(w, info, ri, ev) && HasMail(w.stream.log, info.Key())
    ensures RunStateOf(w.stream.log, info.Key()).activeDirectiveID == ev.id
  {
    hide Reached, RunStateOf, Calm, OnlyMail, NoTimeouts, Tame, Startable, LastEntry, AtWork, TimerFor;
    var w0, p, q;
    w0, ri, ev, p, q := TwiceIn(info);
    assert HasMail(w0.stream.log, info.Key());
    var c, k;
    w, c, k, t := Round(w0, 19, info, ri, ev);
    assert w.stream.log[q] == w0.stream.log[q];
    assert RunStateOf(w.stream.log, info.Key()).lastEventSeqID <= q;
  }

  /* A step without a timer */

  lemma NamedIsDisarmed(w: World, a: Action, key: RunKey)
    requires Enabled(w, a) && Names(w, a, key) && NoTimeouts(w)
    ensures Disarms(w, a, key)
  {
    hide RunStateOf, Names;
    forall q | TimerFor(w.stream.log, q, key, RunStateOf(w.stream.log, key))
      ensures q !in w.fired && !Answered(w, w.stream.log[q - 1].record.timer)
    {
    }
  }

  lemma CancelGoes(w: World, n: nat, k: nat)
    requires Reached(w, n) && TaskAt(w.stream.log, k).Some? && TaskAt(w.stream.log, k).value.DeleteTimerPayload?
    ensures Enabled(w, CancelTimer(k)) && ReachedStep(w, CancelTimer(k), Apply(w, CancelTimer(k)), n + 1)
    ensures Reached(Apply(w, CancelTimer(k)), n + 1)
  {
    hide Reached, Apply;
    assert Honest(w, CancelTimer(k)) && Allowed(w, CancelTimer(k));
    Go(w, n, CancelTimer(k));
  }

  /** Whatever run is started, it can come to be in a step with no timer to end it: the deletion of the timer of a
      step for an event is carried out when the run is in the next step for the same event. */
  lemma StepIsUnguarded(info: RunInfo) returns (w: World, n: nat)
    requires Startable(info)
    ensures Reached(w, n) && Live(RunStateOf(w.stream.log, info.Key())) && !Guarded(w, info.Key())
  {
    hide Reached, RunStateOf, Calm, OnlyMail, NoTimeouts, Tame, Startable, LastEntry, HasMail, Apply, TimerFor, Guarded;
    var key := info.Key();
    var w1, ri, ev, _ := InStepWithMail(info);
    var w0, c, k, t := Round(w1, 30, info, ri, ev);
    CancelGoes(w0, 41, k);
    if Guarded(w0, key) {
      w, n := Apply(w0, CancelTimer(k)), 42;
      assert Names(w0, CancelTimer(k), key);
      NamedIsDisarmed(w0, CancelTimer(k), key);
      GuardLostIff(w0, CancelTimer(k), w, 42, key);
      RemovalSame(w0, CancelTimer(k));
    } else {
      w, n := w0, 41;
    }
  }

  /* Timers that fire */

  /** A timer fires and is turned into its timeout. */
  lemma FireTimer(w: World, n: nat, info: RunInfo, ri: RunInfo, ev: Directive, t: nat, key: RunKey)
    returns (w': World, d: Directive)
    requires Reached(w, n) && Calm(w, info, ri) && OnlyMail(w.stream.log, ev) && w.stream.Visible(t)
    requires IsTimer(w.stream.log, t)
    ensures Reached(w', n + 2) && Calm(w', info, ri) && OnlyMail(w'.stream.log, ev)
    ensures w'.commits == w.commits && w.queue <= w'.queue && d in w'.queue && NoBatch(w', d)
    ensures w.stream.log <= w'.stream.log && Stored(DirectiveRecord(d)) in w'.stream.log
    ensures RunStateOf(w'.stream.log, key) == RunStateOf(w.stream.log, key)
    ensures d == TimeoutDirective(w.stream.log[t - 1].record.timer, d.id, 0, false)
  {
    hide Reached, RunStateOf, Good, Calm, Tame;
    var timer := w.stream.log[t - 1].record.timer;
    var w1 := Fires(w, n, t);
    GoodHolds(w1, n + 1);
    var id := FreshToken(w1);
    FreshIsUnknown(w1, id);
    d := TimeoutDirective(timer, id, 0, false);
    NeverHandled(w1, d);
    w' := Handles(w1, n + 1, t, id);
    CalmMeans(w, info, ri);
    CalmStays(w, w', info, ri);
    SameStateAfter(w.stream.log, Fired(timer), key);
    SameStateAfter(w1.stream.log, Stored(DirectiveRecord(d)), key);
  }

  lemma Fires(w: World, n: nat, t: nat) returns (w': World)
    requires Reached(w, n) && w.stream.Visible(t) && IsTimer(w.stream.log, t)
    ensures Reached(w', n + 1) && w'.stream.log == w.stream.log + [Fired(w.stream.log[t - 1].record.timer)]
    ensures t in w'.fired
    ensures w'.queue == w.queue && w'.commits == w.commits && w'.handlers == w.handlers
  {
    hide Reached;
    w' := Apply(w, Fire(t));
    Go(w, n, Fire(t));
  }

  lemma Handles(w: World, n: nat, t: nat, id: DirectiveID) returns (w': World)
    requires Reached(w, n) && t in w.fired && IsTimer(w.stream.log, t) && FreshID(w, id) && id !in w.stream.ids
    ensures var d := TimeoutDirective(w.stream.log[t - 1].record.timer, id, 0, false);
            w'.stream.log == w.stream.log + [Stored(DirectiveRecord(d))] && w'.queue == w.queue + {d}
    ensures Reached(w', n + 1) && w'.commits == w.commits && w'.handlers == w.handlers
  {
    hide Reached, FreshID;
    w' := Apply(w, HandleFired(t, id, 0, false, true));
    Go(w, n, HandleFired(t, id, 0, false, true));
  }

  lemma TimeoutHandleable(w: World, d: Directive)
    requires w.handlers == map[] && d in w.queue && OwnInbox(w.stream, d.Key()) && Tame(d) && NoBatch(w, d)
    requires IsTimeout(d) && AtWork(w.stream.log, d.Key())
    ensures Handleable(w, d)
  {
    hide RunStateOf, LastHistory, NextEvent, OwnInbox;
  }

  /** The timeout is handled while the run is in a step. */
  lemma TimeOut(w: World, n: nat, info: RunInfo, ri: RunInfo, ev: Directive, d: Directive)
    returns (w': World, c: Commit)
    requires Reached(w, n) && Calm(w, info, ri) && OnlyMail(w.stream.log, ev) && ev.Key() == info.Key() == d.Key()
    requires d in w.queue && NoBatch(w, d) && IsTimeout(d) && AtWork(w.stream.log, d.Key())
    ensures Reached(w', n + 5) && Handled(w, w', c) && c.d == d && c.effect.Effect?
    ensures TimesOut(c) <==>
      d.kind == StepTimeoutKind && RunStateOf(w.stream.log, d.Key()).activeDirectiveID == d.msg.original
    ensures !TimesOut(c) ==> RunStateOf(w'.stream.log, d.Key()).kind == FailState
  {
    hide Reached, RunStateOf, Good, Explains, Tame, Lawful, WellFormed, Grounded, Calm, OnlyMail, OwnInbox, Handled,
      NoBatch,
      Handleable, TimesOut;
    CalmMeans(w, info, ri);
    MailIsOwn(w.stream, ev, d.Key());
    QueuedIsTame(w, n, d);
    TimeoutHandleable(w, d);
    w', c := Handle(w, n, d);
    HandledFacts(w, w', c);
    HandledState(w, w', c);
    TimesOutIff(c);
  }

  /** A timeout made from the timer of the step a run is in. */
  lemma StepTimeoutOf(w: World, n: nat, t: nat, key: RunKey, d: Directive)
    requires Reached(w, n) && RunStateOf(w.stream.log, key).kind == StepState
    requires TimerFor(w.stream.log, t, key, RunStateOf(w.stream.log, key))
    requires d == TimeoutDirective(w.stream.log[t - 1].record.timer, d.id, 0, false)
    ensures IsTimeout(d) && d.kind == StepTimeoutKind && d.Key() == key
    ensures d.msg.original == RunStateOf(w.stream.log, key).activeDirectiveID
  {
    hide Reached, Good, RunStateOf, Registered;
    GoodHolds(w, n);
    TimerInLog(w, t);
  }

  lemma MailLasts(log: seq<Message>, log': seq<Message>, key: RunKey)
    requires log <= log' && RunStateOf(log', key) == RunStateOf(log, key)
    ensures HasMail(log, key) ==> HasMail(log', key)
    ensures AtWork(log, key) ==> AtWork(log', key)
  {
    hide RunStateOf, HasMail;
    MailKept(log, log', key);
  }

  /** Whatever run is started, a timeout can be recorded for a step that was entered when the timeout was already in
      the queue: it came from the timer of the step before, for the same event. */
  lemma TimeoutOutOfPlace(info: RunInfo) returns (w: World, n: nat, m: nat)
    requires Startable(info)
    ensures Reached(w, n) && m + 2 == |w.commits| && EntryAt(w, m, m + 1, info.Key())
    ensures IsTimeout(w.commits[m + 1].d) && TimesOut(w.commits[m + 1])
    ensures QueuedAhead(w, w.commits[m + 1].d, w.commits[m].at)
  {
    hide Reached, RunStateOf, Calm, OnlyMail, Tame, Startable, HasMail, TimerFor, TimesOut, Good, Handled, AtWork,
      NoTimeouts, Explains, Lawful, WellFormed, Grounded, EntryAt;
    var key := info.Key();
    var w1, ri, ev, t := InStepWithMail(info);
    TimerIsThere(w1.stream.log, t, key);
    var w2, d := FireTimer(w1, 30, info, ri, ev, t, key);
    StepIs(w1.stream.log, key);
    StepTimeoutOf(w1, 30, t, key, d);
    MailLasts(w1.stream.log, w2.stream.log, key);
    var w3, c, _, _ := Round(w2, 32, info, ri, ev);
    var c';
    w, c' := TimeOut(w3, 43, info, ri, ev, d);
    HandledFacts(w3, w, c');
    n, m := 48, |w3.commits| - 1;
    assert w.commits[m] == c && w.commits[m + 1] == c' && w.commits[..m + 1] == w3.commits;
    LastEntered(w3, 43, w, c, key);
    WasBefore(w2.stream.log, w.stream.log, Stored(DirectiveRecord(d)), c.at);
  }

  lemma WasBefore(log: seq<Message>, log': seq<Message>, m: Message, at: nat)
    requires log <= log' && m in log && |log| <= at <= |log'|
    ensures m in log'[..at]
  {
    var i :| 0 <= i < |log| && log[i] == m;
    assert log'[..at][i] == m;
  }

  lemma TimerIsThere(log: seq<Message>, t: nat, key: RunKey)
    requires TimerFor(log, t, key, RunStateOf(log, key))
    ensures IsTimer(log, t)
  {
  }

  lemma StepIs(log: seq<Message>, key: RunKey)
    requires AtWork(log, key)
    ensures RunStateOf(log, key).kind == StepState
  {
  }

  /** The last batch is the one by which the run came to be where it is. */
  lemma LastEntered(w: World, n: nat, w': World, c: Commit, key: RunKey)
    requires Reached(w, n) && AtWork(w.stream.log, key)
    requires LastEntry(w, c, key, RunStateOf(w.stream.log, key).activeDirectiveID)
    requires w.commits <= w'.commits
    ensures EntryAt(w', |w.commits| - 1, |w.commits|, key)
  {
    hide Reached, RunStateOf, Good, StateAfter, Idle;
    GoodHolds(w, n);
    GoodState(w, key);
    assert w'.commits[..|w.commits|] == w.commits;
  }

  /* The timer of a wait that is over */

  lemma NoMailStays(w: World, w': World, c: Commit)
    requires NoInbox(w.stream.log) && Handled(w, w', c) && c.d.kind != EventKind
    ensures NoInbox(w'.stream.log)
  {
    hide Handled, Good, Explains, Tame, Lawful, WellFormed, Grounded;
    HandledFacts(w, w', c);
    forall m | m in c.msgs ensures !m.Subject().InboxSubject? {
      if m.Subject().InboxSubject? { MailInBatch(c, m); }
    }
  }

  /** The run waits, with its timer armed and no mail. */
  lemma ToWait(info: RunInfo) returns (w: World, ri: RunInfo, r: DirectiveID, m: nat, t: nat)
    requires Startable(info)
    ensures Reached(w, 14) && Calm(w, info, ri) && NoInbox(w.stream.log) && AtRest(w.stream.log, info.Key())
    ensures w.stream.Visible(t) && TimerFor(w.stream.log, t, info.Key(), RunStateOf(w.stream.log, info.Key()))
    ensures m < |w.commits| && Enters(w.commits[m]) && w.commits[m].effect.move.ToWait?
    ensures w.commits[m].d.Key() == info.Key()
    ensures EntryID(w.commits[m]) == RunStateOf(w.stream.log, info.Key()).activeDirectiveID
  {
    hide Reached, RunStateOf, Calm, Startable, TimerFor, Good, Handled, AtWork, AtRest, NoTimeouts, Explains, Tame,
      Lawful,
      WellFormed, Grounded;
    var w8;
    w8, ri := ToFirst(info);
    var w9, c;
    w9, w, c, r := AnswerWait(w8, 8, info, ri, EventOf(info, NO_ID));
    CalmMeans(w, info, ri);
    HandledFacts(w9, w, c);
    NoMailStays(w9, w, c);
    WaitsThen(w9, w, c);
    t := TimerOfEntry(w9, 9, w, c);
    m := |w9.commits|;
  }

  /** An event comes in and wakes the run. */
  lemma WokenByEvent(w: World, n: nat, info: RunInfo, ri: RunInfo) returns (w': World, ev: Directive, wake: Directive)
    requires Reached(w, n) && Calm(w, info, ri) && NoInbox(w.stream.log) && AtRest(w.stream.log, info.Key())
    ensures Reached(w', n + 6) && Calm(w', info, ri) && OnlyMail(w'.stream.log, ev)
    ensures HasMail(w'.stream.log, info.Key())
    ensures ev.Key() == info.Key() && ev.kind == EventKind && ev.msg.EventMsg? && Waking(w', wake, info.Key())
    ensures RunStateOf(w'.stream.log, info.Key()) == RunStateOf(w.stream.log, info.Key())
    ensures w.stream.log <= w'.stream.log && w'.stream.removed == w.stream.removed && w.commits <= w'.commits
  {
    hide Reached, RunStateOf, Calm, OnlyMail, Good, Handled, NoBatch, Explains, Tame, Lawful, WellFormed, Grounded,
      Waking,
      NextEvent, LastHistory, OwnInbox, NewQueued;
    var w1, c, p;
    w1, ev := SendEvent(w, n, info, ri);
    CursorInLog(w1, n + 1, info.Key());
    w', c, p := TakeEventIn(w1, n + 1, info, ri, ev);
    HandledFacts(w1, w', c);
    HandledState(w1, w', c);
    NothingInInbox(w1, ev);
    HandledReads(w1, w', c);
    EventWakes(c);
    GoodHolds(w1, n + 1);
    wake := WakeOf(w1, w', c);
  }

  lemma EventWakes(c: Commit)
    requires c.effect.Effect? && c.effect.move.Receive? && c.sn.runState.kind == WaitState && c.sn.event.None?
    ensures NewQueued(c.effect, c.sn, c.inp) != []
  {
  }

  lemma WaitTimeoutOf(w: World, n: nat, t: nat, key: RunKey, d: Directive)
    requires Reached(w, n) && RunStateOf(w.stream.log, key).kind == WaitState
    requires TimerFor(w.stream.log, t, key, RunStateOf(w.stream.log, key))
    requires d == TimeoutDirective(w.stream.log[t - 1].record.timer, d.id, 0, false)
    ensures IsTimeout(d) && d.kind == WaitTimeoutKind && d.Key() == key
    ensures d.msg.original == RunStateOf(w.stream.log, key).activeDirectiveID
  {
    hide Reached, Good, RunStateOf, Registered;
    GoodHolds(w, n);
    TimerInLog(w, t);
  }

  /** Whatever run is started, it can fail for the timer of a wait that is over: the run has been given an event and
      is at work on it when the timer fires, which nobody has deleted. */
  lemma OldTimerFails(info: RunInfo) returns (w: World, n: nat, m: nat)
    requires Startable(info)
    ensures Reached(w, n) && m + 2 < |w.commits| && Enters(w.commits[m]) && w.commits[m].effect.move.ToWait?
    ensures var last := w.commits[|w.commits| - 1].d;
            IsTimeout(last) && last.kind == WaitTimeoutKind && last.msg.original == EntryID(w.commits[m]) &&
              last.Key() == info.Key()
    ensures StateAfter(w.commits[..|w.commits| - 1], info.Key()).kind == StepState
    ensures RunStateOf(w.stream.log, info.Key()).kind == FailState
  {
    hide Reached, RunStateOf, StateAfter, Calm, OnlyMail, Tame, Startable, HasMail, TimerFor, TimesOut, Good, Handled,
      AtWork,
      AtRest, NoBatch, Explains, Lawful, WellFormed, Grounded, NoInbox;
    var key := info.Key();
    var w1, ri, r, t;
    w1, ri, r, m, t := ToWait(info);
    var w2, ev, wake := WokenByEvent(w1, 14, info, ri);
    WaitLasts(w1.stream.log, w2.stream.log, key);
    var w3, c3 := TakeMail(w2, 20, info, ri, ev, wake);
    HandledFacts(w2, w3, c3);
    TimerIsThere(w1.stream.log, t, key);
    var w4, d := FireTimer(w3, 25, info, ri, ev, t, key);
    WaitTimeoutOf(w1, 14, t, key, d);
    MailLasts(w3.stream.log, w4.stream.log, key);
    var c5;
    w, c5 := TimeOut(w4, 27, info, ri, ev, d);
    HandledFacts(w4, w, c5);
    n := 32;
    assert w.commits[..|w.commits| - 1] == w4.commits && w.commits[m] == w1.commits[m];
    GoodHolds(w4, 27);
    GoodState(w4, key);
    StepIs(w4.stream.log, key);
  }

  lemma WaitLasts(log: seq<Message>, log': seq<Message>, key: RunKey)
    requires RunStateOf(log', key) == RunStateOf(log, key) && AtRest(log, key)
    ensures AtRest(log', key) && RunStateOf(log, key).kind == WaitState
  {
    hide RunStateOf;
  }

  /* A cancel without a start time */

  function CancelOf(info: RunInfo, id: DirectiveID): Directive {
    Directive(id, 0, CancelKind, info, CancelMsg(""))
  }

  lemma MaySendCancel(w: World, info: RunInfo, ri: RunInfo, id: DirectiveID)
    requires Calm(w, info, ri) && FreshID(w, id)
    ensures MayEnqueue(w, CancelOf(info, id)) && Tame(CancelOf(info, id))
  {
    hide Assigned, Known;
  }

  lemma CancelHandleable(w: World, d: Directive)
    requires w.handlers == map[] && d in w.queue && OwnInbox(w.stream, d.Key()) && Tame(d) && NoBatch(w, d)
    requires d.kind == CancelKind && AtWork(w.stream.log, d.Key())
    ensures Handleable(w, d)
  {
    hide RunStateOf, LastHistory, NextEvent, OwnInbox;
  }

  lemma CancelWaits(c: Commit)
    requires Tame(c.d) && c.effect.Effect? && Explains(c.d, c.sn, c.inp, c.effect)
    requires c.d.kind == CancelKind && c.sn.runState.kind == StepState
    ensures Written(c) == Some(c.sn.runState.(pendingCancel := Some(c.d)))
  {
  }

  /** A cancel that was looked up before the start is pending. */
  lemma CancelPending(info: RunInfo) returns (w: World, ri: RunInfo, d: Directive)
    requires Startable(info)
    ensures Reached(w, 14) && Calm(w, info, ri) && NoInbox(w.stream.log) && d.runInfo == info && d.msg.CancelMsg?
    ensures var s := RunStateOf(w.stream.log, info.Key()); s.kind == StepState && s.pendingCancel == Some(d)
  {
    hide Reached, RunStateOf, Calm, Startable, Good, Handled, Explains, Tame, Lawful, WellFormed, Grounded, NoBatch,
      FreshID,
      OwnInbox, Handleable, NoInbox;
    var w8, c;
    w8, ri := ToFirst(info);
    var id := FreshToken(w8);
    d := CancelOf(info, id);
    MaySendCancel(w8, info, ri, id);
    var ev := EventOf(info, NO_ID);
    EmptyIsMail(w8.stream.log, ev);
    var w9 := SendOne(w8, 8, d, info, ri, ev);
    CalmMeans(w9, info, ri);
    MailIsOwn(w9.stream, ev, info.Key());
    MailLasts(w8.stream.log, w9.stream.log, info.Key());
    CancelHandleable(w9, d);
    w, c := Handle(w9, 9, d);
    HandledFacts(w9, w, c);
    HandledState(w9, w, c);
    CancelWaits(c);
    HandledKeeps(w9, w, c, info, ri, ev);
    StillEmpty(w8.stream.log, w9.stream.log, d);
    NoMailStays(w9, w, c);
  }

  lemma EmptyIsMail(log: seq<Message>, ev: Directive)
    requires NoInbox(log)
    ensures OnlyMail(log, ev)
  {
  }

  lemma StillEmpty(log: seq<Message>, log': seq<Message>, d: Directive)
    requires NoInbox(log) && log' == log + [Stored(DirectiveRecord(d))]
    ensures NoInbox(log')
  {
  }

  /** Whatever run is started, a cancel that was looked up before the start can be accepted and left pending, and the
      handler of the successful result of the step then crashes, whenever it is tried again. */
  lemma CancelCrashes(info: RunInfo) returns (w: World, n: nat)
    requires Startable(info) && info.startedAt.None?
    ensures Reached(w, n) && 0 in w.handlers && w.handlers[0].stage == 3
    ensures var x := w.handlers[0];
            && Succeeds(x.d) && x.d.Key() == info.Key() && x.state == RunStateOf(w.stream.log, info.Key()) &&
              Cancellation.Pending(x.state)
            && forall inp :: Decide(x.d, x.Snapshot(), inp) == Crash
  {
    hide Reached, RunStateOf, Calm, Startable, FreshID, NoInbox, OwnInbox, NextEvent, LastHistory, Tame, NoBatch,
      Decide;
    var w1, ri, d := CancelPending(info);
    CalmMeans(w1, info, ri);
    var r := FreshToken(w1);
    MaySendResult(w1, info, ri, r);
    var ev := EventOf(info, NO_ID);
    EmptyIsMail(w1.stream.log, ev);
    var w2 := SendOne(w1, 14, ResultOf(ri, r), info, ri, ev);
    CalmMeans(w2, info, ri);
    StillEmpty(w1.stream.log, w2.stream.log, ResultOf(ri, r));
    NothingInInbox(w2, ResultOf(ri, r));
    w := DeliverAndRead(w2, 15, 0, ResultOf(ri, r));
    n := 19;
    forall inp ensures Decide(ResultOf(ri, r), w.handlers[0].Snapshot(), inp) == Crash {
      ResultCrashes(ri, r, w.handlers[0].Snapshot(), inp);
    }
  }

  lemma ResultCrashes(ri: RunInfo, r: DirectiveID, sn: StateSnapshot, inp: Inputs)
    requires ri.startedAt.Some? && sn.event.None? && sn.runState.kind == StepState && sn.runState.pendingCancel.Some?
    requires sn.runState.pendingCancel.value.msg.CancelMsg? && sn.runState.pendingCancel.value.runInfo.startedAt.None?
    ensures Decide(ResultOf(ri, r), sn, inp) == Crash
  {
    hide Decide;
    CrashIff(ResultOf(ri, r), sn, inp);
  }
}
