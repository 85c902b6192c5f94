/** A run is never stuck: as long as it is in a step or a wait, the timer of that very entry is armed, or has
    fired and waits to be handled, or the directive it was turned into is still in the queue. */
module Guard {
  import opened Types
  import opened Stream
  import opened Wire
  import opened Effects
  import opened Moves
  import opened Protocol
  import opened Worlds
  import opened Serial
  import opened Discipline
  import opened Bookkeeping
  import opened Steps
  import opened Terminal
  import opened Acknowledged
  import opened Fifo
  import opened Entries
  import opened Origins
  import opened Timeouts

  predicate Live(s: RunState) { s.kind == StepState || s.kind == WaitState }

  /** The timer at a sequence is the one of the entry a run is in. */
  predicate TimerFor(log: seq<Message>, q: nat, key: RunKey, s: RunState) {
    && IsTimer(log, q)
    && var t := log[q - 1].record.timer;
       t.directive.id == s.activeDirectiveID && t.directive.Key() == key && t.kind == if s.kind == WaitState
         then WaitTimer else StepTimer
  }

  predicate Answered(w: World, t: Timer) {
    exists d :: d in w.queue && d !in w.gone && Answers(d, t)
  }

  predicate Armed(w: World, q: nat)
    requires IsTimer(w.stream.log, q)
  {
    w.stream.Visible(q) || q in w.fired || Answered(w, w.stream.log[q - 1].record.timer)
  }

  ghost predicate Guarded(w: World, key: RunKey) {
    var s := RunStateOf(w.stream.log, key);
    Live(s) ==> exists q :: TimerFor(w.stream.log, q, key, s) && Armed(w, q)
  }

  lemma LiveIsStored(log: seq<Message>, key: RunKey)
    requires Live(RunStateOf(log, key))
    ensures RunStateOf(log, key).seqID > 0 && !RunStateOf(log, key).IsTerminal()
  {
  }

  /* A timeout that is still good has not been handled */

  /** While a run is in the entry a timer is for, no directive made from the timer has a batch in the log. */
  lemma AnswerNotCommitted(w: World, key: RunKey, q: nat, c: Commit)
    requires Good(w) && c in w.commits && Live(RunStateOf(w.stream.log, key))
    requires TimerFor(w.stream.log, q, key, RunStateOf(w.stream.log, key))
    ensures !Answers(c.d, w.stream.log[q - 1].record.timer)
  {
    hide Good, StateAfter, RunStateOf, Explains, Tame, Lawful, Current, StateOK, EventOK, Grounded;
    var i :| 0 <= i < |w.commits| && w.commits[i] == c;
    if Answers(c.d, w.stream.log[q - 1].record.timer) {
      AnswerMoves(w, i);
      GoodState(w, key);
      LiveIsStored(w.stream.log, key);
      assert w.commits[..|w.commits|] == w.commits;
      if c.effect.move.ToEnd? {
        EndIsTerminal(w, i);
        TerminalStays(w, i + 1, |w.commits|, key);
      } else {
        AnswerLeaves(w, i, key);
      }
    }
  }

  lemma AnswerMoves(w: World, i: nat)
    requires Good(w) && i < |w.commits| && (w.commits[i].d.kind == FailKind || IsTimeout(w.commits[i].d))
    ensures w.commits[i].effect.Effect?
    ensures w.commits[i].effect.move.ToEnd? || (w.commits[i].d.kind == WaitTimeoutKind && Enters(w.commits[i]))
    ensures !w.commits[i].effect.move.ToEnd? ==> TimesOut(w.commits[i])
  {
    hide Good, Tame, Lawful, Current, StateOK, EventOK, Plain;
    BatchFacts(w, i);
    if IsTimeout(w.commits[i].d) { TimesOutIff(w.commits[i]); }
  }

  /** A timeout that was handled has taken the run out of the wait it was for, for good. */
  lemma AnswerLeaves(w: World, i: nat, key: RunKey)
    requires Good(w) && i < |w.commits| && w.commits[i].d.Key() == key && w.commits[i].d.kind == WaitTimeoutKind
    requires IsTimeout(w.commits[i].d) && Enters(w.commits[i]) && TimesOut(w.commits[i])
    requires StateAfter(w.commits, key).seqID > 0 && StateAfter(w.commits, key).kind == WaitState
    ensures StateAfter(w.commits, key).activeDirectiveID != w.commits[i].d.msg.original
  {
    hide Good, StateAfter, Idle, TimesOut;
    TimeoutState(w, i);
    assert w.commits[..|w.commits|] == w.commits;
    var n := FindEntry(w, i, key);
    var m := FindEntry(w, |w.commits|, key);
    EntersIsNotIdle(w.commits[i]);
    assert m != n;
    WaitsDiffer(w, m, n);
  }

  /* Preservation */

  /** What is enough for a guard to last. */
  lemma GuardStays(w: World, w': World, key: RunKey)
    requires Guarded(w, key) && w.stream.log <= w'.stream.log
    requires var s, s' := RunStateOf(w.stream.log, key), RunStateOf(w'.stream.log, key);
             Live(s') ==> s.kind == s'.kind && s.activeDirectiveID == s'.activeDirectiveID
    requires forall q :: TimerFor(w.stream.log, q, key,
      RunStateOf(w.stream.log, key)) && Live(RunStateOf(w'.stream.log, key)) && Armed(w, q) ==>
      StillArmed(w, w', q)
    ensures Guarded(w', key)
  {
    hide RunStateOf, Armed;
    var s, s' := RunStateOf(w.stream.log, key), RunStateOf(w'.stream.log, key);
    if Live(s') {
      var q :| TimerFor(w.stream.log, q, key, s) && Armed(w, q);
      assert StillArmed(w, w', q);
      assert TimerFor(w'.stream.log, q, key, s');
    }
  }

  predicate StillArmed(w: World, w': World, q: nat)
  {
    IsTimer(w'.stream.log, q) && Armed(w', q)
  }

  lemma AcceptedKeepsGuard(w: World, w': World, h: nat, c: Commit, key: RunKey)
    requires Good(w) && Good(w') && Accepted(w, w', h, c) && Guarded(w, key) && w'.gone <= w.gone + {c.d}
    requires forall q :: q in w'.stream.removed ==> q <= |w.stream.log|
    ensures Guarded(w', key)
  {
    hide Good, Accepted, RunStateOf, Explains, Tame, Lawful, StateOK, EventOK, NewState, ViaOK, WellFormed, Guarded;
    AcceptedFacts(w, w', h, c);
    AcceptedHandler(w, w', h, c);
    AcceptedState(w, w', h, c, key);
    WrittenKey(c);
    if c.d.Key() == key && Enters(c) {
      EntryKeepsGuard(w, w', h, c);
    } else if c.d.Key() == key && c.effect.move.ToEnd? {
      WrittenIsLive(c);
      DeadIsGuarded(w', key);
    } else {
      if c.d.Key() == key && c.effect.move.Stay? { WrittenStays(c); }
      IdleKeepsGuard(w, w', h, c, key);
    }
  }

  lemma DeadIsGuarded(w: World, key: RunKey)
    requires !Live(RunStateOf(w.stream.log, key))
    ensures Guarded(w, key)
  {
  }

  lemma EntryKeepsGuard(w: World, w': World, h: nat, c: Commit)
    requires Good(w) && Good(w') && Accepted(w, w', h, c) && Enters(c) && forall q :: q in w'.stream.removed ==>
      q <= |w.stream.log|
    ensures Guarded(w', c.d.Key())
  {
    hide Good, Accepted, RunStateOf, Explains, Tame, Lawful, StateOK, EventOK, ViaOK, WellFormed, EntryID, TimerOK,
      Current, CommitOK;
    AcceptedFacts(w, w', h, c);
    AcceptedState(w, w', h, c, c.d.Key());
    WrittenKey(c);
    WrittenEnters(c);
    MeansEnters(c, Written(c).value);
    var t := EntryTimer(w', |w.commits|);
    var i :| 0 <= i < |c.msgs| && c.msgs[i] == Stored(TimerRecord(t));
    var q := |w.stream.log| + i + 1;
    assert w'.stream.log[q - 1] == c.msgs[i];
    assert TimerFor(w'.stream.log, q, c.d.Key(), RunStateOf(w'.stream.log, c.d.Key())) && Armed(w', q);
  }

  lemma IdleKeepsGuard(w: World, w': World, h: nat, c: Commit, key: RunKey)
    requires Good(w) && Good(w') && Accepted(w, w', h, c) && Guarded(w, key) && w'.gone <= w.gone + {c.d}
    requires c.d.Key() != key || Idle(c)
    requires var s, s' := RunStateOf(w.stream.log, key), RunStateOf(w'.stream.log, key);
             s.kind == s'.kind && s.activeDirectiveID == s'.activeDirectiveID
    ensures Guarded(w', key)
  {
    hide Good, Accepted, RunStateOf, Explains, Tame, Lawful, StateOK, EventOK, ViaOK, WellFormed, Guarded;
    AcceptedFacts(w, w', h, c);
    AcceptedSame(w, w', h, c);
    forall q | TimerFor(w.stream.log, q, key, RunStateOf(w.stream.log, key)) && Live(RunStateOf(w'.stream.log, key)) &&
      Armed(w, q)
      ensures StillArmed(w, w', q)
    {
      assert w'.stream.log[q - 1] == w.stream.log[q - 1];
      var t := w.stream.log[q - 1].record.timer;
      if Answered(w, t) {
        var d :| d in w.queue && d !in w.gone && Answers(d, t);
        if c.d.Key() == key { AnswerIsNotIdle(w', c, t); }
        assert d in w'.queue && d !in w'.gone && Answers(d, t);
      }
    }
    GuardStays(w, w', key);
  }

  lemma AcceptedSame(w: World, w': World, h: nat, c: Commit)
    requires Accepted(w, w', h, c)
    ensures w'.stream.removed == w.stream.removed && w'.fired == w.fired && w.queue <= w'.queue
    ensures w'.commits == w.commits + [c]
  {
    hide Lawful, Check, Current, CommitOK, Grounded, IDsOf;
  }

  /** Handling a directive made from a timer of a run never leaves the run where it was. */
  lemma AnswerIsNotIdle(w: World, c: Commit, t: Timer)
    requires Good(w) && c in w.commits && Idle(c)
    ensures !Answers(c.d, t)
  {
    hide Good, Explains, Tame, Lawful, Current, StateOK, EventOK, Grounded;
    var i :| 0 <= i < |w.commits| && w.commits[i] == c;
    if Answers(c.d, t) { AnswerMoves(w, i); }
  }

  /** A handler that changes nothing acknowledges no directive that is still needed. */
  lemma PassKeepsGuard(w: World, a: Action, key: RunKey)
    requires Good(w) && Guarded(w, key)
    requires a.Finish? && Enabled(w, a) && Honest(w, a) && Allowed(w, a) && Apply(w, a).stream == w.stream
    ensures Guarded(Apply(w, a), key)
  {
    hide Good, RunStateOf, Honest, Allowed, Enabled, Guarded, Apply;
    var w' := Apply(w, a);
    PassedSame(w, a);
    forall q | TimerFor(w.stream.log, q, key, RunStateOf(w.stream.log, key)) && Live(RunStateOf(w'.stream.log, key)) &&
      Armed(w, q)
      ensures StillArmed(w, w', q)
    {
      var t := w.stream.log[q - 1].record.timer;
      if Answered(w, t) {
        var d :| d in w.queue && d !in w.gone && Answers(d, t);
        if d in w'.gone {
          FinishAcks(w, a, d);
          var c :| c in w'.commits && c.d == d;
          AnswerNotCommitted(w, key, q, c);
        }
        assert d in w'.queue && d !in w'.gone && Answers(d, t);
      }
    }
    GuardStays(w, w', key);
  }

  lemma PassedSame(w: World, a: Action)
    requires a.Finish? && Enabled(w, a) && Apply(w, a).stream == w.stream
    ensures var w' := Apply(w, a); w'.queue == w.queue && w'.fired == w.fired && w'.commits == w.commits
  {
    hide Wire.Commit, OrderFor, BatchMessages;
  }

  /** A deletion that was asked for names the active ID of a live run only if that is an event the run was given
      before. */
  lemma NotDeleted(w: World, q: nat, key: RunKey)
    requires Good(w) && Live(RunStateOf(w.stream.log, key))
    requires TaskAt(w.stream.log, q).Some? && TaskAt(w.stream.log, q).value.DeleteTimerPayload?
    ensures TaskAt(w.stream.log, q).value.kind == StepTimer
    ensures var s := RunStateOf(w.stream.log, key);
            TaskAt(w.stream.log, q).value.timerID.directive == s.activeDirectiveID ==> ByEventTwice(w, key)
  {
    hide Good, RunStateOf, StateAfter, CommitOK, Lawful, Grounded, Current, GivenTwice;
    var m := w.stream.log[q - 1];
    var c := BatchOf(w, m);
    var k :| 0 <= k < |w.commits| && w.commits[k] == c;
    BatchFacts(w, k);
    DeletionOf(w, c, m.record.task);
    GoodState(w, key);
    LiveIsStored(w.stream.log, key);
    if m.record.task.payload.timerID.directive == RunStateOf(w.stream.log, key).activeDirectiveID {
      NotNamed(w, k, key);
    }
  }

  /** The run is in a step for an event that it was given twice. */
  predicate ByEventTwice(w: World, key: RunKey) {
    var s := RunStateOf(w.stream.log, key);
    s.kind == StepState && GivenTwice(w.commits, key, s.activeDirectiveID)
  }

  lemma DeletionOf(w: World, c: Commit, t: BackgroundTask)
    requires CommitOK(w.runs, w.queue, c) && Lawful(c) && Stored(BackgroundTaskRecord(t)) in c.msgs
    requires t.payload.DeleteTimerPayload?
    ensures c.d.kind == StepResultKind && t.payload.timerID.directive == c.sn.runState.activeDirectiveID
    ensures t.payload.kind == StepTimer
  {
    hide Lawful, Explains, Tame, StateOK, EventOK, NewTasks, EndTasks;
    Member(c, BackgroundTaskRecord(t));
    TasksOf(c, t);
    if t in EndTasks(c.effect, c.sn) { EndTaskPayload(c.effect, c.sn, t); }
  }

  lemma EndTaskPayload(e: Effect, sn: StateSnapshot, t: BackgroundTask)
    requires WellFormed(e) && t in EndTasks(e, sn)
    ensures !t.payload.DeleteTimerPayload?
  {
  }

  /** The deletion names the timer of the step a run is in. */
  predicate Names(w: World, a: Action, key: RunKey)
    requires Enabled(w, a)
  {
    var s := RunStateOf(w.stream.log, key);
    && a.CancelTimer? && s.kind == StepState
    && TaskAt(w.stream.log, a.seqID).value == DeleteTimerPayload(key.wfID, StepTimer,
      TimerID(StepTimer, s.activeDirectiveID))
  }

  /** Purging workflows leaves the timers of live entries alone, and deleting timers those that are not named. */
  lemma RemovalSpares(w: World, a: Action, key: RunKey, q: nat)
    requires Good(w) && (a.CancelTimer? || a.Purge?) && Enabled(w, a) && Allowed(w, a)
    requires Live(RunStateOf(w.stream.log, key)) && TimerFor(w.stream.log, q, key, RunStateOf(w.stream.log, key))
    ensures !Names(w, a, key) && q in Apply(w, a).stream.removed ==> q in w.stream.removed
    ensures Names(w, a, key) ==> q in Apply(w, a).stream.removed
    ensures forall d :: d in Apply(w, a).gone && d !in w.gone ==> d.Key() != key
  {
    hide Good, RunStateOf, ByEventTwice, Names, TimerFor;
    if a.CancelTimer? { DeletionSpares(w, a, key, q); } else { PurgeSpares(w, a, key, q); }
  }

  lemma DeletionSpares(w: World, a: Action, key: RunKey, q: nat)
    requires Good(w) && a.CancelTimer? && Enabled(w, a)
    requires Live(RunStateOf(w.stream.log, key)) && TimerFor(w.stream.log, q, key, RunStateOf(w.stream.log, key))
    ensures Names(w, a, key) ==> q in Apply(w, a).stream.removed
    ensures !Names(w, a, key) && q in Apply(w, a).stream.removed ==> q in w.stream.removed
    ensures Apply(w, a).gone == w.gone
  {
    hide Good, RunStateOf, Registered, ByEventTwice;
    TimerInLog(w, q);
    NotDeleted(w, a.seqID, key);
  }

  lemma PurgeSpares(w: World, a: Action, key: RunKey, q: nat)
    requires Good(w) && a.Purge? && Enabled(w, a) && Allowed(w, a)
    requires Live(RunStateOf(w.stream.log, key)) && TimerFor(w.stream.log, q, key, RunStateOf(w.stream.log, key))
    ensures !Names(w, a, key) && (q in Apply(w, a).stream.removed ==> q in w.stream.removed)
    ensures forall d :: d in Apply(w, a).gone && d !in w.gone ==> d.Key() != key
  {
    hide Good, RunStateOf, Registered;
    TimerInLog(w, q);
    RunInUse(w, key);
  }

  /** The step takes the last timer of the entry a run is in away: a deletion names it, and it has not fired. */
  ghost predicate Disarms(w: World, a: Action, key: RunKey)
    requires Enabled(w, a)
  {
    && Names(w, a, key)
    && forall q :: TimerFor(w.stream.log, q, key, RunStateOf(w.stream.log, key)) ==>
         q !in w.fired && !Answered(w, w.stream.log[q - 1].record.timer)
  }

  lemma RemovalKeepsArmed(w: World, a: Action, key: RunKey, q: nat)
    requires Good(w) && (a.CancelTimer? || a.Purge?) && Enabled(w, a) && Allowed(w, a)
    requires Live(RunStateOf(w.stream.log, key)) && TimerFor(w.stream.log, q, key, RunStateOf(w.stream.log, key))
    ensures StillArmed(w, Apply(w, a), q) <==>
      (!Names(w, a, key) && w.stream.Visible(q)) || q in w.fired || Answered(w, w.stream.log[q - 1].record.timer)
  {
    hide Good, RunStateOf, Apply, Allowed, Enabled, Names, Answers;
    var w' := Apply(w, a);
    RemovalSame(w, a);
    RemovalSpares(w, a, key, q);
    var t := w.stream.log[q - 1].record.timer;
    if Answered(w, t) {
      var d :| d in w.queue && d !in w.gone && Answers(d, t);
      AnswersSameRun(d, t);
      assert d in w'.queue && d !in w'.gone && Answers(d, t);
    }
    if Answered(w', t) {
      var d :| d in w'.queue && d !in w'.gone && Answers(d, t);
      assert d in w.queue && d !in w.gone && Answers(d, t);
    }
  }

  lemma RemovalGuardIff(w: World, a: Action, key: RunKey)
    requires Good(w) && Guarded(w, key) && (a.CancelTimer? || a.Purge?) && Enabled(w, a) && Allowed(w, a)
    ensures Guarded(Apply(w, a), key) <==> !Disarms(w, a, key)
  {
    hide Good, RunStateOf, Apply, Allowed, Enabled, Answered;
    var w', s := Apply(w, a), RunStateOf(w.stream.log, key);
    RemovalSame(w, a);
    if Live(s) {
      forall q | TimerFor(w.stream.log, q, key, s)
        ensures StillArmed(w, w', q) <==>
          (!Names(w, a, key) && w.stream.Visible(q)) || q in w.fired || Answered(w, w.stream.log[q - 1].record.timer)
      {
        RemovalKeepsArmed(w, a, key, q);
      }
    }
  }

  lemma RemovalSame(w: World, a: Action)
    requires Enabled(w, a) && (a.CancelTimer? || a.Purge?)
    ensures Apply(w, a).stream.log == w.stream.log && Apply(w, a).fired == w.fired && Apply(w, a).queue == w.queue
    ensures w.gone <= Apply(w, a).gone && w.stream.removed <= Apply(w, a).stream.removed
  {
  }

  lemma RunInUse(w: World, key: RunKey)
    requires Good(w)
    ensures Live(RunStateOf(w.stream.log, key)) ==> key in w.runs && !RunStateOf(w.stream.log, key).IsTerminal()
  {
    hide Inv, Journal, QueueOK, IDsOK, HandlersOK, CommitsOK, RunsOK, LastOn;
    var q := LastOn(w.stream.log, StateSubject(key.wfID, key.runID));
    if q > 0 { assert MessageOK(w.runs, w.queue, w.stream.log[q - 1]); }
  }

  lemma FireKeepsGuard(w: World, a: Action, key: RunKey)
    requires Guarded(w, key) && a.Fire? && Enabled(w, a)
    ensures Guarded(Apply(w, a), key)
  {
    hide RunStateOf, Guarded, Answered, IDsOf;
    var w' := Apply(w, a);
    SameStateAfter(w.stream.log, Fired(w.stream.log[a.seqID - 1].record.timer), key);
    forall q | TimerFor(w.stream.log, q, key, RunStateOf(w.stream.log, key)) && Live(RunStateOf(w'.stream.log, key)) &&
      Armed(w, q)
      ensures StillArmed(w, w', q)
    {
      SameAnswers(w, w', w.stream.log[q - 1].record.timer);
    }
    GuardStays(w, w', key);
  }

  lemma SameAnswers(w: World, w': World, t: Timer)
    requires w.queue <= w'.queue && w'.gone == w.gone
    ensures Answered(w, t) ==> Answered(w', t)
  {
    hide Answers;
  }

  lemma SameStateAfter(log: seq<Message>, m: Message, key: RunKey)
    requires !m.Subject().StateSubject?
    ensures RunStateOf(log + [m], key) == RunStateOf(log, key)
  {
    LastOnIs([m], StateSubject(key.wfID, key.runID), 0);
    RunStateAppend(log, [m], key);
  }

  lemma HandledKeepsGuard(w: World, a: Action, key: RunKey)
    requires Good(w) && Guarded(w, key) && Accounted(w) && a.HandleFired? && Enabled(w, a) && FreshID(w, a.newID)
    ensures Guarded(Apply(w, a), key)
  {
    hide Good, RunStateOf, Guarded, Answers, IDsOf, TimeoutDirective, FreshID;
    var w' := Apply(w, a);
    var d := TimeoutDirective(w.stream.log[a.seqID - 1].record.timer, a.newID, a.now, a.exhausted);
    TimeoutAnswers(w, a.seqID, a.newID, a.now, a.exhausted);
    MadeFresh(w, a);
    SameStateAfter(w.stream.log, Stored(DirectiveRecord(d)), key);
    forall q | TimerFor(w.stream.log, q, key, RunStateOf(w.stream.log, key)) && Live(RunStateOf(w'.stream.log, key)) &&
      Armed(w, q)
      ensures StillArmed(w, w', q)
    {
      var t := w.stream.log[q - 1].record.timer;
      SameAnswers(w, w', t);
      if q == a.seqID { assert d in w'.queue && d !in w'.gone && Answers(d, t); }
    }
    GuardStays(w, w', key);
  }

  lemma MadeFresh(w: World, a: Action)
    requires Good(w) && Accounted(w) && a.HandleFired? && Enabled(w, a) && FreshID(w, a.newID)
    ensures var d := TimeoutDirective(w.stream.log[a.seqID - 1].record.timer, a.newID, a.now, a.exhausted);
            d.id == a.newID && a.newID !in w.stream.ids && d !in w.gone
  {
    hide Inv, Journal, QueueOK, LogOK, HandlersOK, CommitsOK, RunsOK, RunStateOf;
    FreshIsNew(w, a.newID);
    var d := TimeoutDirective(w.stream.log[a.seqID - 1].record.timer, a.newID, a.now, a.exhausted);
    KnownID(w, d);
  }

  /** Steps that touch neither timers nor acknowledgements. */
  predicate Harmless(a: Action) {
    a.Enqueue? || a.CheckStart? || a.CreateRun? || a.WorkerHistory? || a.Deliver? || a.ReadState? || a.ReadHistory? ||
      a.ReadEvent? || a.Lose?
  }

  lemma HarmlessSame(w: World, a: Action)
    requires Enabled(w, a) && Harmless(a)
    ensures var w' := Apply(w, a);
            w'.stream.removed == w.stream.removed && w'.fired == w.fired && w'.gone == w.gone && w.queue <= w'.queue
  {
    hide RunStateOf, NextEvent, IDsOf, LastHistory;
  }

  lemma HarmlessKeepsGuard(w: World, a: Action, key: RunKey)
    requires Good(w) && Guarded(w, key) && Harmless(a) && Enabled(w, a) && Allowed(w, a)
    ensures Guarded(Apply(w, a), key)
  {
    hide Good, RunStateOf, Guarded, Answered, Apply, Noted, Allowed, Enabled;
    var w' := Apply(w, a);
    HarmlessSame(w, a);
    GoodRuns(w);
    OtherNoted(w, a);
    NotedKeepsState(w, w', key);
    NotedGrows(w, w');
    forall q | TimerFor(w.stream.log, q, key, RunStateOf(w.stream.log, key)) && Live(RunStateOf(w'.stream.log, key)) &&
      Armed(w, q)
      ensures StillArmed(w, w', q)
    {
      SameAnswers(w, w', w.stream.log[q - 1].record.timer);
    }
    GuardStays(w, w', key);
  }

  lemma GoodRuns(w: World)
    requires Good(w)
    ensures RunsOK(w)
  {
    hide Inv, Journal, QueueOK, LogOK, IDsOK, HandlersOK, CommitsOK, RunsOK;
  }

  lemma FinishKeepsGuard(w: World, a: Action, key: RunKey)
    requires Good(w) && a.Finish? && Enabled(w, a) && Honest(w, a) && Allowed(w, a) && Good(Apply(w, a))
    requires KeptWhileLive(w.stream) && Guarded(w, key)
    ensures Guarded(Apply(w, a), key)
  {
    hide Inv, Orderly, Journal, Guarded, Honest, Allowed, Apply, Accepted, RunStateOf;
    if Apply(w, a).stream == w.stream {
      PassKeepsGuard(w, a, key);
    } else {
      var c := FinishAccepted(w, a);
      AcksItsOwn(w, a);
      AcceptedHandler(w, Apply(w, a), a.h, c);
      AcceptedKeepsGuard(w, Apply(w, a), a.h, c, key);
    }
  }

  lemma StepGuardIff(w: World, a: Action, key: RunKey)
    requires Good(w) && Enabled(w, a) && Honest(w, a) && Allowed(w, a) && Good(Apply(w, a))
    requires KeptWhileLive(w.stream) && Accounted(w) && Guarded(w, key)
    ensures Guarded(Apply(w, a), key) <==> !Disarms(w, a, key)
  {
    hide Good, KeptWhileLive, Accounted, Guarded, Honest, Apply, FreshID, MayEnqueue, MayStart, OwnInbox, RunStateOf;
    if a.Finish? {
      FinishKeepsGuard(w, a, key);
    } else if a.Fire? {
      FireKeepsGuard(w, a, key);
    } else if a.HandleFired? {
      HandledKeepsGuard(w, a, key);
    } else if a.CancelTimer? || a.Purge? {
      RemovalGuardIff(w, a, key);
    } else {
      HarmlessKeepsGuard(w, a, key);
    }
  }

  /** Exactly when a live run loses its guard, whatever the interleaving: when a deletion is carried out that names
      the timer of the very step the run is in, before that timer has fired. */
  lemma GuardLostIff(w0: World, a: Action, w: World, n: nat, key: RunKey)
    requires n > 0 && ReachedStep(w0, a, w, n) && Guarded(w0, key)
    ensures Guarded(w, key) <==> !Disarms(w0, a, key)
    ensures Disarms(w0, a, key) ==> ByEventTwice(w0, key)
  {
    hide Good, Accounted, FifoInv, Guarded, Honest, Allowed, Apply, RunStateOf, ByEventTwice;
    assert Reached(w, n);
    GoodHolds(w0, n - 1);
    GoodHolds(w, n);
    FifoHolds(w0, n - 1);
    AccountedHolds(w0, n - 1);
    FifoKept(w0);
    StepGuardIff(w0, a, key);
    if Disarms(w0, a, key) { NotDeleted(w0, a.seqID, key); }
  }

  lemma FifoKept(w: World)
    requires FifoInv(w)
    ensures KeptWhileLive(w.stream)
  {
    hide InOrder, KeptWhileLive, NextOK;
  }

  /** A step leaves a run in the entry it was in, or guards it anew. */
  lemma SameOrGuarded(w: World, a: Action, key: RunKey)
    requires Good(w) && Enabled(w, a) && Honest(w, a) && Allowed(w, a) && Good(Apply(w, a)) && KeptWhileLive(w.stream)
    ensures var s, s' := RunStateOf(w.stream.log, key), RunStateOf(Apply(w, a).stream.log, key);
            (s.kind == s'.kind && s.activeDirectiveID == s'.activeDirectiveID) || Guarded(Apply(w, a), key)
  {
    hide Good, Honest, Allowed, Apply, Enabled, Accepted, Noted, RunStateOf, Guarded, Explains, Tame, Lawful, StateOK,
      EventOK, ViaOK, WellFormed, NewState, Grounded;
    var w' := Apply(w, a);
    var h, c := StepKinds(w, a);
    if c.None? {
      NotedKeepsState(w, w', key);
    } else {
      AcceptedFacts(w, w', h, c.value);
      AcceptedHandler(w, w', h, c.value);
      AcceptedState(w, w', h, c.value, key);
      if c.value.d.Key() == key { MovesOrGuards(w, w', h, c.value); }
    }
  }

  lemma MovesOrGuards(w: World, w': World, h: nat, c: Commit)
    requires Good(w) && Good(w') && Accepted(w, w', h, c) && KeptWhileLive(w.stream)
    ensures var s, s' := RunStateOf(w.stream.log, c.d.Key()), RunStateOf(w'.stream.log, c.d.Key());
            (s.kind == s'.kind && s.activeDirectiveID == s'.activeDirectiveID) || Guarded(w', c.d.Key())
  {
    hide Good, Accepted, RunStateOf, Guarded, Explains, Tame, Lawful, StateOK, EventOK, ViaOK, WellFormed, NewState;
    AcceptedFacts(w, w', h, c);
    AcceptedHandler(w, w', h, c);
    AcceptedState(w, w', h, c, c.d.Key());
    WrittenKey(c);
    if Enters(c) {
      EntryKeepsGuard(w, w', h, c);
    } else if c.effect.move.ToEnd? {
      WrittenIsLive(c);
      DeadIsGuarded(w', c.d.Key());
    } else if c.effect.move.Stay? {
      WrittenStays(c);
    }
  }

  /** Unless it is in a step for an event it was given twice, a run is guarded. */
  lemma {:induction false} GuardHoldsFor(w: World, n: nat, key: RunKey)
    requires Reached(w, n) && !ByEventTwice(w, key)
    ensures Guarded(w, key)
    decreases n
  {
    hide Good, FifoInv, Accounted, Guarded, Apply, Enabled, Honest, Allowed, RunStateOf, GivenTwice, KeptWhileLive;
    if n == 0 {
      GuardedAtFirst(key);
    } else {
      var w0, a := ReachedFrom(w, n);
      assert ReachedStep(w0, a, w, n);
      GoodHolds(w0, n - 1);
      GoodHolds(w, n);
      FifoHolds(w0, n - 1);
      FifoKept(w0);
      SameOrGuarded(w0, a, key);
      if !Guarded(w, key) {
        CommitsKept(w0, a);
        if ByEventTwice(w0, key) {
          StillTwice(w0.commits, w.commits, key, RunStateOf(w0.stream.log, key).activeDirectiveID);
        }
        GuardHoldsFor(w0, n - 1, key);
        GuardLostIff(w0, a, w, n, key);
      }
    }
  }

  lemma StillTwice(commits: seq<Commit>, more: seq<Commit>, key: RunKey, id: DirectiveID)
    requires commits <= more && GivenTwice(commits, key, id)
    ensures GivenTwice(more, key, id)
  {
    hide Gives;
    var i, j :| 0 <= i < j < |commits| && Gives(commits[i], key, id) && Gives(commits[j], key, id);
    assert more[i] == commits[i] && more[j] == commits[j];
  }

  lemma GuardedAtFirst(key: RunKey)
    ensures Guarded(INIT, key)
  {
  }

  /** If the timer fires now, the directive it turns into passes the check for stale timeouts. */
  lemma TimerIsGood(w: World, q: nat, key: RunKey, newID: DirectiveID, now: Time)
    requires Good(w) && Live(RunStateOf(w.stream.log, key))
    requires TimerFor(w.stream.log, q, key, RunStateOf(w.stream.log, key))
    ensures var s := RunStateOf(w.stream.log, key);
            var d := TimeoutDirective(w.stream.log[q - 1].record.timer, newID, now, false);
            if s.kind == WaitState then d.msg.WaitTimeoutMsg? && !StaleWait(d, s)
            else d.msg.StepTimeoutMsg? && !StaleStep(d, s)
  {
    hide Good, RunStateOf, Registered;
    TimerInLog(w, q);
  }

  /** Every live state is guarded. In any run of the system, a run in a wait, or in a step that is not for an event
      it was given twice, has a timer that was armed for that very entry; it is still there, or has fired and is
      yet to be handled, or the directive made from it is unacknowledged. No deletion asked for so far names it,
      and if it fires now its timeout is not stale. */
  lemma LiveIsGuarded(w: World, n: nat, key: RunKey, newID: DirectiveID, now: Time) returns (q: nat)
    requires Reached(w, n) && Live(RunStateOf(w.stream.log, key)) && !ByEventTwice(w, key)
    ensures var s := RunStateOf(w.stream.log, key);
            && TimerFor(w.stream.log, q, key, s) && Armed(w, q)
            && (forall p :: TaskAt(w.stream.log, p).Some? && TaskAt(w.stream.log, p).value.DeleteTimerPayload? ==>
                  TaskAt(w.stream.log, p).value.timerID.directive != s.activeDirectiveID)
            && var d := TimeoutDirective(w.stream.log[q - 1].record.timer, newID, now, false);
               if s.kind == WaitState then d.msg.WaitTimeoutMsg? && !StaleWait(d, s)
               else d.msg.StepTimeoutMsg? && !StaleStep(d, s)
  {
    hide Reached, Good, RunStateOf, Armed, ByEventTwice;
    GoodHolds(w, n);
    GuardHoldsFor(w, n, key);
    q :| TimerFor(w.stream.log, q, key, RunStateOf(w.stream.log, key)) && Armed(w, q);
    TimerIsGood(w, q, key, newID, now);
    forall p | TaskAt(w.stream.log, p).Some? && TaskAt(w.stream.log, p).value.DeleteTimerPayload?
      ensures TaskAt(w.stream.log, p).value.timerID.directive != RunStateOf(w.stream.log, key).activeDirectiveID
    {
      NotDeleted(w, p, key);
    }
  }

  /** A run is in a step for an event it was given twice exactly if the batch that entered the step gave it that
      event, and gave it again; so no run that started a step for anything else is. */
  lemma ByEventTwiceIff(w: World, n: nat, key: RunKey) returns (m: nat)
    requires Reached(w, n) && Live(RunStateOf(w.stream.log, key))
    ensures EntryAt(w, m, |w.commits|, key) && Enters(w.commits[m])
    ensures ByEventTwice(w, key) <==> !Sole(w.commits, m)
    ensures ByEventTwice(w, key) ==> GivesEvent(w.commits[m], key)
  {
    hide Reached, Good, RunStateOf, StateAfter, GivesEvent, GivenTwice, Sole;
    GoodHolds(w, n);
    GoodState(w, key);
    LiveIsStored(w.stream.log, key);
    assert w.commits[..|w.commits|] == w.commits;
    m := FindEntry(w, |w.commits|, key);
    SoleIff(w, m);
    if GivesEvent(w.commits[m], key) { GivesAreSteps(w.commits[m]); }
  }
}
