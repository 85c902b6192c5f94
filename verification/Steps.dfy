/** The steps of a disciplined run seen from the log: a step either appends one accepted batch, or appends
    messages that are no part of any batch, or appends nothing. */
module Steps {
  import opened Types
  import opened Stream
  import opened Wire
  import opened Views
  import opened Effects
  import opened Moves
  import opened Protocol
  import opened Worlds
  import opened Serial
  import opened Refinement
  import opened Discipline
  import opened Bookkeeping

  /** A batch went in, and what is known of it at that moment. */
  ghost predicate Accepted(w: World, w': World, h: nat, c: Commit) {
    && Pushed(w, w', h, c) && CommitOK(w.runs, w.queue, c) && Grounded(c) && FreshID(w, c.inp.newID)
    && (c.effect.move.Begin? ==> RunStateOf(w.stream.log, c.d.Key()) == NO_STATE)
  }

  /** A message that is written outside of batches. */
  predicate Outside(m: Message) {
    m.Fired? || (m.Stored? && (m.record.DirectiveRecord? || m.record.RunInfoRecord? ||
      (m.record.HistoryRecord? && m.record.history.msg.WorkerRecorded?)))
  }

  predicate Noted(w: World, w': World) {
    && w'.commits == w.commits && Grows(w, w')
    && |w.stream.log| <= |w'.stream.log| && w'.stream.log[..|w.stream.log|] == w.stream.log
    && (forall i :: |w.stream.log| <= i < |w'.stream.log| ==> OutsideOf(w, w'.stream.log[i]))
    && (forall id :: id in w'.stream.ids && id !in w.stream.ids ==> id.Callback? || FreshID(w, id))
    && (forall d :: d in w'.queue && d !in w.queue ==> d.id in w'.stream.ids && d.id !in w.stream.ids)
  }

  /** A run info written outside of batches creates a run. */
  predicate OutsideOf(w: World, m: Message) {
    Outside(m) && (m.Stored? && m.record.RunInfoRecord? ==> m.record.info.Key() !in w.runs)
  }

  lemma FinishAccepted(w: World, a: Action) returns (c: Commit)
    requires Orderly(w) && Inv(w) && a.Finish? && Enabled(w, a) && Honest(w, a) && Allowed(w, a)
    requires Apply(w, a).stream != w.stream
    ensures Accepted(w, Apply(w, a), a.h, c)
    ensures c.effect == a.effect && c.inp == a.inp
  {
    hide Orderly, Inv, Honest, Explains, Tame, SoundFinish, FinishIn, Pushed, CommitOK, RunStateOf, WellFormed;
    FinishExplained(w, a);
    HonestIsSound(w, a);
    c := FinishPushes(w, a.h, a.inp, a.order, a.fault, a.decision, a.effect);
    PushedNames(w, Apply(w, a), a.h, c);
    PushedCommitOK(w, Apply(w, a), a.h, c);
  }

  lemma FinishNoted(w: World, a: Action)
    requires a.Finish? && Enabled(w, a) && Apply(w, a).stream == w.stream
    ensures Noted(w, Apply(w, a))
  {
    hide FinishIn, Passed;
    FinishPasses(w, a.h, a.inp, a.order, a.fault, a.decision, a.effect);
    PassNoted(w, Apply(w, a), a.h, a.inp.newID);
  }

  lemma PassNoted(w: World, w': World, h: nat, newID: DirectiveID)
    requires Passed(w, w', h, newID)
    ensures Noted(w, w')
  {
  }

  /** Appending messages from outside, if any, is all that such a step does to the log. */
  lemma AppendNoted(w: World, w': World, more: seq<Message>)
    requires w'.commits == w.commits && Grows(w, w') && w'.stream.log == w.stream.log + more && forall m ::
      m in more ==> OutsideOf(w, m)
    requires forall id :: id in w'.stream.ids && id !in w.stream.ids ==> id.Callback? || FreshID(w, id)
    requires forall d :: d in w'.queue && d !in w.queue ==> d.id in w'.stream.ids && d.id !in w.stream.ids
    ensures Noted(w, w')
  {
    hide OutsideOf, FreshID;
    forall i | |w.stream.log| <= i < |w'.stream.log| ensures OutsideOf(w, w'.stream.log[i]) {
      assert w'.stream.log[i] == more[i - |w.stream.log|];
    }
  }

  lemma EnqueueNoted(w: World, w': World, d: Directive)
    requires w'.stream == PublishDirective(w.stream, d) &&
      w'.queue == (if d.id in w.stream.ids then w.queue else w.queue + {d})
    requires w'.runs == w.runs && w'.commits == w.commits && w.used <= w'.used
    requires d.id.Callback? || FreshID(w, d.id)
    ensures Noted(w, w')
  {
    hide FreshID;
    var m := Stored(DirectiveRecord(d));
    assert m.MsgID() == Some(d.id) && IDsOf([m]) == {d.id};
    AppendNoted(w, w', if d.id in w.stream.ids then [] else [m]);
  }

  lemma SendNoted(w: World, d: Directive)
    requires MayEnqueue(w, d)
    ensures Noted(w, Apply(w, Enqueue(d)))
  {
    hide FreshID, Noted, Shaped, Known, Assigned;
    EnqueueNoted(w, Apply(w, Enqueue(d)), d);
  }

  lemma HandleFiredNoted(w: World, a: Action)
    requires a.HandleFired? && Enabled(w, a) && FreshID(w, a.newID)
    ensures Noted(w, Apply(w, a))
  {
    hide FreshID, Noted;
    EnqueueNoted(w, Apply(w, a), TimeoutDirective(w.stream.log[a.seqID - 1].record.timer, a.newID, a.now, a.exhausted));
  }

  lemma OneNoted(w: World, a: Action)
    requires RunsOK(w) && Enabled(w, a) && (a.CreateRun? || a.WorkerHistory? || a.Fire?)
    requires (a.CreateRun? ==> w.starting == Some(a.info))
    ensures Noted(w, Apply(w, a))
  {
    hide Noted, FreshID;
    var m := if a.CreateRun? then Stored(RunInfoRecord(a.info)) else if a.WorkerHistory?
      then Stored(HistoryRecord(a.entry))
             else Fired(w.stream.log[a.seqID - 1].record.timer);
    assert IDsOf([m]) == {};
    AppendNoted(w, Apply(w, a), [m]);
  }

  lemma OtherNoted(w: World, a: Action)
    requires RunsOK(w) && Enabled(w, a) && Allowed(w, a) && !a.Finish?
    ensures Noted(w, Apply(w, a))
  {
    hide MayEnqueue, OwnInbox, MayStart, RunStateOf, NextEvent, LastHistory, FreshID, Noted, RunsOK;
    if a.Enqueue? {
      SendNoted(w, a.d);
    } else if a.HandleFired? {
      HandleFiredNoted(w, a);
    } else if a.CreateRun? || a.WorkerHistory? || a.Fire? {
      OneNoted(w, a);
    } else {
      AppendNoted(w, Apply(w, a), []);
    }
  }

  /* The journal of batches */

  /** The batches chain up from state to state, and no two of them carry the same message ID. */
  ghost predicate Journal(w: World) {
    && Chained(w.commits)
    && (forall i :: 0 <= i < |w.commits| ==> IDsOf(w.commits[i].msgs) <= w.stream.ids)
    && (forall i, j :: 0 <= i < j < |w.commits| ==> IDsOf(w.commits[i].msgs) !! IDsOf(w.commits[j].msgs))
    && Sourced(w) && Unshared(w) && Batched(w) && NO_ID !in w.stream.ids
  }

  /** Timers, tasks and inbox entries only get into the log with a batch. */
  predicate OnlyInBatches(m: Message) {
    m.Stored? && (m.record.TimerRecord? || m.record.BackgroundTaskRecord? || m.record.InboxRecord?)
  }

  ghost predicate Batched(w: World) {
    forall m :: m in w.stream.log && OnlyInBatches(m) ==> exists c :: c in w.commits && m in c.msgs
  }

  lemma AcceptedBatched(w: World, w': World, h: nat, c: Commit)
    requires Batched(w) && Accepted(w, w', h, c)
    ensures Batched(w')
  {
    hide IDsOf, Lawful, Current, CommitOK, Grounded, Check, OnlyInBatches;
    forall m | m in w'.stream.log && OnlyInBatches(m) ensures exists c :: c in w'.commits && m in c.msgs {
      if m in c.msgs {
        assert c in w'.commits;
      } else {
        var c' :| c' in w.commits && m in c'.msgs;
        assert c' in w'.commits;
      }
    }
  }

  lemma NotedBatched(w: World, w': World)
    requires Batched(w) && Noted(w, w')
    ensures Batched(w')
  {
    hide IDsOf, Grows, FreshID;
    forall m | m in w'.stream.log && OnlyInBatches(m) ensures exists c :: c in w'.commits && m in c.msgs {
      var i :| 0 <= i < |w'.stream.log| && w'.stream.log[i] == m;
      if i < |w.stream.log| { assert m == w.stream.log[i]; }
    }
  }

  /** An ID that was not generated for a directive somebody sent came with a batch. */
  ghost predicate Sourced(w: World) {
    forall id :: id in w.stream.ids ==> id.Base? || id.Callback? || exists c :: c in w.commits && id in IDsOf(c.msgs)
  }

  /** An ID generated while planning is not one of a queued directive. */
  ghost predicate Unshared(w: World) {
    forall c :: c in w.commits ==> c.inp.newID.Base? && c.inp.newID in w.used && forall d :: d in w.queue ==>
      d.id != c.inp.newID
  }

  lemma BatchIDForm(c: Commit, id: DirectiveID)
    requires Lawful(c) && Tame(c.d) && Explains(c.d, c.sn, c.inp, c.effect) && id in IDsOf(c.msgs)
    ensures id.Next? || id.ForTask?
  {
    hide Lawful, Explains, Tame, NewTasks, NewQueued, EndTasks;
    var m :| m in c.msgs && m.MsgID() == Some(id);
    Member(c, m.record);
    if m.record.DirectiveRecord? {
      QueuedIs(c.effect, c.sn, c.inp, m.record.directive);
    } else {
      TasksOf(c, m.record.task);
      if m.record.task in EndTasks(c.effect, c.sn) { EndTaskID(c.effect, c.sn, m.record.task); }
    }
  }

  lemma AcceptedNamed(w: World, w': World, h: nat, c: Commit)
    requires NO_ID !in w.stream.ids && Accepted(w, w', h, c)
    ensures NO_ID !in w'.stream.ids
  {
    hide IDsOf, Lawful, Current, Explains, Tame, StateOK, EventOK, Grounded, Check;
    if NO_ID in IDsOf(c.msgs) { BatchIDForm(c, NO_ID); }
  }

  lemma AcceptedSourced(w: World, w': World, h: nat, c: Commit)
    requires Sourced(w) && Accepted(w, w', h, c)
    ensures Sourced(w')
  {
    hide IDsOf, Lawful, Current, CommitOK, Grounded, Check;
    forall id | id in w'.stream.ids
      ensures id.Base? || id.Callback? || exists c :: c in w'.commits && id in IDsOf(c.msgs)
    {
      if id in IDsOf(c.msgs) {
        assert c in w'.commits;
      } else if !id.Base? && !id.Callback? {
        var c' :| c' in w.commits && id in IDsOf(c'.msgs);
        assert c' in w'.commits;
      }
    }
  }

  lemma AcceptedUnshared(w: World, w': World, h: nat, c: Commit)
    requires Orderly(w) && Unshared(w) && Accepted(w, w', h, c)
    ensures Unshared(w')
  {
    hide QueueOK, LogOK, HandlersOK, CommitsOK, RunsOK, IDsOf, Lawful, Current, CommitOK, Grounded, Check, NewQueued,
      DirectiveOK;
    forall c', d | c' in w'.commits && d in w'.queue ensures d.id != c'.inp.newID {
      if d in w.queue {
        QueueIDs(w, d);
      } else {
        Member(c, DirectiveRecord(d));
        QueuedIs(c.effect, c.sn, c.inp, d);
      }
    }
  }

  lemma QueueIDs(w: World, d: Directive)
    requires QueueOK(w) && IDsOK(w) && d in w.queue
    ensures d.id in w.stream.ids && (d.id.Base? ==> d.id in w.used)
  {
    assert DirectiveOK(w.runs, w.stream.ids, d);
  }

  lemma NotedUnshared(w: World, w': World)
    requires Sourced(w) && Unshared(w) && Noted(w, w')
    ensures Sourced(w') && Unshared(w')
  {
    hide OutsideOf, IDsOf;
  }

  lemma ChainGrows(commits: seq<Commit>, c: Commit)
    requires Chained(commits) && Lawful(c) && Current(commits + [c], |commits|)
    requires c.effect.move.Begin? ==> StateAfter(commits, c.d.Key()) == NO_STATE
    ensures Chained(commits + [c])
  {
    hide Lawful, StateAfter, Current;
    var more := commits + [c];
    forall i | 0 <= i < |more| ensures Lawful(more[i]) && Current(more, i) {
      if i < |commits| {
        assert Lawful(commits[i]) && Current(commits, i);
        CurrentStays(commits, c, i);
      }
    }
    forall i | 0 <= i < |more| && more[i].effect.Effect? && more[i].effect.move.Begin?
      ensures StateAfter(more[..i], more[i].d.Key()) == NO_STATE
    {
      if i < |commits| {
        assert more[..i] == commits[..i];
      } else {
        assert more[..i] == commits;
      }
    }
  }

  lemma AcceptedKeepsJournal(w: World, w': World, h: nat, c: Commit)
    requires Good(w) && Accepted(w, w', h, c)
    ensures Journal(w')
  {
    hide Orderly, Sourced, Unshared, Batched, Chained, Lawful, Current, CommitOK, StateAfter, RunStateOf, HandlerOK,
      IDsOf, NewState, Check;
    assert c.effect.Effect?;
    assert RunStateOf(w.stream.log, c.d.Key()) == StateAfter(w.commits, c.d.Key());
    ChainGrows(w.commits, c);
    CheckPasses(w.stream.log, w.stream.ids, c.msgs);
    AcceptedSourced(w, w', h, c);
    AcceptedUnshared(w, w', h, c);
    AcceptedBatched(w, w', h, c);
    AcceptedNamed(w, w', h, c);
  }

  lemma NotedKeepsJournal(w: World, w': World)
    requires Journal(w) && NO_ID in w.used && Noted(w, w')
    ensures Journal(w')
  {
    hide Chained, IDsOf, OutsideOf, Sourced, Unshared, Batched;
    NotedUnshared(w, w');
    NotedBatched(w, w');
  }

  /* Every disciplined run */

  ghost predicate Good(w: World) {
    Inv(w) && Orderly(w) && Journal(w)
  }

  lemma StepKinds(w: World, a: Action) returns (h: nat, c: Option<Commit>)
    requires Good(w) && Enabled(w, a) && Honest(w, a) && Allowed(w, a)
    ensures c.Some? ==> Accepted(w, Apply(w, a), h, c.value)
    ensures c.None? ==> Noted(w, Apply(w, a))
  {
    hide Inv, Journal, Honest, Allowed, Apply, Accepted, Noted;
    h, c := 0, None;
    if a.Finish? {
      if Apply(w, a).stream != w.stream {
        var c' := FinishAccepted(w, a);
        h, c := a.h, Some(c');
      } else {
        FinishNoted(w, a);
      }
    } else {
      OtherNoted(w, a);
    }
  }

  lemma StepKeepsGood(w: World, a: Action)
    requires Good(w) && Enabled(w, a) && Honest(w, a) && Allowed(w, a)
    ensures Good(Apply(w, a))
  {
    hide Inv, Orderly, Journal, Enabled, Honest, Allowed, Apply, Sound;
    HonestIsSound(w, a);
    StepKeepsInv(w, a);
    StepKeepsOrderly(w, a);
    StepKeepsJournal(w, a);
  }

  lemma StepKeepsJournal(w: World, a: Action)
    requires Good(w) && Enabled(w, a) && Honest(w, a) && Allowed(w, a)
    ensures Journal(Apply(w, a))
  {
    hide Inv, Journal, Honest, Allowed, Apply, Accepted, Noted, QueueOK, LogOK, HandlersOK, CommitsOK, RunsOK;
    var h, c := StepKinds(w, a);
    if c.Some? {
      AcceptedKeepsJournal(w, Apply(w, a), h, c.value);
    } else {
      NotedKeepsJournal(w, Apply(w, a));
    }
  }

  lemma InitIsGood()
    ensures Good(INIT)
  {
    assert forall key :: RunStateOf(INIT.stream.log, key) == NO_STATE;
  }

  lemma {:induction false} GoodHolds(w: World, n: nat)
    requires Reached(w, n)
    ensures Good(w)
    decreases n
  {
    hide Good, Enabled, Honest, Allowed, Apply;
    if n == 0 {
      InitIsGood();
    } else {
      var w0, a := ReachedFrom(w, n);
      GoodHolds(w0, n - 1);
      StepKeepsGood(w0, a);
    }
  }

  /* What is known of each batch */

  lemma BatchFacts(w: World, i: nat)
    requires Good(w) && i < |w.commits|
    ensures var c := w.commits[i];
            CommitOK(w.runs, w.queue, c) && Lawful(c) && Grounded(c) && Current(w.commits, i)
  {
    hide CommitOK, Lawful, StateAfter, RunStateOf, QueueOK, LogOK, IDsOK, HandlersOK, RunsOK, HandlerOK, StartsOnce,
      IDsOf;
    assert w.commits[i] in w.commits;
    LawfulShape(w.commits[i]);
  }

  lemma BeginFacts(w: World, i: nat)
    requires Good(w) && i < |w.commits| && w.commits[i].effect.Effect? && w.commits[i].effect.move.Begin?
    ensures StateAfter(w.commits[..i], w.commits[i].d.Key()) == NO_STATE
  {
    hide Inv, Orderly, Lawful, Current, StateAfter, IDsOf, StartsOnce;
    StartedOnce(w.commits, i);
  }

  function Written(c: Commit): Option<RunState> {
    NewState(c.effect, c.sn, c.inp)
  }

  /** A batch takes the run of its directive from its current state to the one it writes, and leaves every
      other run alone. */
  lemma NextState(w: World, i: nat, key: RunKey)
    requires Good(w) && i < |w.commits|
    ensures var c, s, s' := w.commits[i], StateAfter(w.commits[..i], key), StateAfter(w.commits[..i + 1], key);
            if c.d.Key() == key && Written(c).Some?
            then && s' == Written(c).value.(seqID := s'.seqID) && s'.seqID > 0
                 && (if c.effect.move.Begin? then s == NO_STATE else c.sn.runState == s && s.seqID > 0)
            else s' == s
  {
    hide Good, StateAfter, Fits, Puts, LedMessages, TasksIn, QueuedIn, EndsOf, EndEvents, CommitOK, LastOn,
      NewState;
    BatchFacts(w, i);
    var c := w.commits[i];
    if c.effect.move.Begin? { BeginFacts(w, i); }
    WrittenKey(c);
    assert w.commits[..i + 1] == w.commits[..i] + [c];
    StateAfterPush(w.commits[..i], c, key);
    assert StateAt(c, key);
  }

  lemma WrittenKey(c: Commit)
    requires Grounded(c)
    ensures c.effect.move.Receive? <==> Written(c).None?
    ensures c.effect.move.Begin? && c.effect.move.via == c.d ==> Written(c).value.Key() == c.d.Key()
  {
  }

  /** What is known of a batch the moment it goes in. */
  lemma AcceptedFacts(w: World, w': World, h: nat, c: Commit)
    requires Good(w) && Accepted(w, w', h, c)
    ensures w'.stream.log == w.stream.log + c.msgs && w'.commits == w.commits + [c] && w'.runs == w.runs
    ensures w.queue <= w'.queue
    ensures Tame(c.d) && Explains(c.d, c.sn, c.inp, c.effect) && Lawful(c) && Grounded(c) && c.effect.Effect?
    ensures WellFormed(c.effect)
    ensures c.d in w.queue && ViaOK(w.runs, w.used + {c.inp.newID}, c)
    ensures c.sn.runState == NO_STATE || StateOK(w.runs, w.queue, c.sn.runState)
    ensures EventOK(w.queue, c.d.Key(), c.sn.event)
  {
    hide Inv, Journal, Explains, Tame, StateOK, EventOK, ViaOK, Lawful, Current, Check, IDsOf, QueueOK, LogOK, IDsOK,
      HandlersOK, CommitsOK, RunsOK, RunStateOf;
    CommitVia(w, c);
  }

  /** The state a run has after a batch, and the one it had before. */
  lemma AcceptedState(w: World, w': World, h: nat, c: Commit, key: RunKey)
    requires Good(w) && Good(w') && Accepted(w, w', h, c)
    ensures var s, s' := RunStateOf(w.stream.log, key), RunStateOf(w'.stream.log, key);
            if c.d.Key() == key && Written(c).Some?
            then && s' == Written(c).value.(seqID := s'.seqID) && s'.seqID > 0
                 && (if c.effect.move.Begin? then s == NO_STATE else c.sn.runState == s && s.seqID > 0)
            else s' == s
  {
    hide Good, Accepted, StateAfter, RunStateOf, Lawful, Explains, Tame, ViaOK, NewState, StateOK, EventOK, Grounded,
      WellFormed;
    AcceptedFacts(w, w', h, c);
    GoodState(w, key);
    GoodState(w', key);
    NextState(w', |w.commits|, key);
    assert w'.commits[..|w.commits|] == w.commits && w'.commits[..|w.commits| + 1] == w'.commits;
  }

  lemma GoodState(w: World, key: RunKey)
    requires Good(w)
    ensures RunStateOf(w.stream.log, key) == StateAfter(w.commits, key)
  {
    hide Orderly, Journal, StateAfter, RunStateOf, Lawful, Current, HandlerOK;
  }
}
