/** Redelivery is harmless: the batch of a step result goes in at most once, and a batch is reported as a
    duplicate only if the batch of the very same directive is already in. */
module ExactlyOnce {
  import opened Types
  import opened Stream
  import opened Wire
  import opened Views
  import opened Effects
  import opened Moves
  import opened Protocol
  import opened Worlds
  import opened Serial
  import opened Discipline
  import opened Bookkeeping
  import opened Steps
  import opened Terminal
  import StepRecords

  /* Step results */

  lemma ResultHasTask(c: Commit)
    requires Tame(c.d) && c.effect.Effect? && Explains(c.d, c.sn, c.inp, c.effect) && c.d.kind == StepResultKind
    requires Lawful(c)
    ensures ForTask(DeleteTimerTask, c.d.id) in IDsOf(c.msgs)
  {
    hide Lawful, ExplainsResult;
    var r := StepRecords.DeleteStepTimeoutTimer(c.d, c.sn.runState);
    LawfulShape(c);
    assert r.task in c.effect.before.tasks;
    Member(c, r);
    assert Stored(r).MsgID() == Some(ForTask(DeleteTimerTask, c.d.id));
  }

  lemma ResultsDiffer(w: World, i: nat, j: nat)
    requires Good(w) && i < j < |w.commits| && w.commits[i].d.kind == StepResultKind
    requires w.commits[j].d.kind == StepResultKind
    ensures w.commits[i].d.id != w.commits[j].d.id
  {
    hide Good, Lawful, Explains, Tame, IDsOf, StateOK, Current, Grounded;
    BatchFacts(w, i);
    BatchFacts(w, j);
    LawfulShape(w.commits[i]);
    LawfulShape(w.commits[j]);
    ResultHasTask(w.commits[i]);
    ResultHasTask(w.commits[j]);
    DisjointIDs(w, i, j);
  }

  lemma DisjointIDs(w: World, i: nat, j: nat)
    requires Good(w) && i < j < |w.commits|
    ensures IDsOf(w.commits[i].msgs) !! IDsOf(w.commits[j].msgs)
  {
    hide Inv, Orderly, IDsOf, Refinement.Chained;
  }

  /** However often a step result is delivered, at most one batch is committed for it. */
  lemma StepResultOnce(w: World, n: nat, i: nat, j: nat)
    requires Reached(w, n)
    requires var commits := w.commits;
             i < j < |commits| && commits[i].d.kind == StepResultKind && commits[j].d.kind == StepResultKind
    ensures w.commits[i].d.id != w.commits[j].d.id
  {
    hide Reached, Good;
    GoodHolds(w, n);
    ResultsDiffer(w, i, j);
  }

  /* Which directive a run ends for */

  datatype EndCause = FromResult | Generated | Queued(directive: Directive)

  /** A run ends for the successor of a step result, under an ID generated while planning, or for a directive
      of the same run that was queued: the one handled or a deferred cancel. */
  lemma EndVia(w: World, c: Commit) returns (cause: EndCause)
    requires QueueOK(w) && CommitOK(w.runs, w.queue, c) && Grounded(c) && c.effect.move.ToEnd?
    ensures match cause
            case FromResult => c.d.kind == StepResultKind && c.effect.move.via.id == Next(c.d.id)
            case Generated => c.effect.move.via.id == c.inp.newID
            case Queued(d) => d in w.queue && d.id.Base? && d.id == c.effect.move.via.id && d.Key() == c.d.Key()
  {
    hide QueueOK, ResultFirst, Plain;
    if c.d.kind == StepResultKind {
      if c.d.msg.nextKind != FailStepKind && c.sn.runState.pendingCancel.Some? {
        cause := Queued(c.sn.runState.pendingCancel.value);
        PlainID(w, cause.directive);
      } else {
        cause := FromResult;
      }
    } else if c.d.kind == StepTimeoutKind || c.d.kind == WaitTimeoutKind {
      cause := Generated;
    } else {
      cause := Queued(c.d);
      PlainID(w, c.d);
    }
  }

  lemma PlainID(w: World, d: Directive)
    requires QueueOK(w) && d in w.queue
    ensures Tame(d) && (d.kind != EventKind && d.kind != WakeFromInboxKind ==> d.id.Base?)
    ensures (d.kind == EventKind ==> d.id.Base? || d.id.Callback?)
  {
    hide Tame;
    assert DirectiveOK(w.runs, w.stream.ids, d);
  }

  lemma SameDirective(w: World, d: Directive, d': Directive)
    requires QueueOK(w) && d in w.queue && d' in w.queue && d.id == d'.id
    ensures d == d'
  {
    hide DirectiveOK;
  }

  /** Two batches that end runs for directives with one ID belong to one directive or at least one run. */
  lemma SameCause(w: World, c: Commit, c': Commit)
    requires Orderly(w) && Unshared(w) && c' in w.commits && Grounded(c') && c'.effect.move.ToEnd?
    requires CommitOK(w.runs, w.queue, c) && Grounded(c) && c.effect.move.ToEnd? && FreshID(w, c.inp.newID)
    requires c.effect.move.via.id == c'.effect.move.via.id
    ensures c.d == c'.d || c.d.Key() == c'.d.Key()
  {
    assert CommitOK(w.runs, w.queue, c');
    hide QueueOK, LogOK, HandlersOK, CommitsOK, RunsOK, CommitOK, Grounded, IDsOK;
    var a := EndVia(w, c);
    var b := EndVia(w, c');
    CommitQueued(w, c);
    CommitQueued(w, c');
    if b.Queued? { QueueIDs(w, b.directive); }
    if a.FromResult? && b.FromResult? {
      SameDirective(w, c.d, c'.d);
    } else if a.Queued? && b.Queued? {
      SameDirective(w, a.directive, b.directive);
    }
  }

  lemma CommitQueued(w: World, c: Commit)
    requires CommitOK(w.runs, w.queue, c)
    ensures c.d in w.queue
  {
  }

  /* Where a repeated ID comes from */

  lemma SourceOf(w: World, id: DirectiveID) returns (c: Commit)
    requires Sourced(w) && id in w.stream.ids && !id.Base? && !id.Callback?
    ensures c in w.commits && id in IDsOf(c.msgs)
  {
    hide IDsOf;
    c :| c in w.commits && id in IDsOf(c.msgs);
  }

  lemma TaskSource(c: Commit, kind: TaskKind, parent: DirectiveID)
    requires Tame(c.d) && Explains(c.d, c.sn, c.inp, c.effect) && Lawful(c) && ForTask(kind, parent) in IDsOf(c.msgs)
    ensures c.effect.Effect?
    ensures if kind == DeleteTimerTask then parent == c.d.id else c.effect.move.ToEnd? && parent == c.effect.move.via.id
  {
    hide Lawful, Explains, NewTasks, EndTasks, NewQueued;
    var m :| m in c.msgs && m.MsgID() == Some(ForTask(kind, parent));
    Member(c, m.record);
    if m.record.DirectiveRecord? {
      QueuedIs(c.effect, c.sn, c.inp, m.record.directive);
    } else {
      TasksOf(c, m.record.task);
      if m.record.task in EndTasks(c.effect, c.sn) { EndTaskID(c.effect, c.sn, m.record.task); }
    }
  }

  lemma WakeSource(c: Commit, parent: DirectiveID)
    requires Tame(c.d) && Explains(c.d, c.sn, c.inp, c.effect) && Lawful(c) && Next(parent) in IDsOf(c.msgs)
    ensures c.effect.Effect? && (c.effect.move.Receive? || c.effect.move.ToWait?) && parent == c.effect.move.via.id
  {
    hide Lawful, Explains, NewTasks, EndTasks, NewQueued;
    var m :| m in c.msgs && m.MsgID() == Some(Next(parent));
    Member(c, m.record);
    if m.record.DirectiveRecord? {
      QueuedIs(c.effect, c.sn, c.inp, m.record.directive);
    } else {
      TasksOf(c, m.record.task);
      if m.record.task in EndTasks(c.effect, c.sn) { EndTaskID(c.effect, c.sn, m.record.task); }
    }
  }

  lemma WakeVia(w: World, c: Commit)
    requires QueueOK(w) && CommitOK(w.runs, w.queue, c) && c.effect.Effect?
    ensures c.effect.move.Receive? ==> c.effect.move.via.id == c.d.id && !c.d.id.Next?
    ensures c.effect.move.ToWait? ==> c.effect.move.via.id == Next(c.d.id)
  {
    hide QueueOK, ResultFirst, Plain;
    PlainID(w, c.d);
    StateMoves(c);
  }

  lemma SameWake(w: World, c: Commit, c': Commit)
    requires QueueOK(w) && CommitOK(w.runs, w.queue, c) && CommitOK(w.runs, w.queue, c') && c.effect.Effect?
    requires c'.effect.Effect?
    requires (c.effect.move.Receive? || c.effect.move.ToWait?) && (c'.effect.move.Receive? || c'.effect.move.ToWait?)
    requires c.effect.move.via.id == c'.effect.move.via.id
    ensures c.d == c'.d
  {
    hide QueueOK, CommitOK;
    CommitQueued(w, c);
    CommitQueued(w, c');
    WakeVia(w, c);
    WakeVia(w, c');
    SameDirective(w, c.d, c'.d);
  }

  /* The verdict on a batch */

  /** A batch as its handler hands it to the store. */
  ghost predicate Offered(w: World, c: Commit) {
    && Lawful(c) && CommitOK(w.runs, w.queue, c) && Grounded(c) && FreshID(w, c.inp.newID)
    && ReadFrom(w.stream.log, c.d.Key(), c.sn.runState)
  }

  lemma EndTasksDistinct(e: Effect, sn: StateSnapshot)
    requires WellFormed(e)
    ensures Distinct(EndTasks(e, sn))
  {
  }

  lemma TasksDistinct(c: Commit)
    requires Tame(c.d) && Explains(c.d, c.sn, c.inp, c.effect) && c.effect.Effect? && WellFormed(c.effect)
    ensures Distinct(NewTasks(c.effect, c.sn)) && forall t :: t in NewTasks(c.effect, c.sn) ==> t.dedupID.ForTask?
  {
    hide EndTasks, ExplainsResult, StaleStep, StaleWait;
    var ends := EndTasks(c.effect, c.sn);
    EndTasksDistinct(c.effect, c.sn);
    forall t | t in ends
      ensures t.dedupID.ForTask? && t.dedupID.taskKind != DeleteTimerTask
    {
      EndTaskID(c.effect, c.sn, t);
    }
    if c.d.kind == StepResultKind {
      assert NewTasks(c.effect, c.sn) == [StepRecords.DeleteStepTimeoutTimer(c.d, c.sn.runState).task] + ends;
    } else {
      assert NewTasks(c.effect, c.sn) == ends;
    }
  }

  lemma OfferedIDs(c: Commit)
    requires Lawful(c) && Tame(c.d) && Explains(c.d, c.sn, c.inp, c.effect)
    ensures SingleIDs(c.msgs)
  {
    hide Fits, StateAt, Puts, LedMessages, EndsOf, EndEvents, TasksIn, QueuedIn, Explains, NewTasks, Distinct;
    TasksDistinct(c);
  }

  lemma RepeatedIDIsOld(w: World, c: Commit) returns (p: nat)
    requires Lawful(c) && Tame(c.d) && Explains(c.d, c.sn, c.inp, c.effect)
    requires Check(w.stream.log, w.stream.ids, c.msgs) == DuplicateMessage
    ensures p < |c.msgs| && c.msgs[p].MsgID().Some? && c.msgs[p].MsgID().value in w.stream.ids
    ensures forall i :: 0 <= i < p && c.msgs[i].Expected() > 0 ==>
      LastOn(w.stream.log, c.msgs[i].Subject()) == c.msgs[i].Expected()
  {
    hide Lawful, Tame, Explains, Check, LastOn, SingleIDs;
    p := CheckDuplicate(w.stream.log, w.stream.ids, c.msgs);
    OfferedIDs(c);
    forall i | 0 <= i < p && c.msgs[i].MsgID().Some? ensures c.msgs[i].MsgID() != c.msgs[p].MsgID() {
      NoRepeats(c.msgs, i, p);
    }
    assert c.msgs[p].MsgID().value !in IDsOf(c.msgs[..p]);
  }

  /** If a message behind the run state is what gives the repetition away, the state was the current one. */
  lemma StateWasCurrent(w: World, c: Commit, p: nat)
    requires Offered(w, c) && Written(c).Some? && !c.effect.move.Begin?
    requires p < |c.msgs| && c.msgs[p].Stored? && Trailing(c.msgs[p].record)
    requires forall i :: 0 <= i < p && c.msgs[i].Expected() > 0 ==>
      LastOn(w.stream.log, c.msgs[i].Subject()) == c.msgs[i].Expected()
    ensures RunStateOf(w.stream.log, c.d.Key()) == c.sn.runState
  {
    hide LastOn, Explains, Tame, StateOK, EventOK, Lawful, LedMessages, NewState;
    LawfulLed(c);
    WrittenKey(c);
    StateMoves(c);
    var r := StateRecordOf(c);
    var i := StateLeads(c.msgs, Stored(r), p);
    StateMember(c, c.msgs[i].record);
    assert c.msgs[i].Expected() == c.sn.runState.seqID;
  }

  lemma LawfulLed(c: Commit)
    requires Lawful(c)
    ensures LedMessages(c.msgs)
  {
    hide Fits, StateAt, Puts, LedMessages, TasksIn, QueuedIn, EndsOf, EndEvents;
  }

  lemma StateMember(c: Commit, r: Record)
    requires Lawful(c) && Grounded(c) && Stored(r) in c.msgs && r.RunStateRecord? && !c.effect.move.Begin?
    requires c.effect.move.Stay? ==> c.effect.move.state.Key() == c.sn.runState.Key()
    ensures r.expectedSeq == c.sn.runState.seqID && r.state.Key() == c.d.Key()
  {
    hide Lawful;
    Member(c, r);
  }

  lemma EndedIsTerminal(w: World, c': Commit)
    requires Good(w) && c' in w.commits && c'.effect.Effect? && c'.effect.move.ToEnd?
    ensures RunStateOf(w.stream.log, c'.d.Key()).IsTerminal()
  {
    hide Good, StateAfter, RunStateOf;
    var i :| 0 <= i < |w.commits| && w.commits[i] == c';
    EndIsTerminal(w, i);
    TerminalStays(w, i + 1, |w.commits|, c'.d.Key());
    assert w.commits[..|w.commits|] == w.commits;
    GoodState(w, c'.d.Key());
  }

  lemma RepeatedWake(w: World, c: Commit, m: Message)
    requires Good(w) && Offered(w, c) && m in c.msgs && m.Stored? && m.record.DirectiveRecord?
    requires m.record.directive.id in w.stream.ids
    ensures exists c' :: c' in w.commits && c'.d == c.d
  {
    hide Inv, QueueOK, LogOK, IDsOK, HandlersOK, RunsOK, Lawful, IDsOf, Explains, Tame, NewQueued, StateOK, EventOK,
      ReadFrom, Grounded, Refinement.Chained, Unshared, Sourced;
    Member(c, m.record);
    QueuedIs(c.effect, c.sn, c.inp, m.record.directive);
    var c' := SourceOf(w, m.record.directive.id);
    SourceIsLawful(w, c');
    WakeSource(c', c.effect.move.via.id);
    SameWake(w, c, c');
  }

  lemma SourceIsLawful(w: World, c: Commit)
    requires Good(w) && c in w.commits
    ensures Lawful(c) && Grounded(c) && CommitOK(w.runs, w.queue, c)
  {
    hide Good, Lawful, Grounded, CommitOK, Current;
    var i :| 0 <= i < |w.commits| && w.commits[i] == c;
    BatchFacts(w, i);
  }

  lemma RepeatedTask(w: World, c: Commit, p: nat)
    requires Good(w) && Offered(w, c) && p < |c.msgs| && c.msgs[p].Stored? && c.msgs[p].record.BackgroundTaskRecord?
    requires c.msgs[p].record.task.dedupID in w.stream.ids
    requires forall i :: 0 <= i < p && c.msgs[i].Expected() > 0 ==>
      LastOn(w.stream.log, c.msgs[i].Subject()) == c.msgs[i].Expected()
    ensures exists c' :: c' in w.commits && c'.d == c.d
  {
    hide Inv, QueueOK, LogOK, IDsOK, HandlersOK, RunsOK, Lawful, IDsOf, Explains, Tame, NewTasks, EndTasks, StateOK,
      EventOK, ReadFrom, Grounded, Refinement.Chained, Unshared, Sourced, LastOn, RunStateOf, NewState;
    var t := c.msgs[p].record.task;
    Member(c, c.msgs[p].record);
    TasksOf(c, t);
    if t in EndTasks(c.effect, c.sn) {
      EndTaskID(c.effect, c.sn, t);
      RepeatedEnd(w, c, p);
    } else {
      var c' := SourceOf(w, t.dedupID);
      SourceIsLawful(w, c');
      TaskSource(c', DeleteTimerTask, c.d.id);
      SameDirective(w, c.d, c'.d);
    }
  }

  lemma RepeatedEnd(w: World, c: Commit, p: nat)
    requires Good(w) && Offered(w, c) && p < |c.msgs| && c.msgs[p].Stored? && c.msgs[p].record.BackgroundTaskRecord?
    requires c.effect.move.ToEnd? && c.msgs[p].record.task.kind != DeleteTimerTask
    requires c.msgs[p].record.task.dedupID == ForTask(c.msgs[p].record.task.kind, c.effect.move.via.id)
    requires c.msgs[p].record.task.dedupID in w.stream.ids
    requires forall i :: 0 <= i < p && c.msgs[i].Expected() > 0 ==>
      LastOn(w.stream.log, c.msgs[i].Subject()) == c.msgs[i].Expected()
    ensures exists c' :: c' in w.commits && c'.d == c.d
  {
    hide Inv, QueueOK, LogOK, IDsOK, HandlersOK, RunsOK, Lawful, IDsOf, Explains, Tame, NewTasks, EndTasks, StateOK,
      EventOK, ReadFrom, Grounded, Refinement.Chained, Unshared, Sourced, LastOn, RunStateOf, NewState;
    var t := c.msgs[p].record.task;
    var c' := SourceOf(w, t.dedupID);
    LawfulShape(c);
    SourceIsLawful(w, c');
    TaskSource(c', t.kind, c.effect.move.via.id);
    SameCause(w, c, c');
    EndedIsTerminal(w, c');
    WrittenIsLive(c);
    WrittenKey(c);
    StateWasCurrent(w, c, p);
  }

  /** The store calls a batch a duplicate only if the batch of the same directive is already in. */
  lemma DuplicateWasCommitted(w: World, c: Commit)
    requires Good(w) && Offered(w, c) && Check(w.stream.log, w.stream.ids, c.msgs) == DuplicateMessage
    ensures exists c' :: c' in w.commits && c'.d == c.d
  {
    hide Good, Lawful, Explains, Tame, StateOK, EventOK, ReadFrom, Grounded, Check, LastOn;
    var p := RepeatedIDIsOld(w, c);
    if c.msgs[p].record.DirectiveRecord? {
      RepeatedWake(w, c, c.msgs[p]);
    } else {
      RepeatedTask(w, c, p);
    }
  }
}
