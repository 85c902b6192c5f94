/** What holds of everything in the stream when the protocol is followed: every queued directive, message,
    handler and batch belongs to a run that was created, and carries that run's identity. */
module Bookkeeping {
  import opened Types
  import opened Stream
  import opened Wire
  import opened Effects
  import opened Moves
  import opened Protocol
  import opened Worlds
  import opened Serial
  import opened Discipline
  import StepRecords
  import Planner

  /** The generated token an ID was derived from. */
  function Root(id: DirectiveID): DirectiveID {
    match id
    case Base(_) => id
    case Next(p) => Root(p)
    case ForTask(_, p) => Root(p)
    case Callback(p) => Root(p)
  }

  predicate Registered(runs: map<RunKey, RunInfo>, ri: RunInfo) {
    ri.Key() in runs && IdentityOf(ri) == IdentityOf(runs[ri.Key()])
  }

  predicate IDForm(d: Directive) {
    match d.kind
    case WakeFromInboxKind => d.id.Next?
    case EventKind => d.id.Base? || d.id.Callback?
    case _ => d.id.Base?
  }

  predicate DirectiveOK(runs: map<RunKey, RunInfo>, ids: set<DirectiveID>, d: Directive) {
    Tame(d) && IDForm(d) && Registered(runs, d.runInfo) && d.id in ids
  }

  /** A state belongs to a run that was started; a cancel is only pending while a step is running. */
  predicate StateOK(runs: map<RunKey, RunInfo>, queue: set<Directive>, s: RunState) {
    && s.Key() in runs && s.startedAt.Some?
    && (s.pendingCancel.Some? ==>
      s.pendingCancel.value in queue && s.pendingCancel.value.kind == CancelKind &&
      s.pendingCancel.value.Key() == s.Key())
    && (s.pendingCancel.Some? && !s.IsTerminal() ==> s.kind == StepState)
  }

  predicate TimerOK(runs: map<RunKey, RunInfo>, t: Timer) {
    && Registered(runs, t.directive.runInfo) && t.directive.runInfo.startedAt.Some?
    && t.id == TimerID(t.kind, t.directive.id) && t.wfID == t.directive.runInfo.wfID
    && (if t.kind == StepTimer then t.directive.msg.Dispatchable() else t.directive.msg.WaitMsg?)
  }

  predicate MessageOK(runs: map<RunKey, RunInfo>, queue: set<Directive>, m: Message) {
    match m
    case Fired(_) => true
    case KVPut(_, _, _, _) => true
    case Stored(r) =>
      match r
      case RunInfoRecord(info) => Registered(runs, info)
      case RunStateRecord(s, _) => StateOK(runs, queue, s)
      case TimerRecord(t) => TimerOK(runs, t)
      case InboxRecord(d) => d in queue && d.kind == EventKind
      case WorkerTaskDispatch(d) => Registered(runs, d.runInfo) && d.runInfo.startedAt.Some?
      case DirectiveRecord(d) => d in queue
      case _ => true
  }

  /** An event as read back from the inbox of the run. */
  predicate FromInbox(queue: set<Directive>, key: RunKey, ev: Directive) {
    && ev.kind == EventKind && ev.msg.EventMsg? && ev.msg.eventSeqID.Some?
    && ev.Key() == key && ev.(msg := ev.msg.(eventSeqID := None)) in queue
  }

  predicate EventOK(queue: set<Directive>, key: RunKey, ev: Option<Directive>) {
    ev.Some? ==> FromInbox(queue, key, ev.value)
  }

  predicate HandlerKnown(queue: set<Directive>, x: Handler) {
    && x.d in queue
    && (x.stage >= 3 ==> TameEvent(x.event) && (x.state.IsTerminal() || EventOK(queue, x.d.Key(), x.event)))
  }

  /** A batch was planned for a queued directive, from a state and an event of its run, and did what the
      protocol says. */
  predicate CommitOK(runs: map<RunKey, RunInfo>, queue: set<Directive>, c: Commit) {
    && c.d in queue && Tame(c.d)
    && EventOK(queue, c.d.Key(), c.sn.event)
    && (c.sn.runState == NO_STATE || StateOK(runs, queue, c.sn.runState))
    && Explains(c.d, c.sn, c.inp, c.effect)
  }

  ghost predicate QueueOK(w: World) {
    && (forall d :: d in w.queue ==> DirectiveOK(w.runs, w.stream.ids, d))
    && (forall d, d' :: d in w.queue && d' in w.queue && d.id == d'.id ==> d == d')
  }

  predicate LogOK(w: World) {
    forall m :: m in w.stream.log ==> MessageOK(w.runs, w.queue, m)
  }

  predicate IDsOK(w: World) {
    && NO_ID in w.used
    && (forall id :: id in w.stream.ids ==> Root(id) in w.used)
    && (forall m :: m in w.stream.log && m.MsgID().Some? ==> m.MsgID().value in w.stream.ids)
  }

  predicate HandlersOK(w: World) {
    forall h :: h in w.handlers ==> HandlerKnown(w.queue, w.handlers[h])
  }

  predicate CommitsOK(w: World) {
    forall c :: c in w.commits ==> CommitOK(w.runs, w.queue, c)
  }

  predicate RunsOK(w: World) {
    && (forall key :: key in w.runs ==> w.runs[key].Key() == key)
    && (w.starting.Some? ==> w.starting.value.Key() !in w.runs)
  }

  ghost predicate Orderly(w: World) {
    QueueOK(w) && LogOK(w) && IDsOK(w) && HandlersOK(w) && CommitsOK(w) && RunsOK(w)
  }

  /* Growing */

  /** Directives are never forgotten, runs never change, IDs stay known. */
  predicate Grows(w: World, w': World) {
    && w.queue <= w'.queue
    && (forall key :: key in w.runs ==> key in w'.runs && w'.runs[key] == w.runs[key])
    && w.stream.ids <= w'.stream.ids && w.used <= w'.used
  }

  lemma MessageStays(w: World, w': World, m: Message)
    requires Grows(w, w') && MessageOK(w.runs, w.queue, m)
    ensures MessageOK(w'.runs, w'.queue, m)
  {
  }

  lemma DirectiveStays(w: World, w': World, d: Directive)
    requires Grows(w, w') && DirectiveOK(w.runs, w.stream.ids, d)
    ensures DirectiveOK(w'.runs, w'.stream.ids, d)
  {
    hide Tame, IDForm;
  }

  lemma CommitStays(w: World, w': World, c: Commit)
    requires Grows(w, w') && CommitOK(w.runs, w.queue, c)
    ensures CommitOK(w'.runs, w'.queue, c)
  {
    hide Tame, Explains;
  }

  lemma HandlerKnownStays(w: World, w': World, x: Handler)
    requires Grows(w, w') && HandlerKnown(w.queue, x)
    ensures HandlerKnown(w'.queue, x)
  {
  }

  lemma LogStays(w: World, w': World, more: seq<Message>)
    requires LogOK(w) && Grows(w, w') && w'.stream.log == w.stream.log + more
    requires forall m :: m in more ==> MessageOK(w'.runs, w'.queue, m)
    ensures LogOK(w')
  {
    hide MessageOK;
    forall m | m in w'.stream.log ensures MessageOK(w'.runs, w'.queue, m) {
      if m in w.stream.log { MessageStays(w, w', m); }
    }
  }

  lemma QueueStays(w: World, w': World)
    requires QueueOK(w) && Grows(w, w')
    requires forall d :: d in w'.queue && d !in w.queue ==>
      DirectiveOK(w'.runs, w'.stream.ids, d) && d.id !in w.stream.ids
    requires forall d, d' :: d in w'.queue && d !in w.queue && d' in w'.queue && d' !in w.queue ==> d == d'
    ensures QueueOK(w')
  {
    hide DirectiveOK;
    forall d | d in w'.queue ensures DirectiveOK(w'.runs, w'.stream.ids, d) {
      if d in w.queue { DirectiveStays(w, w', d); }
    }
    forall d, d' | d in w'.queue && d' in w'.queue && d.id == d'.id ensures d == d' {
      KnownID(w, d);
      KnownID(w, d');
    }
  }

  lemma KnownID(w: World, d: Directive)
    requires QueueOK(w)
    ensures d in w.queue ==> d.id in w.stream.ids
  {
  }

  lemma CommitsStay(w: World, w': World)
    requires CommitsOK(w) && Grows(w, w')
    requires forall c :: c in w'.commits && c !in w.commits ==> CommitOK(w'.runs, w'.queue, c)
    ensures CommitsOK(w')
  {
    hide CommitOK;
    forall c | c in w'.commits ensures CommitOK(w'.runs, w'.queue, c) {
      if c in w.commits { CommitStays(w, w', c); }
    }
  }

  lemma HandlersStay(w: World, w': World)
    requires HandlersOK(w) && Grows(w, w')
    requires forall h :: h in w'.handlers ==>
      (h in w.handlers && w'.handlers[h] == w.handlers[h]) || HandlerKnown(w'.queue, w'.handlers[h])
    ensures HandlersOK(w')
  {
    hide HandlerKnown;
    forall h | h in w'.handlers ensures HandlerKnown(w'.queue, w'.handlers[h]) {
      if h in w.handlers && w'.handlers[h] == w.handlers[h] { HandlerKnownStays(w, w', w.handlers[h]); }
    }
  }

  /* What a batch adds */

  /** The directive a move is carried out for belongs to the run of the directive that was handled. */
  predicate ViaOK(runs: map<RunKey, RunInfo>, used: set<DirectiveID>, c: Commit) {
    c.effect.Effect? && (!c.effect.move.Stay? ==>
      && Registered(runs, c.effect.move.via.runInfo)
      && c.effect.move.via.Key() == c.d.Key()
      && Root(c.effect.move.via.id) in used)
  }

  /** The batch writes a state of a run only if the run had one, except when it starts the run. */
  predicate Grounded(c: Commit) {
    && c.effect.Effect? && WellFormed(c.effect)
    && (c.sn.runState == NO_STATE || c.sn.runState.Key() == c.d.Key())
    && (!c.effect.move.Begin? && !c.effect.move.Receive? ==> c.sn.runState != NO_STATE)
  }

  lemma SameIdentity(runs: map<RunKey, RunInfo>, a: RunInfo, b: RunInfo)
    requires Registered(runs, a) && IdentityOf(a) == IdentityOf(b)
    ensures Registered(runs, b) && a.Key() == b.Key()
  {
  }

  lemma ResultVia(w: World, c: Commit)
    requires Tame(c.d) && c.d.kind == StepResultKind && Registered(w.runs, c.d.runInfo) && Root(c.d.id) in w.used
    requires QueueOK(w) && IDsOK(w) && CommitOK(w.runs, w.queue, c) && Grounded(c)
    ensures ViaOK(w.runs, w.used, c)
  {
    hide QueueOK, IDForm, ResultFirst;
    var n := Planner.NextDirective(c.d, c.sn.lastHistorySeqID, c.inp.now);
    SameIdentity(w.runs, c.d.runInfo, n.runInfo);
    if c.d.msg.nextKind != FailStepKind && c.sn.runState.pendingCancel.Some? {
      PendingIsOK(w, c.sn.runState);
    }
  }

  lemma PendingIsOK(w: World, s: RunState)
    requires QueueOK(w) && IDsOK(w) && StateOK(w.runs, w.queue, s) && s.pendingCancel.Some?
    ensures Registered(w.runs, s.pendingCancel.value.runInfo) && s.pendingCancel.value.Key() == s.Key()
    ensures Root(s.pendingCancel.value.id) in w.used
  {
  }

  lemma EventVia(w: World, key: RunKey, ev: Directive)
    requires QueueOK(w) && IDsOK(w) && FromInbox(w.queue, key, ev)
    ensures Registered(w.runs, ev.runInfo) && ev.Key() == key && Root(ev.id) in w.used
  {
    var d := ev.(msg := ev.msg.(eventSeqID := None));
    assert DirectiveOK(w.runs, w.stream.ids, d);
  }

  lemma OtherVia(w: World, c: Commit)
    requires Tame(c.d) && c.d.kind != StepResultKind && Registered(w.runs, c.d.runInfo) && Root(c.d.id) in w.used
    requires QueueOK(w) && IDsOK(w) && CommitOK(w.runs, w.queue, c) && Grounded(c)
    requires c.inp.newID.Base?
    ensures ViaOK(w.runs, w.used + {c.inp.newID}, c)
  {
    hide QueueOK, StateOK, FromInbox;
    if c.d.kind == WakeFromInboxKind { EventVia(w, c.d.Key(), c.sn.event.value); }
  }

  lemma CommitVia(w: World, c: Commit)
    requires QueueOK(w) && IDsOK(w) && CommitOK(w.runs, w.queue, c) && Grounded(c) && c.inp.newID.Base?
    ensures ViaOK(w.runs, w.used + {c.inp.newID}, c)
  {
    hide CommitOK, ViaOK;
    DirectiveKnown(w, c);
    if c.d.kind == StepResultKind {
      ResultVia(w, c);
      MoreUsed(w, c);
    } else {
      OtherVia(w, c);
    }
  }

  lemma MoreUsed(w: World, c: Commit)
    requires ViaOK(w.runs, w.used, c)
    ensures ViaOK(w.runs, w.used + {c.inp.newID}, c)
  {
  }

  lemma DirectiveKnown(w: World, c: Commit)
    requires QueueOK(w) && IDsOK(w) && CommitOK(w.runs, w.queue, c)
    ensures Tame(c.d) && DirectiveOK(w.runs, w.stream.ids, c.d) && Registered(w.runs, c.d.runInfo)
    ensures Root(c.d.id) in w.used
  {
    hide Tame, Explains, IDForm;
  }

  lemma InfosOK(runs: map<RunKey, RunInfo>, used: set<DirectiveID>, c: Commit, info: RunInfo)
    requires WellFormed(c.effect) && ViaOK(runs, used, c) && info in NewInfos(c.effect, c.sn, c.inp)
    ensures Registered(runs, info)
  {
    hide Root;
    SameIdentity(runs, c.effect.move.via.runInfo, info);
  }

  /** Stay only replaces the worker or defers a cancel, and a run waits only when no cancel is pending. */
  lemma StateMoves(c: Commit)
    requires Tame(c.d) && c.effect.Effect? && Explains(c.d, c.sn, c.inp, c.effect)
    ensures c.effect.move.Stay? ==>
      || (c.d.kind == CancelKind && c.sn.runState.kind == StepState &&
        c.effect.move.state == c.sn.runState.(pendingCancel := Some(c.d)))
      || (c.d.kind == StepPickedUpKind && c.effect.move.state == c.sn.runState.(workerID := Some(c.d.msg.workerID)))
    ensures c.effect.move.ToWait? ==> c.d.kind == StepResultKind && c.sn.runState.pendingCancel.None?
    ensures c.effect.move.ToStep? ==> c.d.kind in {StepResultKind, WaitTimeoutKind, WakeFromInboxKind}
    ensures c.effect.move.Begin? ==> c.d.kind == StartKind && c.effect.move.via == c.d
    ensures c.effect.move.Receive? ==> c.d.kind == EventKind && c.effect.move.via == c.d
    ensures !c.sn.runState.IsTerminal()
  {
    hide ResultFirst, Plain, StaleStep, StaleWait;
  }

  lemma StatesOK(w: World, used: set<DirectiveID>, c: Commit, r: Record)
    requires CommitOK(w.runs, w.queue, c) && Grounded(c) && ViaOK(w.runs, used, c)
    requires r in NewStates(c.effect, c.sn, c.inp)
    ensures r.RunStateRecord? && StateOK(w.runs, w.queue, r.state)
  {
    hide Explains, Root;
    StateMoves(c);
  }

  lemma StepDirectiveOK(w: World, used: set<DirectiveID>, c: Commit)
    requires CommitOK(w.runs, w.queue, c) && Grounded(c) && ViaOK(w.runs, used, c)
    ensures var step := StepDirective(c.effect, c.sn, c.inp);
            step.Some? ==>
              Registered(w.runs, step.value.runInfo) && step.value.runInfo.startedAt.Some? &&
              step.value.msg.Dispatchable()
                           && step.value.Key() == c.d.Key() && step.value.id == c.effect.move.via.id
  {
    hide Explains, Root;
    var step := StepDirective(c.effect, c.sn, c.inp);
    if step.Some? { SameIdentity(w.runs, c.effect.move.via.runInfo, step.value.runInfo); }
  }

  lemma DispatchesOK(w: World, used: set<DirectiveID>, c: Commit, d: Directive)
    requires CommitOK(w.runs, w.queue, c) && Grounded(c) && ViaOK(w.runs, used, c)
    requires d in NewDispatches(c.effect, c.sn, c.inp)
    ensures Registered(w.runs, d.runInfo) && d.runInfo.startedAt.Some? && d.Key() == c.d.Key()
  {
    hide CommitOK, Grounded, ViaOK, StepDirective;
    StepDirectiveOK(w, used, c);
    SameIdentity(w.runs, StepDirective(c.effect, c.sn, c.inp).value.runInfo, d.runInfo);
  }

  lemma TimersOK(w: World, used: set<DirectiveID>, c: Commit, t: Timer)
    requires CommitOK(w.runs, w.queue, c) && Grounded(c) && ViaOK(w.runs, used, c)
    requires t in NewTimers(c.effect, c.sn, c.inp)
    ensures TimerOK(w.runs, t) && t.directive.Key() == c.d.Key() && t.directive.id == c.effect.move.via.id
  {
    StepDirectiveOK(w, used, c);
    if c.effect.move.ToWait? {
      WaitVia(c);
    } else {
      hide CommitOK, Grounded, ViaOK, StepDirective, NewState;
      assert t.directive == StepDirective(c.effect, c.sn, c.inp).value;
    }
  }

  lemma WaitVia(c: Commit)
    requires Tame(c.d) && c.effect.Effect? && c.effect.move.ToWait? && Explains(c.d, c.sn, c.inp, c.effect)
    ensures c.effect.move.via.runInfo.startedAt.Some?
  {
    hide ResultFirst, Plain;
    StateMoves(c);
  }

  /** Every message of a batch belongs to the run of the directive it was planned for. */
  lemma BatchOK(w: World, queue: set<Directive>, c: Commit, m: Message)
    requires QueueOK(w) && IDsOK(w) && CommitOK(w.runs, w.queue, c) && Grounded(c) && Lawful(c) && c.inp.newID.Base?
    requires w.queue <= queue
    requires m in c.msgs && (m.Stored? && m.record.DirectiveRecord? ==> m.record.directive in queue)
    ensures MessageOK(w.runs, queue, m)
  {
    var used := w.used + {c.inp.newID};
    hide QueueOK, IDsOK, CommitOK, Grounded, ViaOK, Registered, TimerOK, NewInfos, NewStates, NewTimers,
      NewDispatches, NewTasks, EndHistory, Lawful;
    CommitVia(w, c);
    if m.Stored? {
      Member(c, m.record);
      match m.record {
        case RunInfoRecord(info) => InfosOK(w.runs, used, c, info);
        case RunStateRecord(s, _) => StatesOK(w, used, c, m.record);
        case TimerRecord(t) => TimersOK(w, used, c, t);
        case InboxRecord(d) => ReceivedOK(w, c, d);
        case WorkerTaskDispatch(d) => DispatchesOK(w, used, c, d);
        case _ =>
      }
    }
  }

  lemma ReceivedOK(w: World, c: Commit, d: Directive)
    requires CommitOK(w.runs, w.queue, c) && d in NewInbox(c.effect)
    ensures d == c.d && d in w.queue && d.kind == EventKind
  {
    hide Explains;
    StateMoves(c);
  }

  /** A batch carries the deletion of a step timer if it handles a step result, and further tasks, named
      after the directive the run ends for, if it ends the run. */
  lemma TasksOf(c: Commit, t: BackgroundTask)
    requires Tame(c.d) && c.effect.Effect? && WellFormed(c.effect) && Explains(c.d, c.sn, c.inp, c.effect)
    requires t in NewTasks(c.effect, c.sn)
    ensures || (c.d.kind == StepResultKind && t == StepRecords.DeleteStepTimeoutTimer(c.d, c.sn.runState).task)
            || (c.effect.move.ToEnd? && t in EndTasks(c.effect, c.sn))
  {
    hide ExplainsResult, EndTasks, StaleStep, StaleWait;
    NoEndTasks(c.effect, c.sn);
  }

  lemma NoEndTasks(e: Effect, sn: StateSnapshot)
    requires WellFormed(e)
    ensures e.NoEffect? || !e.move.ToEnd? ==> EndTasks(e, sn) == []
  {
  }

  lemma EndTaskID(e: Effect, sn: StateSnapshot, t: BackgroundTask)
    requires WellFormed(e) && t in EndTasks(e, sn)
    ensures e.Effect? && e.move.ToEnd? && t.dedupID == ForTask(t.kind, e.move.via.id) && t.kind != DeleteTimerTask
  {
  }

  lemma QueuedIs(e: Effect, sn: StateSnapshot, inp: Inputs, d: Directive)
    requires d in NewQueued(e, sn, inp)
    ensures e.Effect? && (e.move.Receive? || e.move.ToWait?) && d.id == Next(e.move.via.id)
    ensures d.kind == WakeFromInboxKind && d.msg == WakeFromInboxMsg && d.runInfo == e.move.via.runInfo
    ensures NewQueued(e, sn, inp) == [d]
  {
  }

  lemma BatchIDs(w: World, c: Commit, id: DirectiveID)
    requires QueueOK(w) && IDsOK(w) && CommitOK(w.runs, w.queue, c) && Grounded(c) && Lawful(c) && c.inp.newID.Base?
    requires id in IDsOf(c.msgs)
    ensures Root(id) in w.used + {c.inp.newID}
  {
    hide QueueOK, IDsOK, Grounded, Explains, NewTasks, NewQueued, Lawful;
    CommitVia(w, c);
    DirectiveKnown(w, c);
    var m :| m in c.msgs && m.MsgID() == Some(id);
    Member(c, m.record);
    if m.record.DirectiveRecord? {
      QueuedIs(c.effect, c.sn, c.inp, m.record.directive);
    } else {
      TasksOf(c, m.record.task);
      if c.effect.move.ToEnd? && m.record.task in EndTasks(c.effect, c.sn) { EndTaskID(c.effect, c.sn, m.record.task); }
    }
  }

  lemma QueuedOK(w: World, w': World, c: Commit, d: Directive)
    requires QueueOK(w) && IDsOK(w) && CommitOK(w.runs, w.queue, c) && Grounded(c) && Lawful(c) && c.inp.newID.Base?
    requires Grows(w, w') && w'.runs == w.runs && w'.stream.ids == w.stream.ids + IDsOf(c.msgs)
    requires Stored(DirectiveRecord(d)) in c.msgs
    ensures DirectiveOK(w'.runs, w'.stream.ids, d) && d in NewQueued(c.effect, c.sn, c.inp)
  {
    hide QueueOK, IDsOK, CommitOK, Grounded, Root, NewQueued, Lawful;
    CommitVia(w, c);
    Member(c, DirectiveRecord(d));
    QueuedIs(c.effect, c.sn, c.inp, d);
    assert Stored(DirectiveRecord(d)).MsgID() == Some(d.id);
  }

  /* Steps */

  /** A handler's batch went in. */
  ghost predicate Pushed(w: World, w': World, h: nat, c: Commit) {
    && h in w.handlers && w'.handlers == w.handlers - {h}
    && c.d == w.handlers[h].d && c.sn == w.handlers[h].Snapshot() && c.readAt == w.handlers[h].readAt &&
      w.handlers[h].stage == 3
    && c.at == |w.stream.log| && Lawful(c) && Check(w.stream.log, w.stream.ids, c.msgs) == Committed
    && w'.stream == Append(w.stream, c.msgs) && w'.commits == w.commits + [c] && Current(w'.commits, |w.commits|)
    && (forall d :: d in w'.queue <==> d in w.queue || Stored(DirectiveRecord(d)) in c.msgs)
    && w'.runs == w.runs && w'.starting == w.starting && w'.fired == w.fired && w'.used == w.used + {c.inp.newID}
  }

  /** A handler is done, and nothing went in. */
  predicate Passed(w: World, w': World, h: nat, newID: DirectiveID) {
    && h in w.handlers && w' == w.(handlers := w.handlers - {h}, used := w.used + {newID}, acked := w'.acked,
      gone := w'.gone)
  }

  lemma QueuedByMessages(batch: seq<Record>, order: seq<string>, d: Directive)
    requires OrderFor(batch, order)
    ensures d in QueuedBy(batch) <==> Stored(DirectiveRecord(d)) in BatchMessages(batch, order)
  {
    hide BatchMessages, OrderFor;
    MessagesAreRecords(batch, order, Stored(DirectiveRecord(d)));
  }

  lemma FinishPushes(w: World, h: nat, inp: Inputs, order: seq<string>, fault: Fault, decision: Planner.Decision,
    e: Effect)
    returns (c: Commit)
    requires Inv(w) && h in w.handlers && w.handlers[h].stage == 3
    requires decision.Write? ==> OrderFor(decision.batch, order)
    requires SoundFinish(w.handlers[h], inp, decision, e)
    requires FinishIn(w, h, inp, order, fault, decision, e).stream != w.stream
    ensures c.effect == e && c.inp == inp && Pushed(w, FinishIn(w, h, inp, order, fault, decision, e), h, c)
  {
    hide FinishIn, BatchMessages, Lawful, Current, RunStateOf, StateAfter, Encodable, Check, Append, QueuedBy,
      HandlerOK, OrderFor;
    var w' := FinishIn(w, h, inp, order, fault, decision, e);
    FinishCases(w, h, inp, order, fault, decision, e);
    c := w'.commits[|w.commits|];
    HandlerReadFrom(w, h);
    CommitIsLawful(c, decision.batch, order);
    CommitIsCurrent(w, w.handlers[h], c);
    forall d ensures d in w'.queue <==> d in w.queue || Stored(DirectiveRecord(d)) in c.msgs {
      QueuedByMessages(decision.batch, order, d);
    }
  }

  lemma FinishPasses(w: World, h: nat, inp: Inputs, order: seq<string>, fault: Fault, decision: Planner.Decision,
    e: Effect)
    requires h in w.handlers && (decision.Write? ==> OrderFor(decision.batch, order))
    requires FinishIn(w, h, inp, order, fault, decision, e).stream == w.stream
    ensures Passed(w, FinishIn(w, h, inp, order, fault, decision, e), h, inp.newID)
  {
    hide Wire.Commit;
  }

  lemma StateReadIsOK(w: World, key: RunKey, s: RunState)
    requires LogOK(w) && ReadFrom(w.stream.log, key, s)
    ensures s == NO_STATE || StateOK(w.runs, w.queue, s)
  {
    if s != NO_STATE {
      assert MessageOK(w.runs, w.queue, w.stream.log[s.seqID - 1]);
    }
  }

  lemma StateIsTame(w: World, s: RunState)
    requires QueueOK(w) && (s == NO_STATE || StateOK(w.runs, w.queue, s))
    ensures TameState(s)
  {
    if s.pendingCancel.Some? { assert DirectiveOK(w.runs, w.stream.ids, s.pendingCancel.value); }
  }

  /** What a handler knows when it decides. */
  lemma HandlerIsTame(w: World, h: nat)
    requires Orderly(w) && Inv(w) && h in w.handlers && w.handlers[h].stage == 3
    ensures var x := w.handlers[h];
            && x.d in w.queue && Tame(x.d) && TameEvent(x.event) && TameState(x.state)
            && (x.state.IsTerminal() || EventOK(w.queue, x.d.Key(), x.event))
            && (x.state == NO_STATE || StateOK(w.runs, w.queue, x.state))
  {
    hide Tame, StateOK, TameEvent, EventOK, Lawful, Current, RunStateOf, StateAfter, LogOK, CommitsOK, IDsOK, RunsOK;
    var x := w.handlers[h];
    assert HandlerKnown(w.queue, x) && DirectiveOK(w.runs, w.stream.ids, x.d);
    HandlerReadFrom(w, h);
    StateReadIsOK(w, x.d.Key(), x.state);
    StateIsTame(w, x.state);
  }

  /** Every handler does what the protocol's table says. */
  lemma FinishExplained(w: World, a: Action)
    requires Orderly(w) && Inv(w) && a.Finish? && Enabled(w, a) && Honest(w, a)
    ensures Tame(w.handlers[a.h].d) && Explains(w.handlers[a.h].d, w.handlers[a.h].Snapshot(), a.inp, a.effect)
  {
    hide Orderly, Inv, Planner.Decide, EffectOf, Explains, Tame;
    HandlerIsTame(w, a.h);
    Explained(w.handlers[a.h].d, w.handlers[a.h].Snapshot(), a.inp);
  }

  lemma CommitGrounded(commits: seq<Commit>, c: Commit)
    requires Lawful(c) && Current(commits + [c], |commits|)
    ensures Grounded(c)
  {
    hide StateAfter, StateAt, Fits;
    assert (commits + [c])[|commits|] == c;
  }

  lemma PushedCommitOK(w: World, w': World, h: nat, c: Commit)
    requires Orderly(w) && Inv(w) && Pushed(w, w', h, c) && Tame(c.d) && Explains(c.d, c.sn, c.inp, c.effect)
    ensures CommitOK(w.runs, w.queue, c) && Grounded(c)
  {
    hide Orderly, Inv, Explains, Tame, Lawful, Current, Check, Append, StateOK, FromInbox, Grounded;
    HandlerIsTame(w, h);
    LawfulShape(c);
    StateMoves(c);
    CommitGrounded(w.commits, c);
  }

  lemma PushGrows(w: World, w': World, h: nat, c: Commit)
    requires Pushed(w, w', h, c)
    ensures Grows(w, w')
  {
    hide Lawful, Current, Check, IDsOf;
  }

  lemma PushedIDsNew(w: World, w': World, h: nat, c: Commit, d: Directive)
    requires Pushed(w, w', h, c) && Stored(DirectiveRecord(d)) in c.msgs
    ensures d.id !in w.stream.ids
  {
    hide Lawful, Current, Append;
    CheckPasses(w.stream.log, w.stream.ids, c.msgs);
    assert Stored(DirectiveRecord(d)).MsgID() == Some(d.id);
  }

  lemma PushKeepsQueue(w: World, w': World, h: nat, c: Commit)
    requires QueueOK(w) && IDsOK(w) && Pushed(w, w', h, c) && CommitOK(w.runs, w.queue, c) && Grounded(c)
    requires c.inp.newID.Base?
    ensures QueueOK(w')
  {
    hide QueueOK, IDsOK, Lawful, Current, Check, IDsOf, CommitOK, Grounded, DirectiveOK, NewQueued;
    PushGrows(w, w', h, c);
    forall d | d in w'.queue && d !in w.queue
      ensures DirectiveOK(w'.runs, w'.stream.ids, d) && d.id !in w.stream.ids && NewQueued(c.effect, c.sn, c.inp) == [d]
    {
      QueuedOK(w, w', c, d);
      PushedIDsNew(w, w', h, c, d);
      QueuedIs(c.effect, c.sn, c.inp, d);
    }
    assert forall d, d' :: d in w'.queue && d !in w.queue && d' in w'.queue && d' !in w.queue ==> [d] == [d'];
    QueueStays(w, w');
  }

  lemma PushKeepsIDs(w: World, w': World, h: nat, c: Commit)
    requires QueueOK(w) && IDsOK(w) && Pushed(w, w', h, c) && CommitOK(w.runs, w.queue, c) && Grounded(c)
    requires c.inp.newID.Base?
    ensures IDsOK(w')
  {
    hide QueueOK, Lawful, Current, Check, CommitOK, Grounded;
    forall id | id in w'.stream.ids ensures Root(id) in w'.used {
      if id in IDsOf(c.msgs) { BatchIDs(w, c, id); }
    }
  }

  lemma PushKeepsLog(w: World, w': World, h: nat, c: Commit)
    requires QueueOK(w) && IDsOK(w) && LogOK(w) && Pushed(w, w', h, c) && CommitOK(w.runs, w.queue, c) && Grounded(c)
    requires c.inp.newID.Base?
    ensures LogOK(w')
  {
    hide QueueOK, IDsOK, LogOK, Lawful, Current, Check, CommitOK, Grounded, MessageOK, IDsOf;
    PushGrows(w, w', h, c);
    forall m | m in c.msgs ensures MessageOK(w'.runs, w'.queue, m) {
      BatchOK(w, w'.queue, c, m);
    }
    LogStays(w, w', c.msgs);
  }

  lemma PushKeepsRest(w: World, w': World, h: nat, c: Commit)
    requires HandlersOK(w) && CommitsOK(w) && RunsOK(w) && Pushed(w, w', h, c) && CommitOK(w.runs, w.queue, c)
    ensures HandlersOK(w') && CommitsOK(w') && RunsOK(w')
  {
    hide HandlersOK, CommitsOK, Lawful, Current, Check, CommitOK, HandlerKnown, IDsOf;
    PushGrows(w, w', h, c);
    CommitStays(w, w', c);
    CommitsStay(w, w');
    HandlersStay(w, w');
  }

  lemma PushKeepsOrderly(w: World, w': World, h: nat, c: Commit)
    requires Orderly(w) && Inv(w) && Pushed(w, w', h, c) && Tame(c.d) && Explains(c.d, c.sn, c.inp, c.effect)
    requires c.inp.newID.Base?
    ensures Orderly(w')
  {
    PushedCommitOK(w, w', h, c);
    hide QueueOK, IDsOK, LogOK, HandlersOK, CommitsOK, RunsOK, Inv, Explains, Tame, Lawful, Pushed;
    PushKeepsQueue(w, w', h, c);
    PushKeepsIDs(w, w', h, c);
    PushKeepsLog(w, w', h, c);
    PushKeepsRest(w, w', h, c);
  }

  lemma FreshIsNew(w: World, id: DirectiveID)
    requires IDsOK(w) && FreshID(w, id)
    ensures id !in w.stream.ids && id != NO_ID && Root(id) == id
  {
  }

  /** A directive somebody may send is one of a known run. */
  lemma MayEnqueueOK(w: World, d: Directive)
    requires QueueOK(w) && LogOK(w) && MayEnqueue(w, d)
    ensures Tame(d) && IDForm(d) && Registered(w.runs, d.runInfo)
  {
    hide QueueOK, StateOK, TimerOK;
    if d.kind == StepPickedUpKind || d.kind == StepResultKind {
      var m :| m in w.stream.log && m.Stored? && m.record.WorkerTaskDispatch? &&
        m.record.directive.runInfo == d.runInfo;
      assert MessageOK(w.runs, w.queue, m);
    } else if d.kind != StartKind {
      assert MessageOK(w.runs, w.queue, Stored(RunInfoRecord(d.runInfo)));
    }
  }

  lemma CallbackRoot(w: World, id: DirectiveID)
    requires IDsOK(w) && IsCallback(w.stream.log, id)
    ensures Root(id) in w.used
  {
    var m :| m in w.stream.log && m.Stored? && m.record.BackgroundTaskRecord? && m.record.task.kind == NotifyTask &&
      m.record.task.dedupID == id.parent;
    assert m.MsgID() == Some(id.parent);
  }

  lemma EnqueueKeepsOrderly(w: World, w': World, d: Directive)
    requires Orderly(w) && Tame(d) && IDForm(d) && Registered(w.runs, d.runInfo) && Root(d.id) in w'.used
    requires w'.stream == PublishDirective(w.stream, d) &&
      w'.queue == (if d.id in w.stream.ids then w.queue else w.queue + {d})
    requires w'.runs == w.runs && w'.handlers == w.handlers && w'.commits == w.commits && w'.starting == w.starting
    requires w.used <= w'.used
    ensures Orderly(w')
  {
    hide Tame, IDForm, Registered, HandlersOK, CommitsOK, MessageOK;
    assert Grows(w, w');
    if d.id !in w.stream.ids {
      var m := Stored(DirectiveRecord(d));
      assert m.MsgID() == Some(d.id) && IDsOf([m]) == {d.id};
      QueueStays(w, w');
      assert MessageOK(w'.runs, w'.queue, m) by { DirectiveMessageOK(w'.runs, w'.queue, d); }
      LogStays(w, w', [m]);
      HandlersStay(w, w');
      CommitsStay(w, w');
    } else {
      HandlersStay(w, w');
      CommitsStay(w, w');
    }
  }

  lemma DirectiveMessageOK(runs: map<RunKey, RunInfo>, queue: set<Directive>, d: Directive)
    requires d in queue
    ensures MessageOK(runs, queue, Stored(DirectiveRecord(d)))
  {
  }

  lemma SendKeepsOrderly(w: World, d: Directive)
    requires Orderly(w) && MayEnqueue(w, d)
    ensures Orderly(Apply(w, Enqueue(d)))
  {
    MayEnqueueOK(w, d);
    if d.id.Callback? { CallbackRoot(w, d.id); }
    hide Orderly, Tame, Registered;
    EnqueueKeepsOrderly(w, Apply(w, Enqueue(d)), d);
  }

  lemma TimeoutIsOK(w: World, q: nat, newID: DirectiveID, now: Time, exhausted: bool)
    requires LogOK(w) && IsTimer(w.stream.log, q) && newID.Base?
    ensures var d := TimeoutDirective(w.stream.log[q - 1].record.timer, newID, now, exhausted);
            Tame(d) && IDForm(d) && Registered(w.runs, d.runInfo) && d.id == newID
  {
    assert MessageOK(w.runs, w.queue, w.stream.log[q - 1]);
  }

  lemma HandleFiredKeepsOrderly(w: World, a: Action)
    requires Orderly(w) && a.HandleFired? && Enabled(w, a) && FreshID(w, a.newID)
    ensures Orderly(Apply(w, a))
  {
    hide QueueOK, LogOK, IDsOK, HandlersOK, CommitsOK, RunsOK, Tame, Registered, TimeoutDirective, IDForm, IDsOf;
    TimeoutIsOK(w, a.seqID, a.newID, a.now, a.exhausted);
    EnqueueKeepsOrderly(w, Apply(w, a), TimeoutDirective(w.stream.log[a.seqID - 1].record.timer, a.newID, a.now,
      a.exhausted));
  }

  lemma CreateKeepsOrderly(w: World, a: Action)
    requires Orderly(w) && a.CreateRun? && w.starting == Some(a.info)
    ensures Orderly(Apply(w, a))
  {
    hide Tame, IDForm, HandlersOK, CommitsOK, DirectiveOK;
    var w', m := Apply(w, a), Stored(RunInfoRecord(a.info));
    assert Grows(w, w');
    assert IDsOf([m]) == {};
    QueueStays(w, w');
    LogStays(w, w', [m]);
    HandlersStay(w, w');
    CommitsStay(w, w');
  }

  /** Messages outside the protocol's bookkeeping, and purges, change nothing. */
  lemma NoteKeepsOrderly(w: World, w': World, more: seq<Message>)
    requires Orderly(w) && w'.stream.log == w.stream.log + more && w'.stream.ids == w.stream.ids
    requires forall m :: m in more ==> m.MsgID().None? && MessageOK(w.runs, w.queue, m)
    requires w'.queue == w.queue && w'.runs == w.runs && w'.handlers == w.handlers && w'.commits == w.commits
    requires w'.starting == w.starting && w'.used == w.used
    ensures Orderly(w')
  {
    hide DirectiveOK, HandlersOK, CommitsOK, MessageOK;
    LogStays(w, w', more);
    HandlersStay(w, w');
    CommitsStay(w, w');
  }

  lemma StreamKeepsOrderly(w: World, a: Action)
    requires Orderly(w) && Enabled(w, a) && (a.WorkerHistory? || a.Fire? || a.CancelTimer? || a.Purge?)
    ensures Orderly(Apply(w, a))
  {
    hide Orderly;
    match a {
      case WorkerHistory(entry) =>
        assert IDsOf([Stored(HistoryRecord(entry))]) == {};
        NoteKeepsOrderly(w, Apply(w, a), [Stored(HistoryRecord(entry))]);
      case Fire(q) =>
        var m := Fired(w.stream.log[q - 1].record.timer);
        assert IDsOf([m]) == {};
        NoteKeepsOrderly(w, Apply(w, a), [m]);
      case CancelTimer(q) => NoteKeepsOrderly(w, Apply(w, a), []);
      case Purge(q) => NoteKeepsOrderly(w, Apply(w, a), []);
    }
  }

  lemma HandlerKeepsOrderly(w: World, h: nat, x: Handler)
    requires Orderly(w) && HandlerKnown(w.queue, x)
    ensures Orderly(w.(handlers := w.handlers[h := x]))
  {
  }

  /** The event a handler reads is one of its own run. */
  lemma EventReadIsOK(w: World, key: RunKey, after: nat)
    requires QueueOK(w) && LogOK(w)
    ensures TameEvent(NextEvent(w.stream, key.wfID, after))
    ensures OwnInbox(w.stream, key) ==> EventOK(w.queue, key, NextEvent(w.stream, key.wfID, after))
  {
    hide FirstAfter;
    var q := FirstAfter(w.stream, InboxSubject(key.wfID), after);
    if q > 0 {
      assert MessageOK(w.runs, w.queue, w.stream.log[q - 1]);
      assert DirectiveOK(w.runs, w.stream.ids, w.stream.log[q - 1].record.directive);
    }
  }

  lemma ReadingKeepsOrderly(w: World, a: Action)
    requires Orderly(w) && Enabled(w, a) && Allowed(w, a)
    requires (a.Deliver? || a.ReadState? || a.ReadHistory? || a.ReadEvent?)
    ensures Orderly(Apply(w, a))
  {
    hide QueueOK, LogOK, IDsOK, CommitsOK, RunsOK, RunStateOf, NextEvent, LastHistory, OwnInbox;
    match a {
      case Deliver(h, d) => HandlerKeepsOrderly(w, h, Handler(d, 0, NO_STATE, 0, 0, None));
      case ReadState(h) =>
        HandlerKeepsOrderly(w, h, w.handlers[h].(stage := 1, state := RunStateOf(w.stream.log, w.handlers[h].d.Key())));
      case ReadHistory(h) =>
        HandlerKeepsOrderly(w, h, w.handlers[h].(stage := 2,
          lastHistory := LastHistory(w.stream.log, w.handlers[h].d.Key()), readAt := |w.stream.log|));
      case ReadEvent(h) =>
        var x := w.handlers[h];
        EventReadIsOK(w, x.d.Key(), x.state.lastEventSeqID);
        HandlerKeepsOrderly(w, h, x.(stage := 3, event := NextEvent(w.stream, x.d.runInfo.wfID,
          x.state.lastEventSeqID)));
    }
  }

  lemma PassKeepsOrderly(w: World, w': World, h: nat, newID: DirectiveID)
    requires Orderly(w) && Passed(w, w', h, newID)
    ensures Orderly(w')
  {
    hide DirectiveOK, MessageOK, CommitOK, HandlerKnown;
  }

  lemma FinishKeepsOrderly(w: World, a: Action)
    requires Orderly(w) && Inv(w) && a.Finish? && Enabled(w, a) && Honest(w, a) && Allowed(w, a)
    ensures Orderly(Apply(w, a))
  {
    hide Orderly, Inv, Honest, Explains, Tame, SoundFinish, FinishIn, Pushed, Passed;
    FinishExplained(w, a);
    HonestIsSound(w, a);
    if Apply(w, a).stream == w.stream {
      FinishPasses(w, a.h, a.inp, a.order, a.fault, a.decision, a.effect);
      PassKeepsOrderly(w, Apply(w, a), a.h, a.inp.newID);
    } else {
      var c := FinishPushes(w, a.h, a.inp, a.order, a.fault, a.decision, a.effect);
      PushedNames(w, Apply(w, a), a.h, c);
      PushKeepsOrderly(w, Apply(w, a), a.h, c);
    }
  }

  lemma PushedNames(w: World, w': World, h: nat, c: Commit)
    requires Pushed(w, w', h, c)
    ensures h in w.handlers && c.d == w.handlers[h].d && c.sn == w.handlers[h].Snapshot()
  {
  }

  lemma StartIsNew(w: World, info: RunInfo)
    requires MayStart(w, info)
    ensures info.Key() !in w.runs
  {
  }

  lemma CheckKeepsOrderly(w: World, info: RunInfo)
    requires Orderly(w) && info.Key() !in w.runs
    ensures Orderly(Apply(w, CheckStart(info)))
  {
    hide QueueOK, LogOK, IDsOK, HandlersOK, CommitsOK;
    var w' := Apply(w, CheckStart(info));
    assert QueueOK(w') && LogOK(w') && IDsOK(w') && HandlersOK(w') && CommitsOK(w') by { SameParts(w, w'); }
  }

  lemma LoseKeepsOrderly(w: World, h: nat)
    requires Orderly(w) && h in w.handlers
    ensures Orderly(Apply(w, Lose(h)))
  {
    hide HandlerKnown, MessageOK, DirectiveOK, CommitOK;
  }

  lemma SameParts(w: World, w': World)
    requires QueueOK(w) && LogOK(w) && IDsOK(w) && HandlersOK(w) && CommitsOK(w)
    requires w' == w.(starting := w'.starting)
    ensures QueueOK(w') && LogOK(w') && IDsOK(w') && HandlersOK(w') && CommitsOK(w')
  {
    hide HandlerKnown, MessageOK, DirectiveOK, CommitOK;
  }

  lemma StepKeepsOrderly(w: World, a: Action)
    requires Orderly(w) && Inv(w) && Enabled(w, a) && Honest(w, a) && Allowed(w, a)
    ensures Orderly(Apply(w, a))
  {
    hide Inv, Honest, Orderly, Apply, MayEnqueue, OwnInbox, MayStart, FreshID, RunStateOf;
    if a.Finish? {
      FinishKeepsOrderly(w, a);
    } else {
      match a {
        case Enqueue(d) => SendKeepsOrderly(w, d);
        case CheckStart(info) =>
          StartIsNew(w, info);
          CheckKeepsOrderly(w, info);
        case CreateRun(_) => CreateKeepsOrderly(w, a);
        case HandleFired(_, _, _, _, _) => HandleFiredKeepsOrderly(w, a);
        case Lose(h) => LoseKeepsOrderly(w, h);
        case Deliver(_, _) => ReadingKeepsOrderly(w, a);
        case ReadState(_) => ReadingKeepsOrderly(w, a);
        case ReadHistory(_) => ReadingKeepsOrderly(w, a);
        case ReadEvent(_) => ReadingKeepsOrderly(w, a);
        case _ => StreamKeepsOrderly(w, a);
      }
    }
  }
}
