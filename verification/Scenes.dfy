/** Building runs of the system step by step: a run is created and started, directives are sent, delivered, read for
    and committed. Races and Mishaps put such steps together. */
module Scenes {
  import opened Types
  import opened Stream
  import opened Wire
  import opened Planner
  import opened Effects
  import opened Moves
  import opened Protocol
  import opened Worlds
  import opened Serial
  import opened Discipline
  import opened Bookkeeping
  import opened Steps
  import opened Acknowledged
  import opened Fifo
  import opened Progress
  import opened Wakeup
  import Views

  function StartOf(info: RunInfo, id: DirectiveID): Directive {
    Directive(id, 0, StartKind, info, StartMsg(None, 0))
  }

  function EventOf(info: RunInfo, id: DirectiveID): Directive {
    Directive(id, 0, EventKind, info, EventMsg(None, "event", "", 0))
  }

  /** The answer of the worker that was given the first step: go to wait. */
  function ResultOf(ri: RunInfo, id: DirectiveID): Directive {
    Directive(id, 0, StepResultKind, ri, StepResultMsg(StartMsg(None, 0), None, 0, None, WaitKind, WaitMsg(0, "")))
  }

  /* Taking a step */

  lemma Go(w: World, n: nat, a: Action)
    requires Reached(w, n) && Enabled(w, a) && Honest(w, a) && Allowed(w, a)
    ensures Reached(Apply(w, a), n + 1)
  {
    hide Enabled, Honest, Allowed, Apply;
    assert ReachedStep(w, a, Apply(w, a), n + 1);
  }

  predicate NoInbox(log: seq<Message>) {
    forall m :: m in log ==> !m.Subject().InboxSubject?
  }

  lemma Send(w: World, n: nat, d: Directive) returns (w': World)
    requires Reached(w, n) && MayEnqueue(w, d) && FreshID(w, d.id)
    ensures Reached(w', n + 1)
    ensures w' == w.(stream := Append(w.stream, [Stored(DirectiveRecord(d))]), queue := w.queue + {d},
      used := w.used + {d.id})
  {
    hide MayEnqueue, Reached, Good;
    GoodHolds(w, n);
    FreshIsUnknown(w, d.id);
    w' := Apply(w, Enqueue(d));
    Go(w, n, Enqueue(d));
  }

  lemma FreshIsUnknown(w: World, id: DirectiveID)
    requires Good(w) && FreshID(w, id)
    ensures id !in w.stream.ids
  {
    hide Inv, Journal, QueueOK, LogOK, HandlersOK, CommitsOK, RunsOK;
  }

  /** A handler that has read everything it needs. */
  function Reading(w: World, d: Directive): Handler {
    var s := RunStateOf(w.stream.log, d.Key());
    Handler(d, 3, s, LastHistory(w.stream.log, d.Key()), |w.stream.log|,
      NextEvent(w.stream, d.runInfo.wfID, s.lastEventSeqID))
  }

  /** A directive is delivered and its handler reads what it needs. */
  lemma DeliverAndRead(w: World, n: nat, h: nat, d: Directive) returns (w': World)
    requires Reached(w, n) && h !in w.handlers && d in w.queue && OwnInbox(w.stream, d.Key())
    ensures Reached(w', n + 4) && w' == w.(handlers := w.handlers[h := Reading(w, d)])
  {
    hide Reached, RunStateOf, LastHistory, NextEvent, OwnInbox, MayEnqueue, MayStart, FreshID, FinishIn,
      TimeoutDirective,
      EnqueueIn;
    w' := Apply(w, Deliver(h, d));
    Go(w, n, Deliver(h, d));
    Go(w', n + 1, ReadState(h));
    w' := Apply(w', ReadState(h));
    Go(w', n + 2, ReadHistory(h));
    w' := Apply(w', ReadHistory(h));
    Go(w', n + 3, ReadEvent(h));
    w' := Apply(w', ReadEvent(h));
  }

  lemma NothingInInbox(w: World, d: Directive)
    requires NoInbox(w.stream.log)
    ensures OwnInbox(w.stream, d.Key()) && Reading(w, d).event == None
  {
    hide RunStateOf, LastHistory;
  }

  lemma NoUpdates(d: Directive, sn: StateSnapshot, inp: Inputs)
    requires Tame(d) && EffectOf(d, sn, inp).Effect? && Explains(d, sn, inp, EffectOf(d, sn, inp))
    requires d.kind == StepResultKind ==> d.msg.kvUpdates.None?
    ensures Decide(d, sn, inp).Write? && OrderFor(Decide(d, sn, inp).batch, [])
  {
    hide Decide, EffectOf, Views.Of, Tame;
    EffectIsBatch(d, sn, inp);
    var e, batch := EffectOf(d, sn, inp), Decide(d, sn, inp).batch;
    TaskFields(e, sn, inp);
    BringsNone(d, sn, inp, e);
    forall r | r in batch ensures !r.KVRecord? { Views.OfMembers(batch, r); }
  }

  lemma BringsNone(d: Directive, sn: StateSnapshot, inp: Inputs, e: Effect)
    requires Tame(d) && e.Effect? && Explains(d, sn, inp, e) && (d.kind == StepResultKind ==> d.msg.kvUpdates.None?)
    ensures e.before.kvs == []
  {
    hide ExplainsResult, StaleStep, StaleWait;
  }

  /** Whether a handler can commit. */
  ghost predicate Ready(w: World, h: nat) {
    && h in w.handlers && w.handlers[h].stage == 3
    && var x := w.handlers[h];
       && x.state == RunStateOf(w.stream.log, x.d.Key()) && Tame(x.d) && CanAct(x)
       && (x.d.kind == StartKind ==> x.state == NO_STATE)
       && (x.d.kind == StepResultKind ==> x.d.msg.kvUpdates.None?)
       && Clear(w, x)
  }

  function Finishing(w: World, h: nat, inp: Inputs): Action
    requires h in w.handlers
  {
    var x := w.handlers[h];
    Finish(h, inp, [], NoFault, Decide(x.d, x.Snapshot(), inp), EffectOf(x.d, x.Snapshot(), inp))
  }

  lemma FinishingIsFine(w: World, h: nat, inp: Inputs)
    requires Good(w) && Ready(w, h) && FreshID(w, inp.newID)
    ensures var a := Finishing(w, h, inp); Enabled(w, a) && Honest(w, a) && Allowed(w, a)
  {
    hide Inv, Orderly, Journal, Decide, EffectOf, Tame, Explains, StateOK, EventOK, RunStateOf, GetsNowhere, OrderFor,
      FreshID;
    var x := w.handlers[h];
    HandlerIsTame(w, h);
    Explained(x.d, x.Snapshot(), inp);
    MovesIff(x.d, x.Snapshot(), inp);
    NoUpdates(x.d, x.Snapshot(), inp);
    KindOfMove(x.d, x.Snapshot(), inp, EffectOf(x.d, x.Snapshot(), inp));
  }

  lemma ReadyGoesIn(w: World, n: nat, h: nat, inp: Inputs)
    requires Reached(w, n) && Ready(w, h) && FreshID(w, inp.newID)
    ensures var a := Finishing(w, h, inp);
            Enabled(w, a) && Honest(w, a) && Allowed(w, a) && Reached(Apply(w, a), n + 1) &&
              Apply(w, a).stream != w.stream
  {
    hide Reached, Good, Enabled, Honest, Allowed, Apply, Tame, RunStateOf, FreshID, CanAct, Clear, Decide, EffectOf;
    GoodHolds(w, n);
    FinishingIsFine(w, h, inp);
    ClearGoesIn(w, n, Finishing(w, h, inp));
    Go(w, n, Finishing(w, h, inp));
  }

  /** The batch of such a handler goes in. */
  lemma Settle(w: World, n: nat, h: nat, inp: Inputs) returns (w': World, c: Commit)
    requires Reached(w, n) && Ready(w, h) && FreshID(w, inp.newID)
    ensures Reached(w', n + 1) && Taken(w, w', h, c) && c.inp == inp && c.d == w.handlers[h].d
    ensures c.sn == w.handlers[h].Snapshot()
  {
    hide Reached, Inv, Orderly, Journal, Accounted, FifoInv, Accepted, Honest, Allowed, Apply, FreshID, Decide,
      EffectOf,
      OrderFor, CanAct, Tame, RunStateOf;
    var a := Finishing(w, h, inp);
    ReadyGoesIn(w, n, h, inp);
    GoodHolds(w, n);
    AccountedHolds(w, n);
    FifoHolds(w, n);
    w' := Apply(w, a);
    GoodHolds(w', n + 1);
    c := FinishAccepted(w, a);
    AcksItsOwn(w, a);
    DoneStays(w, a);
    AcceptedHandler(w, w', h, c);
  }

  /* The run */

  predicate Startable(info: RunInfo) {
    info.wfID != "" && info.id != "" && !info.status.IsTerminal()
  }

  lemma CheckIsFine(info: RunInfo)
    requires Startable(info)
    ensures Allowed(INIT, CheckStart(info)) && Apply(INIT, CheckStart(info)) == INIT.(starting := Some(info))
  {
  }

  /** A run has been created. */
  lemma Created(info: RunInfo) returns (w: World)
    requires Startable(info)
    ensures Reached(w, 2)
    ensures w == INIT.(stream := Append(EMPTY, [Stored(RunInfoRecord(info))]), runs := map[info.Key() := info])
  {
    hide Reached, MayStart;
    assert Reached(INIT, 0) by { StartIsReached(); }
    CheckIsFine(info);
    Go(INIT, 0, CheckStart(info));
    w := INIT.(starting := Some(info));
    Go(w, 1, CreateRun(info));
    w := Apply(w, CreateRun(info));
  }

  lemma StartIsReached()
    ensures Reached(INIT, 0)
  {
  }

  /** The start of the run is about to be committed. */
  ghost predicate AtStart(w: World, info: RunInfo, id: DirectiveID) {
    && w.handlers == map[0 := Handler(StartOf(info, id), 3, NO_STATE, 0, 2, None)] && w.commits == []
    && w.stream.log == [Stored(RunInfoRecord(info)), Stored(DirectiveRecord(StartOf(info, id)))]
    && w.queue == {StartOf(info, id)} && w.used == {NO_ID, id} && w.fired == {}
  }

  lemma NothingRead(info: RunInfo, d: Directive)
    ensures var log := [Stored(RunInfoRecord(info)), Stored(DirectiveRecord(d))];
            NoInbox(log) && RunStateOf(log, d.Key()) == NO_STATE && LastHistory(log, d.Key()) == 0
  {
    var log := [Stored(RunInfoRecord(info)), Stored(DirectiveRecord(d))];
    LastOnIs(log, StateSubject(d.Key().wfID, d.Key().runID), 0);
    LastOnIs(log, HistorySubject(d.Key().wfID, d.Key().runID), 0);
  }

  lemma StartRead(info: RunInfo, id: DirectiveID) returns (w: World)
    requires Startable(info) && id.Base? && id != NO_ID
    ensures Reached(w, 7) && AtStart(w, info, id)
  {
    hide Reached, RunStateOf, LastHistory, NoInbox;
    var d := StartOf(info, id);
    w := Created(info);
    w := Send(w, 2, d);
    assert w.stream.log == [Stored(RunInfoRecord(info)), Stored(DirectiveRecord(d))];
    NothingRead(info, d);
    NothingInInbox(w, d);
    w := DeliverAndRead(w, 3, 0, d);
  }

  lemma StartIsReady(w: World, info: RunInfo, id: DirectiveID)
    requires AtStart(w, info, id)
    ensures Ready(w, 0) && NoInbox(w.stream.log)
  {
    hide RunStateOf, LastHistory, NoInbox;
    NothingRead(info, StartOf(info, id));
  }

  /** The run is in its first step, and nothing else is going on. */
  ghost predicate InFirstStep(w: World, info: RunInfo, ri: RunInfo) {
    && w.handlers == map[] && w.fired == {} && NoInbox(w.stream.log) && Known(w.stream.log, info)
    && Assigned(w.stream.log, ri) && ri.Key() == info.Key() && ri.startedAt.Some?
    && (forall d :: d in w.queue ==> d.kind == StartKind) && (forall c :: c in w.commits ==> c.d.kind == StartKind)
    && var s := RunStateOf(w.stream.log, info.Key()); s.kind == StepState && s.pendingCancel.None?
  }

  /** What the batch of a start leaves behind. */
  lemma FirstStep(w: World, w': World, c: Commit, info: RunInfo, id: DirectiveID) returns (ri: RunInfo)
    requires AtStart(w, info, id) && NoInbox(w.stream.log) && Taken(w, w', 0, c) && c.d == StartOf(info, id)
    requires c.sn.runState == NO_STATE
    ensures InFirstStep(w', info, ri) && w'.used == {NO_ID, id, c.inp.newID}
  {
    hide Inv, Orderly, Journal, Accounted, FifoInv, Accepted, Lawful, RunStateOf, StateOK, EventOK, ViaOK, Tame,
      Explains,
      NewQueued, NewDispatches, NewState, Grounded, WellFormed;
    AcceptedFacts(w, w', 0, c);
    AcceptedHandler(w, w', 0, c);
    AcceptedUses(w, w', 0, c);
    SameOtherwise(w, w', 0, c);
    KindOfMove(c.d, c.sn, c.inp, c.effect);
    StateMoves(c);
    BeginWrites(c);
    AcceptedState(w, w', 0, c, info.Key());
    ri := BeginDispatches(c);
    QueuesNothing(w, w', 0, c);
    forall m | m in w'.stream.log ensures !m.Subject().InboxSubject? {
      if m in c.msgs { OnlyEventsInInbox(c, m); }
    }
    assert Stored(RunInfoRecord(info)) in w.stream.log;
  }

  lemma BeginWrites(c: Commit)
    requires c.effect.Effect? && c.effect.move.Begin? && c.effect.move.via == c.d
    ensures NewQueued(c.effect, c.sn, c.inp) == []
    ensures Written(c).Some? && Written(c).value.kind == StepState && Written(c).value.pendingCancel.None?
  {
  }

  lemma BeginDispatches(c: Commit) returns (ri: RunInfo)
    requires Lawful(c) && c.effect.Effect? && c.effect.move.Begin? && c.effect.move.via == c.d
    ensures Assigned(c.msgs, ri) && ri.Key() == c.d.Key() && ri.startedAt.Some?
  {
    hide Lawful;
    var d := NewDispatches(c.effect, c.sn, c.inp)[0];
    Member(c, WorkerTaskDispatch(d));
    assert Stored(WorkerTaskDispatch(d)) in c.msgs;
    ri := d.runInfo;
  }

  lemma AcceptedUses(w: World, w': World, h: nat, c: Commit)
    requires Accepted(w, w', h, c)
    ensures w'.used == w.used + {c.inp.newID}
  {
    hide Lawful, Check, Current, CommitOK, Grounded;
  }

  lemma OnlyEventsInInbox(c: Commit, m: Message)
    requires Lawful(c) && m in c.msgs && c.effect.Effect? && !c.effect.move.Receive?
    ensures !m.Subject().InboxSubject?
  {
    hide Lawful;
    if m.Stored? { Member(c, m.record); }
  }

  lemma ToFirstStep(info: RunInfo, a: DirectiveID, b: DirectiveID) returns (w: World, ri: RunInfo)
    requires Startable(info) && a.Base? && b.Base? && a != NO_ID && b != NO_ID && a != b
    ensures Reached(w, 8) && InFirstStep(w, info, ri) && w.used == {NO_ID, a, b}
  {
    hide Reached, InFirstStep, RunStateOf, Ready, NoInbox, Good, Accounted, FifoInv, Accepted;
    var c;
    var w0 := StartRead(info, a);
    StartIsReady(w0, info, a);
    w, c := Settle(w0, 7, 0, Inputs(0, b, 0, 0));
    ri := FirstStep(w0, w, c, info, a);
  }

  /* One directive after the other */

  lemma {:induction false} LongerThan(used: set<DirectiveID>) returns (k: nat)
    ensures forall id :: id in used && id.Base? ==> |id.token| < k
    decreases used
  {
    k := 0;
    if used != {} {
      var id :| id in used;
      k := LongerThan(used - {id});
      if id.Base? && |id.token| >= k { k := |id.token| + 1; }
    }
  }

  /** There is always a fresh ID. */
  lemma FreshToken(w: World) returns (id: DirectiveID)
    ensures FreshID(w, id)
  {
    var k := LongerThan(w.used);
    id := Base(seq(k, _ => 'x'));
  }

  /** Whether a directive can be handled and committed, when nothing else is going on. */
  ghost predicate Handleable(w: World, d: Directive) {
    && w.handlers == map[] && d in w.queue && OwnInbox(w.stream, d.Key()) && Tame(d) && CanAct(Reading(w, d))
    && d.kind != StartKind && (d.kind == StepResultKind ==> d.msg.kvUpdates.None?) && Clear(w, Reading(w, d))
  }

  /** The directive of a batch was delivered, read for and committed, with nothing else going on. */
  ghost predicate Handled(w: World, w': World, c: Commit) {
    && Taken(w.(handlers := map[0 := Reading(w, c.d)]), w', 0, c) && w'.handlers == map[]
    && c.sn == Reading(w, c.d).Snapshot()
  }

  lemma Handle(w: World, n: nat, d: Directive) returns (w': World, c: Commit)
    requires Reached(w, n) && Handleable(w, d)
    ensures Handled(w, w', c) && Reached(w', n + 5) && c.d == d
  {
    hide Reached, RunStateOf, LastHistory, NextEvent, OwnInbox, FreshID, CanAct, Tame, Good, Accounted, FifoInv,
      Accepted;
    var w0 := DeliverAndRead(w, n, 0, d);
    var id := FreshToken(w0);
    w', c := Settle(w0, n + 4, 0, Inputs(0, id, 0, 0));
    AcceptedHandler(w0, w', 0, c);
  }

  lemma HandledFacts(w: World, w': World, c: Commit)
    requires Handled(w, w', c)
    ensures w'.stream.log == w.stream.log + c.msgs && w'.commits == w.commits + [c] && w.queue <= w'.queue
    ensures w'.stream.removed == w.stream.removed && w'.fired == w.fired && w'.handlers == map[]
    ensures c.at == |w.stream.log|
    ensures Tame(c.d) && c.effect.Effect? && Explains(c.d, c.sn, c.inp, c.effect) && Lawful(c) && WellFormed(c.effect)
    ensures Grounded(c)
    ensures Good(w')
  {
    hide Good, Accounted, FifoInv, Accepted, Explains, Tame, Lawful, StateOK, EventOK, ViaOK, WellFormed, Grounded,
      RunStateOf,
      LastHistory, NextEvent;
    AcceptedFacts(w.(handlers := map[0 := Reading(w, c.d)]), w', 0, c);
    AcceptedHandler(w.(handlers := map[0 := Reading(w, c.d)]), w', 0, c);
    SameOtherwise(w.(handlers := map[0 := Reading(w, c.d)]), w', 0, c);
  }

  lemma SameOtherwise(w: World, w': World, h: nat, c: Commit)
    requires Accepted(w, w', h, c)
    ensures w'.fired == w.fired && c.at == |w.stream.log|
  {
    hide Lawful, Check, Current, CommitOK, Grounded, IDsOf;
  }

  /** The state of the run after a directive was handled. */
  lemma HandledState(w: World, w': World, c: Commit)
    requires Handled(w, w', c)
    ensures var s, s' := RunStateOf(w.stream.log, c.d.Key()), RunStateOf(w'.stream.log, c.d.Key());
            && c.sn.runState == s
            && (if Written(c).Some? then s' == Written(c).value.(seqID := s'.seqID) && s'.seqID > 0 else s' == s)
  {
    hide Good, Accounted, FifoInv, Accepted, Explains, Tame, Lawful, StateOK, EventOK, ViaOK, WellFormed, Grounded,
      RunStateOf,
      LastHistory, NextEvent, NewState;
    AcceptedState(w.(handlers := map[0 := Reading(w, c.d)]), w', 0, c, c.d.Key());
  }
}
