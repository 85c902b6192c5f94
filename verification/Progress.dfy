/** When an attempt to handle a directive succeeds: exactly which batches the stream takes, and exactly which
    directives are settled by one attempt that nothing interferes with. */
module Progress {
  import opened Types
  import opened Stream
  import opened Wire
  import opened Planner
  import opened Effects
  import opened Moves
  import opened Protocol
  import opened Worlds
  import opened Serial
  import opened Discipline
  import opened Bookkeeping
  import opened Steps
  import opened ExactlyOnce
  import opened Acknowledged
  import opened Boundaries
  import opened Redelivery
  import Views
  import RunRecords

  /* Which batches the stream takes */

  /** A batch that goes on from a state finds the run in that state. */
  predicate InTime(log: seq<Message>, c: Commit)
    requires c.effect.Effect?
  {
    Written(c).Some? && !c.effect.move.Begin? ==> RunStateOf(log, c.d.Key()) == c.sn.runState
  }

  /** The only expectation in a batch is that the run is still in the state it was planned from. */
  lemma ExpectsState(c: Commit, m: Message)
    requires Lawful(c) && Grounded(c) && Tame(c.d) && Explains(c.d, c.sn, c.inp, c.effect)
    requires m in c.msgs && m.Expected() > 0
    ensures Written(c).Some? && !c.effect.move.Begin?
    ensures m.Expected() == c.sn.runState.seqID && m.Subject() == StateSubject(c.d.runInfo.wfID, c.d.runInfo.id)
  {
    hide Lawful, Explains, Tame;
    Member(c, m.record);
    StateMoves(c);
  }

  lemma ExpectationMet(w: World, c: Commit, m: Message)
    requires Lawful(c) && Grounded(c) && Tame(c.d) && Explains(c.d, c.sn, c.inp, c.effect) && InTime(w.stream.log, c)
    requires m in c.msgs && m.Expected() > 0
    ensures LastOn(w.stream.log, m.Subject()) == m.Expected()
  {
    hide Lawful, Explains, Tame, Grounded;
    LawfulShape(c);
    ExpectsState(c, m);
  }

  lemma LetInInTime(w: World, c: Commit)
    requires Offered(w, c) && Check(w.stream.log, w.stream.ids, c.msgs) == Committed
    ensures InTime(w.stream.log, c)
  {
    hide Lawful, Explains, Tame, StateOK, EventOK, Check, NewState, LastOn, ReadFrom, Grounded, RunStateOf;
    LawfulShape(c);
    CheckPasses(w.stream.log, w.stream.ids, c.msgs);
    if Written(c).Some? && !c.effect.move.Begin? {
      var i := StateMessage(c);
      StillRead(w.stream.log, c);
    }
  }

  /** Where the state is in a batch, and what it expects. */
  lemma StateMessage(c: Commit) returns (i: nat)
    requires Lawful(c) && Grounded(c) && Tame(c.d) && Explains(c.d, c.sn, c.inp, c.effect)
    requires Written(c).Some? && !c.effect.move.Begin?
    ensures i < |c.msgs| && c.msgs[i].Expected() == c.sn.runState.seqID
    ensures c.msgs[i].Subject() == StateSubject(c.d.runInfo.wfID, c.d.runInfo.id)
  {
    hide Lawful, Explains, Tame, NewState;
    StateMoves(c);
    var r := StateRecordOf(c);
    StateMember(c, r);
    i :| 0 <= i < |c.msgs| && c.msgs[i] == Stored(r);
  }

  lemma StillRead(log: seq<Message>, c: Commit)
    requires ReadFrom(log, c.d.Key(), c.sn.runState) && Grounded(c) && Written(c).Some? && !c.effect.move.Begin?
    requires c.sn.runState.seqID > 0 ==> LastOn(log,
      StateSubject(c.d.runInfo.wfID, c.d.runInfo.id)) == c.sn.runState.seqID
    ensures RunStateOf(log, c.d.Key()) == c.sn.runState
  {
    hide LastOn;
    WrittenKey(c);
  }

  lemma NotRejected(w: World, c: Commit)
    requires Offered(w, c) && c.effect.Effect? && InTime(w.stream.log, c)
    ensures Check(w.stream.log, w.stream.ids, c.msgs) != CasRejected
  {
    hide Lawful, Explains, Tame, StateOK, EventOK, Check, NewState, LastOn, Grounded, InTime;
    if Check(w.stream.log, w.stream.ids, c.msgs) == CasRejected {
      var p := FirstOffence(w.stream.log, w.stream.ids, c.msgs);
      ExpectationMet(w, c, c.msgs[p]);
    }
  }

  /** The stream takes a batch exactly if the run is still in the state the batch was planned from and none of
      its message IDs is known. */
  lemma GoesInIff(w: World, c: Commit)
    requires Good(w) && Offered(w, c)
    ensures c.effect.Effect?
    ensures Check(w.stream.log, w.stream.ids, c.msgs) == Committed <==>
      InTime(w.stream.log, c) && IDsOf(c.msgs) !! w.stream.ids
  {
    hide Good, Lawful, Explains, Tame, StateOK, EventOK, Check, NewState, LastOn, InTime, ReadFrom;
    if Check(w.stream.log, w.stream.ids, c.msgs) == Committed {
      LetInInTime(w, c);
      CheckPasses(w.stream.log, w.stream.ids, c.msgs);
    } else if InTime(w.stream.log, c) {
      NotRejected(w, c);
      Verdicts(w.stream.log, w.stream.ids, c.msgs);
      var p := RepeatedIDIsOld(w, c);
      assert c.msgs[p].MsgID().value in IDsOf(c.msgs);
    }
  }

  lemma {:induction false} Verdicts(log: seq<Message>, ids: set<DirectiveID>, msgs: seq<Message>)
    ensures Check(log, ids, msgs) in {Committed, CasRejected, DuplicateMessage}
    decreases msgs
  {
    if msgs != [] { Verdicts(log, ids + IDsOf([msgs[0]]), msgs[1..]); }
  }

  /** So a batch in time is let in unless the batch of the same directive is in already. */
  lemma InTimeSettles(w: World, c: Commit)
    requires Good(w) && Offered(w, c) && c.effect.Effect? && InTime(w.stream.log, c)
    ensures Check(w.stream.log, w.stream.ids, c.msgs) in {Committed, DuplicateMessage}
    ensures (forall c' :: c' in w.commits ==> c'.d != c.d) ==> Check(w.stream.log, w.stream.ids, c.msgs) == Committed
  {
    hide Good, Offered, Check, InTime, Written;
    NotRejected(w, c);
    Verdicts(w.stream.log, w.stream.ids, c.msgs);
    if Check(w.stream.log, w.stream.ids, c.msgs) == DuplicateMessage { DuplicateWasCommitted(w, c); }
  }

  /* Which directives make a move */

  /** The run has ended, or a wake-up finds the run busy or its inbox empty. */
  predicate NothingToDo(d: Directive, sn: StateSnapshot) {
    sn.runState.IsTerminal() || (d.kind == WakeFromInboxKind && (sn.runState.kind != WaitState || sn.event.None?))
  }

  /** A handler gets nowhere: there is nothing to do, or it crashes. */
  predicate GetsNowhere(d: Directive, sn: StateSnapshot)
    requires Tame(d)
  {
    NothingToDo(d, sn) || CancelsUnstarted(d, sn.runState)
  }

  /** A directive of the protocol makes a move exactly if there is something to do. */
  lemma MovesIff(d: Directive, sn: StateSnapshot, inp: Inputs)
    requires Tame(d) && TameEvent(sn.event) && TameState(sn.runState)
    ensures EffectOf(d, sn, inp).Effect? <==> !GetsNowhere(d, sn)
  {
    hide Decide, EffectOf, CancelsUnstarted, Tame, Plan;
    EffectIsBatch(d, sn, inp);
    CrashIff(d, sn, inp);
    NeverGivesUp(d, sn, inp);
    EmptyIff(d, sn, inp);
  }

  /** The whole table of the state machine: a directive of the protocol makes the move listed for it if there is
      something to do, and none otherwise. */
  lemma MoveTable(d: Directive, sn: StateSnapshot, inp: Inputs)
    requires Tame(d) && TameEvent(sn.event) && TameState(sn.runState)
    ensures EffectOf(d, sn, inp).Effect? <==> !GetsNowhere(d, sn)
    ensures Explains(d, sn, inp, EffectOf(d, sn, inp))
  {
    hide EffectOf, Explains, GetsNowhere, Tame;
    MovesIff(d, sn, inp);
    Explained(d, sn, inp);
  }

  /** A handler plans an empty batch exactly if there is nothing to do. */
  lemma EmptyIff(d: Directive, sn: StateSnapshot, inp: Inputs)
    requires Tame(d) && TameEvent(sn.event) && TameState(sn.runState)
    ensures Decide(d, sn, inp) == Write([]) <==> NothingToDo(d, sn)
  {
    hide EffectOf, Tame, FromStepResult, Transition, RunRecords.BuildUnexpectedFailure;
    FailureIsRecorded(d, sn.runState, inp);
    match d.kind {
      case StepResultKind => ResultNotEmpty(d, sn, inp);
      case WakeFromInboxKind => if sn.event.Some? { TransitionNotEmpty(sn.event.value, sn, inp); }
      case StartKind =>
      case CancelKind =>
      case EventKind =>
      case _ => TransitionNotEmpty(d, sn, inp);
    }
  }

  lemma FailureIsRecorded(d: Directive, state: RunState, inp: Inputs)
    ensures RunRecords.BuildUnexpectedFailure(d, state, inp) != Ok([])
  {
  }

  lemma TransitionNotEmpty(d: Directive, sn: StateSnapshot, inp: Inputs)
    ensures Transition(d, sn, inp) != Ok([])
  {
  }

  lemma ResultNotEmpty(d: Directive, sn: StateSnapshot, inp: Inputs)
    ensures FromStepResult(d, sn, inp) != Ok([])
  {
    hide Transition;
  }

  /* One attempt */

  /** Runs have names. */
  predicate Named(w: World) {
    && (forall key :: key in w.runs ==> key.wfID != "" && key.runID != "")
    && (w.starting.Some? ==> w.starting.value.wfID != "" && w.starting.value.id != "")
  }

  lemma StepKeepsNamed(w: World, a: Action)
    requires Named(w) && Enabled(w, a) && Allowed(w, a)
    ensures Named(Apply(w, a))
  {
    hide OwnInbox, MayEnqueue, FreshID, RunStateOf, NextEvent, LastHistory, Wire.Commit, OrderFor, BatchMessages,
      TimeoutDirective, IDsOf, LastInfo;
  }

  lemma {:induction false} NamedHolds(w: World, n: nat)
    requires Reached(w, n)
    ensures Named(w)
    decreases n
  {
    hide Apply, Enabled, Honest, Allowed;
    if n > 0 {
      var w0, a := ReachedFrom(w, n);
      NamedHolds(w0, n - 1);
      StepKeepsNamed(w0, a);
    }
  }

  /** A move of a run that has been started; only a start and an event do without. */
  predicate Grounds(x: Handler, e: Effect) {
    e.Effect? && (e.move.Begin? || e.move.Receive? || x.state != NO_STATE)
  }

  /** The states in a batch can be turned into messages exactly if the run has been started. */
  lemma EncodableIff(w: World, x: Handler, inp: Inputs, decision: Decision, e: Effect)
    requires Named(w) && x.d.Key() in w.runs && (x.state == NO_STATE || x.state.Key() == x.d.Key())
    requires SoundFinish(x, inp, decision, e) && e.Effect?
    ensures Encodable(decision.batch) <==> Grounds(x, e)
  {
    hide Views.Of, Fits, Led;
    var sn := x.Snapshot();
    if Grounds(x, e) {
      forall r | r in decision.batch && r.RunStateRecord? ensures r.state.Key() == x.d.Key() {
        BatchFits(e, sn, inp, decision.batch, r);
        StateFits(x, inp, e, r);
      }
    } else {
      var r := LastStateRecord(e, sn, inp);
      BatchFits(e, sn, inp, decision.batch, r);
    }
  }

  lemma StateFits(x: Handler, inp: Inputs, e: Effect, r: Record)
    requires Grounds(x, e) && WellFormed(e) && (x.state == NO_STATE || x.state.Key() == x.d.Key())
    requires e.move.Begin? ==> e.move.via == x.d
    requires e.move.Stay? ==> e.move.state.Key() == x.state.Key()
    requires r.RunStateRecord? && Fits(e, x.Snapshot(), inp, r)
    ensures r.state.Key() == x.d.Key()
  {
  }

  lemma NotEmpty(c: Commit)
    requires Lawful(c) && Grounded(c)
    ensures c.msgs != []
  {
    hide Lawful;
    WrittenKey(c);
    if Written(c).Some? {
      var r := LastStateRecord(c.effect, c.sn, c.inp);
      Member(c, r);
    } else {
      Member(c, InboxRecord(c.effect.move.via));
    }
  }

  /** Without faults it is the verdict of the stream that counts. */
  lemma FinishWrites(w: World, a: Action)
    requires a.Finish? && Enabled(w, a) && a.decision.Write? && a.fault == NoFault && a.decision.batch != []
    requires Encodable(a.decision.batch) && BatchMessages(a.decision.batch, a.order) != []
    ensures var v, d := Check(w.stream.log, w.stream.ids, BatchMessages(a.decision.batch, a.order)), w.handlers[a.h].d;
            && (Apply(w, a).stream != w.stream <==> v == Committed)
            && (d in Apply(w, a).acked <==> d in w.acked || v == Committed || v == DuplicateMessage)
  {
    hide Encodable, OrderFor, Check, BatchMessages;
    assert w.stream.log + BatchMessages(a.decision.batch, a.order) != w.stream.log;
  }

  lemma FinishWritesNothing(w: World, a: Action)
    requires a.Finish? && Enabled(w, a) && a.decision != GiveUp
    requires a.decision.Write? ==> a.decision.batch == [] || !Encodable(a.decision.batch)
    ensures Apply(w, a).acked == w.acked && Apply(w, a).stream == w.stream
  {
    hide Encodable, OrderFor, BatchMessages;
  }

  /** What a handler has to go on: something to do, in a run that has been started. */
  predicate CanAct(x: Handler)
    requires Tame(x.d)
  {
    !GetsNowhere(x.d, x.Snapshot()) && (x.state != NO_STATE || x.d.kind == StartKind || x.d.kind == EventKind)
  }

  lemma ActsIff(w: World, a: Action)
    requires Good(w) && a.Finish? && Enabled(w, a) && Honest(w, a)
    ensures Tame(w.handlers[a.h].d) && (Grounds(w.handlers[a.h], a.effect) <==> CanAct(w.handlers[a.h]))
  {
    hide Inv, Orderly, Journal, Tame, Explains, GetsNowhere, Decide, EffectOf, StateOK, EventOK;
    var x := w.handlers[a.h];
    HandlerIsTame(w, a.h);
    FinishExplained(w, a);
    MovesIff(x.d, x.Snapshot(), a.inp);
    if a.effect.Effect? { KindOfMove(x.d, x.Snapshot(), a.inp, a.effect); }
  }

  lemma KindOfMove(d: Directive, sn: StateSnapshot, inp: Inputs, e: Effect)
    requires Tame(d) && e.Effect? && Explains(d, sn, inp, e)
    ensures (d.kind == StartKind <==> e.move.Begin?) && (d.kind == EventKind <==> e.move.Receive?)
  {
    hide ResultFirst, Plain, StaleStep, StaleWait;
  }

  /** The batch of a handler that can act. */
  lemma ActingIsOffered(w: World, a: Action)
    requires Good(w) && Named(w) && a.Finish? && Enabled(w, a) && Honest(w, a) && Allowed(w, a)
    requires Grounds(w.handlers[a.h], a.effect)
    ensures a.decision.Write? && a.decision.batch != [] && Encodable(a.decision.batch)
    ensures Offered(w, Candidate(w, a)) && Candidate(w, a).msgs != []
  {
    hide Inv, Orderly, Journal, Honest, Allowed, Encodable, Named, Lawful, Explains, Tame, StateOK, EventOK, ReadFrom,
      BatchMessages, OrderFor, Grounded, ViewOf, Led, Views.Of;
    HonestIsSound(w, a);
    HandlerKeys(w, a.h);
    EncodableIff(w, w.handlers[a.h], a.inp, a.decision, a.effect);
    CandidateOffered(w, a);
    NotEmpty(Candidate(w, a));
  }

  lemma HandlerKeys(w: World, h: nat)
    requires Good(w) && h in w.handlers && w.handlers[h].stage == 3
    ensures var x := w.handlers[h]; x.d.Key() in w.runs && (x.state == NO_STATE || x.state.Key() == x.d.Key())
  {
    hide Inv, Orderly, Journal, ReadFrom, Tame, StateOK, EventOK;
    HandlerReadFrom(w, h);
    ReadKey(w.stream.log, w.handlers[h].d.Key(), w.handlers[h].state);
    HandlerIsTame(w, h);
    RunIsKnown(w, w.handlers[h].d);
  }

  lemma IdlePasses(w: World, a: Action)
    requires Good(w) && Named(w) && a.Finish? && Enabled(w, a) && Honest(w, a) && !Grounds(w.handlers[a.h], a.effect)
    ensures Apply(w, a).acked == w.acked && Apply(w, a).stream == w.stream
  {
    hide Inv, Orderly, Journal, Honest, Apply, Encodable, Named, OrderFor, ViewOf, Led, Views.Of;
    HonestIsSound(w, a);
    HandlerKeys(w, a.h);
    DecidesToWrite(w, a);
    if a.effect.Effect? { EncodableIff(w, w.handlers[a.h], a.inp, a.decision, a.effect); }
    FinishWritesNothing(w, a);
  }

  /** One attempt settles a directive, if nothing is lost on the way and the state that was read is still the
      run's state, exactly if there is something to do in a run that has been started. */
  lemma SettledIff(w: World, n: nat, a: Action)
    requires Reached(w, n) && a.Finish? && Enabled(w, a) && Honest(w, a) && Allowed(w, a) && a.fault == NoFault
    requires var x := w.handlers[a.h]; x.state == RunStateOf(w.stream.log, x.d.Key()) && x.d !in w.acked
    ensures var x := w.handlers[a.h]; Tame(x.d) && (x.d in Apply(w, a).acked <==> CanAct(x))
  {
    hide Reached, Good, Honest, Allowed, Apply, Named, CanAct, Encodable, Offered, Tame, RunStateOf,
      BatchMessages, OrderFor, Check;
    GoodHolds(w, n);
    NamedHolds(w, n);
    ActsIff(w, a);
    if Grounds(w.handlers[a.h], a.effect) {
      ActingIsOffered(w, a);
      FinishWrites(w, a);
      InTimeSettles(w, Candidate(w, a));
    } else {
      IdlePasses(w, a);
    }
  }

  /** Nothing stands in the way of a handler: its directive has no batch yet, or brings no message ID. */
  predicate Clear(w: World, x: Handler) {
    (forall c :: c in w.commits ==> c.d != x.d) || (x.d.kind == EventKind && x.state.kind != WaitState)
  }

  /** The batch of such a handler goes in, if nothing is lost on the way and the state that was read is still the
      run's state. */
  lemma ClearGoesIn(w: World, n: nat, a: Action)
    requires Reached(w, n) && a.Finish? && Enabled(w, a) && Honest(w, a) && Allowed(w, a) && a.fault == NoFault
    requires var x := w.handlers[a.h];
             x.state == RunStateOf(w.stream.log, x.d.Key()) && Tame(x.d) && CanAct(x) && Clear(w, x)
    ensures Apply(w, a).stream != w.stream
  {
    hide Reached, Good, Honest, Allowed, Apply, Named, CanAct, Encodable, Offered, Tame, RunStateOf, BatchMessages,
      OrderFor, Check;
    GoodHolds(w, n);
    NamedHolds(w, n);
    ActsIff(w, a);
    ActingIsOffered(w, a);
    FinishWrites(w, a);
    var c := Candidate(w, a);
    if c.d.kind == EventKind && c.sn.runState.kind != WaitState {
      EventAgain(w, c);
    } else {
      InTimeSettles(w, c);
    }
  }

  lemma EventAgain(w: World, c: Commit)
    requires Offered(w, c) && c.d.kind == EventKind && c.sn.runState.kind != WaitState
    ensures Check(w.stream.log, w.stream.ids, c.msgs) == Committed
  {
    hide Lawful, Explains, Tame, StateOK, EventOK, ReadFrom, Check, Grounded;
    LawfulShape(c);
    KindOfMove(c.d, c.sn, c.inp, c.effect);
    EventGoesInUnless(w.stream.log, w.stream.ids, c);
  }

  /* Whether the batch of a handler goes in */

  /** There is something to commit in a run that has been started, the request reaches the stream, the run is still in
      the state it was planned from, and none of its message IDs is known. */
  ghost predicate GoesIn(w: World, a: Action)
    requires a.Finish? && Enabled(w, a)
  {
    && Grounds(w.handlers[a.h], a.effect) && (a.fault.NoFault? || a.fault.LostReply?) && a.decision.Write?
    && InTime(w.stream.log, Candidate(w, a)) && IDsOf(Candidate(w, a).msgs) !! w.stream.ids
  }

  /** Exactly when a handler changes the stream. */
  lemma GoesInStep(w: World, a: Action)
    requires Good(w) && Named(w) && a.Finish? && Enabled(w, a) && Honest(w, a) && Allowed(w, a)
    ensures Apply(w, a).stream != w.stream <==> GoesIn(w, a)
  {
    hide Inv, Orderly, Journal, Named, Honest, Allowed, Apply, Encodable, Offered, BatchMessages, OrderFor, Check,
      InTime, IDsOf;
    if Grounds(w.handlers[a.h], a.effect) {
      ActingIsOffered(w, a);
      GoesInIff(w, Candidate(w, a));
      FinishChanges(w, a);
    } else {
      IdlePasses(w, a);
    }
  }

  lemma FinishChanges(w: World, a: Action)
    requires a.Finish? && Enabled(w, a) && a.decision.Write? && a.decision.batch != []
    requires Encodable(a.decision.batch) && BatchMessages(a.decision.batch, a.order) != []
    ensures Apply(w, a).stream != w.stream <==>
      (a.fault.NoFault? || a.fault.LostReply?) && Check(w.stream.log, w.stream.ids,
        BatchMessages(a.decision.batch, a.order)) == Committed
  {
    hide Encodable, OrderFor, Check, BatchMessages;
    assert w.stream.log + BatchMessages(a.decision.batch, a.order) != w.stream.log;
  }
}
