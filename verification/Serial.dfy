/** Optimistic concurrency refines serial execution. Whatever directives are queued, however handlers
    interleave and however often directives are redelivered, every committed batch that changes a run's
    state was planned from the state the run was in when the batch went in. */
module Serial {
  import opened Types
  import opened Stream
  import opened Wire
  import opened Views
  import opened Planner
  import opened Effects
  import opened Moves
  import opened Worlds
  import opened BatchOrder

  /* States in a batch and in its messages */

  function LastOfKey(states: seq<Record>, key: RunKey): Option<RunState> {
    if states == [] then None
    else
      var r := states[|states| - 1];
      if r.RunStateRecord? && r.state.Key() == key then Some(r.state) else LastOfKey(states[..|states| - 1], key)
  }

  lemma LastOfKeyAppend(states: seq<Record>, r: Record, key: RunKey)
    ensures LastOfKey(states + [r], key)
         == if r.RunStateRecord? && r.state.Key() == key then Some(r.state) else LastOfKey(states, key)
  {
    assert (states + [r])[..|states|] == states;
  }

  lemma OneRecordMessages(r: Record, order: seq<string>, key: RunKey)
    requires r.KVRecord? ==> Enumerates(order, r.kvMap.Keys)
    ensures LastOn(Messages(r, order), StateSubject(key.wfID, key.runID))
         == if r.RunStateRecord? && r.state.Key() == key then 1 else 0
  {
    var s := StateSubject(key.wfID, key.runID);
    var msgs := Messages(r, order);
    if r.RunStateRecord? && r.state.Key() == key {
      LastOnIs(msgs, s, 1);
    } else {
      LastOnIs(msgs, s, 0);
    }
  }

  /** The last run state among a batch's messages is the last one among its records. */
  lemma {:induction false} StateInMessages(batch: seq<Record>, order: seq<string>, key: RunKey)
    requires OrderFor(batch, order)
    ensures var msgs := BatchMessages(batch, order);
            var q := LastOn(msgs, StateSubject(key.wfID, key.runID));
            if q == 0 then LastOfKey(Of(batch).states, key).None?
            else LastOfKey(Of(batch).states, key) == Some(msgs[q - 1].record.state)
    decreases |batch|
  {
    if batch != [] {
      hide Of, BatchMessages, LastOn;
      var front, r := batch[..|batch| - 1], batch[|batch| - 1];
      var s := StateSubject(key.wfID, key.runID);
      assert batch == front + [r] && r in batch;
      BatchMessagesAppend(front, [r], order);
      OneMessage(r, order);
      StateInMessages(front, order, key);
      OneRecordMessages(r, order, key);
      LastOnAppend(BatchMessages(front, order), Messages(r, order), s);
      LastStates(front, r, key);
    }
  }

  lemma OneMessage(r: Record, order: seq<string>)
    requires OrderFor([r], order)
    ensures r in [r] && BatchMessages([r], order) == Messages(r, order)
  {
    assert [r][1..] == [];
  }

  lemma LastStates(front: seq<Record>, r: Record, key: RunKey)
    ensures LastOfKey(Of(front + [r]).states, key)
         == if r.RunStateRecord? && r.state.Key() == key then Some(r.state) else LastOfKey(Of(front).states, key)
  {
    hide Of;
    OfAppend(front, [r]);
    OfOne(r);
    if r.RunStateRecord? {
      LastOfKeyAppend(Of(front).states, r, key);
    } else {
      assert Of(front + [r]).states == Of(front).states;
    }
  }

  /* What is known of a committed batch */

  /** Where the messages of a batch put a run: at the state the move leaves behind, if it is that run's. */
  predicate StateAt(c: Commit, key: RunKey) {
    var q := LastOn(c.msgs, StateSubject(key.wfID, key.runID));
    var s := NewState(c.effect, c.sn, c.inp);
    if s.Some? && s.value.Key() == key then q > 0 && c.msgs[q - 1].record.state == s.value else q == 0
  }

  /** The messages of a committed batch are what its effect adds. */
  ghost predicate Lawful(c: Commit) {
    && c.effect.Effect? && WellFormed(c.effect)
    && (forall m :: m in c.msgs ==> m.Stored? || m.KVPut?)
    && (forall m :: m in c.msgs && m.Stored? ==> !m.record.KVRecord? && Fits(c.effect, c.sn, c.inp, m.record))
    && (forall r {:trigger Stored(r) in c.msgs} :: Pinned(r) && !r.KVRecord? && Fits(c.effect, c.sn, c.inp, r) ==>
      Stored(r) in c.msgs)
    && (forall key :: StateAt(c, key))
    && (NewState(c.effect, c.sn, c.inp).Some? ==> NewState(c.effect, c.sn, c.inp).value.wfID != "")
    && (forall m: Message :: m.KVPut? ==> (m in c.msgs <==> Puts(c.effect.before.kvs, m)))
    && EndsOf(c.msgs) == EndEvents(c.effect.before.history) + Ending(c.effect)
    && TasksIn(c.msgs) == NewTasks(c.effect, c.sn) && QueuedIn(c.msgs) == NewQueued(c.effect, c.sn, c.inp)
    && LedMessages(c.msgs)
  }

  lemma LawfulShape(c: Commit)
    requires Lawful(c)
    ensures c.effect.Effect? && WellFormed(c.effect)
  {
    hide Fits, StateAt, Puts, LedMessages, TasksIn, QueuedIn, EndsOf, EndEvents;
  }

  /** What is in a batch fits its effect, and what the effect pins down is in the batch. */
  lemma Member(c: Commit, r: Record)
    requires Lawful(c)
    ensures c.effect.Effect? && WellFormed(c.effect)
    ensures Stored(r) in c.msgs ==> Fits(c.effect, c.sn, c.inp, r)
    ensures Pinned(r) && !r.KVRecord? && Fits(c.effect, c.sn, c.inp, r) ==> Stored(r) in c.msgs
  {
    hide Fits, StateAt, Puts, LedMessages, TasksIn, QueuedIn, EndsOf, EndEvents;
    if Stored(r) in c.msgs {
      assert Stored(r).Stored? && Stored(r).record == r;
    }
  }

  lemma StatesOfEffect(e: Effect, sn: StateSnapshot, inp: Inputs, key: RunKey)
    requires e.Effect? && WellFormed(e)
    ensures var s := NewState(e, sn, inp);
            LastOfKey(NewStates(e, sn, inp), key) == if s.Some? && s.value.Key() == key then s else None
  {
    var states := NewStates(e, sn, inp);
    if |states| == 2 {
      assert states == [] + [states[0]] + [states[1]];
      LastOfKeyAppend([] + [states[0]], states[1], key);
      LastOfKeyAppend([], states[0], key);
    } else if |states| == 1 {
      assert states == [] + [states[0]];
      LastOfKeyAppend([], states[0], key);
    }
  }

  lemma MessagesFit(c: Commit, batch: seq<Record>, order: seq<string>, m: Message)
    requires WellFormed(c.effect) && ViewOf(c.effect, c.sn, c.inp, Of(batch))
    requires OrderFor(batch, order) && c.msgs == BatchMessages(batch, order)
    ensures m in c.msgs ==> m.Stored? || m.KVPut?
    ensures m in c.msgs && m.Stored? ==> !m.record.KVRecord? && Fits(c.effect, c.sn, c.inp, m.record)
    ensures m.Stored? && Pinned(m.record) && !m.record.KVRecord? && Fits(c.effect, c.sn, c.inp, m.record) ==>
      m in c.msgs
  {
    MessagesAreRecords(batch, order, m);
    if m.Stored? { BatchFits(c.effect, c.sn, c.inp, batch, m.record); }
  }

  lemma MessagesGiveState(c: Commit, batch: seq<Record>, order: seq<string>, key: RunKey)
    requires WellFormed(c.effect) && ViewOf(c.effect, c.sn, c.inp, Of(batch))
    requires OrderFor(batch, order) && c.msgs == BatchMessages(batch, order)
    ensures StateAt(c, key)
  {
    hide Of, BatchMessages, NewState, OrderFor;
    StateInMessages(batch, order, key);
    StatesOfEffect(c.effect, c.sn, c.inp, key);
  }

  lemma StateIsNamed(c: Commit, batch: seq<Record>)
    requires WellFormed(c.effect) && ViewOf(c.effect, c.sn, c.inp, Of(batch)) && Encodable(batch)
    ensures NewState(c.effect, c.sn, c.inp).Some? ==> NewState(c.effect, c.sn, c.inp).value.wfID != ""
  {
    if NewState(c.effect, c.sn, c.inp).Some? {
      var r := LastStateRecord(c.effect, c.sn, c.inp);
      BatchFits(c.effect, c.sn, c.inp, batch, r);
      assert r in batch;
    }
  }

  lemma LastStateRecord(e: Effect, sn: StateSnapshot, inp: Inputs) returns (r: Record)
    requires WellFormed(e) && NewState(e, sn, inp).Some?
    ensures r.RunStateRecord? && r.state == NewState(e, sn, inp).value && Pinned(r) && Fits(e, sn, inp, r)
  {
    var states := NewStates(e, sn, inp);
    r := states[|states| - 1];
  }

  lemma PutsOfView(batch: seq<Record>, m: Message)
    requires m.KVPut?
    ensures Puts(batch, m) <==> Puts(Of(batch).kvs, m)
  {
    hide Of;
    if Puts(batch, m) {
      var r :| r in batch && PutBy(r, m);
      OfMembers(batch, r);
    }
    if Puts(Of(batch).kvs, m) {
      var r :| r in Of(batch).kvs && PutBy(r, m);
      OfMembers(batch, r);
    }
  }

  lemma CommitIsLawful(c: Commit, batch: seq<Record>, order: seq<string>)
    requires WellFormed(c.effect) && ViewOf(c.effect, c.sn, c.inp, Of(batch))
    requires OrderFor(batch, order) && Encodable(batch) && Led(batch) && c.msgs == BatchMessages(batch, order)
    ensures Lawful(c)
  {
    hide BatchMessages, Of, OrderFor, NewStates, NewInfos, NewTimers, NewDispatches, NewQueued, NewTasks, NewInbox,
      EndsOf, EndEvents, Led, LedMessages, StateAt, Fits, Puts, TasksIn, QueuedIn;
    StateIsNamed(c, batch);
    EndsInMessages(batch, order);
    EndFields(c.effect, c.inp);
    LedBatch(batch, order);
    IdentifiedInMessages(batch, order);
    forall m: Message | m.KVPut? ensures m in c.msgs <==> Puts(c.effect.before.kvs, m) {
      MessagesArePuts(batch, order, m);
      PutsOfView(batch, m);
    }
    forall m ensures m in c.msgs ==> m.Stored? || m.KVPut? {
      MessagesFit(c, batch, order, m);
    }
    forall m | m in c.msgs && m.Stored? ensures !m.record.KVRecord? && Fits(c.effect, c.sn, c.inp, m.record) {
      MessagesFit(c, batch, order, m);
    }
    forall r | Pinned(r) && !r.KVRecord? && Fits(c.effect, c.sn, c.inp, r) ensures Stored(r) in c.msgs {
      MessagesFit(c, batch, order, Stored(r));
    }
    forall key ensures StateAt(c, key) {
      MessagesGiveState(c, batch, order, key);
    }
  }

  /** What `Honest` says of a handler, without the planner. */
  ghost predicate SoundFinish(x: Handler, inp: Inputs, decision: Decision, e: Effect) {
    && WellFormed(e)
    && (e.Effect? ==> decision.Write? && decision.batch != [] && Led(decision.batch) && ViewOf(e, x.Snapshot(), inp,
      Of(decision.batch)))
    && (e.NoEffect? && decision.Write? ==> decision.batch == [])
    && (e.Effect? && e.move.Begin? ==> x.d.kind == StartKind && e.move.via == x.d)
    && (e.Effect? && e.move.Stay? ==> e.move.state.Key() == x.state.Key())
  }

  ghost predicate Sound(w: World, a: Action)
    requires Enabled(w, a)
  {
    a.Finish? ==> SoundFinish(w.handlers[a.h], a.inp, a.decision, a.effect)
  }

  lemma HonestIsSound(w: World, a: Action)
    requires Enabled(w, a) && Honest(w, a)
    ensures Sound(w, a)
  {
    if a.Finish? {
      var x := w.handlers[a.h];
      FinishIsSound(x.d, x.Snapshot(), a.inp, a.decision, a.effect);
    }
  }

  lemma FinishIsSound(d: Directive, sn: StateSnapshot, inp: Inputs, decision: Decision, e: Effect)
    requires decision == Decide(d, sn, inp) && e == EffectOf(d, sn, inp)
    ensures WellFormed(e)
    ensures e.Effect? ==> decision.Write? && decision.batch != [] && Led(decision.batch) && ViewOf(e, sn, inp,
      Of(decision.batch))
    ensures e.NoEffect? && decision.Write? ==> decision.batch == []
    ensures e.Effect? && e.move.Begin? ==> d.kind == StartKind && e.move.via == d
    ensures e.Effect? && e.move.Stay? ==> e.move.state.Key() == sn.runState.Key()
  {
    hide Decide, EffectOf, ViewOf, EffectView, Led;
    EffectIsBatch(d, sn, inp);
    MoveOrigin(d, sn, inp);
    DecisionLed(d, sn, inp);
    if e.Effect? { EffectViewOf(e, sn, inp); }
  }

  /* The invariant */

  /** The state was read from the log at the sequence it carries, or there was none. */
  predicate ReadFrom(log: seq<Message>, key: RunKey, s: RunState) {
    s == NO_STATE ||
    (0 < s.seqID <= |log| && log[s.seqID - 1].Subject() == StateSubject(key.wfID, key.runID)
     && s == log[s.seqID - 1].record.state.(seqID := s.seqID))
  }

  predicate HandlerOK(log: seq<Message>, x: Handler) {
    && (x.stage >= 1 ==> ReadFrom(log, x.d.Key(), x.state))
    && (x.stage >= 2 ==> x.readAt <= |log| && x.lastHistory == LastHistory(log[..x.readAt], x.d.Key()))
  }

  /** A batch that writes a state, other than a start, was planned from the state before it. */
  predicate Current(commits: seq<Commit>, i: nat)
    requires i < |commits|
  {
    var c := commits[i];
    && (c.sn.runState == NO_STATE || c.sn.runState.Key() == c.d.Key())
    && (c.effect.Effect? && c.effect.move.Begin? ==> c.d.kind == StartKind && c.effect.move.via == c.d)
    && (NewState(c.effect, c.sn, c.inp).Some? && !c.effect.move.Begin? ==>
          && c.sn.runState.seqID > 0
          && c.sn.runState == StateAfter(commits[..i], c.d.Key())
          && NewState(c.effect, c.sn, c.inp).value.Key() == c.d.Key())
  }

  ghost predicate Inv(w: World) {
    && (forall key :: RunStateOf(w.stream.log, key) == StateAfter(w.commits, key))
    && (forall h :: h in w.handlers ==> HandlerOK(w.stream.log, w.handlers[h]))
    && (forall i :: 0 <= i < |w.commits| ==> Lawful(w.commits[i]) && Current(w.commits, i))
  }

  /* Preservation */

  lemma HandlerStays(log: seq<Message>, more: seq<Message>, x: Handler)
    requires HandlerOK(log, x)
    ensures HandlerOK(log + more, x)
  {
    if x.stage >= 2 {
      assert (log + more)[..x.readAt] == log[..x.readAt];
    }
  }

  /** Messages that are not run states leave every run where it was. */
  lemma AppendKeepsInv(w: World, w': World, more: seq<Message>)
    requires Inv(w)
    requires w'.stream.log == w.stream.log + more && w'.commits == w.commits && w'.handlers == w.handlers
    requires forall m :: m in more ==> !m.Subject().StateSubject?
    ensures Inv(w')
  {
    hide Lawful, StateAfter, Current, HandlerOK, LastOn;
    forall key ensures RunStateOf(w'.stream.log, key) == RunStateOf(w.stream.log, key) {
      LastOnIs(more, StateSubject(key.wfID, key.runID), 0);
      RunStateAppend(w.stream.log, more, key);
    }
    forall h | h in w'.handlers ensures HandlerOK(w'.stream.log, w'.handlers[h]) {
      HandlerStays(w.stream.log, more, w.handlers[h]);
    }
  }

  lemma CurrentStays(commits: seq<Commit>, c: Commit, i: nat)
    requires i < |commits| && Current(commits, i)
    ensures Current(commits + [c], i)
  {
    assert (commits + [c])[..i] == commits[..i];
  }

  lemma StateAfterPush(commits: seq<Commit>, c: Commit, key: RunKey)
    ensures StateAfter(commits + [c], key)
         == (var q := LastOn(c.msgs, StateSubject(key.wfID, key.runID));
             if q > 0 then c.msgs[q - 1].record.state.(seqID := c.at + q) else StateAfter(commits, key))
  {
    hide LastOn;
    assert (commits + [c])[..|commits|] == commits;
  }

  lemma GuardHolds(st: Stream, msgs: seq<Message>, r: Record)
    requires Check(st.log, st.ids, msgs) == Committed
    requires Stored(r) in msgs && r.RunStateRecord? && r.expectedSeq > 0
    ensures LastOn(st.log, StateSubject(r.state.wfID, r.state.runID)) == r.expectedSeq
  {
    CheckPasses(st.log, st.ids, msgs);
    var i :| 0 <= i < |msgs| && msgs[i] == Stored(r);
    assert msgs[i].Expected() == r.expectedSeq;
  }

  /** A batch the stream accepts was planned from the run's current state: its one state record expects
      the sequence the state was read at. */
  lemma AcceptedIsCurrent(w: World, x: Handler, c: Commit)
    requires forall key :: RunStateOf(w.stream.log, key) == StateAfter(w.commits, key)
    requires ReadFrom(w.stream.log, x.d.Key(), x.state)
    requires Lawful(c) && c.d == x.d && c.sn.runState == x.state
    requires Check(w.stream.log, w.stream.ids, c.msgs) == Committed
    requires NewState(c.effect, c.sn, c.inp).Some? && !c.effect.move.Begin?
    requires NewState(c.effect, c.sn, c.inp).value.Key() == x.state.Key()
    ensures x.state.seqID > 0 && x.state == StateAfter(w.commits, x.d.Key()) && x.state.Key() == x.d.Key()
  {
    hide StateAfter, Check, LastOn, Fits, StateAt, Puts, LedMessages, TasksIn, QueuedIn, EndsOf, EndEvents;
    var r := StateRecordOf(c);
    GuardHolds(w.stream, c.msgs, r);
    assert RunStateOf(w.stream.log, x.d.Key()) == x.state;
  }

  lemma StateRecordOf(c: Commit) returns (r: Record)
    requires Lawful(c) && NewState(c.effect, c.sn, c.inp).Some? && !c.effect.move.Begin?
    ensures r == RunStateRecord(NewState(c.effect, c.sn, c.inp).value, c.sn.runState.seqID) && Stored(r) in c.msgs
  {
    r := RunStateRecord(NewState(c.effect, c.sn, c.inp).value, c.sn.runState.seqID);
    assert Fits(c.effect, c.sn, c.inp, r);
  }

  /** What a finished handler changes: nothing in the log, or one accepted batch. */
  lemma FinishCases(w: World, h: nat, inp: Inputs, order: seq<string>, fault: Fault, decision: Decision, e: Effect)
    requires h in w.handlers && (decision.Write? ==> OrderFor(decision.batch, order))
    ensures var w' := FinishIn(w, h, inp, order, fault, decision, e);
            && w'.handlers == w.handlers - {h} && w'.fired == w.fired && w'.runs == w.runs && w'.starting == w.starting
            && w'.used == w.used + {inp.newID}
            && (w'.stream == w.stream ==> w'.commits == w.commits && w'.queue == w.queue)
            && (w'.stream != w.stream ==>
                  && decision.Write? && decision.batch != [] && Encodable(decision.batch)
                  && var msgs := BatchMessages(decision.batch, order);
                     && Check(w.stream.log, w.stream.ids, msgs) == Committed
                     && w'.stream == Append(w.stream, msgs) && w'.queue == w.queue + QueuedBy(decision.batch)
                     && w'.commits == w.commits + [Commit(w.handlers[h].d, w.handlers[h].Snapshot(), inp, e, msgs,
                       |w.stream.log|, w.handlers[h].readAt)])
  {
  }

  lemma PushKeepsInv(w: World, w': World, c: Commit)
    requires Inv(w)
    requires w'.stream.log == w.stream.log + c.msgs && w'.commits == w.commits + [c] && c.at == |w.stream.log|
    requires forall h :: h in w'.handlers ==> h in w.handlers && w'.handlers[h] == w.handlers[h]
    requires Lawful(c) && Current(w'.commits, |w.commits|)
    ensures Inv(w')
  {
    hide Lawful, StateAfter, Current, HandlerOK, LastOn;
    forall key ensures RunStateOf(w'.stream.log, key) == StateAfter(w'.commits, key) {
      StateAfterPush(w.commits, c, key);
      LastOnAppend(w.stream.log, c.msgs, StateSubject(key.wfID, key.runID));
    }
    forall h | h in w'.handlers ensures HandlerOK(w'.stream.log, w'.handlers[h]) {
      HandlerStays(w.stream.log, c.msgs, w.handlers[h]);
    }
    forall i | 0 <= i < |w'.commits| ensures Lawful(w'.commits[i]) && Current(w'.commits, i) {
      if i < |w.commits| { CurrentStays(w.commits, c, i); }
    }
  }

  lemma FinishKeepsInv(w: World, h: nat, inp: Inputs, order: seq<string>, fault: Fault, decision: Decision, e: Effect)
    requires Inv(w) && h in w.handlers && w.handlers[h].stage == 3
    requires decision.Write? ==> OrderFor(decision.batch, order)
    requires SoundFinish(w.handlers[h], inp, decision, e)
    ensures Inv(FinishIn(w, h, inp, order, fault, decision, e))
  {
    hide Inv, Lawful, Current, Check, FinishIn, BatchMessages, Encodable, QueuedBy, IDsOf;
    var w' := FinishIn(w, h, inp, order, fault, decision, e);
    FinishCases(w, h, inp, order, fault, decision, e);
    if w'.stream != w.stream {
      var c := w'.commits[|w.commits|];
      CommitIsLawful(c, decision.batch, order);
      HandlerReadFrom(w, h);
      CommitIsCurrent(w, w.handlers[h], c);
      PushKeepsInv(w, w', c);
    } else {
      LoseKeepsInv(w, h);
      AppendKeepsInv(w.(handlers := w.handlers - {h}), w', []);
    }
  }

  lemma CommitIsCurrent(w: World, x: Handler, c: Commit)
    requires Inv(w) && ReadFrom(w.stream.log, x.d.Key(), x.state)
    requires Lawful(c) && c.d == x.d && c.sn.runState == x.state
    requires Check(w.stream.log, w.stream.ids, c.msgs) == Committed
    requires c.effect.move.Begin? ==> c.d.kind == StartKind && c.effect.move.via == c.d
    requires c.effect.move.Stay? ==> c.effect.move.state.Key() == x.state.Key()
    ensures Current(w.commits + [c], |w.commits|)
  {
    hide Lawful, StateAfter, HandlerOK, RunStateOf, Check;
    assert (w.commits + [c])[..|w.commits|] == w.commits;
    if NewState(c.effect, c.sn, c.inp).Some? && !c.effect.move.Begin? {
      AcceptedIsCurrent(w, x, c);
    }
  }

  lemma HandlerIsOK(w: World, h: nat)
    requires Inv(w) && h in w.handlers
    ensures HandlerOK(w.stream.log, w.handlers[h])
  {
  }

  lemma HandlerReadFrom(w: World, h: nat)
    requires Inv(w) && h in w.handlers && w.handlers[h].stage == 3
    ensures ReadFrom(w.stream.log, w.handlers[h].d.Key(), w.handlers[h].state)
  {
    hide Inv;
    HandlerIsOK(w, h);
  }

  lemma LoseKeepsInv(w: World, h: nat)
    requires Inv(w)
    ensures Inv(w.(handlers := w.handlers - {h}))
  {
    hide Lawful, StateAfter, Current, HandlerOK, RunStateOf;
  }

  lemma ReadKeepsInv(w: World, h: nat, x: Handler)
    requires Inv(w) && HandlerOK(w.stream.log, x)
    ensures Inv(w.(handlers := w.handlers[h := x]))
  {
    hide Lawful, StateAfter, Current, HandlerOK, RunStateOf;
  }

  lemma EnqueueKeepsInv(w: World, d: Directive)
    requires Inv(w)
    ensures Inv(EnqueueIn(w, d))
  {
    hide Inv;
    if d.id !in w.stream.ids {
      AppendKeepsInv(w, EnqueueIn(w, d), [Stored(DirectiveRecord(d))]);
    }
  }

  lemma PublishKeepsInv(w: World, a: Action)
    requires Inv(w) && Enabled(w, a)
    requires a.Enqueue? || a.CreateRun? || a.WorkerHistory? || a.Fire? || a.HandleFired?
    ensures Inv(Apply(w, a))
  {
    hide Inv;
    match a {
      case Enqueue(d) =>
        EnqueueKeepsInv(w, d);
        AppendKeepsInv(EnqueueIn(w, d), Apply(w, a), []);
      case CreateRun(info) => AppendKeepsInv(w, Apply(w, a), [Stored(RunInfoRecord(info))]);
      case WorkerHistory(entry) => AppendKeepsInv(w, Apply(w, a), [Stored(HistoryRecord(entry))]);
      case Fire(q) => AppendKeepsInv(w, Apply(w, a), [Fired(w.stream.log[q - 1].record.timer)]);
      case HandleFired(q, newID, now, exhausted, done) =>
        var d := TimeoutDirective(w.stream.log[q - 1].record.timer, newID, now, exhausted);
        EnqueueKeepsInv(w, d);
        AppendKeepsInv(EnqueueIn(w, d), Apply(w, a), []);
    }
  }

  lemma ReadingKeepsInv(w: World, a: Action)
    requires Inv(w) && Enabled(w, a)
    requires a.Deliver? || a.ReadState? || a.ReadHistory? || a.ReadEvent?
    ensures Inv(Apply(w, a))
  {
    hide Inv, LastOn, FirstAfter;
    if !a.Deliver? { HandlerIsOK(w, a.h); }
    match a {
      case Deliver(h, d) => ReadKeepsInv(w, h, Handler(d, 0, NO_STATE, 0, 0, None));
      case ReadState(h) => ReadKeepsInv(w, h, w.handlers[h].(stage := 1,
        state := RunStateOf(w.stream.log, w.handlers[h].d.Key())));
      case ReadHistory(h) =>
        assert w.stream.log[..|w.stream.log|] == w.stream.log;
        ReadKeepsInv(w, h, w.handlers[h].(stage := 2, lastHistory := LastHistory(w.stream.log, w.handlers[h].d.Key()),
          readAt := |w.stream.log|));
      case ReadEvent(h) =>
        ReadKeepsInv(w, h, w.handlers[h].(stage := 3,
                     event := NextEvent(w.stream, w.handlers[h].d.runInfo.wfID, w.handlers[h].state.lastEventSeqID)));
    }
  }

  lemma StepKeepsInv(w: World, a: Action)
    requires Inv(w) && Enabled(w, a) && Sound(w, a)
    ensures Inv(Apply(w, a))
  {
    hide Inv, FinishIn, SoundFinish;
    if a.Enqueue? || a.CreateRun? || a.WorkerHistory? || a.Fire? || a.HandleFired? {
      PublishKeepsInv(w, a);
    } else if a.Deliver? || a.ReadState? || a.ReadHistory? || a.ReadEvent? {
      ReadingKeepsInv(w, a);
    } else if a.Finish? {
      FinishKeepsInv(w, a.h, a.inp, a.order, a.fault, a.decision, a.effect);
    } else if a.Lose? {
      LoseKeepsInv(w, a.h);
    } else {
      AppendKeepsInv(w, Apply(w, a), []);
    }
  }

  lemma InitInv()
    ensures Inv(INIT)
  {
  }

  lemma {:induction false} InvHolds(w: World, n: nat)
    requires Possible(w, n)
    ensures Inv(w)
    decreases n
  {
    hide Inv, Enabled, Honest, Apply;
    if n == 0 {
      InitInv();
    } else {
      var w0, a := PossibleFrom(w, n);
      InvHolds(w0, n - 1);
      HonestIsSound(w0, a);
      StepKeepsInv(w0, a);
    }
  }
}
