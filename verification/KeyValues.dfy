/** The key-value view of a run is the fold of the updates of its committed step results, in commit order and
    whatever the order their maps were iterated in; a result's updates are there exactly if its history is. */
module KeyValues {
  import opened Types
  import opened Stream
  import opened Wire
  import opened Effects
  import opened Moves
  import opened Protocol
  import opened Worlds
  import opened Serial
  import opened Discipline
  import opened Bookkeeping
  import opened Steps
  import opened Stretches
  import StepRecords
  import Views

  /** The last value written under a key of a run. */
  function Lookup(log: seq<Message>, key: RunKey, k: string): Option<Value> {
    var q := LastOn(log, KVSubject(key.wfID, key.runID, k));
    if q > 0 && log[q - 1].KVPut? then Some(log[q - 1].value) else None
  }

  /** The value a step result puts under a key. */
  function Update(d: Directive, k: string): Option<Value> {
    if d.kind == StepResultKind && d.msg.StepResultMsg? && d.msg.kvUpdates.Some? && k in d.msg.kvUpdates.value
    then Some(d.msg.kvUpdates.value[k]) else None
  }

  /** The updates of the committed step results of a run, applied one after the other. */
  function Folded(commits: seq<Commit>, key: RunKey, k: string): Option<Value> {
    if commits == [] then None
    else
      var c := commits[|commits| - 1];
      if c.d.Key() == key && Update(c.d, k).Some? then Update(c.d, k) else Folded(commits[..|commits| - 1], key, k)
  }

  lemma FoldedPush(commits: seq<Commit>, c: Commit, key: RunKey, k: string)
    ensures Folded(commits + [c], key, k) == if c.d.Key() == key && Update(c.d, k).Some? then Update(c.d, k)
      else Folded(commits, key, k)
  {
    assert (commits + [c])[..|commits|] == commits;
  }

  lemma UpdatesPut(c: Commit, m: Message)
    requires Tame(c.d) && c.effect.Effect? && Explains(c.d, c.sn, c.inp, c.effect) && m.KVPut?
    ensures Puts(c.effect.before.kvs, m) <==>
      RunKey(m.wfID, m.runID) == c.d.Key() && Update(c.d, m.key) == Some(m.value)
  {
    hide ExplainsResult, StaleStep, StaleWait;
    if c.d.kind == StepResultKind && c.d.msg.kvUpdates.Some? {
      var r := StepRecords.KVUpdate(c.d)[0];
      assert c.effect.before.kvs == [r];
      assert Puts([r], m) <==> PutBy(r, m) by { if PutBy(r, m) { assert r in [r]; } }
    }
  }

  /** What a batch writes under a key of a run. */
  lemma BatchPuts(c: Commit, key: RunKey, k: string)
    requires Tame(c.d) && Explains(c.d, c.sn, c.inp, c.effect) && Lawful(c)
    ensures var q := LastOn(c.msgs, KVSubject(key.wfID, key.runID, k));
            if c.d.Key() == key && Update(c.d, k).Some? then q > 0 && c.msgs[q - 1].KVPut? &&
              Some(c.msgs[q - 1].value) == Update(c.d, k) else q == 0
  {
    hide Explains, Tame, Lawful, LastOn, Update;
    LawfulShape(c);
    var s := KVSubject(key.wfID, key.runID, k);
    var q := LastOn(c.msgs, s);
    forall m: Message | m.KVPut?
      ensures m in c.msgs <==> RunKey(m.wfID, m.runID) == c.d.Key() && Update(c.d, m.key) == Some(m.value)
    {
      LawfulPuts(c, m);
      UpdatesPut(c, m);
    }
    if q > 0 { LawfulKV(c, c.msgs[q - 1]); }
    if c.d.Key() == key && Update(c.d, k).Some? {
      var m := KVPut(key.wfID, key.runID, k, Update(c.d, k).value);
      assert m in c.msgs && m.Subject() == s;
    }
  }

  lemma LawfulPuts(c: Commit, m: Message)
    requires Lawful(c) && m.KVPut?
    ensures m in c.msgs <==> Puts(c.effect.before.kvs, m)
  {
    hide Fits, StateAt, Puts, LedMessages, TasksIn, QueuedIn, EndsOf, Views.EndEvents;
  }

  lemma LawfulKV(c: Commit, m: Message)
    requires Lawful(c) && m in c.msgs && m.Subject().KVSubject?
    ensures m.KVPut?
  {
    hide Fits, StateAt, Puts, LedMessages, TasksIn, QueuedIn, EndsOf, Views.EndEvents;
  }

  lemma AcceptedKeepsFold(w: World, w': World, h: nat, c: Commit, key: RunKey, k: string)
    requires Good(w) && Accepted(w, w', h, c) && Lookup(w.stream.log, key, k) == Folded(w.commits, key, k)
    ensures Lookup(w'.stream.log, key, k) == Folded(w'.commits, key, k)
  {
    hide Good, Accepted, Explains, Tame, Lawful, StateOK, EventOK, Root, ViaOK, LastOn, Folded, Update, Grounded,
      WellFormed;
    AcceptedFacts(w, w', h, c);
    var s := KVSubject(key.wfID, key.runID, k);
    BatchPuts(c, key, k);
    LastOnAppend(w.stream.log, c.msgs, s);
    FoldedPush(w.commits, c, key, k);
    var q := LastOn(c.msgs, s);
    if q > 0 { assert w'.stream.log[|w.stream.log| + q - 1] == c.msgs[q - 1]; }
  }

  lemma NotedKeepsFold(w: World, w': World, key: RunKey, k: string)
    requires Noted(w, w')
    ensures Lookup(w'.stream.log, key, k) == Lookup(w.stream.log, key, k)
  {
    hide LastOn, FreshID, Grows;
    var more, s := w'.stream.log[|w.stream.log|..], KVSubject(key.wfID, key.runID, k);
    assert w'.stream.log == w.stream.log + more;
    forall i {:trigger more[i]} | 0 <= i < |more| ensures more[i].Subject() != s {
      assert more[i] == w'.stream.log[|w.stream.log| + i];
    }
    LastOnIs(more, s, 0);
    LastOnAppend(w.stream.log, more, s);
  }

  /** The last value in the log under each key of a run is what folding the updates of its committed step results
      gives, in every run of the system. */
  lemma {:induction false} ViewIsFold(w: World, n: nat, key: RunKey, k: string)
    requires Reached(w, n)
    ensures Lookup(w.stream.log, key, k) == Folded(w.commits, key, k)
    decreases n
  {
    hide Good, Lookup, Folded, Apply, Enabled, Honest, Allowed, Accepted, Noted;
    if n == 0 {
      NothingAtFirst(key, k);
    } else {
      var w0, a := ReachedFrom(w, n);
      ViewIsFold(w0, n - 1, key, k);
      GoodHolds(w0, n - 1);
      var h, c := StepKinds(w0, a);
      if c.Some? {
        AcceptedKeepsFold(w0, Apply(w0, a), h, c.value, key, k);
      } else {
        NotedKeepsFold(w0, Apply(w0, a), key, k);
        NotedCommits(w0, Apply(w0, a));
      }
    }
  }

  lemma NothingAtFirst(key: RunKey, k: string)
    ensures Lookup(INIT.stream.log, key, k) == Folded(INIT.commits, key, k)
  {
  }

  /* Updates and history */

  /** What a finished step leaves in the log: its key-value messages, or the history of its end. */
  predicate IsTrace(m: Message) { m.KVPut? || IsStepEnd(m) }

  predicate IsStepEnd(m: Message) {
    m.Stored? && m.record.HistoryRecord? && (m.record.history.msg.StepCompleted? || m.record.history.msg.StepFailed?)
  }

  lemma TraceIsInside(m: Message)
    requires IsTrace(m)
    ensures !Outside(m)
  {
  }

  /** The batch of a step result holds the history of the end of the step and exactly the updates of the result; no
      other batch holds either. */
  lemma BatchTraces(c: Commit, m: Message)
    requires Tame(c.d) && Explains(c.d, c.sn, c.inp, c.effect) && Lawful(c)
    ensures m in c.msgs && IsTrace(m) ==> c.d.kind == StepResultKind
    ensures m.KVPut? ==> (m in c.msgs <==> RunKey(m.wfID, m.runID) == c.d.Key() && Update(c.d, m.key) == Some(m.value))
  {
    hide Explains, Tame, Lawful;
    LawfulShape(c);
    if m.KVPut? {
      LawfulPuts(c, m);
      UpdatesPut(c, m);
    } else if m in c.msgs && m.Stored? {
      Member(c, m.record);
      HistoryOfResult(c, m.record);
    }
  }

  lemma HistoryOfResult(c: Commit, r: Record)
    requires Tame(c.d) && Explains(c.d, c.sn, c.inp, c.effect) && c.effect.Effect? && WellFormed(c.effect)
    requires Fits(c.effect, c.sn, c.inp, r)
    ensures IsStepEnd(Stored(r)) ==> c.d.kind == StepResultKind
  {
    hide ExplainsResult, StaleStep, StaleWait;
  }

  lemma ResultHistory(c: Commit) returns (h: HistoryEvent)
    requires Tame(c.d) && Explains(c.d, c.sn, c.inp, c.effect) && Lawful(c) && c.d.kind == StepResultKind
    ensures Stored(HistoryRecord(h)) in c.msgs && IsStepEnd(Stored(HistoryRecord(h))) && c.d.msg.StepResultMsg?
    ensures RunKey(h.wfID, h.runID) == c.d.Key() && (h.msg.StepFailed? <==> c.d.msg.nextKind == FailStepKind)
  {
    hide Lawful, ExplainsResult;
    LawfulShape(c);
    h := c.effect.before.history[0];
    Member(c, HistoryRecord(h));
  }

  /** The updates of a step are visible exactly if its history is. A key-value message or the end of a step in the log
      is in the stretch of a step result of its run, and that stretch holds the history of the end of the step and,
      of key-value messages, exactly the updates of the result. */
  lemma UpdatesWithHistory(w: World, n: nat, q: nat) returns (c: Commit, h: HistoryEvent)
    requires Reached(w, n) && q < |w.stream.log| && IsTrace(w.stream.log[q])
    ensures c in w.commits && c.d.kind == StepResultKind && c.d.msg.StepResultMsg? && Within(c, q)
    ensures c.at + |c.msgs| <= |w.stream.log|
    ensures var stretch := w.stream.log[c.at..c.at + |c.msgs|];
            && Stored(HistoryRecord(h)) in stretch && RunKey(h.wfID, h.runID) == c.d.Key()
            && (if c.d.msg.nextKind == FailStepKind then h.msg.StepFailed? else h.msg.StepCompleted?)
            && forall m: Message :: m.KVPut? ==>
                 (m in stretch <==> RunKey(m.wfID, m.runID) == c.d.Key() && Update(c.d, m.key) == Some(m.value))
  {
    hide Reached, Good, Explains, Tame, Lawful, Grounded, Current, StateOK, EventOK, Update, IsTrace;
    PlacedHolds(w, n);
    GoodHolds(w, n);
    TraceIsInside(w.stream.log[q]);
    var i := BatchAt(w, q);
    c := w.commits[i];
    BatchFacts(w, i);
    BatchTraces(c, w.stream.log[q]);
    h := ResultHistory(c);
    forall m: Message | m.KVPut?
      ensures m in c.msgs <==> RunKey(m.wfID, m.runID) == c.d.Key() && Update(c.d, m.key) == Some(m.value)
    {
      BatchTraces(c, m);
    }
  }

  /** So the batch of a step result is in the log exactly if the end of its step is, and then so are its updates. */
  lemma ResultIsVisible(w: World, n: nat, i: nat)
    requires Reached(w, n) && i < |w.commits|
    ensures var c := w.commits[i];
            && c.at + |c.msgs| <= |w.stream.log|
            && ((exists q: nat :: Within(c, q) && q < |w.stream.log| && IsStepEnd(w.stream.log[q])) <==>
              c.d.kind == StepResultKind)
  {
    hide Reached, Good, Explains, Tame, Lawful, Grounded, Current, StateOK, EventOK, IsStepEnd;
    PlacedHolds(w, n);
    GoodHolds(w, n);
    BatchFacts(w, i);
    var c := w.commits[i];
    assert c in w.commits && PlacedAt(w.stream.log, c);
    if c.d.kind == StepResultKind {
      var h := ResultHistory(c);
      var j :| 0 <= j < |c.msgs| && c.msgs[j] == Stored(HistoryRecord(h));
      assert w.stream.log[c.at..c.at + |c.msgs|][j] == w.stream.log[c.at + j];
      assert Within(c, c.at + j);
    }
    forall q: nat | Within(c, q) && q < |w.stream.log| && IsStepEnd(w.stream.log[q])
      ensures c.d.kind == StepResultKind
    {
      assert w.stream.log[c.at..c.at + |c.msgs|][q - c.at] == w.stream.log[q];
      BatchTraces(c, w.stream.log[q]);
    }
  }
}
