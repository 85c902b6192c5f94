/** Run info and run state never drift apart, and of the runs of a workflow ID at most one is active. */
module Status {
  import opened Types
  import opened Stream
  import opened Effects
  import opened Moves
  import opened Protocol
  import opened Worlds
  import opened Serial
  import opened Discipline
  import opened Bookkeeping
  import opened Steps
  import opened Terminal
  import opened Acknowledged
  import opened Entries
  import opened Guard

  /* Run info follows run state */

  function InfoSubjectOf(ri: RunInfo): Subject { InfoSubject(ri.wfType, ri.wfID, ri.id) }

  function InfoAt(log: seq<Message>, q: nat): Option<RunInfo> {
    if 1 <= q <= |log| && log[q - 1].Stored? && log[q - 1].record.RunInfoRecord? then Some(log[q - 1].record.info)
      else None
  }

  /** The last info written for a run: as it was created while the run has not started, and in step with the
      run's state from then on. */
  predicate InStep(w: World, key: RunKey) {
    key in w.runs ==>
      var s, last := RunStateOf(w.stream.log, key),
        InfoAt(w.stream.log, LastOn(w.stream.log, InfoSubjectOf(w.runs[key])));
      last.Some? && (if s == NO_STATE then last.value == w.runs[key] else last.value.status == StatusFor(s.kind))
  }

  function InfosOf(c: Commit): seq<RunInfo> {
    if WellFormed(c.effect) then NewInfos(c.effect, c.sn, c.inp) else []
  }

  /** Every info of a batch has the status that goes with the state the batch leaves the run in. */
  lemma InfoStatus(c: Commit, info: RunInfo)
    requires Grounded(c) && info in InfosOf(c)
    ensures Written(c).Some? && info.status == StatusFor(Written(c).value.kind)
  {
  }

  lemma InfoWritten(c: Commit)
    requires Grounded(c)
    ensures InfosOf(c) == [] <==> c.effect.move.Stay? || c.effect.move.Receive?
  {
  }

  /** The infos of a batch are those of its run. */
  lemma OwnInfo(w: World, w': World, h: nat, c: Commit, info: RunInfo)
    requires Good(w) && Accepted(w, w', h, c) && Stored(RunInfoRecord(info)) in c.msgs
    ensures info.Key() == c.d.Key() && info in InfosOf(c) && info.Key() in w.runs
    ensures InfoSubjectOf(info) == InfoSubjectOf(w.runs[c.d.Key()])
  {
    hide Good, Accepted, Explains, Tame, Lawful, StateOK, EventOK, Root, NewInfos, Grounded;
    AcceptedFacts(w, w', h, c);
    Member(c, RunInfoRecord(info));
    InfoIsOwn(c, info);
    InfosOK(w.runs, w.used + {c.inp.newID}, c, info);
  }

  /** Where a batch puts the last info of a run. */
  lemma LastInfoAfter(w: World, w': World, h: nat, c: Commit, key: RunKey)
    requires key in w.runs && Good(w) && Accepted(w, w', h, c)
    ensures var s := InfoSubjectOf(w.runs[key]);
            var last, last' := InfoAt(w.stream.log, LastOn(w.stream.log, s)),
              InfoAt(w'.stream.log, LastOn(w'.stream.log, s));
            if c.d.Key() == key && InfosOf(c) != [] then last'.Some? && last'.value in InfosOf(c) else last' == last
  {
    hide Good, Accepted, Explains, Tame, Lawful, StateOK, EventOK, Root, InfosOf, Grounded, ViaOK, LastOn;
    AcceptedFacts(w, w', h, c);
    var s := InfoSubjectOf(w.runs[key]);
    LastOnAppend(w.stream.log, c.msgs, s);
    var k := LastOn(c.msgs, s);
    RunKeyOf(w, key);
    if k > 0 {
      OwnInfo(w, w', h, c, c.msgs[k - 1].record.info);
      assert w'.stream.log[|w.stream.log| + k - 1] == c.msgs[k - 1];
    } else if c.d.Key() == key && InfosOf(c) != [] {
      SomeInfo(w, w', h, c);
    }
  }

  lemma SomeInfo(w: World, w': World, h: nat, c: Commit)
    requires Good(w) && Accepted(w, w', h, c) && InfosOf(c) != [] && c.d.Key() in w.runs
    ensures LastOn(c.msgs, InfoSubjectOf(w.runs[c.d.Key()])) > 0
  {
    hide Good, Accepted, Explains, Tame, Lawful, StateOK, EventOK, Root, NewInfos, Grounded, ViaOK, LastOn;
    AcceptedFacts(w, w', h, c);
    var info := InfosOf(c)[0];
    Member(c, RunInfoRecord(info));
    var i :| 0 <= i < |c.msgs| && c.msgs[i] == Stored(RunInfoRecord(info));
    OwnInfo(w, w', h, c, info);
    assert c.msgs[i].Subject() == InfoSubjectOf(info);
  }

  lemma RunKeyOf(w: World, key: RunKey)
    requires Good(w) && key in w.runs
    ensures w.runs[key].Key() == key
  {
    hide Inv, Journal, QueueOK, LogOK, IDsOK, HandlersOK, CommitsOK;
  }

  lemma AcceptedKeepsInStep(w: World, w': World, h: nat, c: Commit, key: RunKey)
    requires Good(w) && Good(w') && Accepted(w, w', h, c) && InStep(w, key)
    ensures InStep(w', key)
  {
    hide Good, Accepted, Explains, Tame, Lawful, StateOK, EventOK, Root, InfosOf, ViaOK, LastOn, RunStateOf,
      NewState, Grounded;
    AcceptedFacts(w, w', h, c);
    if key in w.runs {
      LastInfoAfter(w, w', h, c, key);
      AcceptedState(w, w', h, c, key);
      WrittenKey(c);
      InfoWritten(c);
      if c.d.Key() == key && InfosOf(c) != [] {
        InfoStatus(c, InfoAt(w'.stream.log, LastOn(w'.stream.log, InfoSubjectOf(w.runs[key]))).value);
      } else if c.d.Key() == key && c.effect.move.Stay? {
        WrittenStays(c);
      }
    }
  }

  lemma NotedKeepsInStep(w: World, w': World, key: RunKey)
    requires Good(w) && Noted(w, w') && w'.runs == w.runs && InStep(w, key)
    ensures InStep(w', key)
  {
    hide Good, RunStateOf, LastOn, FreshID;
    NotedKeepsState(w, w', key);
    if key in w.runs {
      var more, s := w'.stream.log[|w.stream.log|..], InfoSubjectOf(w.runs[key]);
      assert w'.stream.log == w.stream.log + more;
      RunKeyOf(w, key);
      forall i {:trigger more[i]} | 0 <= i < |more| ensures more[i].Subject() != s {
        assert more[i] == w'.stream.log[|w.stream.log| + i];
      }
      LastOnIs(more, s, 0);
      LastOnAppend(w.stream.log, more, s);
    }
  }

  lemma StateIsOfRun(w: World, key: RunKey)
    requires Good(w)
    ensures RunStateOf(w.stream.log, key) == NO_STATE || key in w.runs
  {
    hide Inv, Journal, QueueOK, IDsOK, HandlersOK, CommitsOK, RunsOK, LastOn;
    var q := LastOn(w.stream.log, StateSubject(key.wfID, key.runID));
    if q > 0 { assert MessageOK(w.runs, w.queue, w.stream.log[q - 1]); }
  }

  lemma CreateKeepsInStep(w: World, a: Action, key: RunKey)
    requires Good(w) && a.CreateRun? && Enabled(w, a) && Allowed(w, a) && InStep(w, key)
    ensures InStep(Apply(w, a), key)
  {
    hide Good, RunStateOf, LastOn, IDsOf;
    var m := Stored(RunInfoRecord(a.info));
    SameStateAfter(w.stream.log, m, key);
    NewKey(w, a.info);
    if key in Apply(w, a).runs {
      var s := InfoSubjectOf(Apply(w, a).runs[key]);
      LastOnAppend(w.stream.log, [m], s);
      if key == a.info.Key() {
        StateIsOfRun(w, key);
        LastOnIs([m], s, 1);
      } else {
        RunKeyOf(w, key);
        LastOnIs([m], s, 0);
      }
    }
  }

  lemma NewKey(w: World, info: RunInfo)
    requires Good(w) && w.starting == Some(info)
    ensures info.Key() !in w.runs
  {
    hide Inv, Journal, QueueOK, LogOK, IDsOK, HandlersOK, CommitsOK;
  }

  lemma OnlyCreateAdds(w: World, a: Action)
    requires Enabled(w, a) && !a.CreateRun?
    ensures Apply(w, a).runs == w.runs
  {
    hide Wire.Commit, Wire.OrderFor, Wire.BatchMessages, TimeoutDirective, RunStateOf, NextEvent;
  }

  lemma StepKeepsInStep(w: World, a: Action, key: RunKey)
    requires Good(w) && Enabled(w, a) && Honest(w, a) && Allowed(w, a) && Good(Apply(w, a)) && InStep(w, key)
    ensures InStep(Apply(w, a), key)
  {
    hide Good, Honest, Allowed, Apply, Enabled, Accepted, Noted, InStep;
    if a.CreateRun? {
      CreateKeepsInStep(w, a, key);
    } else {
      OnlyCreateAdds(w, a);
      var h, c := StepKinds(w, a);
      if c.Some? {
        AcceptedKeepsInStep(w, Apply(w, a), h, c.value, key);
      } else {
        NotedKeepsInStep(w, Apply(w, a), key);
      }
    }
  }

  lemma {:induction false} InStepHolds(w: World, n: nat, key: RunKey)
    requires Reached(w, n)
    ensures InStep(w, key)
    decreases n
  {
    hide Good, InStep, Apply, Enabled, Honest, Allowed;
    GoodHolds(w, n);
    if n == 0 {
      InStepAtFirst(key);
    } else {
      var w0, a := ReachedFrom(w, n);
      InStepHolds(w0, n - 1, key);
      GoodHolds(w0, n - 1);
      StepKeepsInStep(w0, a, key);
    }
  }

  lemma InStepAtFirst(key: RunKey)
    ensures InStep(INIT, key)
  {
  }

  /** Run info and run state never drift: of a run that has a state, the last info has the status of that state,
      though some batches write only one of the two. */
  lemma InfoFollowsState(w: World, n: nat, key: RunKey)
    requires Reached(w, n) && key in w.runs && RunStateOf(w.stream.log, key) != NO_STATE
    ensures var last := InfoAt(w.stream.log, LastOn(w.stream.log, InfoSubjectOf(w.runs[key])));
            last.Some? && last.value.status == StatusFor(RunStateOf(w.stream.log, key).kind)
  {
    hide Reached, RunStateOf, LastOn, StatusFor;
    InStepHolds(w, n, key);
  }

  /* One active run per workflow ID */

  /** All runs of the workflow ID have ended, except the one that owns its last info. */
  predicate OnlyLast(w: World, wfID: WFID) {
    forall key :: key in w.runs && key.wfID == wfID && !RunStateOf(w.stream.log, key).IsTerminal() ==>
      Owns(w.stream.log, key)
  }

  /** The last info of the workflow ID, which is what a look-up by workflow ID returns, is one of the run. */
  predicate Owns(log: seq<Message>, key: RunKey) {
    var last := InfoAt(log, LastInfo(log, key.wfID));
    last.Some? && last.value.Key() == key
  }

  /** A start request that has passed its check still finds all runs of the workflow ID ended. */
  predicate CheckStands(w: World) {
    w.starting.Some? ==>
      && !w.starting.value.status.IsTerminal()
      && forall key :: key in w.runs && key.wfID == w.starting.value.wfID ==> RunStateOf(w.stream.log, key).IsTerminal()
  }

  predicate CreatedLive(w: World) {
    forall key :: key in w.runs ==> !w.runs[key].status.IsTerminal()
  }

  ghost predicate OneActive(w: World) {
    (forall wfID :: OnlyLast(w, wfID)) && CheckStands(w) && CreatedLive(w)
  }

  lemma {:induction false} LastInfoAppend(log: seq<Message>, more: seq<Message>, wfID: WFID)
    ensures LastInfo(log + more, wfID) == if LastInfo(more, wfID) > 0 then |log| + LastInfo(more, wfID)
      else LastInfo(log, wfID)
  {
    if more == [] {
      assert log + more == log;
    } else {
      assert (log + more)[..|log + more| - 1] == log + more[..|more| - 1];
      LastInfoAppend(log, more[..|more| - 1], wfID);
    }
  }

  /** Owning the last info survives messages that are no infos of the workflow ID, or are the run's own. */
  lemma OwnsStays(log: seq<Message>, more: seq<Message>, key: RunKey)
    requires forall m :: m in more && m.Subject().InfoSubject? && m.record.info.wfID == key.wfID ==>
      m.record.info.Key() == key
    requires Owns(log, key) || exists m :: m in more && m.Subject().InfoSubject? && m.record.info.wfID == key.wfID
    ensures Owns(log + more, key)
  {
    hide LastInfo;
    LastInfoAppend(log, more, key.wfID);
    var k := LastInfo(more, key.wfID);
    if k > 0 {
      assert (log + more)[|log| + k - 1] == more[k - 1] && more[k - 1] in more;
    }
  }

  /** A run that is not over yet is the one whose infos a batch of the workflow ID may add. */
  lemma WritesAsOwner(w: World, w': World, h: nat, c: Commit, info: RunInfo)
    requires Good(w) && Good(w') && Accepted(w, w', h, c) && Stored(RunInfoRecord(info)) in c.msgs
    ensures info.Key() == c.d.Key() && c.d.Key() in w.runs && !RunStateOf(w.stream.log, c.d.Key()).IsTerminal()
  {
    hide Good, Accepted, Explains, Tame, Lawful, StateOK, EventOK, Root, InfosOf, ViaOK, RunStateOf, NewState, Grounded;
    AcceptedFacts(w, w', h, c);
    OwnInfo(w, w', h, c, info);
    AcceptedState(w, w', h, c, c.d.Key());
    WrittenKey(c);
    InfoWritten(c);
    WrittenIsLive(c);
  }

  lemma AcceptedKeepsOwner(w: World, w': World, h: nat, c: Commit, key: RunKey)
    requires Good(w) && Good(w') && Accepted(w, w', h, c) && OnlyLast(w, key.wfID) && key in w.runs
    requires Owns(w.stream.log, key)
    ensures Owns(w'.stream.log, key)
  {
    hide Good, Accepted, Explains, Tame, Lawful, StateOK, EventOK, Root, ViaOK, RunStateOf, Grounded, LastInfo,
      WellFormed;
    AcceptedFacts(w, w', h, c);
    forall m | m in c.msgs && m.Subject().InfoSubject? && m.record.info.wfID == key.wfID
      ensures m.record.info.Key() == key
    {
      WritesAsOwner(w, w', h, c, m.record.info);
    }
    OwnsStays(w.stream.log, c.msgs, key);
  }

  lemma AcceptedKeepsOnlyLast(w: World, w': World, h: nat, c: Commit, wfID: WFID)
    requires Good(w) && Good(w') && Accepted(w, w', h, c) && OnlyLast(w, wfID)
    ensures OnlyLast(w', wfID)
  {
    hide Good, Accepted, RunStateOf, Owns, Explains, Tame, Lawful, StateOK, EventOK, ViaOK, Grounded, WellFormed;
    AcceptedFacts(w, w', h, c);
    forall key | key in w'.runs && key.wfID == wfID && !RunStateOf(w'.stream.log, key).IsTerminal()
      ensures Owns(w'.stream.log, key)
    {
      WasLive(w, w', h, c, key);
      AcceptedKeepsOwner(w, w', h, c, key);
    }
  }

  lemma WasLive(w: World, w': World, h: nat, c: Commit, key: RunKey)
    requires Good(w) && Good(w') && Accepted(w, w', h, c) && !RunStateOf(w'.stream.log, key).IsTerminal()
    ensures !RunStateOf(w.stream.log, key).IsTerminal()
  {
    hide Good, Accepted, RunStateOf, Explains, Tame, Lawful, StateOK, EventOK, ViaOK, Grounded, WellFormed, NewState;
    AcceptedFacts(w, w', h, c);
    AcceptedState(w, w', h, c, key);
    WrittenIsLive(c);
  }

  lemma NotedKeepsOnlyLast(w: World, w': World, wfID: WFID)
    requires Good(w) && Noted(w, w') && w'.runs == w.runs && Good(w') && OnlyLast(w, wfID)
    ensures OnlyLast(w', wfID)
  {
    hide Good, RunStateOf, LastInfo, FreshID, Grows;
    var more := w'.stream.log[|w.stream.log|..];
    assert w'.stream.log == w.stream.log + more;
    forall key | key in w'.runs && key.wfID == wfID && !RunStateOf(w'.stream.log, key).IsTerminal()
      ensures Owns(w'.stream.log, key)
    {
      NotedKeepsState(w, w', key);
      forall m | m in more ensures !m.Subject().InfoSubject? { NoInfoNoted(w, w', m); }
      OwnsStays(w.stream.log, more, key);
    }
  }

  lemma NoInfoNoted(w: World, w': World, m: Message)
    requires Good(w) && Good(w') && Noted(w, w') && w'.runs == w.runs && m in w'.stream.log[|w.stream.log|..]
    ensures !m.Subject().InfoSubject?
  {
    hide Good, FreshID, Grows;
    var i :| |w.stream.log| <= i < |w'.stream.log| && w'.stream.log[i] == m;
    assert OutsideOf(w, m);
    InfoIsOfRun(w', m);
  }

  lemma InfoIsOfRun(w: World, m: Message)
    requires Good(w) && m in w.stream.log
    ensures m.Stored? && m.record.RunInfoRecord? ==> m.record.info.Key() in w.runs
  {
    hide Inv, Journal, QueueOK, IDsOK, HandlersOK, CommitsOK, RunsOK;
    assert MessageOK(w.runs, w.queue, m);
  }

  /* Creating runs */

  lemma LastIsLast(w: World, key: RunKey)
    requires Good(w) && key in w.runs && Owns(w.stream.log, key)
    ensures LastOn(w.stream.log, InfoSubjectOf(w.runs[key])) == LastInfo(w.stream.log, key.wfID)
  {
    hide Good, LastOn, LastInfo;
    var q := LastInfo(w.stream.log, key.wfID);
    InfoIsRegistered(w, w.stream.log[q - 1].record.info);
    RunKeyOf(w, key);
    LastOnIs(w.stream.log, InfoSubjectOf(w.runs[key]), q);
  }

  lemma InfoIsRegistered(w: World, info: RunInfo)
    requires Good(w) && Stored(RunInfoRecord(info)) in w.stream.log
    ensures Registered(w.runs, info)
  {
    hide Inv, Journal, QueueOK, IDsOK, HandlersOK, CommitsOK, RunsOK, Registered;
    assert MessageOK(w.runs, w.queue, Stored(RunInfoRecord(info)));
  }

  /** The check a start request makes is right: if the last info of the workflow ID says that its run has ended,
      all its runs have. */
  lemma CheckIsRight(w: World, info: RunInfo, key: RunKey)
    requires Good(w) && OnlyLast(w, info.wfID) && CreatedLive(w) && InStep(w, key) && MayStart(w, info)
    requires key in w.runs && key.wfID == info.wfID
    ensures RunStateOf(w.stream.log, key).IsTerminal()
  {
    hide Good, LastOn, LastInfo, RunStateOf;
    if Owns(w.stream.log, key) { LastIsLast(w, key); }
  }

  lemma CreateKeepsOnlyLast(w: World, a: Action, wfID: WFID)
    requires Good(w) && a.CreateRun? && Enabled(w, a) && Allowed(w, a) && OnlyLast(w, wfID) && CheckStands(w)
    ensures OnlyLast(Apply(w, a), wfID)
  {
    hide Good, RunStateOf, LastInfo, IDsOf, Owns;
    var w', m := Apply(w, a), Stored(RunInfoRecord(a.info));
    forall key | key in w'.runs && key.wfID == wfID && !RunStateOf(w'.stream.log, key).IsTerminal()
      ensures Owns(w'.stream.log, key)
    {
      SameStateAfter(w.stream.log, m, key);
      if key == a.info.Key() { assert m in [m]; }
      OwnsStays(w.stream.log, [m], key);
    }
  }

  lemma AcceptedKeepsCheck(w: World, w': World, h: nat, c: Commit)
    requires Good(w) && Good(w') && Accepted(w, w', h, c) && CheckStands(w)
    ensures CheckStands(w')
  {
    hide Good, Accepted, RunStateOf, Explains, Tame, Lawful, StateOK, EventOK, ViaOK, Grounded, WellFormed;
    AcceptedFacts(w, w', h, c);
    AcceptedStarting(w, w', h, c);
    if w'.starting.Some? {
      forall key | key in w'.runs && key.wfID == w'.starting.value.wfID
        ensures RunStateOf(w'.stream.log, key).IsTerminal()
      {
        if !RunStateOf(w'.stream.log, key).IsTerminal() { WasLive(w, w', h, c, key); }
      }
    }
  }

  lemma AcceptedStarting(w: World, w': World, h: nat, c: Commit)
    requires Accepted(w, w', h, c)
    ensures w'.starting == w.starting && w'.runs == w.runs
  {
    hide Lawful, Current, CommitOK, Grounded, Check, Append, RunStateOf;
  }

  lemma AcceptedKeepsOneActive(w: World, w': World, h: nat, c: Commit)
    requires Good(w) && Good(w') && Accepted(w, w', h, c) && OneActive(w)
    ensures OneActive(w')
  {
    hide Good, Accepted, OnlyLast, CheckStands;
    AcceptedStarting(w, w', h, c);
    AcceptedKeepsCheck(w, w', h, c);
    forall wfID ensures OnlyLast(w', wfID) { AcceptedKeepsOnlyLast(w, w', h, c, wfID); }
  }

  lemma NotedKeepsOneActive(w: World, a: Action)
    requires Good(w) && Enabled(w, a) && Allowed(w, a) && !a.CreateRun? && Good(Apply(w, a)) && Noted(w, Apply(w, a))
    requires OneActive(w)
    requires forall key :: InStep(w, key)
    ensures OneActive(Apply(w, a))
  {
    hide Good, Noted, OnlyLast, CheckStands, MayEnqueue, FreshID, OwnInbox, InStep, Apply, Enabled, MayStart,
      RunStateOf;
    OnlyCreateAdds(w, a);
    forall wfID ensures OnlyLast(Apply(w, a), wfID) { NotedKeepsOnlyLast(w, Apply(w, a), wfID); }
    if a.CheckStart? { CheckKeepsCheck(w, a); } else { NotedKeepsCheck(w, a); }
  }

  lemma CheckKeepsCheck(w: World, a: Action)
    requires Good(w) && a.CheckStart? && Enabled(w, a) && Allowed(w, a) && OneActive(w) && forall key :: InStep(w, key)
    ensures CheckStands(Apply(w, a))
  {
    hide Good, OnlyLast, RunStateOf, InStep;
    forall key | key in w.runs && key.wfID == a.info.wfID
      ensures RunStateOf(w.stream.log, key).IsTerminal()
    {
      CheckIsRight(w, a.info, key);
    }
  }

  lemma NotedKeepsCheck(w: World, a: Action)
    requires Enabled(w, a) && !a.CheckStart? && !a.CreateRun? && Noted(w, Apply(w, a)) && CheckStands(w)
    ensures CheckStands(Apply(w, a))
  {
    hide RunStateOf, Noted, Apply, Enabled;
    OnlyCreateAdds(w, a);
    SameStarting(w, a);
    forall key
      ensures RunStateOf(Apply(w, a).stream.log, key) == RunStateOf(w.stream.log, key)
    {
      NotedKeepsState(w, Apply(w, a), key);
    }
  }

  lemma SameStarting(w: World, a: Action)
    requires Enabled(w, a) && !a.CheckStart? && !a.CreateRun?
    ensures Apply(w, a).starting == w.starting
  {
    hide Wire.Commit, Wire.OrderFor, Wire.BatchMessages, TimeoutDirective, RunStateOf, NextEvent;
  }

  lemma CreateKeepsOneActive(w: World, a: Action)
    requires Good(w) && a.CreateRun? && Enabled(w, a) && Allowed(w, a) && OneActive(w)
    ensures OneActive(Apply(w, a))
  {
    hide Good, OnlyLast, RunStateOf, IDsOf;
    forall wfID ensures OnlyLast(Apply(w, a), wfID) { CreateKeepsOnlyLast(w, a, wfID); }
  }

  lemma {:induction false} OneActiveHolds(w: World, n: nat)
    requires Reached(w, n)
    ensures OneActive(w)
    decreases n
  {
    hide Good, OneActive, InStep, Apply, Enabled, Honest, Allowed, Accepted, Noted;
    GoodHolds(w, n);
    if n == 0 {
      OneActiveAtFirst();
    } else {
      var w0, a := ReachedFrom(w, n);
      OneActiveHolds(w0, n - 1);
      GoodHolds(w0, n - 1);
      forall key ensures InStep(w0, key) { InStepHolds(w0, n - 1, key); }
      var h, c := StepKinds(w0, a);
      if a.CreateRun? {
        CreateKeepsOneActive(w0, a);
      } else if c.Some? {
        AcceptedKeepsOneActive(w0, Apply(w0, a), h, c.value);
      } else {
        NotedKeepsOneActive(w0, a);
      }
    }
  }

  lemma OneActiveAtFirst()
    ensures OneActive(INIT)
  {
  }

  /** At most one active run per workflow ID, while start requests do not overlap and everything else does as it
      pleases: a run that has not ended is the one a look-up by workflow ID finds, so there are no two of them. */
  lemma OneActiveRun(w: World, n: nat, key: RunKey)
    requires Reached(w, n) && key in w.runs && !RunStateOf(w.stream.log, key).IsTerminal()
    ensures var log := w.stream.log;
            var last := InfoAt(log, LastInfo(log, key.wfID));
            last.Some? && last.value.Key() == key
    ensures forall key' :: key' in w.runs && key'.wfID == key.wfID && key' != key ==>
      RunStateOf(w.stream.log, key').IsTerminal()
  {
    hide Reached, RunStateOf, LastInfo, CheckStands, CreatedLive;
    OneActiveHolds(w, n);
    assert OnlyLast(w, key.wfID);
  }
}
