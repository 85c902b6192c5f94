/** A timeout takes effect as a timeout only in the very state entry whose timer it came from, and the timer of the
    entry a run is in is not one that a finished step has asked to delete; except in a step for an event that the run
    was given twice. */
module Timeouts {
  import opened Types
  import opened Stream
  import opened Wire
  import opened Effects
  import opened Moves
  import opened Protocol
  import opened Worlds
  import opened Serial
  import opened Discipline
  import opened Bookkeeping
  import opened Steps
  import opened Terminal
  import opened Fifo
  import opened Stretches
  import opened Entries
  import opened Origins
  import Cancellation

  function TimedState(d: Directive): RunStateKind {
    if d.kind == WaitTimeoutKind then WaitState else StepState
  }

  /** The batch records that the step or the wait has timed out. */
  predicate TimesOut(c: Commit) {
    c.effect.Effect? &&
    if c.d.kind == StepTimeoutKind then exists h :: h in c.effect.before.history && h.msg.StepTimedOut?
    else exists h :: h in c.effect.before.history && h.msg.WaitTimedOut?
  }

  lemma TimesOutIff(c: Commit)
    requires Tame(c.d) && Explains(c.d, c.sn, c.inp, c.effect) && Grounded(c) && IsTimeout(c.d)
    ensures TimesOut(c) <==>
      c.sn.runState.kind == TimedState(c.d) && c.sn.runState.activeDirectiveID == c.d.msg.original
    ensures !TimesOut(c) ==> c.effect.move.ToEnd? && c.effect.move.kind == FailState
    ensures c.effect.move.ToStep? || c.effect.move.ToEnd?
  {
    hide Plain;
  }

  /** The state entry of a run at some point of the journal: the batch that made it, with nothing but pick-ups,
      deferred cancels and events since. */
  ghost predicate EntryAt(w: World, m: nat, i: nat, key: RunKey) {
    && m < i <= |w.commits| && w.commits[m].d.Key() == key && EnteredAs(w.commits[m], StateAfter(w.commits[..i], key))
    && (forall k :: m < k < i && w.commits[k].d.Key() == key ==> Idle(w.commits[k]))
  }

  lemma FindEntry(w: World, i: nat, key: RunKey) returns (m: nat)
    requires Good(w) && i <= |w.commits| && StateAfter(w.commits[..i], key).seqID > 0
    requires !StateAfter(w.commits[..i], key).IsTerminal()
    ensures EntryAt(w, m, i, key) && Enters(w.commits[m])
    ensures EntryID(w.commits[m]) == StateAfter(w.commits[..i], key).activeDirectiveID
  {
    hide Good, StateAfter, Idle;
    m := EnteredBy(w, i, key);
  }

  lemma MeansEnters(c: Commit, s: RunState)
    requires EnteredAs(c, s)
    ensures Enters(c) && EntryID(c) == s.activeDirectiveID
  {
  }

  /** The timer of a state entry goes in with the entry. */
  lemma EntryArmsTimer(w: World, c: Commit) returns (t: Timer)
    requires CommitOK(w.runs, w.queue, c) && Grounded(c) && ViaOK(w.runs, w.used, c) && Lawful(c) && Enters(c)
    ensures Stored(TimerRecord(t)) in c.msgs && TimerOK(w.runs, t) && t.directive.Key() == c.d.Key()
    ensures t.directive.id == EntryID(c)
    ensures t.kind == if c.effect.move.ToWait? then WaitTimer else StepTimer
  {
    hide Lawful, CommitOK, ViaOK, TimerOK, Grounded;
    LawfulShape(c);
    t := NewTimers(c.effect, c.sn, c.inp)[0];
    TimersOK(w, w.used, c, t);
    Member(c, TimerRecord(t));
  }

  lemma TimeoutState(w: World, i: nat)
    requires Good(w) && i < |w.commits| && IsTimeout(w.commits[i].d)
    ensures var s := StateAfter(w.commits[..i], w.commits[i].d.Key());
            && s.seqID > 0 && !s.IsTerminal()
            && (TimesOut(w.commits[i]) <==>
              s.kind == TimedState(w.commits[i].d) && s.activeDirectiveID == w.commits[i].d.msg.original)
            && (!TimesOut(w.commits[i]) ==> StateAfter(w.commits[..i + 1], w.commits[i].d.Key()).kind == FailState)
  {
    hide Good, StateAfter, Explains, Tame, Lawful, Current, StateOK, EventOK, TimesOut;
    var c := w.commits[i];
    BatchFacts(w, i);
    NextState(w, i, c.d.Key());
    WrittenKey(c);
    WrittenIsLive(c);
    TimesOutIff(c);
  }

  /** In every run of the system: a timeout is recorded as one exactly if the run is still in a state entry under
      the ID the timeout is for (`m`, with the timer `t`); otherwise the run fails. The timeout was made from a timer
      (`u`) that an entry under that ID (`k`) has armed, and was queued after it. The entry the run is in is the only
      one under its ID exactly if it is not for an event the run was given twice; then a timeout that is recorded in
      it was made from the very timer that the entry has armed, and was not in the queue before the entry was made. */
  lemma TimeoutsInPlace(w: World, n: nat, i: nat) returns (m: nat, t: Timer, k: nat, u: Timer)
    requires Reached(w, n) && i < |w.commits| && IsTimeout(w.commits[i].d)
    ensures EntryAt(w, m, i, w.commits[i].d.Key()) && Enters(w.commits[m])
    ensures Stored(TimerRecord(t)) in w.commits[m].msgs && t.directive.id == EntryID(w.commits[m])
    ensures k < |w.commits| && Enters(w.commits[k]) && EntryID(w.commits[k]) == w.commits[i].d.msg.original
    ensures Stored(TimerRecord(u)) in w.commits[k].msgs && Answers(w.commits[i].d, u)
    ensures QueuedBehind(w, w.commits[i].d, w.commits[k].at)
    ensures var c, e := w.commits[i], w.commits[m];
            && (TimesOut(c) <==>
                  EntryID(e) == c.d.msg.original && e.effect.move.ToWait? == (c.d.kind == WaitTimeoutKind))
            && (!TimesOut(c) ==> StateAfter(w.commits[..i + 1], c.d.Key()).kind == FailState)
            && (Sole(w.commits, m) <==> !GivenTwice(w.commits, c.d.Key(), EntryID(e)))
            && (!GivesEvent(e, c.d.Key()) ==> Sole(w.commits, m))
            && (TimesOut(c) && Sole(w.commits, m) ==> k == m && u == t && !QueuedAhead(w, c.d, e.at))
  {
    hide Reached, Good, Placed, Originated, StateAfter, Idle, TimesOut, GivesEvent, GivenTwice, QueuedAhead, Answers,
      QueuedBehind;
    var d := w.commits[i].d;
    GoodHolds(w, n);
    PlacedHolds(w, n);
    OriginsHold(w, n);
    TimeoutState(w, i);
    m := FindEntry(w, i, d.Key());
    SoleIff(w, m);
    CommittedIsQueued(w, i);
    k, u := OriginOf(w, d);
    t := EntryTimer(w, m);
    if TimesOut(w.commits[i]) && Sole(w.commits, m) {
      t := u;
      NotAhead(w, d, m);
    }
  }

  /** The directive is in the log behind, or ahead of, a sequence. */
  predicate QueuedBehind(w: World, d: Directive, at: nat) {
    at <= |w.stream.log| && Stored(DirectiveRecord(d)) in w.stream.log[at..]
  }

  predicate QueuedAhead(w: World, d: Directive, at: nat) {
    at <= |w.stream.log| && Stored(DirectiveRecord(d)) in w.stream.log[..at]
  }

  lemma CommittedIsQueued(w: World, i: nat)
    requires Good(w) && i < |w.commits|
    ensures w.commits[i].d in w.queue
  {
    hide Good, Explains, Tame, Lawful, Current, StateOK, EventOK, Grounded;
    BatchFacts(w, i);
  }

  /** The timer a timeout was made from, and the batch that armed it. */
  lemma OriginOf(w: World, d: Directive) returns (k: nat, u: Timer)
    requires Good(w) && Placed(w) && Originated(w) && d in w.queue && IsTimeout(d)
    ensures k < |w.commits| && Enters(w.commits[k]) && EntryID(w.commits[k]) == d.msg.original
    ensures Stored(TimerRecord(u)) in w.commits[k].msgs && Answers(d, u) && u.directive.id == d.msg.original
    ensures QueuedBehind(w, d, w.commits[k].at)
  {
    hide Good, Placed, MadeBefore;
    var q :| 0 <= q < |w.stream.log| && w.stream.log[q] == Stored(DirectiveRecord(d));
    k, u := ArmedBy(w, q);
    assert w.stream.log[w.commits[k].at..][q - w.commits[k].at] == w.stream.log[q];
  }

  /** A timeout for an entry that is alone under its ID is not queued before the entry is made. */
  lemma NotAhead(w: World, d: Directive, m: nat)
    requires Good(w) && Placed(w) && Originated(w) && IsTimeout(d) && m < |w.commits| && Enters(w.commits[m])
    requires Sole(w.commits, m) && EntryID(w.commits[m]) == d.msg.original
    ensures !QueuedAhead(w, d, w.commits[m].at)
  {
    hide Good, Placed, Originated, Answers;
    if QueuedAhead(w, d, w.commits[m].at) {
      var q :| 0 <= q < w.commits[m].at && w.stream.log[..w.commits[m].at][q] == Stored(DirectiveRecord(d));
      var k, _ := ArmedBy(w, q);
    }
  }

  lemma EntryTimer(w: World, m: nat) returns (t: Timer)
    requires Good(w) && m < |w.commits| && Enters(w.commits[m])
    ensures Stored(TimerRecord(t)) in w.commits[m].msgs && TimerOK(w.runs, t)
    ensures t.directive.Key() == w.commits[m].d.Key()
    ensures t.directive.id == EntryID(w.commits[m]) && t.kind == if w.commits[m].effect.move.ToWait? then WaitTimer
      else StepTimer
  {
    hide Good, CommitOK, Lawful, Grounded, Current, ViaOK, TimerOK, EntryID, Enters;
    BatchFacts(w, m);
    Cancellation.ViaStands(w, w.commits[m]);
    t := EntryArmsTimer(w, w.commits[m]);
  }

  /** A finished step has asked to delete the timer of the entry a run is in only if that entry is for an event
      the run was given before. */
  lemma NotNamed(w: World, k: nat, key: RunKey)
    requires Good(w) && k < |w.commits| && w.commits[k].d.kind == StepResultKind
    requires StateAfter(w.commits, key).seqID > 0 && !StateAfter(w.commits, key).IsTerminal()
    requires w.commits[k].sn.runState.activeDirectiveID == StateAfter(w.commits, key).activeDirectiveID
    ensures GivenTwice(w.commits, key, StateAfter(w.commits, key).activeDirectiveID)
    ensures StateAfter(w.commits, key).kind == StepState && w.commits[k].d.Key() == key
  {
    hide Good, StateAfter, Idle, Lawful, Current, Explains, Tame, StateOK, EventOK;
    assert w.commits[..|w.commits|] == w.commits;
    ResultState(w, k);
    var m := FindEntry(w, |w.commits|, key);
    var n := FindEntry(w, k, w.commits[k].d.Key());
    assert m != n;
    if m < n { EntriesDiffer(w, m, n); } else { EntriesDiffer(w, n, m); }
    assert Gives(w.commits[m], key, EntryID(w.commits[m])) && Gives(w.commits[n], key, EntryID(w.commits[m]));
  }

  lemma GivesAreSteps(c: Commit)
    requires GivesEvent(c, c.d.Key())
    ensures c.effect.move.ToStep?
  {
  }

  /** A step result takes a run out of the entry it is in. */
  lemma ResultState(w: World, k: nat)
    requires Good(w) && k < |w.commits| && w.commits[k].d.kind == StepResultKind
    ensures var s := StateAfter(w.commits[..k], w.commits[k].d.Key());
            s.seqID > 0 && !s.IsTerminal() && w.commits[k].sn.runState == s && !Idle(w.commits[k])
  {
    hide Good, StateAfter, Explains, Tame, Lawful, Current, StateOK, EventOK;
    var c := w.commits[k];
    BatchFacts(w, k);
    StateMoves(c);
    NextState(w, k, c.d.Key());
    WrittenKey(c);
    WrittenIsLive(c);
  }
}
