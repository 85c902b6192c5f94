/** No directive is dropped: a directive leaves the queue only when its batch is in the log, or when its run
    has ended and what it left behind is purged. */
module Acknowledged {
  import opened Types
  import opened Stream
  import opened Wire
  import opened Planner
  import opened Effects
  import opened Moves
  import opened Protocol
  import opened Worlds
  import opened Serial
  import opened Discipline
  import opened Bookkeeping
  import opened Steps
  import opened Terminal
  import opened ExactlyOnce

  /** For a directive of the protocol a failure record can always be built, should one be needed. */
  lemma NeverGivesUp(d: Directive, sn: StateSnapshot, inp: Inputs)
    requires Tame(d) && TameEvent(sn.event)
    ensures Decide(d, sn, inp) != GiveUp
  {
  }

  /** Exactly when a handler can do nothing at all with a directive: planning fails and the failure itself
      cannot be recorded, because the run has no start time. */
  lemma GivesUpIff(d: Directive, sn: StateSnapshot, inp: Inputs)
    ensures Decide(d, sn, inp) == GiveUp <==> Plan(d, sn, inp).Err? && d.runInfo.startedAt.None?
  {
    hide Plan;
  }

  /** The batch a handler is about to commit. */
  function Candidate(w: World, a: Action): Commit
    requires a.Finish? && Enabled(w, a) && a.decision.Write?
  {
    var x := w.handlers[a.h];
    Commit(x.d, x.Snapshot(), a.inp, a.effect, BatchMessages(a.decision.batch, a.order), |w.stream.log|, x.readAt)
  }

  lemma CandidateGrounded(c: Commit)
    requires Lawful(c) && (c.sn.runState == NO_STATE || c.sn.runState.Key() == c.d.Key())
    requires c.effect.move.Stay? ==> c.effect.move.state.Key() == c.sn.runState.Key()
    ensures Grounded(c)
  {
    hide Fits, StateAt, Views.EndEvents, Puts, LedMessages, TasksIn, QueuedIn, EndsOf;
  }

  lemma CandidateOffered(w: World, a: Action)
    requires Good(w) && a.Finish? && Enabled(w, a) && Honest(w, a) && Allowed(w, a)
    requires a.decision.Write? && a.decision.batch != [] && Encodable(a.decision.batch)
    ensures Offered(w, Candidate(w, a))
  {
    hide Inv, Orderly, Journal, Explains, Tame, Honest, Views.Of, Led, OrderFor, BatchMessages, Encodable, ViewOf,
      StateOK, EventOK, ReadFrom, RunStateOf, Lawful, Grounded, FreshID;
    FinishExplained(w, a);
    HonestIsSound(w, a);
    HandlerIsTame(w, a.h);
    HandlerReadFrom(w, a.h);
    CommitIsLawful(Candidate(w, a), a.decision.batch, a.order);
    LawfulShape(Candidate(w, a));
    StateMoves(Candidate(w, a));
    ReadKey(w.stream.log, w.handlers[a.h].d.Key(), w.handlers[a.h].state);
    CandidateGrounded(Candidate(w, a));
  }

  lemma ReadKey(log: seq<Message>, key: RunKey, s: RunState)
    requires ReadFrom(log, key, s)
    ensures s == NO_STATE || s.Key() == key
  {
  }

  /** A directive has been acknowledged by this step. */
  predicate NewlyDone(w: World, w': World, d: Directive) {
    (d in w'.acked && d !in w.acked) || (d in w'.gone && d !in w.gone)
  }

  /** A directive is acknowledged only if it has been dealt with. */
  lemma FinishAcks(w: World, a: Action, d: Directive)
    requires Good(w) && a.Finish? && Enabled(w, a) && Honest(w, a) && Allowed(w, a)
    requires NewlyDone(w, Apply(w, a), d)
    ensures exists c :: c in Apply(w, a).commits && c.d == d
  {
    hide Inv, Orderly, Journal, Honest, Allowed, Apply, Check, Encodable, BatchMessages, Offered, Accepted;
    DecidesToWrite(w, a);
    AcksItsOwn(w, a);
    if Apply(w, a).stream != w.stream {
      var c := FinishAccepted(w, a);
      AcceptedNames(w, Apply(w, a), a.h, c);
      assert c.d == d;
    } else {
      FinishPassesOn(w, a);
      CandidateOffered(w, a);
      DuplicateWasCommitted(w, Candidate(w, a));
      CommitsKept(w, a);
      var c :| c in w.commits && c.d == Candidate(w, a).d;
      assert c in Apply(w, a).commits && c.d == d;
    }
  }

  lemma AcksItsOwn(w: World, a: Action)
    requires a.Finish? && Enabled(w, a)
    ensures Apply(w, a).gone <= w.gone + {w.handlers[a.h].d}
    ensures forall d :: NewlyDone(w, Apply(w, a), d) ==>
      d == w.handlers[a.h].d && d in Apply(w, a).acked && d in Apply(w, a).gone
  {
    hide Wire.Commit, OrderFor, BatchMessages;
  }

  lemma AcceptedNames(w: World, w': World, h: nat, c: Commit)
    requires Accepted(w, w', h, c)
    ensures h in w.handlers && c.d == w.handlers[h].d && c in w'.commits
  {
    hide Lawful, Check, Current, CommitOK, Grounded;
  }

  lemma DecidesToWrite(w: World, a: Action)
    requires Good(w) && a.Finish? && Enabled(w, a) && Honest(w, a)
    ensures a.decision != GiveUp
  {
    hide Inv, Orderly, Journal, Decide, EffectOf, Tame, StateOK, EventOK;
    HandlerIsTame(w, a.h);
    NeverGivesUp(w.handlers[a.h].d, w.handlers[a.h].Snapshot(), a.inp);
  }

  lemma FinishPassesOn(w: World, a: Action)
    requires a.Finish? && Enabled(w, a) && a.decision != GiveUp
    requires Apply(w, a).stream == w.stream && exists d :: NewlyDone(w, Apply(w, a), d)
    ensures a.decision.Write? && a.decision.batch != [] && Encodable(a.decision.batch)
    ensures Check(w.stream.log, w.stream.ids, BatchMessages(a.decision.batch, a.order)) == DuplicateMessage
  {
    hide Encodable, OrderFor, Check;
    if a.decision.Write? {
      assert BatchMessages(a.decision.batch, a.order) != [] ==>
        w.stream.log + BatchMessages(a.decision.batch, a.order) != w.stream.log;
    }
  }

  /** A directive that was acknowledged has its batch in the log; one that was purged is of a run that has ended. */
  ghost predicate Accounted(w: World) {
    && w.acked <= w.gone <= w.queue
    && (forall d :: d in w.acked ==> HasBatch(w.commits, d))
    && (forall d :: d in w.gone && d !in w.acked ==> RunStateOf(w.stream.log, d.Key()).IsTerminal())
  }

  predicate HasBatch(commits: seq<Commit>, d: Directive) {
    exists c :: c in commits && c.d == d
  }

  lemma TerminalKept(w: World, a: Action, key: RunKey)
    requires Good(w) && Enabled(w, a) && Honest(w, a) && Allowed(w, a) && Good(Apply(w, a))
    requires RunStateOf(w.stream.log, key).IsTerminal()
    ensures RunStateOf(Apply(w, a).stream.log, key).IsTerminal()
  {
    hide Good, Honest, Allowed, Apply, Enabled, Accepted, Noted, RunStateOf, StateAfter;
    var h, c := StepKinds(w, a);
    if c.Some? {
      AcceptedNames(w, Apply(w, a), h, c.value);
      AcceptedCommits(w, Apply(w, a), h, c.value);
      GoodState(w, key);
      GoodState(Apply(w, a), key);
      var commits := Apply(w, a).commits;
      assert commits[..|w.commits|] == w.commits && commits[..|commits|] == commits;
      TerminalStays(Apply(w, a), |w.commits|, |commits|, key);
    } else {
      NotedKeepsState(w, Apply(w, a), key);
    }
  }

  lemma AcceptedCommits(w: World, w': World, h: nat, c: Commit)
    requires Accepted(w, w', h, c)
    ensures w'.commits == w.commits + [c]
  {
    hide Lawful, Check, Current, CommitOK, Grounded;
  }

  lemma NotedKeepsState(w: World, w': World, key: RunKey)
    requires Noted(w, w')
    ensures RunStateOf(w'.stream.log, key) == RunStateOf(w.stream.log, key)
  {
    hide RunStateOf;
    NotedEnds(w.stream.log, w'.stream.log);
  }

  lemma CommitsKept(w: World, a: Action)
    requires Enabled(w, a)
    ensures w.commits <= Apply(w, a).commits && w.queue <= Apply(w, a).queue
  {
    hide Wire.Commit, OrderFor, BatchMessages, TimeoutDirective, RunStateOf, NextEvent;
  }

  /** A directive goes by an acknowledgement, or because its run has ended and is purged. */
  lemma NewlyGone(w: World, a: Action, d: Directive)
    requires Good(w) && Enabled(w, a) && Honest(w, a) && Allowed(w, a) && NewlyDone(w, Apply(w, a), d)
    ensures d in w.queue && d in Apply(w, a).gone
    ensures if d in Apply(w, a).acked then HasBatch(Apply(w, a).commits, d) || d in w.acked
            else RunStateOf(w.stream.log, d.Key()).IsTerminal()
  {
    hide Inv, Orderly, Journal, Honest, RunStateOf;
    if a.Finish? {
      FinishAcks(w, a, d);
      AckedIsQueued(w, a);
    } else {
      RunIsKnown(w, d);
    }
  }

  lemma RunIsKnown(w: World, d: Directive)
    requires Good(w)
    ensures d in w.queue ==> d.Key() in w.runs
  {
    hide Inv, Journal, LogOK, IDsOK, HandlersOK, CommitsOK, RunsOK, Tame;
    if d in w.queue { assert DirectiveOK(w.runs, w.stream.ids, d); }
  }

  lemma AckedIsQueued(w: World, a: Action)
    requires Good(w) && a.Finish? && Enabled(w, a)
    ensures forall d :: NewlyDone(w, Apply(w, a), d) ==> d in w.queue && d in Apply(w, a).acked && d in Apply(w, a).gone
  {
    hide Inv, Journal, QueueOK, LogOK, IDsOK, CommitsOK, RunsOK, Apply;
    AcksItsOwn(w, a);
    assert HandlerKnown(w.queue, w.handlers[a.h]);
  }

  lemma StepKeepsAccounted(w: World, a: Action)
    requires Good(w) && Enabled(w, a) && Honest(w, a) && Allowed(w, a) && Good(Apply(w, a)) && Accounted(w)
    ensures Accounted(Apply(w, a))
  {
    hide Good, Honest, Allowed, Apply, Enabled, RunStateOf, HasBatch;
    var w' := Apply(w, a);
    CommitsKept(w, a);
    DoneStays(w, a);
    forall d | d in w'.gone
      ensures d in w'.queue
      ensures if d in w'.acked then HasBatch(w'.commits, d) else RunStateOf(w'.stream.log, d.Key()).IsTerminal()
    {
      if NewlyDone(w, w', d) { NewlyGone(w, a, d); }
      if d in w.acked { BatchStays(w.commits, w'.commits, d); }
      if RunStateOf(w.stream.log, d.Key()).IsTerminal() { TerminalKept(w, a, d.Key()); }
    }
    forall d | d in w'.acked ensures d in w'.gone {
      if NewlyDone(w, w', d) { NewlyGone(w, a, d); }
    }
  }

  lemma DoneStays(w: World, a: Action)
    requires Enabled(w, a)
    ensures w.acked <= Apply(w, a).acked && w.gone <= Apply(w, a).gone
  {
    hide Wire.Commit, OrderFor, BatchMessages, TimeoutDirective, RunStateOf, NextEvent;
  }

  lemma BatchStays(commits: seq<Commit>, more: seq<Commit>, d: Directive)
    requires HasBatch(commits, d) && commits <= more
    ensures HasBatch(more, d)
  {
    var c :| c in commits && c.d == d;
    assert c in more;
  }

  lemma {:induction false} AccountedHolds(w: World, n: nat)
    requires Reached(w, n)
    ensures Accounted(w)
    decreases n
  {
    hide Good, Accounted, Apply, Enabled, Honest, Allowed;
    GoodHolds(w, n);
    if n == 0 {
      AccountedAtFirst();
    } else {
      var w0, a := ReachedFrom(w, n);
      AccountedHolds(w0, n - 1);
      GoodHolds(w0, n - 1);
      StepKeepsAccounted(w0, a);
    }
  }

  lemma AccountedAtFirst()
    ensures Accounted(INIT)
  {
  }

  /** No directive is silently dropped. Whatever is lost, redelivered or handled twice at the same time, a
      directive that a handler has acknowledged has a batch of its own in the log, and one that is gone without
      having been acknowledged is of a run that has ended. */
  lemma NothingIsDropped(w: World, n: nat, d: Directive)
    requires Reached(w, n) && d in w.gone
    ensures if d in w.acked then exists c :: c in w.commits && c.d == d
      else RunStateOf(w.stream.log, d.Key()).IsTerminal()
  {
    hide Reached, RunStateOf;
    AccountedHolds(w, n);
  }
}
