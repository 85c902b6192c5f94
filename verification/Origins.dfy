/** Where timeouts come from: behind every timeout in the log there is, further up in the log, the timer it was made
    from. */
module Origins {
  import opened Types
  import opened Stream
  import opened Wire
  import opened Effects
  import opened Moves
  import opened Protocol
  import opened Worlds
  import opened Serial
  import opened Discipline
  import opened Bookkeeping
  import opened Steps
  import opened Stretches
  import opened Entries

  predicate IsTimeout(d: Directive) {
    (d.kind == StepTimeoutKind && d.msg.StepTimeoutMsg?) || (d.kind == WaitTimeoutKind && d.msg.WaitTimeoutMsg?)
  }

  /** A directive a timer was turned into. */
  predicate Answers(d: Directive, t: Timer) {
    d.runInfo == t.directive.runInfo &&
    match d.kind
    case FailKind => true
    case StepTimeoutKind => t.kind == StepTimer && d.msg.StepTimeoutMsg? && d.msg.original == t.directive.id
    case WaitTimeoutKind => t.kind == WaitTimer && d.msg.WaitTimeoutMsg? && d.msg.original == t.directive.id
    case _ => false
  }

  lemma AnswersSameRun(d: Directive, t: Timer)
    requires Answers(d, t)
    ensures d.Key() == t.directive.Key()
  {
  }

  lemma TimerInLog(w: World, q: nat)
    requires Good(w) && IsTimer(w.stream.log, q)
    ensures TimerOK(w.runs, w.stream.log[q - 1].record.timer)
  {
    hide Inv, Journal, QueueOK, IDsOK, HandlersOK, CommitsOK, RunsOK, TimerOK;
    assert MessageOK(w.runs, w.queue, w.stream.log[q - 1]);
  }

  /** The directive made from a timer answers it. */
  lemma TimeoutAnswers(w: World, q: nat, newID: DirectiveID, now: Time, exhausted: bool)
    requires Good(w) && IsTimer(w.stream.log, q)
    ensures Answers(TimeoutDirective(w.stream.log[q - 1].record.timer, newID, now, exhausted),
      w.stream.log[q - 1].record.timer)
  {
    hide Good, Registered;
    TimerInLog(w, q);
  }

  /* Every timeout was made from a timer */

  predicate IsTimerRecord(m: Message) { m.Stored? && m.record.TimerRecord? }

  predicate IsTimeoutRecord(m: Message) { m.Stored? && m.record.DirectiveRecord? && IsTimeout(m.record.directive) }

  /** Further up in the log there is a timer that a directive was made from. */
  predicate MadeBefore(log: seq<Message>, q: nat, d: Directive)
    requires q <= |log|
  {
    exists p :: 0 <= p < q && IsTimerRecord(log[p]) && Answers(d, log[p].record.timer)
  }

  ghost predicate Originated(w: World) {
    && (forall q: nat :: q < |w.stream.log| && IsTimeoutRecord(w.stream.log[q]) ==>
          MadeBefore(w.stream.log, q, w.stream.log[q].record.directive))
    && (forall d :: d in w.queue && IsTimeout(d) ==> Stored(DirectiveRecord(d)) in w.stream.log)
  }

  lemma MadeStays(log: seq<Message>, more: seq<Message>, q: nat, d: Directive)
    requires q <= |log| && MadeBefore(log, q, d)
    ensures MadeBefore(log + more, q, d)
  {
    hide Answers;
    var p :| 0 <= p < q && IsTimerRecord(log[p]) && Answers(d, log[p].record.timer);
    assert (log + more)[p] == log[p];
  }

  /** What is enough for a step to keep it: all timeouts that are added were made from timers in the log. */
  lemma AddsKeepOrigins(w: World, w': World, more: seq<Message>)
    requires Originated(w) && w'.stream.log == w.stream.log + more
    requires forall m :: m in more && IsTimeoutRecord(m) ==>
      MadeBefore(w.stream.log, |w.stream.log|, m.record.directive)
    requires forall d :: d in w'.queue && d !in w.queue && IsTimeout(d) ==> Stored(DirectiveRecord(d)) in more
    ensures Originated(w')
  {
    hide MadeBefore, IsTimeout;
    var log, n := w.stream.log, |w.stream.log|;
    forall q: nat | q < |w'.stream.log| && IsTimeoutRecord(w'.stream.log[q])
      ensures MadeBefore(w'.stream.log, q, w'.stream.log[q].record.directive)
    {
      if q < n {
        assert w'.stream.log[q] == log[q];
        MadeStays(log, more, q, log[q].record.directive);
      } else {
        assert w'.stream.log[q] == more[q - n];
        MadeStays(log, more, n, more[q - n].record.directive);
        MadeLater(log + more, n, q, more[q - n].record.directive);
      }
    }
  }

  lemma MadeLater(log: seq<Message>, n: nat, q: nat, d: Directive)
    requires n <= q <= |log| && MadeBefore(log, n, d)
    ensures MadeBefore(log, q, d)
  {
    hide Answers;
  }

  /** A batch queues wake directives only. */
  lemma AcceptedKeepsOrigins(w: World, w': World, h: nat, c: Commit)
    requires Good(w) && Originated(w) && Accepted(w, w', h, c)
    ensures Originated(w')
  {
    hide Good, Originated, Accepted, Explains, Tame, Lawful, Grounded, WellFormed, StateOK, EventOK, ViaOK, NewQueued;
    AcceptedFacts(w, w', h, c);
    forall m | m in c.msgs ensures !IsTimeoutRecord(m) {
      if m.Stored? && m.record.DirectiveRecord? { QueuedIsWake(c, m.record.directive); }
    }
    forall d | d in w'.queue && d !in w.queue ensures !IsTimeout(d) {
      NewIsQueued(w, w', h, c, d);
      QueuedIsWake(c, d);
    }
    AddsKeepOrigins(w, w', c.msgs);
  }

  lemma QueuedIsWake(c: Commit, d: Directive)
    requires Lawful(c) && Stored(DirectiveRecord(d)) in c.msgs
    ensures d.kind == WakeFromInboxKind
  {
    hide Lawful, NewQueued;
    Member(c, DirectiveRecord(d));
    QueuedIs(c.effect, c.sn, c.inp, d);
  }

  lemma NewIsQueued(w: World, w': World, h: nat, c: Commit, d: Directive)
    requires Accepted(w, w', h, c) && d in w'.queue && d !in w.queue
    ensures Stored(DirectiveRecord(d)) in c.msgs
  {
    hide Lawful, Check, Current, CommitOK, Grounded, IDsOf;
  }

  lemma HandledKeepsOrigins(w: World, a: Action)
    requires Good(w) && Originated(w) && a.HandleFired? && Enabled(w, a)
    ensures Originated(Apply(w, a))
  {
    hide Good, Originated, IDsOf, Answers, TimeoutDirective;
    var log, d := w.stream.log, TimeoutDirective(w.stream.log[a.seqID - 1].record.timer, a.newID, a.now, a.exhausted);
    TimeoutAnswers(w, a.seqID, a.newID, a.now, a.exhausted);
    assert IsTimerRecord(log[a.seqID - 1]) && Answers(d, log[a.seqID - 1].record.timer);
    AddsKeepOrigins(w, Apply(w, a), if d.id in w.stream.ids then [] else [Stored(DirectiveRecord(d))]);
  }

  lemma SentKeepsOrigins(w: World, a: Action)
    requires Originated(w) && a.Enqueue? && Enabled(w, a) && Allowed(w, a)
    ensures Originated(Apply(w, a))
  {
    hide Originated, IDsOf, FreshID, IsCallback, Known, Assigned;
    AddsKeepOrigins(w, Apply(w, a), if a.d.id in w.stream.ids then [] else [Stored(DirectiveRecord(a.d))]);
  }

  lemma OtherKeepsOrigins(w: World, a: Action)
    requires Originated(w) && Enabled(w, a) && !a.Finish? && !a.HandleFired? && !a.Enqueue?
    ensures Originated(Apply(w, a))
  {
    hide Originated, IDsOf, RunStateOf, NextEvent, LastHistory;
    var more := if a.CreateRun? then [Stored(RunInfoRecord(a.info))]
                else if a.WorkerHistory? then [Stored(HistoryRecord(a.entry))]
                else if a.Fire? then [Fired(w.stream.log[a.seqID - 1].record.timer)] else [];
    AddsKeepOrigins(w, Apply(w, a), more);
  }

  lemma StepKeepsOrigins(w: World, a: Action)
    requires Good(w) && Originated(w) && Enabled(w, a) && Honest(w, a) && Allowed(w, a)
    ensures Originated(Apply(w, a))
  {
    hide Inv, Orderly, Journal, Originated, Honest, Allowed, Apply, Accepted, Enabled;
    if a.HandleFired? {
      HandledKeepsOrigins(w, a);
    } else if a.Enqueue? {
      SentKeepsOrigins(w, a);
    } else if !a.Finish? {
      OtherKeepsOrigins(w, a);
    } else if Apply(w, a).stream != w.stream {
      var c := FinishAccepted(w, a);
      AcceptedKeepsOrigins(w, Apply(w, a), a.h, c);
    } else {
      PassKeepsOrigins(w, a);
    }
  }

  lemma PassKeepsOrigins(w: World, a: Action)
    requires Originated(w) && a.Finish? && Enabled(w, a) && Apply(w, a).stream == w.stream
    ensures Originated(Apply(w, a))
  {
    hide FinishIn, IsTimeoutRecord, MadeBefore, IsTimeout;
    FinishPasses(w, a.h, a.inp, a.order, a.fault, a.decision, a.effect);
  }

  lemma {:induction false} OriginsHold(w: World, n: nat)
    requires Reached(w, n)
    ensures Originated(w)
    decreases n
  {
    hide Good, Originated, Apply, Enabled, Honest, Allowed;
    if n == 0 {
      OriginsAtFirst();
    } else {
      var w0, a := ReachedFrom(w, n);
      OriginsHold(w0, n - 1);
      GoodHolds(w0, n - 1);
      StepKeepsOrigins(w0, a);
    }
  }

  lemma OriginsAtFirst()
    ensures Originated(INIT)
  {
  }

  /* The entry a timeout came from */

  /** A batch with a timer enters a step or a wait under the ID of the timer. */
  lemma TimerEnters(w: World, k: nat, t: Timer)
    requires Good(w) && k < |w.commits| && Stored(TimerRecord(t)) in w.commits[k].msgs
    ensures Enters(w.commits[k]) && EntryID(w.commits[k]) == t.directive.id
  {
    hide Good, CommitOK, Lawful, Grounded, Current;
    BatchFacts(w, k);
    Member(w.commits[k], TimerRecord(t));
    TimersOfEntry(w.commits[k], t);
  }

  lemma TimersOfEntry(c: Commit, t: Timer)
    requires c.effect.Effect? && WellFormed(c.effect) && t in NewTimers(c.effect, c.sn, c.inp)
    ensures Enters(c) && EntryID(c) == t.directive.id
  {
  }

  /** The batch that armed the timer which the timeout at a sequence of the log was made from; it comes before it. */
  lemma ArmedBy(w: World, q: nat) returns (k: nat, t: Timer)
    requires Good(w) && Placed(w) && Originated(w) && q < |w.stream.log| && IsTimeoutRecord(w.stream.log[q])
    ensures k < |w.commits| && w.commits[k].at < q && Enters(w.commits[k])
    ensures Stored(TimerRecord(t)) in w.commits[k].msgs && Answers(w.stream.log[q].record.directive, t)
    ensures EntryID(w.commits[k]) == w.stream.log[q].record.directive.msg.original
  {
    hide Good, Placed;
    var log, d := w.stream.log, w.stream.log[q].record.directive;
    assert MadeBefore(log, q, d);
    var p :| 0 <= p < q && IsTimerRecord(log[p]) && Answers(d, log[p].record.timer);
    k := BatchAt(w, p);
    t := log[p].record.timer;
    assert log[p] == Stored(TimerRecord(t));
    TimerEnters(w, k, t);
  }
}
