/** Two things that go wrong when directives of a run are handled at the same time, each as a run of the system.
    A wake-up is lost: the handler of an event sees the run in its step, the handler of a step result sees an
    empty inbox, and both batches go in; the run then waits with an event in its inbox, and nothing will wake it.
    And an event that is delivered twice is taken in twice. */
module Races {
  import opened Types
  import opened Stream
  import opened Wire
  import opened Effects
  import opened Moves
  import opened Protocol
  import opened Worlds
  import opened Serial
  import opened Discipline
  import opened Bookkeeping
  import opened Steps
  import opened Acknowledged
  import opened Fifo
  import opened Progress
  import opened Wakeup
  import opened Entries
  import opened Scenes

  /* A lost wake-up */

  /** Two handlers have read the run in its first step and its inbox empty: 0 has the answer of the worker, 1 has
      an event. */
  ghost predicate BothRead(w: World, info: RunInfo, ri: RunInfo, e: DirectiveID, r: DirectiveID) {
    && w.handlers.Keys == {0, 1} && w.handlers[0].d == ResultOf(ri, r) && w.handlers[1].d == EventOf(info, e)
    && (forall h :: h in w.handlers ==> HasRead(w, info.Key(), w.handlers[h]))
    && ri.Key() == info.Key() && ri.startedAt.Some?
    && (forall d :: d in w.queue ==> d.kind != WakeFromInboxKind) &&
      (forall c :: c in w.commits ==> c.d.kind == StartKind)
  }

  predicate HasRead(w: World, key: RunKey, x: Handler) {
    && x.stage == 3 && x.event.None? && x.state == RunStateOf(w.stream.log, key)
    && x.state.kind == StepState && x.state.pendingCancel.None?
  }

  lemma SendMore(log: seq<Message>, d: Directive, key: RunKey)
    requires NoInbox(log)
    ensures var log' := log + [Stored(DirectiveRecord(d))];
            NoInbox(log') && RunStateOf(log', key) == RunStateOf(log, key)
  {
    hide RunStateOf, LastOn;
    LastOnIs([Stored(DirectiveRecord(d))], StateSubject(key.wfID, key.runID), 0);
    RunStateAppend(log, [Stored(DirectiveRecord(d))], key);
  }

  lemma SendBoth(w0: World, info: RunInfo, ri: RunInfo, e: DirectiveID, r: DirectiveID) returns (w: World)
    requires Reached(w0, 8) && InFirstStep(w0, info, ri) && FreshID(w0, e) && FreshID(w0, r) && e != r
    ensures Reached(w, 10) && w.handlers == map[] && w.used == w0.used + {e, r} && w.commits == w0.commits
    ensures w.queue == w0.queue + {EventOf(info, e), ResultOf(ri, r)}
    ensures NoInbox(w.stream.log) && RunStateOf(w.stream.log, info.Key()) == RunStateOf(w0.stream.log, info.Key())
  {
    hide Reached, RunStateOf, NoInbox, Assigned;
    SendMore(w0.stream.log, EventOf(info, e), info.Key());
    var w1 := Send(w0, 8, EventOf(info, e));
    StillAssigned(w0.stream.log, w1.stream.log, ri);
    SendMore(w1.stream.log, ResultOf(ri, r), info.Key());
    w := Send(w1, 9, ResultOf(ri, r));
  }

  lemma StillAssigned(log: seq<Message>, log': seq<Message>, ri: RunInfo)
    requires Assigned(log, ri) && log <= log'
    ensures Assigned(log', ri)
  {
    var m :| m in log && m.Stored? && m.record.WorkerTaskDispatch? && m.record.directive.runInfo == ri;
    assert m in log';
  }

  lemma ReadBoth(w0: World, info: RunInfo, ri: RunInfo, e: DirectiveID, r: DirectiveID) returns (w: World)
    requires Reached(w0, 8) && InFirstStep(w0, info, ri) && FreshID(w0, e) && FreshID(w0, r) && e != r
    ensures Reached(w, 18) && BothRead(w, info, ri, e, r) && w.used == w0.used + {e, r}
  {
    hide Reached, RunStateOf, LastHistory, NoInbox, FreshID, Assigned, Known;
    w := SendBoth(w0, info, ri, e, r);
    NothingInInbox(w, ResultOf(ri, r));
    w := DeliverAndRead(w, 10, 0, ResultOf(ri, r));
    NothingInInbox(w, EventOf(info, e));
    w := DeliverAndRead(w, 14, 1, EventOf(info, e));
  }

  lemma TakerIsReady(w: World, h: nat, info: RunInfo, e: DirectiveID)
    requires h in w.handlers && HasRead(w, info.Key(), w.handlers[h]) && w.handlers[h].d == EventOf(info, e)
    ensures Ready(w, h)
  {
    hide RunStateOf;
  }

  /** The event goes in first; the run stays in its step and is not woken. */
  lemma EventFirst(w: World, info: RunInfo, ri: RunInfo, e: DirectiveID, r: DirectiveID, inp: Inputs)
    returns (w': World)
    requires Reached(w, 18) && BothRead(w, info, ri, e, r) && FreshID(w, inp.newID)
    ensures Reached(w', 19) && w'.used == w.used + {inp.newID} && w'.handlers.Keys == {0}
    ensures w'.handlers[0] == w.handlers[0]
    ensures RunStateOf(w'.stream.log, info.Key()) == RunStateOf(w.stream.log, info.Key())
    ensures HasMail(w'.stream.log, info.Key())
    ensures !Called(w', info.Key()) && forall c :: c in w'.commits ==> c.d.kind == StartKind || c.d.kind == EventKind
  {
    hide Reached, RunStateOf, FreshID, Good, Accounted, FifoInv, Accepted, HasMail, Lawful, Explains, Tame, StateOK,
      EventOK, ViaOK, Grounded, WellFormed, NewQueued;
    var c;
    TakerIsReady(w, 1, info, e);
    w', c := Settle(w, 18, 1, inp);
    AcceptedFacts(w, w', 1, c);
    AcceptedHandler(w, w', 1, c);
    AcceptedUses(w, w', 1, c);
    KindOfMove(c.d, c.sn, c.inp, c.effect);
    ReceiveWrites(c);
    AcceptedState(w, w', 1, c, info.Key());
    BringsMail(w, w', 1, c);
    QueuesNothing(w, w', 1, c);
  }

  lemma ReceiveWrites(c: Commit)
    requires c.effect.Effect? && c.effect.move.Receive? && c.sn.runState.kind == StepState
    ensures NewQueued(c.effect, c.sn, c.inp) == [] && Written(c).None?
  {
  }

  lemma ResultIsReady(w: World, info: RunInfo, ri: RunInfo, r: DirectiveID)
    requires w.handlers.Keys == {0} && w.handlers[0].d == ResultOf(ri, r) && HasRead(w, info.Key(), w.handlers[0])
    requires ri.Key() == info.Key() && ri.startedAt.Some?
    requires forall c :: c in w.commits ==> c.d.kind == StartKind || c.d.kind == EventKind
    ensures Ready(w, 0)
  {
    hide RunStateOf;
  }

  /** Then the run goes to wait. */
  lemma WaitSecond(w: World, info: RunInfo, ri: RunInfo, r: DirectiveID, inp: Inputs) returns (w': World)
    requires Reached(w, 19) && FreshID(w, inp.newID)
    requires w.handlers.Keys == {0} && w.handlers[0].d == ResultOf(ri, r) && HasRead(w, info.Key(), w.handlers[0])
    requires ri.Key() == info.Key() && ri.startedAt.Some? && HasMail(w.stream.log, info.Key()) && !Called(w, info.Key())
    requires forall c :: c in w.commits ==> c.d.kind == StartKind || c.d.kind == EventKind
    ensures Reached(w', 20) && !Awake(w', info.Key())
  {
    hide Reached, RunStateOf, FreshID, Good, Accounted, FifoInv, Accepted, HasMail, Lawful, Explains, Tame, StateOK,
      EventOK, ViaOK, Grounded, WellFormed, Awake, Called;
    var c;
    ResultIsReady(w, info, ri, r);
    w', c := Settle(w, 19, 0, inp);
    AcceptedFacts(w, w', 0, c);
    GoesToWait(c, ri, r);
    WaitLosesIff(w, w', 0, c);
  }

  lemma GoesToWait(c: Commit, ri: RunInfo, r: DirectiveID)
    requires Tame(c.d) && c.effect.Effect? && Explains(c.d, c.sn, c.inp, c.effect)
    requires c.d == ResultOf(ri, r) && c.sn.runState.pendingCancel.None?
    ensures c.effect.move.ToWait?
  {
    hide ResultFirst;
  }

  lemma ToLoss(w0: World, info: RunInfo, ri: RunInfo, c: DirectiveID, d: DirectiveID, e: DirectiveID, f: DirectiveID)
    returns (w: World)
    requires Reached(w0, 8) && InFirstStep(w0, info, ri) && c.Base? && d.Base? && e.Base? && f.Base?
    requires c !in w0.used && d !in w0.used + {c} && e !in w0.used + {c, d} && f !in w0.used + {c, d, e}
    ensures Reached(w, 20) && !Awake(w, info.Key())
  {
    hide Reached, InFirstStep, Awake, HasMail, Called, RunStateOf;
    w := ReadBoth(w0, info, ri, c, d);
    w := EventFirst(w, info, ri, c, d, Inputs(0, e, 0, 0));
    w := WaitSecond(w, info, ri, d, Inputs(0, f, 0, 0));
  }

  /** Whatever run is started, there is a way to lose a wake-up of it: in twenty steps it comes to wait with an
      event in its inbox and no wake directive in the queue. */
  lemma WakeUpIsLost(info: RunInfo) returns (w: World)
    requires Startable(info)
    ensures Reached(w, 20) && !Awake(w, info.Key())
  {
    hide Reached, Startable, InFirstStep, Awake;
    var a, b, c, d, e, f := Base("a"), Base("b"), Base("c"), Base("d"), Base("e"), Base("f");
    var w0, ri := ToFirstStep(info, a, b);
    w := ToLoss(w0, info, ri, c, d, e, f);
  }

  /* An event taken in twice */

  /** No event is taken in twice. */
  predicate EventsOnce(commits: seq<Commit>) {
    forall i, j :: 0 <= i < j < |commits| && Takes(commits[i]) && Takes(commits[j]) ==>
      commits[i].d.id != commits[j].d.id
  }

  /** Two handlers have the same event, and see the run in its first step. */
  ghost predicate TwiceRead(w: World, info: RunInfo, e: DirectiveID) {
    && w.handlers.Keys == {0, 1} && (forall h :: h in w.handlers ==>
      HasRead(w, info.Key(), w.handlers[h]) && w.handlers[h].d == EventOf(info, e))
  }

  lemma ReadTwice(w0: World, info: RunInfo, ri: RunInfo, e: DirectiveID) returns (w: World)
    requires Reached(w0, 8) && InFirstStep(w0, info, ri) && FreshID(w0, e)
    ensures Reached(w, 17) && TwiceRead(w, info, e) && w.used == w0.used + {e}
  {
    hide Reached, RunStateOf, LastHistory, NoInbox, Assigned;
    SendMore(w0.stream.log, EventOf(info, e), info.Key());
    w := Send(w0, 8, EventOf(info, e));
    NothingInInbox(w, EventOf(info, e));
    w := DeliverAndRead(w, 9, 0, EventOf(info, e));
    NothingInInbox(w, EventOf(info, e));
    w := DeliverAndRead(w, 13, 1, EventOf(info, e));
  }

  /** A handler takes in the event; what any other has read is still so. */
  lemma TakeIn(w: World, n: nat, h: nat, info: RunInfo, e: DirectiveID, inp: Inputs) returns (w': World)
    requires Reached(w, n) && h in w.handlers && FreshID(w, inp.newID)
    requires HasRead(w, info.Key(), w.handlers[h]) && w.handlers[h].d == EventOf(info, e)
    ensures Reached(w', n + 1) && w'.used == w.used + {inp.newID} && w'.handlers == w.handlers - {h}
    ensures RunStateOf(w'.stream.log, info.Key()) == RunStateOf(w.stream.log, info.Key())
    ensures |w'.commits| == |w.commits| + 1 && w'.commits[..|w.commits|] == w.commits
    ensures Takes(w'.commits[|w.commits|]) && w'.commits[|w.commits|].d == EventOf(info, e)
  {
    hide Reached, RunStateOf, FreshID, Good, Accounted, FifoInv, Accepted, Lawful, Explains, Tame, StateOK, EventOK,
      ViaOK, Grounded, WellFormed, NewQueued;
    var c;
    TakerIsReady(w, h, info, e);
    w', c := Settle(w, n, h, inp);
    AcceptedFacts(w, w', h, c);
    AcceptedHandler(w, w', h, c);
    AcceptedUses(w, w', h, c);
    KindOfMove(c.d, c.sn, c.inp, c.effect);
    ReceiveWrites(c);
    AcceptedState(w, w', h, c, info.Key());
  }

  lemma ToRepetition(w0: World, info: RunInfo, ri: RunInfo, c: DirectiveID, d: DirectiveID, e: DirectiveID)
    returns (w: World)
    requires Reached(w0, 8) && InFirstStep(w0, info, ri) && c.Base? && d.Base? && e.Base?
    requires c !in w0.used && d !in w0.used + {c} && e !in w0.used + {c, d}
    ensures Reached(w, 19) && !EventsOnce(w.commits)
  {
    hide Reached, InFirstStep, RunStateOf, Takes;
    var w1 := ReadTwice(w0, info, ri, c);
    var w2 := TakeIn(w1, 17, 1, info, c, Inputs(0, d, 0, 0));
    w := TakeIn(w2, 18, 0, info, c, Inputs(0, e, 0, 0));
    var i := |w1.commits|;
    assert w.commits[i] == w2.commits[i];
    assert w.commits[i + 1].d == w.commits[i].d;
  }

  /** Whatever run is started, an event sent to it can be taken in twice. */
  lemma EventTakenTwice(info: RunInfo) returns (w: World)
    requires Startable(info)
    ensures Reached(w, 19) && !EventsOnce(w.commits)
  {
    hide Reached, Startable, InFirstStep, EventsOnce;
    var a, b, c, d, e := Base("a"), Base("b"), Base("c"), Base("d"), Base("e");
    var w0, ri := ToFirstStep(info, a, b);
    w := ToRepetition(w0, info, ri, c, d, e);
  }
}
