/** What a batch holds, kind by kind and in order. */
module Views {
  import opened Types

  datatype View = View(
    states: seq<Record>,
    infos: seq<RunInfo>,
    history: seq<HistoryEvent>,
    timers: seq<Timer>,
    inbox: seq<Directive>,
    kvs: seq<Record>,
    dispatches: seq<Directive>,
    queued: seq<Directive>,
    tasks: seq<BackgroundTask>,
    outcomes: seq<Record>)  // run input, output and error

  const NOTHING := View([], [], [], [], [], [], [], [], [], [])

  function One(r: Record): View {
    match r
    case RunStateRecord(_, _) => NOTHING.(states := [r])
    case RunInfoRecord(info) => NOTHING.(infos := [info])
    case HistoryRecord(h) => NOTHING.(history := [h])
    case TimerRecord(t) => NOTHING.(timers := [t])
    case InboxRecord(d) => NOTHING.(inbox := [d])
    case KVRecord(_, _, _) => NOTHING.(kvs := [r])
    case WorkerTaskDispatch(d) => NOTHING.(dispatches := [d])
    case DirectiveRecord(d) => NOTHING.(queued := [d])
    case BackgroundTaskRecord(t) => NOTHING.(tasks := [t])
    case _ => NOTHING.(outcomes := [r])
  }

  function Join(a: View, b: View): View {
    View(a.states + b.states, a.infos + b.infos, a.history + b.history, a.timers + b.timers, a.inbox + b.inbox,
         a.kvs + b.kvs, a.dispatches + b.dispatches, a.queued + b.queued, a.tasks + b.tasks, a.outcomes + b.outcomes)
  }

  function Of(batch: seq<Record>): View {
    if batch == [] then NOTHING else Join(One(batch[0]), Of(batch[1..]))
  }

  lemma JoinAssociative(a: View, b: View, c: View)
    ensures Join(Join(a, b), c) == Join(a, Join(b, c))
  {
  }

  lemma JoinNothing(v: View)
    ensures Join(NOTHING, v) == v && Join(v, NOTHING) == v
  {
  }

  lemma JoinTasks(v: View, tasks: seq<BackgroundTask>)
    ensures Join(v, NOTHING.(tasks := tasks)) == v.(tasks := v.tasks + tasks)
  {
  }

  lemma JoinOutcomes(v: View, outcomes: seq<Record>)
    ensures Join(v, NOTHING.(outcomes := outcomes)) == v.(outcomes := v.outcomes + outcomes)
  {
  }

  lemma JoinQueued(v: View, queued: seq<Directive>)
    ensures Join(v, NOTHING.(queued := queued)) == v.(queued := v.queued + queued)
  {
  }

  lemma {:induction false} OfAppend(a: seq<Record>, b: seq<Record>)
    ensures Of(a + b) == Join(Of(a), Of(b))
  {
    if a == [] {
      assert a + b == b;
      assert Join(NOTHING, Of(b)) == Of(b);
    } else {
      assert (a + b)[1..] == a[1..] + b;
      OfAppend(a[1..], b);
      JoinAssociative(One(a[0]), Of(a[1..]), Of(b));
    }
  }

  lemma OfNone()
    ensures Of([]) == NOTHING
  {
  }

  lemma OfParts(a: seq<Record>, b: seq<Record>, c: seq<Record>)
    ensures Of(a + b + c) == Join(Join(Of(a), Of(b)), Of(c))
  {
    hide Of;
    OfAppend(a, b);
    OfAppend(a + b, c);
  }

  lemma OfOne(r: Record)
    ensures Of([r]) == One(r)
  {
    assert [r][1..] == [];
    assert Join(One(r), NOTHING) == One(r);
  }

  lemma OfTwo(a: Record, b: Record)
    ensures Of([a, b]) == Join(One(a), One(b))
  {
    hide Of;
    assert [a, b] == [a] + [b];
    OfAppend([a], [b]);
    OfOne(a);
    OfOne(b);
  }

  lemma OfThree(a: Record, b: Record, c: Record)
    ensures Of([a, b, c]) == Join(Join(One(a), One(b)), One(c))
  {
    hide Of;
    assert [a, b, c] == [a, b] + [c];
    OfAppend([a, b], [c]);
    OfTwo(a, b);
    OfOne(c);
  }

  lemma OfFour(a: Record, b: Record, c: Record, d: Record)
    ensures Of([a, b, c, d]) == Join(Join(One(a), One(b)), Join(One(c), One(d)))
  {
    hide Of;
    assert [a, b, c, d] == [a, b] + [c, d];
    OfAppend([a, b], [c, d]);
    OfTwo(a, b);
    OfTwo(c, d);
  }

  predicate Holds(v: View, r: Record) {
    match r
    case RunStateRecord(_, _) => r in v.states
    case RunInfoRecord(info) => info in v.infos
    case HistoryRecord(h) => h in v.history
    case TimerRecord(t) => t in v.timers
    case InboxRecord(d) => d in v.inbox
    case KVRecord(_, _, _) => r in v.kvs
    case WorkerTaskDispatch(d) => d in v.dispatches
    case DirectiveRecord(d) => d in v.queued
    case BackgroundTaskRecord(t) => t in v.tasks
    case _ => r in v.outcomes
  }

  lemma JoinHolds(a: View, b: View, r: Record)
    ensures Holds(Join(a, b), r) <==> Holds(a, r) || Holds(b, r)
  {
  }

  lemma OneHolds(x: Record, r: Record)
    ensures Holds(One(x), r) <==> x == r
  {
  }

  /** A record is in the batch exactly when it is in its part of the view. */
  lemma {:induction false} OfMembers(batch: seq<Record>, r: Record)
    ensures r in batch <==> Holds(Of(batch), r)
  {
    if batch != [] {
      hide Holds, One, Join;
      OfMembers(batch[1..], r);
      JoinHolds(One(batch[0]), Of(batch[1..]), r);
      OneHolds(batch[0], r);
      assert batch == [batch[0]] + batch[1..];
    }
  }

  /* The events that end a run */

  function EndEvents(history: seq<HistoryEvent>): seq<HistoryEvent> {
    if history == [] then [] else (if history[0].EndsRun() then [history[0]] else []) + EndEvents(history[1..])
  }

  lemma {:induction false} EndEventsAppend(a: seq<HistoryEvent>, b: seq<HistoryEvent>)
    ensures EndEvents(a + b) == EndEvents(a) + EndEvents(b)
  {
    if a == [] {
      assert a + b == b;
    } else {
      hide HistoryEvent.EndsRun;
      var head := if a[0].EndsRun() then [a[0]] else [];
      assert (a + b)[1..] == a[1..] + b && (a + b)[0] == a[0];
      EndEventsAppend(a[1..], b);
      assert EndEvents(a + b) == head + EndEvents(a[1..] + b);
    }
  }

  lemma {:induction false} NoEndEvents(history: seq<HistoryEvent>)
    requires forall h :: h in history ==> !h.EndsRun()
    ensures EndEvents(history) == []
  {
    if history != [] { NoEndEvents(history[1..]); }
  }
}
