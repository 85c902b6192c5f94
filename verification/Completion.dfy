/** However a run ends, its residue is purged once and, if it has a parent that wants to know, its outcome is
    reported to the parent once. */
module Completion {
  import opened Types
  import opened Stream
  import opened Wire
  import opened Effects
  import opened Moves
  import opened Protocol
  import opened Worlds
  import opened Serial
  import opened Discipline
  import opened Bookkeeping
  import opened Steps
  import opened Terminal
  import BuilderViews
  import Views
  import Cancellation
  import Entries
  import ExactlyOnce

  function OfKind(tasks: seq<BackgroundTask>, kind: TaskKind): seq<BackgroundTask> {
    if tasks == [] then [] else (if tasks[0].kind == kind then [tasks[0]] else []) + OfKind(tasks[1..], kind)
  }

  lemma {:induction false} OfKindAppend(a: seq<BackgroundTask>, b: seq<BackgroundTask>, kind: TaskKind)
    ensures OfKind(a + b, kind) == OfKind(a, kind) + OfKind(b, kind)
  {
    if a == [] {
      assert a + b == b;
    } else {
      var head := if a[0].kind == kind then [a[0]] else [];
      assert (a + b)[1..] == a[1..] + b && (a + b)[0] == a[0];
      OfKindAppend(a[1..], b, kind);
      assert OfKind(a + b, kind) == head + OfKind(a[1..] + b, kind);
    }
  }

  lemma {:induction false} NoneOfKind(tasks: seq<BackgroundTask>, kind: TaskKind)
    requires forall t :: t in tasks ==> t.kind != kind
    ensures OfKind(tasks, kind) == []
  {
    if tasks != [] {
      assert tasks[0] in tasks;
      NoneOfKind(tasks[1..], kind);
    }
  }

  lemma OneOfKind(t: BackgroundTask, kind: TaskKind)
    ensures OfKind([t], kind) == if t.kind == kind then [t] else []
  {
    assert [t][1..] == [];
  }

  predicate WantsCallback(ri: RunInfo) { ri.parentWFID.Some? && ri.parentCallbackStep.Some? }

  /** The report of a child's outcome. */
  predicate Reports(t: BackgroundTask, via: Directive, kind: RunStateKind) {
    && t.dedupID == ForTask(NotifyTask, via.id) && t.payload.NotifyPayload? && t.payload.childWFID == via.runInfo.wfID
    && Some(t.payload.parentWFID) == via.runInfo.parentWFID &&
      Some(t.payload.stepName) == via.runInfo.parentCallbackStep
    && t.payload.status == StatusFor(kind)
  }

  predicate Settles(tasks: seq<BackgroundTask>, via: Directive, kind: RunStateKind) {
    && OfKind(tasks, PurgeTask) == [BuilderViews.Purge(via)]
    && if WantsCallback(via.runInfo) then |OfKind(tasks, NotifyTask)| == 1 &&
      Reports(OfKind(tasks, NotifyTask)[0], via, kind)
       else OfKind(tasks, NotifyTask) == []
  }

  /** Workers, then the parent, then the purge: the tasks of any ending. */
  lemma TasksSettle(worker: seq<BackgroundTask>, callback: seq<BackgroundTask>, via: Directive, kind: RunStateKind)
    requires forall t :: t in worker ==> t.kind == WorkerTerminateTask
    requires if WantsCallback(via.runInfo) then |callback| == 1 && callback[0].kind == NotifyTask &&
      Reports(callback[0], via, kind) else callback == []
    ensures Settles(worker + callback + [BuilderViews.Purge(via)], via, kind)
  {
    hide OfKind, Reports;
    var purge := BuilderViews.Purge(via);
    forall k | k == PurgeTask || k == NotifyTask
      ensures OfKind(worker + callback + [purge], k) == OfKind(callback, k) + OfKind([purge], k)
    {
      OfKindAppend(worker + callback, [purge], k);
      OfKindAppend(worker, callback, k);
      NoneOfKind(worker, k);
    }
    OneOfKind(purge, PurgeTask);
    OneOfKind(purge, NotifyTask);
    NoneOfKind([], PurgeTask);
    NoneOfKind([], NotifyTask);
    if callback != [] {
      assert callback == [callback[0]];
      OneOfKind(callback[0], PurgeTask);
      OneOfKind(callback[0], NotifyTask);
    }
  }

  lemma EndSettles(e: Effect, sn: StateSnapshot)
    requires WellFormed(e) && e.Effect? && e.move.ToEnd?
    ensures Settles(EndTasks(e, sn), e.move.via, e.move.kind)
  {
    hide Settles;
    var via := e.move.via;
    match e.move.kind {
      case CompleteState =>
        var callback := CallbackTasks(via, Completed, via.msg.result, None);
        TasksSettle([], callback, via, CompleteState);
        assert [] + callback == callback;
      case FailState => TasksSettle(WorkerTasks(via, sn.runState),
        CallbackTasks(via, Failed, None, Some(via.msg.error)), via, FailState);
      case CancelState =>
        var callback := CallbackTasks(via, Cancelled, None,
          Some(ErrorDetails("Cancelled", Reason(via.msg.reason, "workflow was cancelled"))));
        TasksSettle([], callback, via, CancelState);
        assert [] + callback == callback;
      case TerminateState =>
        TasksSettle(WorkerTasks(via, sn.runState),
                    CallbackTasks(via, Terminated, None,
                      Some(ErrorDetails("Terminated", Reason(via.msg.reason, "run was terminated")))), via,
                      TerminateState);
    }
  }

  /** Deleting the timer of the last step does not count. */
  lemma DeletionDoesNotSettle(t: BackgroundTask, tasks: seq<BackgroundTask>, via: Directive, kind: RunStateKind)
    requires t.kind == DeleteTimerTask && Settles(tasks, via, kind)
    ensures Settles([t] + tasks, via, kind)
  {
    hide OfKind;
    forall k | k == PurgeTask || k == NotifyTask ensures OfKind([t] + tasks, k) == OfKind(tasks, k) {
      OfKindAppend([t], tasks, k);
      OneOfKind(t, k);
    }
  }

  lemma BatchSettles(c: Commit)
    requires Tame(c.d) && Explains(c.d, c.sn, c.inp, c.effect) && Lawful(c) && c.effect.move.ToEnd?
    ensures Settles(TasksIn(c.msgs), c.effect.move.via, c.effect.move.kind)
  {
    hide Lawful, Settles, TasksIn, EndTasks, ExplainsResult, StaleStep, StaleWait;
    LawfulTasks(c);
    EndSettles(c.effect, c.sn);
    if c.d.kind == StepResultKind {
      DeletionDoesNotSettle(c.effect.before.tasks[0], EndTasks(c.effect, c.sn), c.effect.move.via, c.effect.move.kind);
      assert NewTasks(c.effect, c.sn) == [c.effect.before.tasks[0]] + EndTasks(c.effect, c.sn);
    } else {
      assert NewTasks(c.effect, c.sn) == EndTasks(c.effect, c.sn);
    }
  }

  lemma LawfulTasks(c: Commit)
    requires Lawful(c)
    ensures c.effect.Effect? && WellFormed(c.effect) && TasksIn(c.msgs) == NewTasks(c.effect, c.sn)
  {
    hide Fits, StateAt, Puts, LedMessages, TasksIn, QueuedIn, EndsOf, Views.EndEvents;
  }

  /** Only the batch that ends a run carries a purge or a report. */
  lemma OthersDoNotSettle(c: Commit, t: BackgroundTask)
    requires Tame(c.d) && Explains(c.d, c.sn, c.inp, c.effect) && Lawful(c) && !c.effect.move.ToEnd?
    requires t in TasksIn(c.msgs)
    ensures t.kind == DeleteTimerTask
  {
    hide Lawful, Explains, Tame, NewTasks, EndTasks;
    LawfulTasks(c);
    TasksOf(c, t);
  }

  predicate InBatchOf(c: Commit, key: RunKey, t: BackgroundTask) {
    c.d.Key() == key && t in TasksIn(c.msgs)
  }

  /** Child completion is reported once. For every way a run can end, the batch that ends it holds exactly one
      purge task and, if and only if a callback is wanted, exactly one report, whose status is that of the end.
      No other batch of the run holds either. No two ends, of whatever runs, report under the same ID, and however
      often a report is redelivered, the queue gets at most one directive out of it. */
  lemma ReportedOnce(w: World, n: nat, i: nat)
    requires Reached(w, n) && i < |w.commits| && Ends(w.commits[i])
    ensures var c := w.commits[i];
            && Settles(TasksIn(c.msgs), c.effect.move.via, c.effect.move.kind)
            && c.effect.move.via.Key() == c.d.Key()
            && (forall j, t :: 0 <= j < |w.commits| && j != i && InBatchOf(w.commits[j], c.d.Key(), t) ==>
                  t.kind == DeleteTimerTask)
            && (forall j :: 0 <= j < |w.commits| && j != i && Ends(w.commits[j]) ==>
                  w.commits[j].effect.move.via.id != c.effect.move.via.id)
            && var id := Callback(ForTask(NotifyTask, c.effect.move.via.id));
               forall d, d' :: d in w.queue && d' in w.queue && d.id == id && d'.id == id ==> d == d'
  {
    hide Reached, Good, Settles, TasksIn, Lawful, Explains, Tame, StateOK, EventOK, Current, Grounded, ViaOK;
    GoodHolds(w, n);
    var c := w.commits[i];
    EndsMeans(c);
    BatchFacts(w, i);
    BatchSettles(c);
    Cancellation.ViaStands(w, c);
    EndsViaOwn(w, c);
    forall j, t | 0 <= j < |w.commits| && j != i && InBatchOf(w.commits[j], c.d.Key(), t)
      ensures t.kind == DeleteTimerTask
    {
      BatchFacts(w, j);
      NotTheEnd(w, i, j);
      OthersDoNotSettle(w.commits[j], t);
    }
    forall j | 0 <= j < |w.commits| && j != i && Ends(w.commits[j])
      ensures w.commits[j].effect.move.via.id != c.effect.move.via.id
    {
      if i < j { EndsDiffer(w, i, j); } else { EndsDiffer(w, j, i); }
    }
    forall d, d' | d in w.queue && d' in w.queue && d'.id == d.id ensures d == d' {
      Entries.GoodQueue(w);
      Entries.ToldApart(w, d, d');
    }
  }

  /** Different ends are made under different IDs. */
  lemma EndsDiffer(w: World, i: nat, j: nat)
    requires Good(w) && i < j < |w.commits| && Ends(w.commits[i]) && Ends(w.commits[j])
    ensures w.commits[i].effect.move.via.id != w.commits[j].effect.move.via.id
  {
    hide Good, CommitOK, Lawful, Grounded, Current, IDsOf;
    BatchFacts(w, i);
    BatchFacts(w, j);
    EndsMeans(w.commits[i]);
    EndsMeans(w.commits[j]);
    PurgeIsNamed(w.commits[i]);
    PurgeIsNamed(w.commits[j]);
    ExactlyOnce.DisjointIDs(w, i, j);
  }

  lemma PurgeIsNamed(c: Commit)
    requires Lawful(c) && c.effect.Effect? && c.effect.move.ToEnd?
    ensures ForTask(PurgeTask, c.effect.move.via.id) in IDsOf(c.msgs)
  {
    hide Lawful;
    LawfulShape(c);
    var t := BuilderViews.Purge(c.effect.move.via);
    assert t in EndTasks(c.effect, c.sn);
    Member(c, BackgroundTaskRecord(t));
    assert Stored(BackgroundTaskRecord(t)).MsgID() == Some(ForTask(PurgeTask, c.effect.move.via.id));
  }

  lemma EndsViaOwn(w: World, c: Commit)
    requires ViaOK(w.runs, w.used, c) && c.effect.move.ToEnd?
    ensures c.effect.move.via.Key() == c.d.Key()
  {
  }

  lemma NotTheEnd(w: World, i: nat, j: nat)
    requires Good(w) && i < |w.commits| && j < |w.commits| && i != j && w.commits[i].d.Key() == w.commits[j].d.Key()
    requires Ends(w.commits[i])
    ensures w.commits[j].effect.Effect? && !w.commits[j].effect.move.ToEnd?
  {
    hide Good, CommitOK, Lawful, Grounded, Current;
    BatchFacts(w, j);
    LawfulShape(w.commits[j]);
    if i < j {
      OneEnding(w, i, j);
    } else if w.commits[j].effect.move.ToEnd? {
      OneEnding(w, j, i);
    }
  }
}
