/** The parts of the server that act on the store: the directive queue and the manager behind it, the handlers of
    fired timers and of background tasks, and the service clients talk to. */
module Engine {
  import opened Types
  import opened Stream
  import S = Stream
  import opened Wire
  import opened Planner
  import opened Effects
  import opened Worlds
  import opened StateStore
  import RunRecords

  datatype HandleResult = Processed | Retryable | Crashed

  /** What a handler would read from a stream if nothing came in between. */
  function SnapshotOf(st: Stream, key: RunKey): StateSnapshot {
    var state := RunStateOf(st.log, key);
    StateSnapshot(state, NextEvent(st, key.wfID, state.lastEventSeqID), LastHistory(st.log, key))
  }

  /** What handling a directive on its own does to a stream. */
  function Outcome(st: Stream, d: Directive, inp: Inputs, order: seq<string>, fault: Fault): (Stream, HandleResult)
    requires OrderOK(st, d, inp, order)
  {
    match Decide(d, SnapshotOf(st, d.Key()), inp)
    case Crash => (st, Crashed)
    case GiveUp => (st, Processed)
    case Write(batch) =>
      var (st', result) := Wire.Commit(st, batch, order, fault);
      (st', if IsProcessed(result) then Processed else Retryable)
  }

  predicate OrderOK(st: Stream, d: Directive, inp: Inputs, order: seq<string>) {
    var decision := Decide(d, SnapshotOf(st, d.Key()), inp);
    decision.Write? ==> OrderFor(decision.batch, order)
  }

  /** The manager (run/manager.go). */
  class Manager {
    const store: Store
    const stepTimeoutMS: nat
    const waitTimeoutMS: nat

    constructor (store: Store, stepTimeoutMS: nat, waitTimeoutMS: nat)
      ensures this.store == store && this.stepTimeoutMS == stepTimeoutMS && this.waitTimeoutMS == waitTimeoutMS
    {
      this.store, this.stepTimeoutMS, this.waitTimeoutMS := store, stepTimeoutMS, waitTimeoutMS;
    }

    function InputsAt(now: Time, newID: DirectiveID): Inputs {
      Inputs(now, newID, stepTimeoutMS, waitTimeoutMS)
    }

    /** Read, plan, commit. A failed read changes nothing; a failed plan turns into the failure of the run. */
    method Handle(d: Directive, now: Time, newID: DirectiveID, order: seq<string>, readFails: bool, fault: Fault)
      returns (result: HandleResult)
      requires OrderOK(store.stream, d, InputsAt(now, newID), order)
      modifies store
      ensures readFails ==> store.stream == old(store.stream) && result == Retryable
      ensures !readFails ==> (store.stream, result) == Outcome(old(store.stream), d, InputsAt(now, newID), order, fault)
    {
      hide Decide, Wire.Commit, Plan, RunRecords.BuildUnexpectedFailure;
      if readFails {
        return Retryable;
      }
      var sn := store.GetStateSnapshot(d.Key());
      var inp := InputsAt(now, newID);
      var records := Plan(d, sn, inp);
      PlannedIs(d, sn, inp);
      match records {
        case Ok(batch) => result := CommitBatch(batch, order, fault);
        case Panic => result := Crashed;
        case Err(_) => result := FailAndCommit(d, sn, inp, order, fault);
      }
    }

    method CommitBatch(batch: seq<Record>, order: seq<string>, fault: Fault) returns (result: HandleResult)
      requires OrderFor(batch, order)
      modifies store
      ensures store.stream == Wire.Commit(old(store.stream), batch, order, fault).0
      ensures result == if IsProcessed(Wire.Commit(old(store.stream), batch, order, fault).1) then Processed
        else Retryable
    {
      hide Wire.Commit;
      var committed := store.Commit(batch, order, fault);
      match committed {
        case Committed => result := Processed;
        case DuplicateMessage => result := Processed;
        case _ => result := Retryable;
      }
    }

    method FailAndCommit(d: Directive, sn: StateSnapshot, inp: Inputs, order: seq<string>, fault: Fault)
      returns (result: HandleResult)
      requires var failure := RunRecords.BuildUnexpectedFailure(d, sn.runState, inp); failure.Ok? ==>
        OrderFor(failure.value, order)
      modifies store
      ensures match RunRecords.BuildUnexpectedFailure(d, sn.runState, inp)
              case Ok(batch) =>
                && store.stream == Wire.Commit(old(store.stream), batch, order, fault).0
                && result == if IsProcessed(Wire.Commit(old(store.stream), batch, order, fault).1) then Processed
                  else Retryable
              case Panic => store.stream == old(store.stream) && result == Crashed
              case Err(_) => store.stream == old(store.stream) && result == Processed
    {
      hide Wire.Commit, RunRecords.BuildUnexpectedFailure;
      match RunRecords.BuildUnexpectedFailure(d, sn.runState, inp) {
        case Ok(batch) => result := CommitBatch(batch, order, fault);
        case Panic => result := Crashed;
        case Err(_) => result := Processed;
      }
    }
  }

  lemma PlannedIs(d: Directive, sn: StateSnapshot, inp: Inputs)
    ensures Decide(d, sn, inp) ==
      match Plan(d, sn, inp)
      case Ok(batch) => Write(batch)
      case Panic => Crash
      case Err(_) =>
        match RunRecords.BuildUnexpectedFailure(d, sn.runState, inp)
        case Ok(batch) => Write(batch)
        case Panic => Crash
        case Err(_) => GiveUp
  {
    hide Plan, RunRecords.BuildUnexpectedFailure;
  }

  /** The delivery loop (ingress/directive.go): a message is acknowledged or handed back. */
  class DirectiveQueue {
    const manager: Manager
    var acked: set<nat>      // messages that were acknowledged and will not be delivered again
    var returned: set<nat>   // messages that were handed back for another delivery

    constructor (manager: Manager)
      ensures this.manager == manager && acked == {} && returned == {}
    {
      this.manager := manager;
      acked, returned := {}, {};
    }

    /** `payload` is what the message decodes to, if it does. A crash acknowledges nothing. */
    method ProcessMessage(id: nat, payload: Option<Directive>, now: Time, newID: DirectiveID, order: seq<string>,
      readFails: bool, fault: Fault)
      requires payload.Some? ==> OrderOK(manager.store.stream, payload.value, manager.InputsAt(now, newID), order)
      modifies this`acked, this`returned, manager.store
      ensures payload.None? ==>
        acked == old(acked) + {id} && returned == old(returned) && manager.store.stream == old(manager.store.stream)
      ensures payload.Some? && readFails ==>
        acked == old(acked) && returned == old(returned) + {id} && manager.store.stream == old(manager.store.stream)
      ensures payload.Some? && !readFails ==>
        var (st, result) := Outcome(old(manager.store.stream), payload.value, manager.InputsAt(now, newID), order,
          fault);
        && manager.store.stream == st
        && acked == (if result.Processed? then old(acked) + {id} else old(acked))
        && returned == (if result.Retryable? then old(returned) + {id} else old(returned))
    {
      hide OrderOK, Outcome;
      if payload.None? {
        acked := acked + {id};
        return;
      }
      var result := manager.Handle(payload.value, now, newID, order, readFails, fault);
      match result {
        case Processed => acked := acked + {id};
        case Retryable => returned := returned + {id};
        case Crashed =>
      }
    }
  }

  /** The handler of fired timers (run/timer.go). */
  class TimerHandler {
    const publisher: Store
    const maxDeliveries: nat

    constructor (publisher: Store, maxDeliveries: nat)
      ensures this.publisher == publisher && this.maxDeliveries == maxDeliveries
    {
      this.publisher, this.maxDeliveries := publisher, maxDeliveries;
    }

    /** A timer without a directive is dropped. Any other becomes one directive, of a timeout or, when it was
        delivered too often or makes no sense, of a failure; if it cannot be published the timer comes back. */
    method Handle(timer: Timer, numDelivered: nat, newID: DirectiveID, now: Time, publishFails: bool)
      returns (result: HandleResult)
      modifies publisher
      ensures timer.directive.id == NO_ID ==> result == Processed && publisher.stream == old(publisher.stream)
      ensures timer.directive.id != NO_ID && publishFails ==>
        result == Retryable && publisher.stream == old(publisher.stream)
      ensures timer.directive.id != NO_ID && !publishFails ==>
        && result == Processed
        && publisher.stream == S.PublishDirective(old(publisher.stream),
          TimeoutDirective(timer, newID, now, numDelivered > maxDeliveries))
    {
      if timer.directive.id == NO_ID {
        return Processed;
      }
      var directive;
      if numDelivered > maxDeliveries {
        directive := Failure(timer, newID, now, "timer exceeded max delivery count");
      } else {
        match timer.kind {
          case StepTimer =>
            if timer.directive.msg.Dispatchable() {
              directive := Directive(newID, 0, StepTimeoutKind, timer.directive.runInfo,
                                     StepTimeoutMsg(timer.directive.msg.DispatchName(), timer.directive.id));
            } else {
              directive := Failure(timer, newID, now, "failed to build step timeout directive");
            }
          case WaitTimer =>
            if timer.directive.msg.WaitMsg? {
              directive := Directive(newID, 0, WaitTimeoutKind, timer.directive.runInfo,
                                     WaitTimeoutMsg(timer.directive.msg.timeoutStepName, timer.directive.id));
            } else {
              directive := Failure(timer, newID, now, "failed to build wait timeout directive");
            }
        }
      }
      if publishFails {
        return Retryable;
      }
      publisher.PublishDirective(directive);
      result := Processed;
    }

    function Failure(timer: Timer, newID: DirectiveID, now: Time, cause: string): Directive {
      Directive(newID, now, FailKind, timer.directive.runInfo, FailMsg(ErrorDetails("TimerExhausted", cause)))
    }
  }

  /** The callback a parent gets for the outcome of a child. */
  function CallbackDirective(task: BackgroundTask, parent: RunInfo, now: Time, payload: Value): Directive
    requires task.payload.NotifyPayload?
  {
    Directive(Callback(task.dedupID), now, EventKind, parent, EventMsg(None, task.payload.stepName, payload, 0))
  }

  /** The handler of background tasks (run/bgtask.go). What workers are told is not part of the stream. */
  class TaskHandler {
    const store: Store
    const maxDeliveries: nat

    constructor (store: Store, maxDeliveries: nat)
      ensures this.store == store && this.maxDeliveries == maxDeliveries
    {
      this.store, this.maxDeliveries := store, maxDeliveries;
    }

    /** A task that was delivered too often is discarded; one that fails comes back. */
    method Handle(task: BackgroundTask, numDelivered: nat, now: Time, payload: Value, fails: bool)
      returns (result: HandleResult)
      modifies store
      ensures numDelivered > maxDeliveries ==> result == Processed && store.stream == old(store.stream)
      ensures numDelivered <= maxDeliveries && fails ==> result == Retryable && store.stream == old(store.stream)
      ensures numDelivered <= maxDeliveries && !fails ==>
        match task.payload
        case DeleteTimerPayload(wfID, kind, timerID) =>
          result == Processed && store.stream == PurgeSubject(old(store.stream), TimerSubject(wfID, kind, timerID))
        case DeleteInboxPayload(q) => result == Processed &&
          store.stream == old(store.stream).(removed := old(store.stream).removed + {q})
        case PurgePayload(wfID) => result == Processed && store.stream == PurgedUpTo(old(store.stream), wfID, 4)
        case NotifyPayload(parentWFID, _, _, _, _, _) =>
          var q := LastInfo(old(store.stream).log, parentWFID);
          if q == 0 then result == Retryable && store.stream == old(store.stream)
          else
            var parent := old(store.stream).log[q - 1].record.info;
            && result == Processed
            && store.stream == if parent.status.IsTerminal() then old(store.stream)
                               else S.PublishDirective(old(store.stream), CallbackDirective(task, parent, now, payload))
        case WorkerTerminatePayload(_, _) => result == Processed && store.stream == old(store.stream)
    {
      if numDelivered > maxDeliveries {
        return Processed;
      }
      if fails {
        return Retryable;
      }
      result := Processed;
      match task.payload {
        case DeleteTimerPayload(wfID, kind, timerID) => store.CancelTimer(wfID, kind, timerID);
        case DeleteInboxPayload(q) => store.DeleteInboxEvent(q);
        case PurgePayload(wfID) => store.PurgeRunResidue(wfID);
        case NotifyPayload(parentWFID, _, _, _, _, _) =>
          var parent := store.GetRunByWFID(parentWFID);
          if parent.None? {
            result := Retryable;
          } else if !parent.value.status.IsTerminal() {
            store.PublishDirective(CallbackDirective(task, parent.value, now, payload));
          }
        case WorkerTerminatePayload(_, _) =>
      }
    }
  }

  datatype ServiceError = NoError | AlreadyRunning | NotFound | RunTerminal

  /** What clients ask for (run/service.go). */
  class Service {
    const store: Store

    constructor (store: Store)
      ensures this.store == store
    {
      this.store := store;
    }

    /** The run is created first, then its start is queued; nothing happens if the workflow ID is in use. */
    method StartRun(info: RunInfo, input: Option<Value>, timeout: nat, newID: DirectiveID, now: Time)
      returns (e: ServiceError)
      modifies store
      ensures var q := LastInfo(old(store.stream).log, info.wfID);
              var free := q == 0 || old(store.stream).log[q - 1].record.info.status.IsTerminal();
              && (free <==> e == NoError) && (!free <==> e == AlreadyRunning)
              && store.stream == if !free then old(store.stream)
                                 else S.PublishDirective(Append(old(store.stream), [Stored(RunInfoRecord(info))]),
                                                         Directive(newID, now, StartKind, info,
                                                           StartMsg(input, timeout)))
    {
      var created := store.CreateRunInfo(info);
      if !created {
        return AlreadyRunning;
      }
      store.PublishDirective(Directive(newID, now, StartKind, info, StartMsg(input, timeout)));
      e := NoError;
    }

    /** Events, cancels and terminations go to the last run of the workflow ID, as long as it has not ended. */
    method Send(wfID: WFID, msg: Msg, newID: DirectiveID, now: Time) returns (e: ServiceError)
      modifies store
      ensures var q := LastInfo(old(store.stream).log, wfID);
              if q == 0 then e == NotFound && store.stream == old(store.stream)
              else
                var info := old(store.stream).log[q - 1].record.info;
                if info.status.IsTerminal() then e == RunTerminal && store.stream == old(store.stream)
                else e == NoError && store.stream == S.PublishDirective(old(store.stream),
                  Directive(newID, now, msg.Kind(), info, msg))
    {
      var info := store.GetRunByWFID(wfID);
      if info.None? {
        return NotFound;
      }
      if info.value.status.IsTerminal() {
        return RunTerminal;
      }
      store.PublishDirective(Directive(newID, now, msg.Kind(), info.value, msg));
      e := NoError;
    }
  }

  /* What the classes do is what the state machine does */

  /** A handler that has just read everything. */
  function AllRead(w: World, h: nat, d: Directive): World {
    var sn := SnapshotOf(w.stream, d.Key());
    w.(handlers := w.handlers[h := Handler(d, 3, sn.runState, sn.lastHistorySeqID, |w.stream.log|, sn.event)])
  }

  lemma ReadsInFourSteps(w: World, h: nat, d: Directive)
    requires h !in w.handlers && d in w.queue
    ensures Enabled(w, Deliver(h, d)) && Enabled(Apply(w, Deliver(h, d)), ReadState(h))
    ensures Enabled(Apply(Apply(w, Deliver(h, d)), ReadState(h)), ReadHistory(h))
    ensures Enabled(Apply(Apply(Apply(w, Deliver(h, d)), ReadState(h)), ReadHistory(h)), ReadEvent(h))
    ensures Apply(Apply(Apply(Apply(w, Deliver(h, d)), ReadState(h)), ReadHistory(h)), ReadEvent(h)) == AllRead(w, h, d)
  {
    hide RunStateOf, NextEvent, LastHistory;
    var w1 := Apply(w, Deliver(h, d));
    var w2 := Apply(w1, ReadState(h));
    var w3 := Apply(w2, ReadHistory(h));
    assert Apply(w3, ReadEvent(h)).handlers == AllRead(w, h, d).handlers;
  }

  /** Handling a directive on its own is the last of five steps of the state machine, after its delivery and three
      reads. */
  lemma HandledIsFinish(w: World, h: nat, d: Directive, inp: Inputs, order: seq<string>, fault: Fault, e: Effect)
    requires OrderOK(w.stream, d, inp, order) && e == EffectOf(d, SnapshotOf(w.stream, d.Key()), inp)
    ensures var finish := Finish(h, inp, order, fault, Decide(d, SnapshotOf(w.stream, d.Key()), inp), e);
            && Enabled(AllRead(w, h, d), finish) && Honest(AllRead(w, h, d), finish)
            && Apply(AllRead(w, h, d), finish).stream == Outcome(w.stream, d, inp, order, fault).0
            && (d in Apply(AllRead(w, h, d), finish).acked <==>
              d in w.acked || Outcome(w.stream, d, inp, order, fault).1 == Processed)
  {
    hide Decide, EffectOf, RunStateOf, NextEvent, LastHistory, Wire.Commit, OrderFor;
  }

  /** A callback that is handled again changes nothing. */
  lemma CallbackOnce(st: Stream, task: BackgroundTask, parent: RunInfo, parent': RunInfo, now: Time, now': Time,
    payload: Value, payload': Value)
    requires task.payload.NotifyPayload?
    ensures var once := S.PublishDirective(st, CallbackDirective(task, parent, now, payload));
            S.PublishDirective(once, CallbackDirective(task, parent', now', payload')) == once
  {
    var d := CallbackDirective(task, parent, now, payload);
    assert Stored(DirectiveRecord(d)).MsgID() == Some(d.id);
    assert d.id in S.PublishDirective(st, d).ids;
  }
}
