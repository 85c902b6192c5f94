# Ground Control's run engine in Dafny

Ground Control runs workflows. Every run is a state machine that is driven by directives: starts, events, cancels, step
results, timeouts. Directives are delivered at least once and handled concurrently. A handler reads a snapshot of the run
in several separate reads, plans a batch of records, and commits the batch to one append-only stream. The stream takes a
batch whole or not at all: it checks the expected last sequence of the run-state subject and drops known message IDs.

This project models that engine and proves what it promises, for every interleaving of handlers, every redelivery, every
lost request and every lost reply.

## How it is built

- **Values.** `Types`, `History`, `RunRecords`, `StepRecords`, `InboxRecords` and `Planner` are the decision layer: a pure
  function from a directive and a snapshot to a batch, an error, or a crash (a nil dereference in the original).
- **Meaning of a batch.** `Views` splits a batch into its kinds of records. `Effects` says which of six moves a directive
  makes (`Begin`, `Receive`, `Stay`, `ToStep`, `ToWait`, `ToEnd`) and shows that the planned batch holds exactly what the
  move stands for. `Protocol` gives the table of the state machine.
- **The stream.** `Stream` states the contract of the log: growing sequences, atomic batches, an expected sequence per
  subject, permanent deduplication, purging. `Wire` turns records into messages. `Naming` and `Subjects` are about the
  strings: derived IDs, subject names, placeholders and purge patterns.
- **The system.** `Worlds` is the state machine of the whole system, with one action per step of a handler and for every
  way a directive comes about, a timer fires or something is purged. Its `commits` field records the batches that went in.
- **The imperative parts.** `StateStore` and `Engine` hold the store, the manager, the directive queue, the handlers of timers
  and background tasks, and the service as classes, each proved against the functions the rest of the project reasons about.
- **Courses of steps.** `Scenes` builds runs of the system step by step; `Races` and `Mishaps` use it to reach the worlds in
  which something goes wrong.
- **Results.** The other modules hold one result each; the table below lists them.

## What is assumed

`Refinement` holds in every world that the steps of the system lead to (`Worlds.Possible`), with no assumption on which
directives arrive. The other results hold in every world `Discipline.Reached` by steps that are `Discipline.Allowed`:

- Directives come from the parties of the protocol. Clients send starts, events, cancels and terminations for runs they have
  looked up. Workers answer with the run info they were handed and move on to a step, a wait or the end of the run.
- Generated IDs are fresh.
- A start is applied to a run that has no state yet. `Redelivery.StartAlwaysGoesIn` shows why this is needed.
- Start requests do not overlap, and a start request does not reuse a run ID.
- The residue of a workflow ID is purged only when its runs have ended, and a handler that has read a live state finds no
  events of another run of the workflow ID in the inbox. `Residue` says what happens otherwise.

Deduplication is permanent. A batch is turned down for its first offending message. One plan reads the clock once.

## Where code and comments differ

- An empty plan is committed and turned down, so a directive for a finished run is retried, not processed
  (run/manager.go:77-78 says otherwise); `Progress.EmptyIff` and `Progress.SettledIff` say exactly when.
- A stale timeout is not ignored: it fails the run (`Protocol.StaleTimeoutFails`). Nobody deletes the timer of a wait that
  is over, so a run at work on an event can fail for it (`Mishaps.OldTimerFails`).
- A cancel that was looked up before the run started crashes the handler that carries it out (`Boundaries.CrashIff`).
  Left pending, it keeps every successful result of the step from being committed (`Mishaps.CancelCrashes`).
- An event can be taken in twice (`Redelivery.EventGoesInUnless`, `Races.EventTakenTwice`), and a run that is given it twice
  enters two steps under one ID. The second step can lose its timer (`Guard.GuardLostIff`, `Mishaps.StepIsUnguarded`) and
  can be ended by the timeout of the first (`Mishaps.TimeoutOutOfPlace`). No other step and no wait is affected
  (`Guard.LiveIsGuarded`, `Timeouts.TimeoutsInPlace`).
- A wake-up can be lost when directives of a run are handled at the same time: `Wakeup.LostIff` says exactly when, and
  `Races.WakeUpIsLost` is a run of the system in which it happens.

## Model

| member | source | states |
|---|---|---|
| Effects.EffectIsBatch | run/plan.go:28-211 | Whatever a handler decides to commit holds, kind by kind and in order, exactly the records of the move its directive makes; no move, no batch. |
| Effects.BeginDescribes | run/plan.go:50-92 | A start writes its history, both run infos, the input, two states without an expected sequence, the timer and the dispatch, and nothing else. |
| Effects.FailedResultDescribes | run/plan.go:94-130 | A failed step writes its key-value updates, its history and the deletion of its timer ahead of everything that fails the run. |
| Effects.SuccessfulResultDescribes | run/plan.go:132-155 | A successful step does the same ahead of the next transition, or ahead of the cancellation if a cancel is pending. |
| Effects.CancelDescribes | run/plan.go:157-162 | A cancel is deferred during a step and ends the run otherwise. |
| Effects.TransitionDescribes | run/plan.go:173-201 | Each kind of directive makes the move listed for it, and fails exactly when it makes none. |
| Effects.CompleteDescribes | run/record/run.go:64-112 | The batch of a completion: info, history, state, output, callback and purge. |
| Effects.TerminateDescribes | run/record/run.go:114-165 | The batch of a termination, with the order to the worker if one is known. |
| Effects.CancelRunDescribes | run/record/run.go:182-224 | The batch of a cancellation. |
| Effects.FailDescribes | run/record/run.go:226-284 | The batch of a failure, with the error and the order to the worker. |
| Effects.StepDescribes | run/record/step.go:12-75 | Entering a step writes timer, info, dispatch and state, with history boundary and start time filled in from the state. |
| Effects.PickedUpDescribes | run/record/step.go:77-98 | Picking up a step writes its history and the worker into the state, and nothing else. |
| Effects.StepTimeoutDescribes | run/record/step.go:167-236 | A step timeout fails the run if the state is the one it is for, and is an error otherwise. |
| Effects.WaitDescribes | run/record/inbox.go:12-71 | Waiting writes info, history, timer and state, and a wake directive exactly if the inbox holds an event. |
| Effects.WaitTimeoutDescribes | run/record/inbox.go:174-228 | A wait timeout enters the timeout step or fails the run, if the state is the one it is for. |
| Progress.MoveTable | run/plan.go:28-201 | The table of the state machine: for each directive of the protocol and each state, the one move it makes, and exactly when it makes none. |
| Protocol.StaleTimeoutFails | run/manager.go:79-83 | A timeout for a state the run is not in yields a stale-directive error, which fails the run. |
| BatchOrder.DecisionLed | run/record/run.go:64-284 | In every batch the run state comes before all messages with an ID other than a timer deletion. |
| Stream.LastOn | jsstore/store.go:171-188 | The last message on a subject, and none if there is none. |
| Stream.FirstAfter | jsstore/store.go:190-217 | The first message on a subject behind a sequence that has not been removed. |
| Stream.LastInfo | jsstore/store.go:79-95 | The last run info of a workflow ID, whatever its type and run. |
| Stream.CheckPasses | jsstore/store.go:340-384 | An accepted batch meets all its expected sequences and brings only new IDs, none twice. |
| Stream.CheckDuplicate | jsstore/store.go:340-384 | A duplicate verdict names a known ID, and all expectations ahead of it were met. |
| Wire.MessagesAreRecords | jsstore/record2nats.go:13-42 | Apart from key-value maps, the messages of a batch are its records. |
| Wire.MessagesArePuts | jsstore/record2nats.go:177-193 | The key-value messages of a batch are the entries of its map, whatever the order it was iterated in. |
| Refinement.OptimisticCommitsAreSerial | run/manager.go:50-133 | For any directives, interleaving and faults: every committed batch that writes a state, other than a start, writes one, expects the sequence its snapshot was read at, and was planned from the state current at its commit. |
| Refinement.ConcurrentRefinesSerial | run/manager.go:50-133 | For any directives: if the start of a run is applied once, the stream holds the state that planning its committed directives one after the other gives, from the event and the last history their handlers had read. |
| Reruns.ConcurrentIsSerial | run/manager.go:50-133 | The stream holds for each run the state in which handling its committed directives strictly one at a time ends, with state, event and history all read at the moment of the commit. |
| Terminal.TerminalStays | run/plan.go:28-32 | A terminal state is never left. |
| Terminal.EndedTakesEventsOnly | run/plan.go:28-32 | For a run that has ended only an event planned from an older snapshot can still be committed. |
| Terminal.OneEnding | run/record/run.go:64-284 | At most one batch of a run ends it, and later ones only take in events. |
| Terminal.OneTerminalEvent | run/record/run.go:64-284 | The log holds exactly one terminal history event of a run if its state is terminal, of the same kind, and none otherwise. |
| Terminal.NothingAfterTheEnd | jsstore/store.go:340-384 | Behind the batch that ended a run there is no state, info, output, error, timer, dispatch, key-value update or terminal event of it. |
| ExactlyOnce.StepResultOnce | run/record/step.go:238-247 | At most one batch is committed for a step result, however often it is delivered. |
| ExactlyOnce.DuplicateWasCommitted | run/manager.go:117-120 | A batch is called a duplicate only if the batch of the very same directive is in. |
| Acknowledged.NothingIsDropped | ingress/directive.go:88-134 | A directive that a handler has acknowledged has a batch of its own in the log; one that is gone without an acknowledgement was purged, and its run has ended. |
| Acknowledged.GivesUpIff | run/manager.go:135-145 | A handler gives a directive up exactly if planning fails and the run has no start time. |
| Acknowledged.NeverGivesUp | run/manager.go:135-145 | For directives of the protocol it never does. |
| Fifo.EventsInOrder | jsstore/store.go:190-217 | The events a run was given are exactly its inbox entries up to the cursor, each once and in order. |
| Fifo.CursorMoves | run/record/inbox.go:108-172 | Only taking an event moves the cursor, and to the sequence of that event. |
| Fifo.CursorNeverBack | run/record/inbox.go:152-156 | No step moves the cursor of a run back. |
| Wakeup.NoLostWakeUp | run/record/inbox.go:12-103 | With each directive handled on its own, a run that waits with an event behind its cursor has an unacknowledged wake directive in the queue. |
| Wakeup.LostIff | run/record/inbox.go:12-103 | Whatever the interleaving, a step loses a wake-up exactly if the stream takes a batch that goes to wait and has overlooked mail, or takes in an event and has overlooked that the run waits or has emptied its inbox, and no other wake directive is in the queue. |
| Races.WakeUpIsLost | run/record/inbox.go:56-103 | Every run that can be started has a course of twenty steps by which it comes to wait with an event in its inbox and no wake directive in the queue. |
| Races.EventTakenTwice | run/record/inbox.go:73-103 | Every run that can be started has a course of steps by which one event is taken in twice. |
| Progress.GoesInIff | jsstore/store.go:340-384 | The stream takes a batch exactly if the run is still in the state it was planned from and none of its message IDs is known. |
| Progress.InTimeSettles | run/manager.go:107-133 | A batch planned from the current state goes in, unless the batch of the same directive is in already. |
| Progress.EmptyIff | run/plan.go:28-171 | A handler plans an empty batch exactly if the run has ended, or a wake-up finds the run busy or its inbox empty. |
| Progress.SettledIff | run/manager.go:50-133 | If nothing is lost and the state that was read still stands, one attempt settles a directive exactly if there is something to do in a run that has been started; otherwise it is retried. |
| Entries.EntriesDiffer | types/external/v1/directive.go:21-26 | Two batches, of whatever runs, enter a step or a wait under the same ID exactly if both give the same event to the same run. |
| Entries.SoleIff | types/external/v1/directive.go:21-26 | An entry is alone under its ID exactly if it is not for an event that the run was given twice; waits and all other steps are. |
| Entries.GivenTwiceIff | run/record/inbox.go:108-172 | A run was given an event twice exactly if the event is in its inbox twice, up to the cursor. |
| Timeouts.TimeoutsInPlace | run/record/step.go:167-192 | A timeout is recorded as one exactly if the run is still in an entry under the ID it is for, and fails the run otherwise. It was made from a timer that an entry under that ID has armed, and was queued after it. If the entry the run is in is alone under its ID, which is so exactly if it is not for an event given twice, a recorded timeout was made from the very timer the entry has armed and was not queued before the entry was made. |
| Timeouts.NotNamed | run/record/step.go:238-247 | A finished step has asked to delete the timer of the entry a run is in only if that entry is a step for an event the run was given before. |
| Guard.LiveIsGuarded | run/timer.go:29-169 | A run in a wait, or in a step that is not for an event given twice, has a timer for that very entry that is armed, or has fired and is unhandled, or whose directive is unacknowledged; no deletion names it; if it fires now its timeout is not stale. |
| Guard.GuardLostIff | run/bgtask.go:73-120 | Whatever the interleaving, a step takes the guard of a live run away exactly if it carries out a deletion that names the timer of the step the run is in, before that timer has fired; the step is then for an event given twice. |
| Guard.ByEventTwiceIff | run/record/inbox.go:108-172 | A run is in a step for an event given twice exactly if the entry it is in is not alone under its ID. |
| Mishaps.StepIsUnguarded | run/record/step.go:238-247 | Every run that can be started has a course of steps by which it comes to be in a step with no timer armed, fired or answered. |
| Mishaps.TimeoutOutOfPlace | run/record/step.go:167-192 | Every run that can be started has a course of steps by which a timeout is recorded for a step that was entered after the timeout was queued. |
| Mishaps.OldTimerFails | run/record/inbox.go:174-228 | Every run that can be started has a course of steps by which it fails, at work on an event, for the timer of the wait before. |
| Cancellation.CancelIsNeverLost | run/plan.go:133-162 | An accepted cancel ends the run or stays pending in the same step with nothing dispatched until the run ends; a successful result that commits meanwhile ends it as cancelled; a handler that reads the current state decides so exactly if the cancel carries a start time. |
| Cancellation.NextResultCancelsIff | run/plan.go:132-155 | With a cancel pending and the current state read, a successful result plans the cancelled end exactly if the cancel carries a start time, and crashes exactly if not. |
| Mishaps.CancelCrashes | run/history/history.go:111-117 | Every run that can be started and was looked up before has a course of steps by which a cancel is accepted, stays pending, and the handler of the successful result crashes. |
| Status.InfoFollowsState | types/external/v1/run_info.go:105-167 | The last info of a run has the status that goes with its state. |
| Status.OneActiveRun | jsstore/store.go:35-95 | Of the runs of a workflow ID at most one has not ended, and it is the one a look-up by workflow ID finds. |
| Status.CheckIsRight | jsstore/store.go:35-45 | If the last info of a workflow ID says its run has ended, all its runs have. |
| Completion.ReportedOnce | run/record/run.go:16-301 | The batch that ends a run holds one purge and, exactly if a callback is wanted, one report with the status of the end; no other batch of the run holds either; no two ends report under the same ID; at most one callback comes of a report. |
| KeyValues.ViewIsFold | run/record/step.go:100-165 | The last value under each key is the fold of the updates of the committed step results, in commit order. |
| KeyValues.UpdatesWithHistory | run/record/step.go:100-165 | A key-value message or the end of a step in the log is in the stretch of one step result, which holds the history of the end of the step and, of key-value messages, exactly the updates of that result. |
| KeyValues.ResultIsVisible | run/record/step.go:100-165 | The stretch of a batch holds the end of a step exactly if it is the batch of a step result. |
| Boundaries.StartTimeReachesAll | run/record/step.go:15-20 | Every dispatch and every timer carries a start time, even for events sent before the start. |
| Boundaries.NeverWithoutStart | types/external/v1/run_info.go:138-155 | No handler fails for want of a start time. |
| Boundaries.CrashIff | run/history/history.go:111-117 | A handler crashes exactly if it ends a run as cancelled for a cancel without a start time. |
| Boundaries.ReplayBoundary | run/plan.go:101-102 | The history sequence dispatched after a step result is above every entry the snapshot saw and not above any later one. |
| Redelivery.StartAlwaysGoesIn | run/plan.go:50-92 | The batch of a start goes in whatever the stream holds, and puts the run back to its first step. |
| Residue.ForeignEvent | run/plan.go:164-171 | A run woken for an event of another run enters a step while the worker is given the other run. |
| Residue.LateEventIsRead | jsstore/store.go:190-217 | An event of any run of a workflow ID is what every run of it reads next, if it had nothing left to read. |
| Residue.LatePurge | jsstore/store.go:303-316 | A purge carried out while a run of the workflow ID is live leaves it without a guard, exactly unless a timer of it has fired. |
| Redelivery.EventGoesInUnless | run/record/inbox.go:73-103 | The batch of an event goes in again, exactly unless it wakes the run under a known ID. |
| Naming.RenderInjective | types/external/v1/background_task.go:57-61 | Different derived IDs are different strings, if generated IDs have no dots. |
| Naming.RenderTimerInjective | types/external/v1/timer.go:17-21 | Different timers have different IDs. |
| Naming.SubstituteParams | natsreg/manifest.go:81-87 | The loop over the parameters replaces them in iteration order; if no value holds the placeholder of another parameter, that fills all of them in at once. |
| Naming.SubstitutionIsFilling | natsreg/manifest.go:81-87 | So then the iteration order does not matter, whatever other braces the values hold. |
| Naming.OrderMattersIff | natsreg/manifest.go:81-87 | With two placeholders, the second of which holds nothing of the first, the order matters exactly if the value of the first holds the placeholder of the second and that is replaced by something else. |
| Naming.BracesBreakIt | natsreg/manifest.go:81-87 | With a workflow named "{run_id}" it does matter: one order gives the subject of a workflow named like the run, the other does not. |
| Subjects.NamesDiffer | natsreg/nats_manifest.yaml:20-96 | Different subjects have different names. |
| Subjects.PurgeIsExact | natsreg/manifest.go:417-443 | The four purge patterns of a workflow ID match its directives, timers, inbox and worker tasks, and nothing else. |
| Subjects.PurgeIsIdempotent | jsstore/store.go:303-316 | Purging twice is purging once; nothing of the residue stays visible and nothing else goes. |
| StateStore.KVMessages | jsstore/record2nats.go:177-193 | One message per entry, all entries, in iteration order. |
| StateStore.Store.GetRunState | jsstore/store.go:171-188 | The run state last written, with the sequence it is at; none exactly if none was written. |
| StateStore.Store.GetLastHistorySeqID | jsstore/store.go:248-258 | The sequence holds a history entry of the run and nothing behind it is one; 0 if there is none. |
| StateStore.Store.GetNextEvent | jsstore/store.go:190-217 | The first entry behind the cursor that is still there, with its sequence filled in; none exactly if there is none or it has no ID. |
| StateStore.Store.GetStateSnapshot | jsstore/store.go:142-169 | The three reads of a snapshot, when nothing comes in between. |
| StateStore.Store.GetRunByWFID | jsstore/store.go:79-95 | The last info of the workflow ID, none exactly if there is none. |
| StateStore.Store.CreateRunInfo | jsstore/store.go:35-58 | A run is created exactly if the workflow ID is free, and only its info is written. |
| StateStore.Store.PublishDirective | jsstore/store.go:318-338 | A known ID changes nothing; a new one adds one message and becomes known. |
| StateStore.Store.Commit | jsstore/store.go:340-384 | The loops over records and messages give the atomic commit the rest of the project reasons about. |
| StateStore.Store.PurgeRunResidue | jsstore/store.go:303-316 | Purging pattern by pattern removes the residue of the workflow ID and nothing else. |
| Engine.Manager.Handle | run/manager.go:50-95 | Read, plan, commit: the new stream and the answer are those of the decision for the snapshot. |
| Engine.Manager.CommitBatch | run/manager.go:107-133 | A batch counts as processed exactly if it is in, or was in before. |
| Engine.Manager.FailAndCommit | run/manager.go:135-145 | A failed plan becomes the batch that fails the run, or is given up. |
| Engine.DirectiveQueue.ProcessMessage | ingress/directive.go:88-134 | A message is acknowledged exactly if it cannot be decoded or was processed, and handed back if it is to be retried. |
| Engine.TimerHandler.Handle | run/timer.go:29-169 | A fired timer becomes one timeout or failure directive, is dropped if it has no directive, and comes back if it cannot be published. |
| Engine.TaskHandler.Handle | run/bgtask.go:73-250 | What each background task does to the stream, and when it is discarded or comes back. |
| Engine.Service.StartRun | run/service.go:50-86 | The run is created, then its start is queued, exactly if the workflow ID is free. |
| Engine.Service.Send | run/service.go:92-205 | Events, cancels and terminations are queued for the last run of the workflow ID exactly if it has not ended. |
| Engine.HandledIsFinish | run/manager.go:50-95 | The manager's Handle is the last of five steps of the state machine. |
| Engine.ReadsInFourSteps | jsstore/store.go:142-169 | The steps before it are the delivery and the three reads. |
| Engine.CallbackOnce | run/bgtask.go:181-250 | Handling a report to a parent again changes nothing. |

## Left out

- The CLI, the terminal UI, logging, metrics, configuration and the embedded server: input, output and presentation.
- The internals of NATS: the stream is what `Stream` says it is.
- The time window of deduplication: message IDs are remembered for good.
- Message encoding: payloads are opaque and decoding is faithful, except that a directive may fail to decode.
- The worker SDK and task replay: workers are the directives they send.
- The workflow type registry and the delivery of commands to workers: thin wrappers.
- What durations and timeouts mean in real time: timestamps are inputs.
- Timers without a known kind and command timers: the original drops them, and no plan makes one.
- Error texts: the failure record of an unexpected error does not carry the wrapped cause.
- Engine.Manager.Handle: takes the whole snapshot without interruption; interleaved reads are modelled in `Worlds`.
- Engine.TaskHandler.Handle: does not model what a worker does when it is told to stop.
- Refinement.ConcurrentRefinesSerial: takes the event and the last history from what the handlers had read, because it holds for any directives; `Reruns.ConcurrentIsSerial` reads them again.
- Redelivery of starts: that a start is applied once per run is assumed, not proved, because the code does not see to it.
