/** From records to stream messages and the atomic commit of a batch
    (jsstore/record2nats.go, jsstore/store.go). */
module Wire {
  import opened Types
  import opened Stream
  import opened Views

  /** `order` lists the keys once each, in whatever order the map happens to be iterated. */
  predicate Enumerates(order: seq<string>, keys: set<string>) {
    && (forall i :: 0 <= i < |order| ==> order[i] in keys)
    && (forall k :: k in keys ==> k in order)
    && (forall i, j :: 0 <= i < j < |order| ==> order[i] != order[j])
  }

  predicate OrderFor(batch: seq<Record>, order: seq<string>) {
    forall r :: r in batch && r.KVRecord? ==> Enumerates(order, r.kvMap.Keys)
  }

  function Messages(r: Record, order: seq<string>): seq<Message>
    requires r.KVRecord? ==> Enumerates(order, r.kvMap.Keys)
  {
    if r.KVRecord? then seq(|order|, i requires 0 <= i < |order| => KVPut(r.wfID, r.runID, order[i], r.kvMap[order[i]]))
    else [Stored(r)]
  }

  function BatchMessages(batch: seq<Record>, order: seq<string>): seq<Message>
    requires OrderFor(batch, order)
  {
    if batch == [] then []
    else
      assert batch[0] in batch;
      Messages(batch[0], order) + BatchMessages(batch[1..], order)
  }

  /** A run state without its identifiers cannot be turned into a message. */
  predicate Encodable(batch: seq<Record>) {
    forall r :: r in batch && r.RunStateRecord? ==> r.state.wfID != "" && r.state.runID != ""
  }

  function Commit(st: Stream, batch: seq<Record>, order: seq<string>, fault: Fault): (Stream, CommitResult)
    requires OrderFor(batch, order)
  {
    if batch == [] || !Encodable(batch) || BatchMessages(batch, order) == [] then (st, OtherFailure)
    else Publish(st, BatchMessages(batch, order), fault)
  }

  /* Facts */

  lemma {:induction false} BatchMessagesAppend(a: seq<Record>, b: seq<Record>, order: seq<string>)
    requires OrderFor(a + b, order)
    ensures OrderFor(a, order) && OrderFor(b, order)
    ensures BatchMessages(a + b, order) == BatchMessages(a, order) + BatchMessages(b, order)
  {
    assert forall r :: r in a || r in b ==> r in a + b;
    if a == [] {
      assert a + b == b;
    } else {
      assert (a + b)[1..] == a[1..] + b;
      assert OrderFor(a[1..] + b, order);
      BatchMessagesAppend(a[1..], b, order);
    }
  }

  /** Apart from the KV record, the records of a batch are exactly its stored messages. */
  lemma {:induction false} MessagesAreRecords(batch: seq<Record>, order: seq<string>, m: Message)
    requires OrderFor(batch, order)
    ensures m.Stored? ==> (m in BatchMessages(batch, order) <==> m.record in batch && !m.record.KVRecord?)
    ensures m in BatchMessages(batch, order) ==> m.Stored? || m.KVPut?
  {
    if batch != [] {
      assert batch[0] in batch;
      MessagesAreRecords(batch[1..], order, m);
      assert forall r :: r in batch <==> r == batch[0] || r in batch[1..];
    }
  }

  /** A key-value message of a batch is an entry of one of its KV records. */
  predicate Puts(records: seq<Record>, m: Message)
    requires m.KVPut?
  {
    exists r :: r in records && PutBy(r, m)
  }

  predicate PutBy(r: Record, m: Message)
    requires m.KVPut?
  {
    r.KVRecord? && r.wfID == m.wfID && r.runID == m.runID && m.key in r.kvMap && r.kvMap[m.key] == m.value
  }

  lemma PutsByRecord(r: Record, order: seq<string>, m: Message)
    requires m.KVPut? && (r.KVRecord? ==> Enumerates(order, r.kvMap.Keys))
    ensures m in Messages(r, order) <==> PutBy(r, m)
  {
    if PutBy(r, m) {
      var i :| 0 <= i < |order| && order[i] == m.key;
      assert Messages(r, order)[i] == m;
    }
  }

  /** The key-value messages of a batch are its KV entries, whatever the order the maps are iterated in. */
  lemma {:induction false} MessagesArePuts(batch: seq<Record>, order: seq<string>, m: Message)
    requires OrderFor(batch, order) && m.KVPut?
    ensures m in BatchMessages(batch, order) <==> Puts(batch, m)
  {
    if batch != [] {
      hide Messages, Enumerates, PutBy;
      assert batch[0] in batch;
      MessagesArePuts(batch[1..], order, m);
      PutsByRecord(batch[0], order, m);
      assert forall r :: r in batch <==> r == batch[0] || r in batch[1..];
    }
  }

  /** The events among messages that end a run. */
  function EndsOf(msgs: seq<Message>): seq<HistoryEvent> {
    if msgs == [] then []
    else (if msgs[0].Stored? && msgs[0].record.HistoryRecord? && msgs[0].record.history.EndsRun()
      then [msgs[0].record.history] else [])
         + EndsOf(msgs[1..])
  }

  lemma {:induction false} EndsOfAppend(a: seq<Message>, b: seq<Message>)
    ensures EndsOf(a + b) == EndsOf(a) + EndsOf(b)
  {
    if a == [] {
      assert a + b == b;
    } else {
      var head := if a[0].Stored? && a[0].record.HistoryRecord? && a[0].record.history.EndsRun()
        then [a[0].record.history] else [];
      assert (a + b)[1..] == a[1..] + b && (a + b)[0] == a[0];
      EndsOfAppend(a[1..], b);
      assert EndsOf(a + b) == head + EndsOf(a[1..] + b);
    }
  }

  lemma {:induction false} NoEnds(msgs: seq<Message>)
    requires forall m :: m in msgs ==> !(m.Stored? && m.record.HistoryRecord? && m.record.history.EndsRun())
    ensures EndsOf(msgs) == []
  {
    if msgs != [] { NoEnds(msgs[1..]); }
  }

  lemma EndsOfRecord(r: Record, order: seq<string>)
    requires r.KVRecord? ==> Enumerates(order, r.kvMap.Keys)
    ensures EndsOf(Messages(r, order)) == EndEvents(One(r).history)
  {
    if r.HistoryRecord? {
      assert Messages(r, order)[1..] == [] && One(r).history[1..] == [];
    } else {
      NoEnds(Messages(r, order));
    }
  }

  lemma {:induction false} EndsInMessages(batch: seq<Record>, order: seq<string>)
    requires OrderFor(batch, order)
    ensures EndsOf(BatchMessages(batch, order)) == EndEvents(Of(batch).history)
  {
    if batch != [] {
      hide Messages, Enumerates, One, EndsOf, EndEvents;
      assert batch[0] in batch;
      EndsInMessages(batch[1..], order);
      EndsOfRecord(batch[0], order);
      EndsOfAppend(Messages(batch[0], order), BatchMessages(batch[1..], order));
      EndEventsAppend(One(batch[0]).history, Of(batch[1..]).history);
    } else {
      assert Of(batch) == NOTHING;
    }
  }

  /* Order within a batch */

  /** The messages with an ID that is not the deletion of a timer. */
  predicate Trailing(r: Record) {
    r.DirectiveRecord? || (r.BackgroundTaskRecord? && r.task.kind != DeleteTimerTask)
  }

  /** The run state, if the batch writes one, comes before such messages. */
  predicate Led(batch: seq<Record>) {
    batch == [] || batch[0].RunStateRecord? ||
    if Trailing(batch[0]) then forall r :: r in batch ==> !r.RunStateRecord? else Led(batch[1..])
  }

  predicate IsState(m: Message) { m.Stored? && m.record.RunStateRecord? }

  predicate LedMessages(msgs: seq<Message>) {
    msgs == [] || IsState(msgs[0]) ||
    if msgs[0].Stored? && Trailing(msgs[0].record) then forall m :: m in msgs ==>
      !IsState(m) else LedMessages(msgs[1..])
  }

  lemma {:induction false} StateLeads(msgs: seq<Message>, m: Message, p: nat) returns (i: nat)
    requires LedMessages(msgs) && m in msgs && IsState(m)
    requires p < |msgs| && msgs[p].Stored? && Trailing(msgs[p].record)
    ensures i < p && IsState(msgs[i])
  {
    if IsState(msgs[0]) {
      i := 0;
    } else {
      assert msgs == [msgs[0]] + msgs[1..];
      var k := StateLeads(msgs[1..], m, p - 1);
      i := k + 1;
    }
  }

  lemma {:induction false} LedSkips(front: seq<Message>, msgs: seq<Message>)
    requires forall m :: m in front ==> !IsState(m) && !(m.Stored? && Trailing(m.record))
    requires LedMessages(msgs)
    ensures LedMessages(front + msgs)
  {
    if front == [] {
      assert front + msgs == msgs;
    } else {
      assert (front + msgs)[1..] == front[1..] + msgs;
      LedSkips(front[1..], msgs);
    }
  }

  lemma LedHead(m: Message, msgs: seq<Message>)
    requires IsState(m) || (m.Stored? && Trailing(m.record) && forall x :: x in msgs ==> !IsState(x))
    ensures LedMessages([m] + msgs)
  {
    assert ([m] + msgs)[0] == m;
  }

  lemma {:induction false} LedBatch(batch: seq<Record>, order: seq<string>)
    requires OrderFor(batch, order) && Led(batch)
    ensures LedMessages(BatchMessages(batch, order))
  {
    if batch != [] {
      assert batch[0] in batch;
      var front, rest := Messages(batch[0], order), BatchMessages(batch[1..], order);
      if batch[0].RunStateRecord? {
        LedHead(front[0], rest);
      } else if Trailing(batch[0]) {
        forall x | x in rest ensures !IsState(x) { MessagesAreRecords(batch[1..], order, x); }
        LedHead(front[0], rest);
      } else {
        LedBatch(batch[1..], order);
        LedSkips(front, rest);
      }
    }
  }

  /* IDs within a batch */

  function TasksIn(msgs: seq<Message>): seq<BackgroundTask> {
    if msgs == [] then []
    else (if msgs[0].Stored? && msgs[0].record.BackgroundTaskRecord? then [msgs[0].record.task]
      else []) + TasksIn(msgs[1..])
  }

  function QueuedIn(msgs: seq<Message>): seq<Directive> {
    if msgs == [] then []
    else (if msgs[0].Stored? && msgs[0].record.DirectiveRecord? then [msgs[0].record.directive]
      else []) + QueuedIn(msgs[1..])
  }

  lemma {:induction false} TasksInAppend(a: seq<Message>, b: seq<Message>)
    ensures TasksIn(a + b) == TasksIn(a) + TasksIn(b)
  {
    if a == [] {
      assert a + b == b;
    } else {
      var head := if a[0].Stored? && a[0].record.BackgroundTaskRecord? then [a[0].record.task] else [];
      assert (a + b)[1..] == a[1..] + b && (a + b)[0] == a[0];
      TasksInAppend(a[1..], b);
      assert TasksIn(a + b) == head + TasksIn(a[1..] + b);
    }
  }

  lemma {:induction false} QueuedInAppend(a: seq<Message>, b: seq<Message>)
    ensures QueuedIn(a + b) == QueuedIn(a) + QueuedIn(b)
  {
    if a == [] {
      assert a + b == b;
    } else {
      var head := if a[0].Stored? && a[0].record.DirectiveRecord? then [a[0].record.directive] else [];
      assert (a + b)[1..] == a[1..] + b && (a + b)[0] == a[0];
      QueuedInAppend(a[1..], b);
      assert QueuedIn(a + b) == head + QueuedIn(a[1..] + b);
    }
  }

  lemma {:induction false} NoneIdentified(msgs: seq<Message>)
    requires forall m :: m in msgs ==> m.MsgID().None?
    ensures TasksIn(msgs) == [] && QueuedIn(msgs) == []
  {
    if msgs != [] {
      assert msgs[0] in msgs;
      NoneIdentified(msgs[1..]);
    }
  }

  lemma IdentifiedByRecord(r: Record, order: seq<string>)
    requires r.KVRecord? ==> Enumerates(order, r.kvMap.Keys)
    ensures TasksIn(Messages(r, order)) == One(r).tasks && QueuedIn(Messages(r, order)) == One(r).queued
  {
    var msgs := Messages(r, order);
    if r.BackgroundTaskRecord? || r.DirectiveRecord? {
      assert msgs == [Stored(r)] && msgs[1..] == [];
    } else {
      NoneIdentified(msgs);
    }
  }

  lemma {:induction false} IdentifiedInMessages(batch: seq<Record>, order: seq<string>)
    requires OrderFor(batch, order)
    ensures TasksIn(BatchMessages(batch, order)) == Of(batch).tasks
    ensures QueuedIn(BatchMessages(batch, order)) == Of(batch).queued
  {
    if batch != [] {
      hide Messages, Enumerates, One, TasksIn, QueuedIn;
      assert batch[0] in batch;
      IdentifiedInMessages(batch[1..], order);
      IdentifiedByRecord(batch[0], order);
      TasksInAppend(Messages(batch[0], order), BatchMessages(batch[1..], order));
      QueuedInAppend(Messages(batch[0], order), BatchMessages(batch[1..], order));
    } else {
      assert Of(batch) == NOTHING;
    }
  }

  predicate Distinct(tasks: seq<BackgroundTask>) {
    forall a, b :: 0 <= a < b < |tasks| ==> tasks[a].dedupID != tasks[b].dedupID
  }

  lemma {:induction false} InTasks(msgs: seq<Message>, m: Message)
    requires m in msgs && m.Stored?
    ensures m.record.BackgroundTaskRecord? ==> m.record.task in TasksIn(msgs)
    ensures m.record.DirectiveRecord? ==> m.record.directive in QueuedIn(msgs)
  {
    if msgs[0] != m {
      assert msgs == [msgs[0]] + msgs[1..];
      InTasks(msgs[1..], m);
    }
  }

  predicate SingleIDs(msgs: seq<Message>) {
    && Distinct(TasksIn(msgs)) && |QueuedIn(msgs)| <= 1
    && (forall t :: t in TasksIn(msgs) ==> t.dedupID.ForTask?)
    && (forall d :: d in QueuedIn(msgs) ==> !d.id.ForTask?)
  }

  lemma FirstTask(msgs: seq<Message>, j: nat)
    requires 0 < j < |msgs| && Distinct(TasksIn(msgs))
    requires msgs[0].Stored? && msgs[0].record.BackgroundTaskRecord? && msgs[j].Stored?
    requires msgs[j].record.BackgroundTaskRecord?
    ensures msgs[0].record.task.dedupID != msgs[j].record.task.dedupID
  {
    hide QueuedIn;
    var rest := msgs[1..];
    assert msgs[j] == rest[j - 1];
    InTasks(rest, msgs[j]);
    var all, tasks := TasksIn(msgs), TasksIn(rest);
    assert all == [msgs[0].record.task] + tasks;
    hide TasksIn;
    var b :| 0 <= b < |tasks| && tasks[b] == msgs[j].record.task;
    assert all[0] == msgs[0].record.task && all[b + 1] == tasks[b];
  }

  lemma OneDirective(msgs: seq<Message>, j: nat)
    requires 0 < j < |msgs| && |QueuedIn(msgs)| <= 1 && msgs[0].Stored? && msgs[0].record.DirectiveRecord?
    ensures !(msgs[j].Stored? && msgs[j].record.DirectiveRecord?)
  {
    hide TasksIn;
    assert QueuedIn(msgs) == [msgs[0].record.directive] + QueuedIn(msgs[1..]);
    assert msgs[j] == msgs[1..][j - 1];
    if msgs[j].Stored? { InTasks(msgs[1..], msgs[j]); }
  }

  /** No ID comes up twice in a batch whose tasks have different IDs, other than those of directives, and that
      queues at most one directive. */
  lemma {:induction false} NoRepeats(msgs: seq<Message>, i: nat, j: nat)
    requires SingleIDs(msgs) && i < j < |msgs| && msgs[i].MsgID().Some?
    ensures msgs[i].MsgID() != msgs[j].MsgID()
  {
    hide TasksIn, QueuedIn, Distinct;
    if i > 0 {
      RestDistinct(msgs);
      assert msgs[j] == msgs[1..][j - 1] && msgs[i] == msgs[1..][i - 1];
      NoRepeats(msgs[1..], i - 1, j - 1);
    } else if msgs[j].MsgID().Some? {
      InTasks(msgs, msgs[j]);
      InTasks(msgs, msgs[0]);
      if msgs[0].record.DirectiveRecord? {
        OneDirective(msgs, j);
      } else if msgs[j].record.BackgroundTaskRecord? {
        FirstTask(msgs, j);
      }
    }
  }

  lemma RestDistinct(msgs: seq<Message>)
    requires msgs != [] && SingleIDs(msgs)
    ensures SingleIDs(msgs[1..])
  {
    var rest := msgs[1..];
    var k := |TasksIn(msgs)| - |TasksIn(rest)|;
    assert TasksIn(rest) == TasksIn(msgs)[k..];
  }

  predicate IsInbox(m: Message) { m.Stored? && m.record.InboxRecord? }
}
