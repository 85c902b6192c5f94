/** The store: what the engine reads from the stream and how it writes to it (jsstore/store.go,
    jsstore/record2nats.go). Faults of the connection and the iteration order of maps are inputs. */
module StateStore {
  import opened Types
  import opened Stream
  import S = Stream
  import opened Wire
  import opened Subjects

  /** One message per entry of the map, in iteration order. */
  method KVMessages(wfID: WFID, runID: RunID, kvMap: map<string, Value>, order: seq<string>)
    returns (msgs: seq<Message>)
    requires Enumerates(order, kvMap.Keys)
    ensures msgs == Messages(KVRecord(wfID, runID, kvMap), order)
    ensures |msgs| == |kvMap|
    ensures forall k :: k in kvMap ==> KVPut(wfID, runID, k, kvMap[k]) in msgs
  {
    msgs := [];
    var i := 0;
    while i < |order|
      invariant 0 <= i <= |order| && |msgs| == i
      invariant forall j :: 0 <= j < i ==> msgs[j] == KVPut(wfID, runID, order[j], kvMap[order[j]])
    {
      msgs := msgs + [KVPut(wfID, runID, order[i], kvMap[order[i]])];
      i := i + 1;
    }
    CountKeys(order, kvMap.Keys);
    forall k | k in kvMap ensures KVPut(wfID, runID, k, kvMap[k]) in msgs {
      var j :| 0 <= j < |order| && order[j] == k;
      assert msgs[j] == KVPut(wfID, runID, k, kvMap[k]);
    }
  }

  lemma {:induction false} CountKeys(order: seq<string>, keys: set<string>)
    requires Enumerates(order, keys)
    ensures |order| == |keys|
  {
    if order == [] {
      assert keys == {};
    } else {
      var k := order[0];
      forall x | x in keys - {k} ensures x in order[1..] {
        var i :| 0 <= i < |order| && order[i] == x;
        assert order[1..][i - 1] == x;
      }
      CountKeys(order[1..], keys - {k});
    }
  }

  /** A sequence holds the first entry of an inbox behind a cursor that has not been removed. */
  predicate IsNext(st: Stream, wfID: WFID, after: nat, q: nat) {
    && after < q && st.Visible(q) && st.log[q - 1].Subject() == InboxSubject(wfID)
    && forall i {:trigger st.log[i]} :: after <= i < q - 1 && st.Visible(i + 1) ==>
      st.log[i].Subject() != InboxSubject(wfID)
  }

  class Store {
    var stream: Stream

    constructor ()
      ensures stream == EMPTY
    {
      stream := EMPTY;
    }

    /* Reads */

    method GetRunState(key: RunKey) returns (state: Option<RunState>)
      ensures state.None? <==> forall m :: m in stream.log ==> m.Subject() != StateSubject(key.wfID, key.runID)
      ensures state.Some? ==> state.value == RunStateOf(stream.log, key) && state.value.seqID > 0
    {
      var q := LastOn(stream.log, StateSubject(key.wfID, key.runID));
      if q == 0 {
        state := None;
      } else {
        assert stream.log[q - 1] in stream.log;
        state := Some(stream.log[q - 1].record.state.(seqID := q));
      }
    }

    /** The sequence of the last history entry of the run: nothing behind it is one, and there is none if it is 0. */
    method GetLastHistorySeqID(key: RunKey) returns (q: nat)
      ensures q <= |stream.log| && (q > 0 ==> stream.log[q - 1].Subject() == HistorySubject(key.wfID, key.runID))
      ensures forall i {:trigger stream.log[i]} :: q <= i < |stream.log| ==>
        stream.log[i].Subject() != HistorySubject(key.wfID, key.runID)
      ensures q == LastHistory(stream.log, key)
    {
      q := LastOn(stream.log, HistorySubject(key.wfID, key.runID));
    }

    /** The first entry behind the cursor that is still there, with its sequence filled in; none if there is none, or
        if it has no ID. */
    method GetNextEvent(wfID: WFID, after: nat) returns (event: Option<Directive>)
      ensures event.Some? ==>
        exists q :: IsNext(stream, wfID, after, q) && event.value == Stamped(stream.log[q - 1].record.directive, q)
      ensures event.None? ==>
        forall q :: IsNext(stream, wfID, after, q) ==> stream.log[q - 1].record.directive.id == NO_ID
      ensures event == NextEvent(stream, wfID, after)
    {
      var q := FirstAfter(stream, InboxSubject(wfID), after);
      event := EventAt(stream.log, q);
      if q > 0 { assert IsNext(stream, wfID, after, q); }
    }

    /** Three reads, one after the other; what other handlers may do in between is the business of Worlds. */
    method GetStateSnapshot(key: RunKey) returns (sn: StateSnapshot)
      ensures sn == StateSnapshot(RunStateOf(stream.log, key),
        NextEvent(stream, key.wfID, RunStateOf(stream.log, key).lastEventSeqID),
                                  LastHistory(stream.log, key))
    {
      var found := GetRunState(key);
      var state := if found.Some? then found.value else NO_STATE;
      var q := GetLastHistorySeqID(key);
      var event := GetNextEvent(key.wfID, state.lastEventSeqID);
      sn := StateSnapshot(state, event, q);
    }

    method GetRunByWFID(wfID: WFID) returns (info: Option<RunInfo>)
      ensures info.None? <==> LastInfo(stream.log, wfID) == 0
      ensures info.Some? ==>
        info.value == stream.log[LastInfo(stream.log, wfID) - 1].record.info && info.value.wfID == wfID
    {
      var q := LastInfo(stream.log, wfID);
      info := if q == 0 then None else Some(stream.log[q - 1].record.info);
    }

    /* Writes */

    /** A run is only created if the workflow ID has none, or its last one has ended. */
    method CreateRunInfo(info: RunInfo) returns (created: bool)
      modifies this
      ensures created <==> old(LastInfo(stream.log, info.wfID) == 0 ||
        stream.log[LastInfo(stream.log, info.wfID) - 1].record.info.status.IsTerminal())
      ensures stream == if created then Append(old(stream), [Stored(RunInfoRecord(info))]) else old(stream)
    {
      var last := GetRunByWFID(info.wfID);
      created := last.None? || last.value.status.IsTerminal();
      if created {
        stream := Append(stream, [Stored(RunInfoRecord(info))]);
      }
    }

    /** A directive is stored once per ID: a known ID changes nothing, a new one adds one message and becomes known. */
    method PublishDirective(d: Directive)
      modifies this
      ensures d.id in old(stream).ids ==> stream == old(stream)
      ensures d.id !in old(stream).ids ==>
        stream.log == old(stream).log + [Stored(DirectiveRecord(d))] && stream.removed == old(stream).removed
      ensures stream.ids == old(stream).ids + {d.id}
      ensures stream == S.PublishDirective(old(stream), d)
    {
      assert IDsOf([Stored(DirectiveRecord(d))]) == {d.id} by { OneID(d); }
      stream := S.PublishDirective(stream, d);
    }

    /** All messages of the batch go in, or none: no batch without records or messages, and none with a run state
        that lacks its IDs. */
    method Commit(records: seq<Record>, order: seq<string>, fault: Fault) returns (result: CommitResult)
      requires OrderFor(records, order)
      modifies this
      ensures (stream, result) == Wire.Commit(old(stream), records, order, fault)
    {
      if |records| < 1 {
        return OtherFailure;
      }
      var msgs: seq<Message> := [];
      var i := 0;
      while i < |records|
        invariant 0 <= i <= |records| && stream == old(stream)
        invariant OrderFor(records[..i], order) && msgs == BatchMessages(records[..i], order) && Encodable(records[..i])
      {
        var r := records[i];
        assert r in records && records[..i + 1] == records[..i] + [r];
        if r.RunStateRecord? && (r.state.wfID == "" || r.state.runID == "") {
          return OtherFailure;
        }
        var more := [];
        if r.KVRecord? {
          more := KVMessages(r.wfID, r.runID, r.kvMap, order);
        } else {
          more := [Stored(r)];
        }
        assert OrderFor(records[..i + 1], order);
        BatchMessagesAppend(records[..i], [r], order);
        OneMore(r, order);
        msgs := msgs + more;
        i := i + 1;
      }
      assert records[..i] == records;
      if msgs == [] {
        return OtherFailure;
      }
      var published := Publish(stream, msgs, fault);
      stream := published.0;
      result := published.1;
    }

    /** Purging goes by patterns; on the names the engine uses it removes the residue and nothing else. */
    method PurgeRunResidue(wfID: WFID)
      modifies this
      ensures stream == PurgedUpTo(old(stream), wfID, 4)
      ensures Clean(wfID) && (forall m :: m in old(stream).log ==> CleanSubject(m.Subject())) ==>
        stream == S.PurgeRunResidue(old(stream), wfID)
    {
      var k := 0;
      while k < 4
        invariant 0 <= k <= 4
        invariant stream == PurgedUpTo(old(stream), wfID, k)
      {
        stream := stream.(removed := stream.removed + PatternHits(stream.log, k, wfID));
        assert stream == PurgedUpTo(old(stream), wfID, k + 1) by { OnePatternMore(old(stream), wfID, k); }
        k := k + 1;
      }
      if Clean(wfID) && forall m :: m in stream.log ==> CleanSubject(m.Subject()) { AllPatterns(old(stream), wfID); }
    }

    method CancelTimer(wfID: WFID, kind: TimerKind, timerID: TimerID)
      modifies this
      ensures stream == PurgeSubject(old(stream), TimerSubject(wfID, kind, timerID))
    {
      stream := PurgeSubject(stream, TimerSubject(wfID, kind, timerID));
    }

    method DeleteInboxEvent(seqID: nat)
      modifies this
      ensures stream == old(stream).(removed := old(stream).removed + {seqID})
    {
      stream := stream.(removed := stream.removed + {seqID});
    }
  }

  lemma OneID(d: Directive)
    ensures IDsOf([Stored(DirectiveRecord(d))]) == {d.id}
  {
    assert Stored(DirectiveRecord(d)) in [Stored(DirectiveRecord(d))];
  }

  lemma OneMore(r: Record, order: seq<string>)
    requires OrderFor([r], order)
    ensures r in [r] && BatchMessages([r], order) == Messages(r, order)
  {
    assert [r][1..] == [];
  }

  /** The sequences of the messages whose name one of the purge patterns matches. */
  function PatternHits(log: seq<Message>, k: nat, wfID: WFID): set<nat>
    requires k < 4
  {
    set i: nat | i < |log| && Purged(k, wfID, log[i].Subject()) :: i + 1
  }

  function PurgedUpTo(st: Stream, wfID: WFID, k: nat): Stream
    requires k <= 4
  {
    st.(removed := st.removed + set i: nat | i < |st.log| && exists j ::
      0 <= j < k && Purged(j, wfID, st.log[i].Subject()) :: i + 1)
  }

  lemma OnePatternMore(st: Stream, wfID: WFID, k: nat)
    requires k < 4
    ensures PurgedUpTo(st, wfID, k + 1).removed == PurgedUpTo(st, wfID, k).removed + PatternHits(st.log, k, wfID)
  {
    hide Purged;
    forall i: nat | i < |st.log| ensures (exists j :: 0 <= j < k + 1 && Purged(j, wfID, st.log[i].Subject())) <==>
      ((exists j :: 0 <= j < k && Purged(j, wfID, st.log[i].Subject())) || Purged(k, wfID, st.log[i].Subject()))
    {
    }
  }

  lemma AllPatterns(st: Stream, wfID: WFID)
    requires Clean(wfID) && forall m :: m in st.log ==> CleanSubject(m.Subject())
    ensures PurgedUpTo(st, wfID, 4) == S.PurgeRunResidue(st, wfID)
  {
    hide Purged;
    forall i: nat | i < |st.log|
      ensures (exists j :: 0 <= j < 4 && Purged(j, wfID, st.log[i].Subject())) <==> IsResidue(st.log[i].Subject(), wfID)
    {
      PurgeIsExact(st.log[i].Subject(), wfID);
    }
  }
}
