/** The contract the engine relies on from the one stream everything is kept in: sequence numbers
    that only grow, atomic batches, an expected last sequence per subject, permanent deduplication
    by message ID, and purging by subject. A message's sequence number is its position in the log,
    counted from 1; purging hides a message and never renumbers. */
module Stream {
  import opened Types

  datatype Subject =
    | InfoSubject(wfType: WFType, wfID: WFID, runID: RunID)
    | InputSubject(wfID: WFID, runID: RunID)
    | OutputSubject(wfID: WFID, runID: RunID)
    | ErrorSubject(wfID: WFID, runID: RunID)
    | StateSubject(wfID: WFID, runID: RunID)
    | TimerSubject(wfID: WFID, kind: TimerKind, timerID: TimerID)
    | HistorySubject(wfID: WFID, runID: RunID)
    | InboxSubject(wfID: WFID)
    | KVSubject(wfID: WFID, runID: RunID, key: string)
    | WorkerTaskSubject(wfType: WFType, wfID: WFID, runID: RunID)
    | DirectiveSubject(wfType: WFType, wfID: WFID, runID: RunID)
    | TaskSubject
    | TimerFiredSubject

  /** A stored message: a record, one key of a KV record, or a timer the server has fired. */
  datatype Message = Stored(record: Record) | KVPut(wfID: WFID, runID: RunID, key: string,
    value: Value) | Fired(timer: Timer) {

    function Subject(): Subject {
      match this
      case KVPut(wfID, runID, key, _) => KVSubject(wfID, runID, key)
      case Fired(_) => TimerFiredSubject
      case Stored(record) =>
        match record
        case RunInfoRecord(i) => InfoSubject(i.wfType, i.wfID, i.id)
        case RunInputRecord(wfID, runID, _) => InputSubject(wfID, runID)
        case RunOutputRecord(wfID, runID, _) => OutputSubject(wfID, runID)
        case RunErrorRecord(wfID, runID, _) => ErrorSubject(wfID, runID)
        case RunStateRecord(s, _) => StateSubject(s.wfID, s.runID)
        case TimerRecord(t) => TimerSubject(t.wfID, t.kind, t.id)
        case HistoryRecord(h) => HistorySubject(h.wfID, h.runID)
        case InboxRecord(d) => InboxSubject(d.runInfo.wfID)
        case KVRecord(wfID, runID, _) => KVSubject(wfID, runID, "")
        case WorkerTaskDispatch(d) => WorkerTaskSubject(d.runInfo.wfType, d.runInfo.wfID, d.runInfo.id)
        case DirectiveRecord(d) => DirectiveSubject(d.runInfo.wfType, d.runInfo.wfID, d.runInfo.id)
        case BackgroundTaskRecord(_) => TaskSubject
    }

    /** The message ID header: set for queued directives and background tasks only. */
    function MsgID(): Option<DirectiveID> {
      if Stored? && record.DirectiveRecord? then Some(record.directive.id)
      else if Stored? && record.BackgroundTaskRecord? then Some(record.task.dedupID)
      else None
    }

    /** The expected last sequence header: set for run states with a positive expectation only. */
    function Expected(): nat {
      if Stored? && record.RunStateRecord? then record.expectedSeq else 0
    }
  }

  datatype Stream = Stream(log: seq<Message>, removed: set<nat>, ids: set<DirectiveID>) {
    predicate Visible(seqID: nat) {
      1 <= seqID <= |log| && seqID !in removed
    }
  }

  const EMPTY := Stream([], {}, {})

  /* Reads */

  /** The sequence of the last message on a subject, 0 when there is none. */
  function LastOn(log: seq<Message>, s: Subject): (q: nat)
    ensures q <= |log|
    ensures q > 0 ==> log[q - 1].Subject() == s
    ensures forall i {:trigger log[i]} :: q <= i < |log| ==> log[i].Subject() != s
  {
    if log == [] then 0
    else if log[|log| - 1].Subject() == s then |log|
    else LastOn(log[..|log| - 1], s)
  }

  /** The sequence of the first visible message on a subject after a given sequence, 0 when there is none. */
  function FirstAfter(st: Stream, s: Subject, after: nat): (q: nat)
    ensures q > 0 ==> after < q && st.Visible(q) && st.log[q - 1].Subject() == s
    ensures forall i {:trigger st.log[i]} :: after <= i < |st.log| && st.Visible(i + 1) && st.log[i].Subject() == s ==>
      0 < q <= i + 1
    decreases |st.log| - after
  {
    if after >= |st.log| then 0
    else if st.Visible(after + 1) && st.log[after].Subject() == s then after + 1
    else FirstAfter(st, s, after + 1)
  }

  function RunStateOf(log: seq<Message>, key: RunKey): (s: RunState)
    ensures s == NO_STATE || s.Key() == key
  {
    var q := LastOn(log, StateSubject(key.wfID, key.runID));
    if q == 0 then NO_STATE else log[q - 1].record.state.(seqID := q)
  }

  function LastHistory(log: seq<Message>, key: RunKey): (q: nat) {
    LastOn(log, HistorySubject(key.wfID, key.runID))
  }

  /** An event with the sequence it was stored at. */
  function Stamped(d: Directive, q: nat): Directive {
    if d.msg.EventMsg? then d.(msg := d.msg.(eventSeqID := Some(q))) else d
  }

  /** The inbox entry at a sequence, as a handler sees it. */
  function EventAt(log: seq<Message>, q: nat): Option<Directive>
    requires q > 0 ==> q <= |log| && log[q - 1].Subject().InboxSubject?
  {
    if q == 0 then None
    else
      var d := log[q - 1].record.directive;
      if d.id == NO_ID then None else Some(Stamped(d, q))
  }

  function NextEvent(st: Stream, wfID: WFID, after: nat): Option<Directive> {
    EventAt(st.log, FirstAfter(st, InboxSubject(wfID), after))
  }

  /** The last run info written for a workflow ID, whatever its type and run. */
  function LastInfo(log: seq<Message>, wfID: WFID): (q: nat)
    ensures q <= |log|
    ensures q > 0 ==> log[q - 1].Subject().InfoSubject? && log[q - 1].record.info.wfID == wfID
    ensures forall i {:trigger log[i]} :: q <= i < |log| && log[i].Subject().InfoSubject? ==>
      log[i].record.info.wfID != wfID
  {
    if log == [] then 0
    else
      var m := log[|log| - 1];
      if m.Subject().InfoSubject? && m.record.info.wfID == wfID then |log|
      else LastInfo(log[..|log| - 1], wfID)
  }

  /* Writes */

  datatype CommitResult = Committed | CasRejected | DuplicateMessage | Backpressure | OtherFailure

  /** What can go wrong between the server and the stream. With `LostReply` the batch is applied
      and the server does not learn of it. */
  datatype Fault = NoFault | Busy | LostRequest | LostReply

  /** The stream's verdict on a batch: that of its first offending message. */
  function Check(log: seq<Message>, ids: set<DirectiveID>, msgs: seq<Message>): CommitResult
    decreases msgs
  {
    if msgs == [] then Committed
    else
      var m := msgs[0];
      if m.MsgID().Some? && m.MsgID().value in ids then DuplicateMessage
      else if m.Expected() > 0 && LastOn(log, m.Subject()) != m.Expected() then CasRejected
      else Check(log, ids + IDsOf([m]), msgs[1..])
  }

  function IDsOf(msgs: seq<Message>): set<DirectiveID> {
    set m | m in msgs && m.MsgID().Some? :: m.MsgID().value
  }

  function Append(st: Stream, msgs: seq<Message>): Stream {
    st.(log := st.log + msgs, ids := st.ids + IDsOf(msgs))
  }

  function Publish(st: Stream, msgs: seq<Message>, fault: Fault): (Stream, CommitResult) {
    if fault.Busy? then (st, Backpressure)
    else if fault.LostRequest? then (st, OtherFailure)
    else
      var verdict := Check(st.log, st.ids, msgs);
      if !verdict.Committed? then (st, verdict)
      else (Append(st, msgs), if fault.LostReply? then OtherFailure else Committed)
  }

  function PublishDirective(st: Stream, d: Directive): Stream {
    if d.id in st.ids then st else Append(st, [Stored(DirectiveRecord(d))])
  }

  /** The subjects that carry what a finished run leaves behind. */
  predicate IsResidue(s: Subject, wfID: WFID) {
    match s
    case DirectiveSubject(_, w, _) => w == wfID
    case TimerSubject(w, _, _) => w == wfID
    case InboxSubject(w) => w == wfID
    case WorkerTaskSubject(_, w, _) => w == wfID
    case _ => false
  }

  function PurgeRunResidue(st: Stream, wfID: WFID): Stream {
    st.(removed := st.removed + set i: nat | i < |st.log| && IsResidue(st.log[i].Subject(), wfID) :: i + 1)
  }

  function PurgeSubject(st: Stream, s: Subject): Stream {
    st.(removed := st.removed + set i: nat | i < |st.log| && st.log[i].Subject() == s :: i + 1)
  }

  /* Facts */

  /** `LastOn` is the only sequence with its properties. */
  lemma LastOnIs(log: seq<Message>, s: Subject, q: nat)
    requires q <= |log|
    requires q > 0 ==> log[q - 1].Subject() == s
    requires forall i {:trigger log[i]} :: q <= i < |log| ==> log[i].Subject() != s
    ensures LastOn(log, s) == q
  {
  }

  lemma LastOnAppend(log: seq<Message>, more: seq<Message>, s: Subject)
    ensures LastOn(log + more, s) == if LastOn(more, s) > 0 then |log| + LastOn(more, s) else LastOn(log, s)
  {
    var q := if LastOn(more, s) > 0 then |log| + LastOn(more, s) else LastOn(log, s);
    forall i {:trigger (log + more)[i]} | q <= i < |log + more| ensures (log + more)[i].Subject() != s {
      if i < |log| {
        assert (log + more)[i] == log[i];
      } else {
        assert (log + more)[i] == more[i - |log|];
      }
    }
    LastOnIs(log + more, s, q);
  }

  /** A batch the stream accepts brings only new message IDs, no ID twice, and meets its expectations. */
  lemma {:induction false} CheckPasses(log: seq<Message>, ids: set<DirectiveID>, msgs: seq<Message>)
    requires Check(log, ids, msgs) == Committed
    ensures ids !! IDsOf(msgs)
    ensures forall i :: 0 <= i < |msgs| && msgs[i].Expected() > 0 ==>
      LastOn(log, msgs[i].Subject()) == msgs[i].Expected()
    ensures forall i, j :: 0 <= i < j < |msgs| && msgs[i].MsgID().Some? ==> msgs[i].MsgID() != msgs[j].MsgID()
    decreases msgs
  {
    if msgs != [] {
      var rest := msgs[1..];
      CheckPasses(log, ids + IDsOf([msgs[0]]), rest);
      assert forall i :: 1 <= i < |msgs| ==> msgs[i] == rest[i - 1];
      assert msgs[0] in [msgs[0]];
      assert forall m :: m in msgs ==> m == msgs[0] || m in rest;
      forall j | 0 < j < |msgs| && msgs[0].MsgID().Some? ensures msgs[0].MsgID() != msgs[j].MsgID() {
        assert msgs[j] in rest;
      }
    }
  }

  /** A duplicate verdict names a message whose ID was known, and every message before it met its expectation. */
  lemma {:induction false} CheckDuplicate(log: seq<Message>, ids: set<DirectiveID>, msgs: seq<Message>) returns (p: nat)
    requires Check(log, ids, msgs) == DuplicateMessage
    ensures p < |msgs| && msgs[p].MsgID().Some? && msgs[p].MsgID().value in ids + IDsOf(msgs[..p])
    ensures forall i :: 0 <= i < p && msgs[i].Expected() > 0 ==> LastOn(log, msgs[i].Subject()) == msgs[i].Expected()
    ensures ids !! IDsOf(msgs[..p])
    decreases msgs
  {
    hide LastOn, IDsOf;
    var m := msgs[0];
    IDsOfOne(m);
    if m.MsgID().Some? && m.MsgID().value in ids {
      p := 0;
    } else {
      var rest := msgs[1..];
      var q := CheckDuplicate(log, ids + IDsOf([m]), rest);
      p := q + 1;
      assert forall i :: 1 <= i < |msgs| ==> msgs[i] == rest[i - 1];
      assert msgs[..p] == [m] + rest[..q];
      IDsOfAppend([m], rest[..q]);
    }
  }

  lemma IDsOfOne(m: Message)
    ensures IDsOf([]) == {} && IDsOf([m]) == if m.MsgID().Some? then {m.MsgID().value} else {}
  {
    if m.MsgID().Some? { assert m in [m]; }
  }

  /** A batch is turned down for a message whose expectation is not met or whose ID is known. */
  lemma {:induction false} FirstOffence(log: seq<Message>, ids: set<DirectiveID>, msgs: seq<Message>) returns (p: nat)
    requires Check(log, ids, msgs) != Committed
    ensures p < |msgs|
    ensures if Check(log, ids, msgs) == CasRejected
            then msgs[p].Expected() > 0 && LastOn(log, msgs[p].Subject()) != msgs[p].Expected()
            else msgs[p].MsgID().Some? && msgs[p].MsgID().value in ids + IDsOf(msgs[..p])
    decreases msgs
  {
    var m := msgs[0];
    if (m.MsgID().Some? && m.MsgID().value in ids) || (m.Expected() > 0 && LastOn(log, m.Subject()) != m.Expected()) {
      p := 0;
    } else {
      var q := FirstOffence(log, ids + IDsOf([m]), msgs[1..]);
      p := q + 1;
      assert msgs[1..][q] == msgs[p] && msgs[..p] == [m] + msgs[1..][..q];
      IDsOfAppend([m], msgs[1..][..q]);
    }
  }

  lemma IDsOfAppend(a: seq<Message>, b: seq<Message>)
    ensures IDsOf(a + b) == IDsOf(a) + IDsOf(b)
  {
    assert forall m :: m in a + b <==> m in a || m in b;
  }

  /** A commit touches a subject's last sequence only by writing to it. */
  lemma RunStateAppend(log: seq<Message>, more: seq<Message>, key: RunKey)
    ensures LastOn(more, StateSubject(key.wfID, key.runID)) == 0 ==> RunStateOf(log + more, key) == RunStateOf(log, key)
  {
    LastOnAppend(log, more, StateSubject(key.wfID, key.runID));
  }
}
