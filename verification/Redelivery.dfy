/** Which batches the stream's checks let in again. A run state that is expected at a sequence, or a message ID,
    keeps a batch from going in twice; starts have neither, and events only have an ID if they wake the run. */
module Redelivery {
  import opened Types
  import opened Stream
  import opened Wire
  import opened Effects
  import opened Moves
  import opened Worlds
  import opened Serial
  import opened Bookkeeping
  import Views

  predicate Unguarded(m: Message) { m.MsgID().None? && m.Expected() == 0 }

  lemma {:induction false} UnguardedGoesIn(log: seq<Message>, ids: set<DirectiveID>, msgs: seq<Message>)
    requires forall m :: m in msgs ==> Unguarded(m)
    ensures Check(log, ids, msgs) == Committed
    decreases msgs
  {
    if msgs != [] {
      assert Unguarded(msgs[0]);
      UnguardedGoesIn(log, ids + IDsOf([msgs[0]]), msgs[1..]);
    }
  }

  /** The batch of a start goes in whatever the stream holds and puts the run back to its first step, even if the run
      has ended since the handler looked: that a start is applied once has to be seen to elsewhere. */
  lemma StartAlwaysGoesIn(log: seq<Message>, ids: set<DirectiveID>, c: Commit)
    requires Lawful(c) && c.effect.Effect? && c.effect.move.Begin? && c.effect.move.via == c.d
    ensures Check(log, ids, c.msgs) == Committed
    ensures var s := RunStateOf(log + c.msgs, c.d.Key());
            s.kind == StepState && s.activeDirectiveID == c.d.id && s.lastEventSeqID == 0 && s.pendingCancel.None?
  {
    hide Lawful, Check, LastOn;
    forall m | m in c.msgs ensures Unguarded(m) { StartIsUnguarded(c, m); }
    UnguardedGoesIn(log, ids, c.msgs);
    LastOnAppend(log, c.msgs, StateSubject(c.d.Key().wfID, c.d.Key().runID));
    StartWrites(c);
  }

  lemma StartIsUnguarded(c: Commit, m: Message)
    requires Lawful(c) && c.effect.Effect? && c.effect.move.Begin? && m in c.msgs
    ensures Unguarded(m)
  {
    hide Lawful;
    LawfulShape(c);
    if m.Stored? { Member(c, m.record); }
  }

  lemma StartWrites(c: Commit)
    requires Lawful(c) && c.effect.Effect? && c.effect.move.Begin? && c.effect.move.via == c.d
    ensures StateAt(c, c.d.Key())
  {
    hide StateAt, Fits, Puts, LedMessages, TasksIn, QueuedIn, EndsOf, Views.EndEvents;
  }

  /** The batch of an event goes in again and again, and the event into the inbox with it, unless it wakes the run
      under an ID that is known. */
  lemma EventGoesInUnless(log: seq<Message>, ids: set<DirectiveID>, c: Commit)
    requires Lawful(c) && c.effect.Effect? && c.effect.move.Receive?
    ensures Check(log, ids, c.msgs) == Committed <==>
      NewQueued(c.effect, c.sn, c.inp) == [] || Next(c.effect.move.via.id) !in ids
  {
    hide Lawful, Check, NewQueued;
    if NewQueued(c.effect, c.sn, c.inp) == [] {
      forall m | m in c.msgs ensures Unguarded(m) { EventIsUnguarded(c, m); }
      UnguardedGoesIn(log, ids, c.msgs);
    } else {
      EventWithWake(log, ids, c);
    }
  }

  lemma EventIsUnguarded(c: Commit, m: Message)
    requires Lawful(c) && c.effect.Effect? && c.effect.move.Receive? && m in c.msgs
    ensures m.Expected() == 0
    ensures m.MsgID().Some? ==> m.MsgID() == Some(Next(c.effect.move.via.id)) && NewQueued(c.effect, c.sn, c.inp) != []
  {
    hide Lawful, NewQueued;
    LawfulShape(c);
    if m.Stored? {
      Member(c, m.record);
      if m.record.DirectiveRecord? { QueuedIs(c.effect, c.sn, c.inp, m.record.directive); }
    }
  }

  lemma EventWithWake(log: seq<Message>, ids: set<DirectiveID>, c: Commit)
    requires Lawful(c) && c.effect.Effect? && c.effect.move.Receive? && NewQueued(c.effect, c.sn, c.inp) != []
    ensures Check(log, ids, c.msgs) == Committed <==> Next(c.effect.move.via.id) !in ids
  {
    hide Lawful, Check, NewQueued, LastOn;
    var id := Next(c.effect.move.via.id);
    var d := NewQueued(c.effect, c.sn, c.inp)[0];
    QueuedIs(c.effect, c.sn, c.inp, d);
    Member(c, DirectiveRecord(d));
    assert Stored(DirectiveRecord(d)).MsgID() == Some(id);
    if Check(log, ids, c.msgs) == Committed {
      CheckPasses(log, ids, c.msgs);
    } else {
      var p := FirstOffence(log, ids, c.msgs);
      EventIsUnguarded(c, c.msgs[p]);
      if id !in ids { SoleID(c, p); }
    }
  }

  /** The wake directive is in the batch once. */
  lemma SoleID(c: Commit, p: nat)
    requires Lawful(c) && c.effect.Effect? && c.effect.move.Receive? && p < |c.msgs| && c.msgs[p].MsgID().Some?
    ensures c.msgs[p].MsgID().value !in IDsOf(c.msgs[..p])
  {
    hide Lawful, SingleIDs;
    EventIDs(c);
    forall i | 0 <= i < p && c.msgs[i].MsgID().Some?
      ensures c.msgs[i].MsgID() != c.msgs[p].MsgID()
    {
      NoRepeats(c.msgs, i, p);
    }
  }

  lemma EventIDs(c: Commit)
    requires Lawful(c) && c.effect.Effect? && c.effect.move.Receive?
    ensures SingleIDs(c.msgs)
  {
    hide Fits, StateAt, Puts, LedMessages, EndsOf, Views.EndEvents, TasksIn, QueuedIn;
  }
}
