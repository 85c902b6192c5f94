/** Why the engine counts on old runs of a workflow ID being out of the way: what an event of an ended run does in the
    inbox of the next one, and what a purge does that comes late. */
module Residue {
  import opened Types
  import opened Stream
  import opened Effects
  import opened Moves
  import opened Protocol
  import opened Worlds
  import opened Bookkeeping
  import opened Steps
  import opened Progress
  import opened Origins
  import opened Guard
  import StepRecords

  /** An inbox is read by workflow ID: an event of any run of it that comes in is what every run of it reads next, if
      there was nothing left for it to read. */
  lemma LateEventIsRead(st: Stream, ev: Directive, wfID: WFID, cursor: nat)
    requires ev.runInfo.wfID == wfID && ev.id != NO_ID && cursor <= |st.log|
    requires FirstAfter(st, InboxSubject(wfID), cursor) == 0
    requires |st.log| + 1 !in st.removed
    ensures NextEvent(Append(st, [Stored(InboxRecord(ev))]), wfID, cursor) == Some(Stamped(ev, |st.log| + 1))
  {
    hide FirstAfter, IDsOf;
    var m := Stored(InboxRecord(ev));
    var st' := Append(st, [m]);
    var q := FirstAfter(st', InboxSubject(wfID), cursor);
    assert st'.log[|st.log|] == m && st'.Visible(|st.log| + 1);
  }

  /** A run that is woken for an event of another run enters a step, and it is the other run that a worker is given. */
  lemma ForeignEvent(d: Directive, sn: StateSnapshot, inp: Inputs)
    requires Tame(d) && d.kind == WakeFromInboxKind && sn.runState.kind == WaitState && TameState(sn.runState)
    requires TameEvent(sn.event) && sn.event.Some?
    ensures var e := EffectOf(d, sn, inp);
            && NewState(e, sn, inp).Some? && NewState(e, sn, inp).value.Key() == sn.runState.Key()
            && NewState(e, sn, inp).value.kind == StepState
            && |NewDispatches(e, sn, inp)| == 1 && NewDispatches(e, sn, inp)[0].Key() == sn.event.value.Key()
  {
    hide EffectOf;
    MovesIff(d, sn, inp);
    Explained(d, sn, inp);
    assert EffectOf(d, sn, inp).move == ToStep(sn.event.value, StepRecords.Cursor(sn.event.value, sn.runState));
  }

  /** A purge that is carried out when the next run of the workflow ID is at work takes its timers and its directives
      away: the run is left without a guard, unless a timer of it has just fired. */
  lemma LatePurge(w: World, q: nat, key: RunKey)
    requires Good(w) && Enabled(w, Purge(q)) && TaskAt(w.stream.log, q).value.wfID == key.wfID
    requires Live(RunStateOf(w.stream.log, key))
    ensures Guarded(Apply(w, Purge(q)), key) <==>
      exists t :: TimerFor(w.stream.log, t, key, RunStateOf(w.stream.log, key)) && t in w.fired
  {
    hide Good, RunStateOf, Answers;
    var w', s := Apply(w, Purge(q)), RunStateOf(w.stream.log, key);
    forall t | TimerFor(w.stream.log, t, key, s) ensures Armed(w', t) <==> t in w.fired { TimerIsPurged(w, q, key, t); }
  }

  lemma TimerIsPurged(w: World, q: nat, key: RunKey, t: nat)
    requires Good(w) && Enabled(w, Purge(q)) && TaskAt(w.stream.log, q).value.wfID == key.wfID
    requires TimerFor(w.stream.log, t, key, RunStateOf(w.stream.log, key))
    ensures var w' := Apply(w, Purge(q)); w'.stream.log == w.stream.log && (Armed(w', t) <==> t in w.fired)
  {
    hide Good, RunStateOf, Registered, Answers;
    TimerInLog(w, t);
    var timer := w.stream.log[t - 1].record.timer;
    forall d | d in w.queue && Answers(d, timer) ensures d.runInfo.wfID == key.wfID { AnswersSameRun(d, timer); }
  }
}
