/** Every batch takes up a stretch of the log, and what is not written outside of batches is in such a stretch. */
module Stretches {
  import opened Types
  import opened Stream
  import opened Effects
  import opened Protocol
  import opened Worlds
  import opened Serial
  import opened Discipline
  import opened Bookkeeping
  import opened Steps
  import Terminal

  /** A sequence is in the stretch of the log that a batch takes up. */
  predicate Within(c: Commit, q: nat) { c.at <= q < c.at + |c.msgs| }

  predicate PlacedAt(log: seq<Message>, c: Commit) {
    c.at + |c.msgs| <= |log| && log[c.at..c.at + |c.msgs|] == c.msgs
  }

  ghost predicate Placed(w: World) {
    && (forall c :: c in w.commits ==> PlacedAt(w.stream.log, c))
    && (forall q :: 0 <= q < |w.stream.log| && !Outside(w.stream.log[q]) ==> exists c :: c in w.commits && Within(c, q))
  }

  lemma AcceptedPlaced(w: World, w': World, h: nat, c: Commit)
    requires Good(w) && Accepted(w, w', h, c) && Placed(w)
    ensures Placed(w')
  {
    hide Good, Accepted, Explains, Tame, Lawful, Grounded, WellFormed, StateOK, EventOK, ViaOK, Outside;
    AcceptedFacts(w, w', h, c);
    Terminal.AcceptedAt(w, w', h, c);
    forall q | 0 <= q < |w'.stream.log| && !Outside(w'.stream.log[q])
      ensures exists c :: c in w'.commits && Within(c, q)
    {
      if q < |w.stream.log| {
        assert w'.stream.log[q] == w.stream.log[q];
        var c' :| c' in w.commits && Within(c', q);
        assert c' in w'.commits;
      } else {
        assert c in w'.commits && Within(c, q);
      }
    }
  }

  lemma NotedPlaced(w: World, w': World)
    requires Noted(w, w') && Placed(w)
    ensures Placed(w')
  {
    hide FreshID, Grows, Outside;
    forall q | 0 <= q < |w'.stream.log| && !Outside(w'.stream.log[q])
      ensures exists c :: c in w'.commits && Within(c, q)
    {
      if q < |w.stream.log| { assert w'.stream.log[q] == w.stream.log[q]; }
    }
  }

  lemma {:induction false} PlacedHolds(w: World, n: nat)
    requires Reached(w, n)
    ensures Placed(w)
    decreases n
  {
    hide Good, Placed, Apply, Enabled, Honest, Allowed, Accepted, Noted;
    if n == 0 {
      PlacedAtFirst();
    } else {
      var w0, a := ReachedFrom(w, n);
      PlacedHolds(w0, n - 1);
      GoodHolds(w0, n - 1);
      var h, c := StepKinds(w0, a);
      if c.Some? { AcceptedPlaced(w0, w, h, c.value); } else { NotedPlaced(w0, w); }
    }
  }

  lemma PlacedAtFirst()
    ensures Placed(INIT)
  {
  }

  lemma NotedCommits(w: World, w': World)
    requires Noted(w, w')
    ensures w'.commits == w.commits
  {
    hide OutsideOf, FreshID, Grows;
  }

  /** The batch a message of the log came with. */
  lemma BatchAt(w: World, q: nat) returns (k: nat)
    requires Placed(w) && q < |w.stream.log| && !Outside(w.stream.log[q])
    ensures k < |w.commits| && Within(w.commits[k], q) && PlacedAt(w.stream.log, w.commits[k])
    ensures w.stream.log[q] in w.commits[k].msgs
  {
    hide Outside;
    var c :| c in w.commits && Within(c, q);
    k :| 0 <= k < |w.commits| && w.commits[k] == c;
    assert w.stream.log[c.at..c.at + |c.msgs|][q - c.at] == w.stream.log[q];
  }
}
