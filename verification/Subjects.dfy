/** Purging by pattern is exact: of everything the engine writes, the four purge patterns of a workflow ID match
    its directives, timers, inbox entries and worker tasks, and nothing else (natsreg/nats_manifest.yaml). */
module Subjects {
  import opened Types
  import opened Stream
  import opened Naming

  /* Subject names */

  function Template(s: Subject): (ts: seq<Token>)
    ensures ts != []
  {
    match s
    case InfoSubject(_, _, _) => [Lit("grctl_run"), Hole("wf_type"), Hole("wf_id"), Hole("run_id"), Lit("info")]
    case InputSubject(_, _) => [Lit("grctl_run"), Hole("wf_id"), Hole("run_id"), Lit("input")]
    case OutputSubject(_, _) => [Lit("grctl_run"), Hole("wf_id"), Hole("run_id"), Lit("output")]
    case ErrorSubject(_, _) => [Lit("grctl_run"), Hole("wf_id"), Hole("run_id"), Lit("error")]
    case StateSubject(_, _) => [Lit("grctl_state"), Lit("run_state"), Hole("wf_id"), Hole("run_id")]
    case TimerSubject(_, _, _) => [Lit("grctl_timers"), Hole("wf_id"), Hole("kind"), Hole("timer_id")]
    case HistorySubject(_, _) => [Lit("grctl_history"), Hole("wf_id"), Hole("run_id")]
    case InboxSubject(_) => [Lit("grctl_events"), Hole("wf_id")]
    case KVSubject(_, _, _) => [Lit("grctl_wf_kv"), Hole("wf_id"), Hole("run_id"), Hole("key")]
    case WorkerTaskSubject(_, _, _) => [Lit("grctl_worker_task"), Hole("wf_type"), Hole("wf_id"), Hole("run_id")]
    case DirectiveSubject(_, _, _) => [Lit("grctl_directive"), Hole("wf_type"), Hole("wf_id"), Hole("run_id")]
    case TaskSubject => [Lit("grctl_bg_task")]
    case TimerFiredSubject => [Lit("grctl_timers_fired")]
  }

  function Params(s: Subject): map<string, string> {
    match s
    case InfoSubject(wfType, wfID, runID) => map["wf_type" := wfType, "wf_id" := wfID, "run_id" := runID]
    case InputSubject(wfID, runID) => map["wf_id" := wfID, "run_id" := runID]
    case OutputSubject(wfID, runID) => map["wf_id" := wfID, "run_id" := runID]
    case ErrorSubject(wfID, runID) => map["wf_id" := wfID, "run_id" := runID]
    case StateSubject(wfID, runID) => map["wf_id" := wfID, "run_id" := runID]
    case TimerSubject(wfID, kind, timerID) => map["wf_id" := wfID, "kind" := TimerKindName(kind),
      "timer_id" := RenderTimer(timerID)]
    case HistorySubject(wfID, runID) => map["wf_id" := wfID, "run_id" := runID]
    case InboxSubject(wfID) => map["wf_id" := wfID]
    case KVSubject(wfID, runID, key) => map["wf_id" := wfID, "run_id" := runID, "key" := key]
    case WorkerTaskSubject(wfType, wfID, runID) => map["wf_type" := wfType, "wf_id" := wfID, "run_id" := runID]
    case DirectiveSubject(wfType, wfID, runID) => map["wf_type" := wfType, "wf_id" := wfID, "run_id" := runID]
    case TaskSubject => map[]
    case TimerFiredSubject => map[]
  }

  /** The name of a subject as it goes over the wire. */
  function Name(s: Subject): string {
    Show(Filled(Template(s), Params(s)))
  }

  function PurgeTemplates(): (r: seq<seq<Token>>)
    ensures |r| == 4 && forall k :: 0 <= k < 4 ==> r[k] != []
  {
    [[Lit("grctl_directive"), Lit("*"), Hole("wf_id"), Lit(">")],
     [Lit("grctl_timers"), Hole("wf_id"), Lit(">")],
     [Lit("grctl_events"), Hole("wf_id")],
     [Lit("grctl_worker_task"), Lit("*"), Hole("wf_id"), Lit(">")]]
  }

  function PurgePattern(k: nat, wfID: WFID): string
    requires k < 4
  {
    Show(Filled(PurgeTemplates()[k], map["wf_id" := wfID]))
  }

  /* Matching */

  /** A star stands for one token, a closing arrow for one or more. */
  predicate Matches(pattern: seq<string>, name: seq<string>) {
    if pattern == [] then name == []
    else if pattern[0] == ">" then name != []
    else name != [] && (pattern[0] == "*" || pattern[0] == name[0]) && Matches(pattern[1..], name[1..])
  }

  /** An ID without dots, braces or wildcards. */
  predicate Clean(s: string) {
    DotFree(s) && BraceFree(s) && '*' !in s && '>' !in s
  }

  predicate CleanSubject(s: Subject) {
    match s
    case InfoSubject(wfType, wfID, runID) => Clean(wfType) && Clean(wfID) && Clean(runID)
    case InputSubject(wfID, runID) => Clean(wfID) && Clean(runID)
    case OutputSubject(wfID, runID) => Clean(wfID) && Clean(runID)
    case ErrorSubject(wfID, runID) => Clean(wfID) && Clean(runID)
    case StateSubject(wfID, runID) => Clean(wfID) && Clean(runID)
    case TimerSubject(wfID, _, _) => Clean(wfID)
    case HistorySubject(wfID, runID) => Clean(wfID) && Clean(runID)
    case InboxSubject(wfID) => Clean(wfID)
    case KVSubject(wfID, runID, _) => Clean(wfID) && Clean(runID)
    case WorkerTaskSubject(wfType, wfID, runID) => Clean(wfType) && Clean(wfID) && Clean(runID)
    case DirectiveSubject(wfType, wfID, runID) => Clean(wfType) && Clean(wfID) && Clean(runID)
    case TaskSubject => true
    case TimerFiredSubject => true
  }

  /* Names as tokens */

  function Lits(texts: seq<string>): (ts: seq<Token>)
    ensures |ts| == |texts| && forall i :: 0 <= i < |texts| ==> ts[i] == Lit(texts[i])
  {
    seq(|texts|, i requires 0 <= i < |texts| => Lit(texts[i]))
  }

  /** Splitting a name gives its tokens back; the last part may have dots of its own. */
  lemma {:induction false} SplitLits(front: seq<string>, last: string)
    requires forall i :: 0 <= i < |front| ==> DotFree(front[i])
    ensures Split(Show(Lits(front + [last]))) == front + Split(last)
  {
    hide Split;
    var ts := Lits(front + [last]);
    if front != [] {
      SplitLits(front[1..], last);
      assert ts[1..] == Lits(front[1..] + [last]);
      SplitsAfter(front[0], Show(ts[1..]));
      assert front == [front[0]] + front[1..];
    }
  }

  function NameFront(s: Subject): seq<string> {
    match s
    case InfoSubject(wfType, wfID, runID) => ["grctl_run", wfType, wfID, runID]
    case InputSubject(wfID, runID) => ["grctl_run", wfID, runID]
    case OutputSubject(wfID, runID) => ["grctl_run", wfID, runID]
    case ErrorSubject(wfID, runID) => ["grctl_run", wfID, runID]
    case StateSubject(wfID, _) => ["grctl_state", "run_state", wfID]
    case TimerSubject(wfID, kind, _) => ["grctl_timers", wfID, TimerKindName(kind)]
    case HistorySubject(wfID, _) => ["grctl_history", wfID]
    case InboxSubject(_) => ["grctl_events"]
    case KVSubject(wfID, runID, _) => ["grctl_wf_kv", wfID, runID]
    case WorkerTaskSubject(wfType, wfID, _) => ["grctl_worker_task", wfType, wfID]
    case DirectiveSubject(wfType, wfID, _) => ["grctl_directive", wfType, wfID]
    case TaskSubject => []
    case TimerFiredSubject => []
  }

  function NameLast(s: Subject): string {
    match s
    case InfoSubject(_, _, _) => "info"
    case InputSubject(_, _) => "input"
    case OutputSubject(_, _) => "output"
    case ErrorSubject(_, _) => "error"
    case StateSubject(_, runID) => runID
    case TimerSubject(_, _, timerID) => RenderTimer(timerID)
    case HistorySubject(_, runID) => runID
    case InboxSubject(wfID) => wfID
    case KVSubject(_, _, key) => key
    case WorkerTaskSubject(_, _, runID) => runID
    case DirectiveSubject(_, _, runID) => runID
    case TaskSubject => "grctl_bg_task"
    case TimerFiredSubject => "grctl_timers_fired"
  }

  lemma PlaceholdersDiffer()
    ensures "wf_type" != "wf_id" && "wf_id" != "run_id" && "wf_type" != "run_id" && "key" != "wf_id"
    ensures "key" != "run_id"
    ensures "kind" != "wf_id" && "wf_id" != "timer_id" && "kind" != "timer_id"
  {
    assert |"wf_type"| == 7 && |"wf_id"| == 5 && |"run_id"| == 6 && |"kind"| == 4 && |"timer_id"| == 8 && |"key"| == 3;
  }

  lemma FilledRun(head: string, wfType: string, wfID: string, runID: string)
    ensures Filled([Lit(head), Hole("wf_type"), Hole("wf_id"), Hole("run_id")],
      map["wf_type" := wfType, "wf_id" := wfID, "run_id" := runID])
         == Lits([head, wfType, wfID] + [runID])
    ensures Filled([Lit(head), Hole("wf_type"), Hole("wf_id"), Hole("run_id"), Lit("info")],
      map["wf_type" := wfType, "wf_id" := wfID, "run_id" := runID])
         == Lits([head, wfType, wfID, runID] + ["info"])
  {
    PlaceholdersDiffer();
  }

  lemma FilledKey(head: string, wfID: string, runID: string, last: string)
    ensures Filled([Lit(head), Hole("wf_id"), Hole("run_id"), Lit(last)], map["wf_id" := wfID, "run_id" := runID])
      == Lits([head, wfID, runID] + [last])
    ensures Filled([Lit(head), Hole("wf_id"), Hole("run_id")], map["wf_id" := wfID, "run_id" := runID])
      == Lits([head, wfID] + [runID])
    ensures Filled([Lit(head), Lit(last), Hole("wf_id"), Hole("run_id")], map["wf_id" := wfID, "run_id" := runID])
      == Lits([head, last, wfID] + [runID])
  {
    PlaceholdersDiffer();
  }

  lemma FilledKV(wfID: string, runID: string, key: string)
    ensures Filled([Lit("grctl_wf_kv"), Hole("wf_id"), Hole("run_id"), Hole("key")],
      map["wf_id" := wfID, "run_id" := runID, "key" := key])
         == Lits(["grctl_wf_kv", wfID, runID] + [key])
  {
    PlaceholdersDiffer();
  }

  lemma FilledTimer(wfID: string, kind: string, timerID: string)
    ensures Filled([Lit("grctl_timers"), Hole("wf_id"), Hole("kind"), Hole("timer_id")],
      map["wf_id" := wfID, "kind" := kind, "timer_id" := timerID])
         == Lits(["grctl_timers", wfID, kind] + [timerID])
  {
    PlaceholdersDiffer();
  }

  lemma NameFills(s: Subject)
    ensures Filled(Template(s), Params(s)) == Lits(NameFront(s) + [NameLast(s)])
  {
    hide Filled;
    match s {
      case InfoSubject(wfType, wfID, runID) => FilledRun("grctl_run", wfType, wfID, runID);
      case InputSubject(wfID, runID) => FilledKey("grctl_run", wfID, runID, "input");
      case OutputSubject(wfID, runID) => FilledKey("grctl_run", wfID, runID, "output");
      case ErrorSubject(wfID, runID) => FilledKey("grctl_run", wfID, runID, "error");
      case StateSubject(wfID, runID) => FilledKey("grctl_state", wfID, runID, "run_state");
      case TimerSubject(wfID, kind, timerID) => FilledTimer(wfID, TimerKindName(kind), RenderTimer(timerID));
      case HistorySubject(wfID, runID) => FilledKey("grctl_history", wfID, runID, "");
      case KVSubject(wfID, runID, key) => FilledKV(wfID, runID, key);
      case WorkerTaskSubject(wfType, wfID, runID) => FilledRun("grctl_worker_task", wfType, wfID, runID);
      case DirectiveSubject(wfType, wfID, runID) => FilledRun("grctl_directive", wfType, wfID, runID);
      case _ =>
    }
  }

  lemma NameSplits(s: Subject)
    requires CleanSubject(s)
    ensures Split(Name(s)) == NameFront(s) + Split(NameLast(s))
  {
    hide Split, Show, Filled, Template, Params;
    NameFills(s);
    forall i | 0 <= i < |NameFront(s)| ensures DotFree(NameFront(s)[i]) {}
    SplitLits(NameFront(s), NameLast(s));
  }

  /* What the purge patterns match */

  function PurgeTokens(k: nat, wfID: WFID): seq<string>
    requires k < 4
  {
    if k == 0 then ["grctl_directive", "*", wfID, ">"]
    else if k == 1 then ["grctl_timers", wfID, ">"]
    else if k == 2 then ["grctl_events", wfID]
    else ["grctl_worker_task", "*", wfID, ">"]
  }

  lemma PatternFills(k: nat, wfID: WFID)
    requires k < 4
    ensures Filled(PurgeTemplates()[k], map["wf_id" := wfID]) == Lits(PurgeTokens(k, wfID))
  {
  }

  lemma PatternSplits(k: nat, wfID: WFID)
    requires k < 4 && DotFree(wfID)
    ensures Split(PurgePattern(k, wfID)) == PurgeTokens(k, wfID)
  {
    hide Split, Show, Filled, PurgeTemplates;
    PatternFills(k, wfID);
    var ts := PurgeTokens(k, wfID);
    var front, last := ts[..|ts| - 1], ts[|ts| - 1];
    assert ts == front + [last];
    SplitLits(front, last);
    SplitToken(last);
  }

  lemma MatchesOne(token: string, rest: seq<string>, name: seq<string>)
    requires token != ">"
    ensures Matches([token] + rest, name) <==>
      name != [] && (token == "*" || token == name[0]) && Matches(rest, name[1..])
  {
    assert ([token] + rest)[1..] == rest;
  }

  lemma MatchesEnd(name: seq<string>)
    ensures Matches([">"], name) <==> name != []
    ensures Matches([], name) <==> name == []
  {
  }

  lemma MatchesFlow(head: string, wfID: WFID, name: seq<string>)
    requires Clean(wfID) && |head| > 1
    ensures Matches([head, wfID, ">"], name) <==> |name| >= 3 && name[0] == head && name[1] == wfID
    ensures Matches([head, wfID], name) <==> |name| == 2 && name[0] == head && name[1] == wfID
  {
    hide Matches;
    NoWildcards(wfID);
    assert [head, wfID, ">"] == [head] + ([wfID] + [">"]) && [head, wfID] == [head] + ([wfID] + []);
    MatchesOne(head, [wfID] + [">"], name);
    MatchesOne(head, [wfID] + [], name);
    if name != [] {
      MatchesOne(wfID, [">"], name[1..]);
      MatchesOne(wfID, [], name[1..]);
      if name[1..] != [] { MatchesEnd(name[1..][1..]); }
    }
  }

  lemma MatchesRun(head: string, wfID: WFID, name: seq<string>)
    requires Clean(wfID) && |head| > 1
    ensures Matches([head, "*", wfID, ">"], name) <==> |name| >= 4 && name[0] == head && name[2] == wfID
  {
    hide Matches;
    NoWildcards(wfID);
    assert "*"[0] != ">"[0];
    assert [head, "*", wfID, ">"] == [head] + (["*"] + ([wfID] + [">"]));
    MatchesOne(head, ["*"] + ([wfID] + [">"]), name);
    if name != [] {
      MatchesOne("*", [wfID] + [">"], name[1..]);
      if name[1..] != [] {
        var tail := name[1..][1..];
        MatchesOne(wfID, [">"], tail);
        if tail != [] { MatchesEnd(tail[1..]); }
      }
    }
  }

  lemma NoWildcards(s: string)
    requires Clean(s)
    ensures s != "*" && s != ">"
  {
    assert '*' in "*" && '>' in ">";
  }

  function Head(s: Subject): string {
    if NameFront(s) == [] then NameLast(s) else NameFront(s)[0]
  }

  lemma HeadLengths()
    ensures |"grctl_directive"| == 15 && |"grctl_timers"| == 12 && |"grctl_events"| == 12 && |"grctl_worker_task"| == 17
  {
  }

  /** The first tokens of subjects that are purged are theirs alone. */
  lemma HeadsDiffer(s: Subject)
    ensures Head(s) == "grctl_directive" <==> s.DirectiveSubject?
    ensures Head(s) == "grctl_timers" <==> s.TimerSubject?
    ensures Head(s) == "grctl_events" <==> s.InboxSubject?
    ensures Head(s) == "grctl_worker_task" <==> s.WorkerTaskSubject?
  {
    HeadLengths();
    assert |"grctl_run"| == 9 && |"grctl_state"| == 11 && |"grctl_history"| == 13 && |"grctl_wf_kv"| == 11;
    assert |"grctl_bg_task"| == 13 && |"grctl_timers_fired"| == 18;
    assert "grctl_timers"[6] == 't' && "grctl_events"[6] == 'e';
  }

  lemma NameStarts(s: Subject)
    requires CleanSubject(s)
    ensures Split(Name(s))[0] == Head(s)
  {
    hide Split, Name;
    NameSplits(s);
    if NameFront(s) == [] { SplitToken(NameLast(s)); }
  }

  /** A purge pattern of a workflow ID matches a subject. */
  predicate Purged(k: nat, wfID: WFID, s: Subject)
    requires k < 4
  {
    Matches(Split(PurgePattern(k, wfID)), Split(Name(s)))
  }

  lemma CleanIsDotFree(s: string)
    requires Clean(s)
    ensures DotFree(s)
  {
  }

  /** Where the workflow ID stands in the names that are purged. */
  lemma NamePlaces(s: Subject)
    requires CleanSubject(s)
    ensures s.DirectiveSubject? || s.WorkerTaskSubject? ==> |Split(Name(s))| >= 4 && Split(Name(s))[2] == s.wfID
    ensures s.TimerSubject? ==> |Split(Name(s))| >= 3 && Split(Name(s))[1] == s.wfID
    ensures s.InboxSubject? ==> |Split(Name(s))| == 2 && Split(Name(s))[1] == s.wfID
  {
    hide Split, Name;
    NameSplits(s);
    if s.InboxSubject? { SplitToken(s.wfID); }
  }

  lemma PurgedBy(k: nat, wfID: WFID, s: Subject)
    requires k < 4 && Clean(wfID) && CleanSubject(s)
    ensures Purged(k, wfID, s) <==>
      match k
      case 0 => s.DirectiveSubject? && s.wfID == wfID
      case 1 => s.TimerSubject? && s.wfID == wfID
      case 2 => s.InboxSubject? && s.wfID == wfID
      case _ => s.WorkerTaskSubject? && s.wfID == wfID
  {
    hide Split, Name, PurgePattern, Matches, Head, CleanSubject, Clean;
    HeadLengths();
    assert DotFree(wfID) by { CleanIsDotFree(wfID); }
    PatternSplits(k, wfID);
    NameStarts(s);
    NamePlaces(s);
    HeadsDiffer(s);
    var name := Split(Name(s));
    if k == 0 {
      MatchesRun("grctl_directive", wfID, name);
    } else if k == 1 {
      MatchesFlow("grctl_timers", wfID, name);
    } else if k == 2 {
      MatchesFlow("grctl_events", wfID, name);
    } else {
      MatchesRun("grctl_worker_task", wfID, name);
    }
  }

  /** Purging is exact: for IDs without dots, braces or wildcards, the purge patterns of a workflow ID match the
      subjects of its directives, timers, inbox and worker tasks, whatever the run, and no other subject. */
  lemma PurgeIsExact(s: Subject, wfID: WFID)
    requires Clean(wfID) && CleanSubject(s)
    ensures (exists k :: 0 <= k < 4 && Purged(k, wfID, s)) <==> IsResidue(s, wfID)
  {
    hide Purged;
    PurgedBy(0, wfID, s);
    PurgedBy(1, wfID, s);
    PurgedBy(2, wfID, s);
    PurgedBy(3, wfID, s);
    if IsResidue(s, wfID) {
      var k := if s.DirectiveSubject? then 0 else if s.TimerSubject? then 1 else if s.InboxSubject? then 2 else 3;
      assert Purged(k, wfID, s);
    }
  }

  /** Purging twice is purging once. */
  lemma PurgeIsIdempotent(st: Stream, wfID: WFID)
    ensures PurgeRunResidue(PurgeRunResidue(st, wfID), wfID) == PurgeRunResidue(st, wfID)
    ensures forall q :: st.Visible(q) && !PurgeRunResidue(st, wfID).Visible(q) ==>
      IsResidue(st.log[q - 1].Subject(), wfID)
    ensures forall q :: PurgeRunResidue(st, wfID).Visible(q) ==> !IsResidue(st.log[q - 1].Subject(), wfID)
  {
  }

  /* Names tell subjects apart */

  /** Timer names hold the ID of a directive. */
  predicate Proper(s: Subject) {
    CleanSubject(s) && (s.TimerSubject? ==> Generated(s.timerID.directive))
  }

  function Group(s: Subject): nat {
    match s
    case InfoSubject(_, _, _) => 0
    case InputSubject(_, _) => 1
    case OutputSubject(_, _) => 2
    case ErrorSubject(_, _) => 3
    case StateSubject(_, _) => 4
    case TimerSubject(_, _, _) => 5
    case HistorySubject(_, _) => 6
    case InboxSubject(_) => 7
    case KVSubject(_, _, _) => 8
    case WorkerTaskSubject(_, _, _) => 9
    case DirectiveSubject(_, _, _) => 10
    case TaskSubject => 11
    case TimerFiredSubject => 12
  }

  lemma HeadsTell(s: Subject, s': Subject)
    requires Head(s) == Head(s')
    ensures Group(s) == Group(s') || (Group(s) <= 3 && Group(s') <= 3)
  {
    HeadLengths();
    assert |"grctl_run"| == 9 && |"grctl_state"| == 11 && |"grctl_history"| == 13 && |"grctl_wf_kv"| == 11;
    assert |"grctl_bg_task"| == 13 && |"grctl_timers_fired"| == 18;
    assert "grctl_timers"[6] == 't' && "grctl_events"[6] == 'e' && "grctl_state"[6] == 's' && "grctl_wf_kv"[6] == 'w';
    assert "grctl_history"[6] == 'h' && "grctl_bg_task"[6] == 'b';
  }

  lemma LastsTell()
    ensures DotFree("info") && DotFree("input") && DotFree("output") && DotFree("error")
    ensures "info" != "input" && "info" != "output" && "info" != "error" && "input" != "output" && "input" != "error"
    ensures "output" != "error"
  {
    assert |"info"| == 4 && |"input"| == 5 && |"output"| == 6 && |"error"| == 5 && "input"[0] == 'i' &&
      "error"[0] == 'e';
  }

  lemma RunNamesTell(s: Subject, s': Subject)
    requires CleanSubject(s) && CleanSubject(s') && Group(s) <= 3 && Group(s') <= 3 && Name(s) == Name(s')
    ensures s == s'
  {
    hide Split, Name;
    NameSplits(s);
    NameSplits(s');
    LastsTell();
    SplitToken(NameLast(s));
    SplitToken(NameLast(s'));
    var t := NameFront(s) + [NameLast(s)];
    assert t == NameFront(s') + [NameLast(s')];
    assert t[|t| - 1] == NameLast(s) && t[|t| - 1] == NameLast(s');
    assert t[1] == NameFront(s)[1] && t[2] == NameFront(s)[2] && t[1] == NameFront(s')[1] && t[2] == NameFront(s')[2];
    if s.InfoSubject? { assert t[3] == NameFront(s)[3] && t[3] == NameFront(s')[3]; }
  }

  lemma OtherNamesTell(s: Subject, s': Subject)
    requires Proper(s) && Proper(s') && Group(s) == Group(s') > 3 && Name(s) == Name(s')
    ensures s == s'
  {
    hide Split, Name;
    NameSplits(s);
    NameSplits(s');
    var t, n := Split(Name(s)), |NameFront(s)|;
    assert t[n..] == Split(NameLast(s)) && t[n..] == Split(NameLast(s'));
    SplitInjective(NameLast(s), NameLast(s'));
    assert t[..n] == NameFront(s) && t[..n] == NameFront(s');
    if s.TimerSubject? {
      RenderTimerInjective(s.timerID, s'.timerID);
      TimerKindsDiffer(s.kind, s'.kind);
    }
    FrontsTell(s, s');
  }

  lemma TimerKindsDiffer(a: TimerKind, b: TimerKind)
    ensures TimerKindName(a) == TimerKindName(b) ==> a == b
  {
    assert TimerKindName(WaitTimer)[0] != TimerKindName(StepTimer)[0];
  }

  lemma FrontsTell(s: Subject, s': Subject)
    requires Group(s) == Group(s') > 3 && NameFront(s) == NameFront(s') && NameLast(s) == NameLast(s')
    requires s.TimerSubject? ==> s.timerID == s'.timerID && s.kind == s'.kind
    ensures s == s'
  {
    var f, g := NameFront(s), NameFront(s');
    assert forall i :: 0 <= i < |f| ==> f[i] == g[i];
  }

  /** Different subjects have different names, so a subject of the model stands for one name. */
  lemma NamesDiffer(s: Subject, s': Subject)
    requires Proper(s) && Proper(s') && Name(s) == Name(s')
    ensures s == s'
  {
    hide Name, Head, Group, Split;
    NameStarts(s);
    NameStarts(s');
    HeadsTell(s, s');
    if Group(s) <= 3 && Group(s') <= 3 { RunNamesTell(s, s'); } else { OtherNamesTell(s, s'); }
  }
}
