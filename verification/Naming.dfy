/** How names become strings: tokens joined by dots, the IDs derived from other IDs, and patterns whose
    placeholders are filled in one by one (natsreg/manifest.go). */
module Naming {
  import opened Types

  /* Tokens */

  function Split(s: string): (ts: seq<string>)
    ensures ts != []
  {
    if s == "" then [""]
    else if s[0] == '.' then [""] + Split(s[1..])
    else
      var rest := Split(s[1..]);
      [[s[0]] + rest[0]] + rest[1..]
  }

  predicate DotFree(s: string) { '.' !in s }

  lemma {:induction false} SplitAppend(a: string, b: string)
    ensures Split(a + "." + b) == Split(a) + Split(b)
  {
    hide Split;
    if a == "" {
      SplitAtDot(b);
      assert a + "." + b == ['.'] + b;
    } else {
      SplitAppend(a[1..], b);
      assert a + "." + b == [a[0]] + (a[1..] + "." + b) && a == [a[0]] + a[1..];
      if a[0] == '.' {
        SplitAtDot(a[1..]);
        SplitAtDot(a[1..] + "." + b);
      } else {
        SplitInToken(a[0], a[1..]);
        SplitInToken(a[0], a[1..] + "." + b);
        FirstOf(a[0], Split(a[1..]), Split(b));
      }
    }
  }

  lemma SplitAtDot(s: string)
    ensures Split(['.'] + s) == [""] + Split(s) && Split("") == [""]
  {
    assert (['.'] + s)[1..] == s;
  }

  lemma SplitInToken(c: char, s: string)
    requires c != '.'
    ensures Split([c] + s) == [[c] + Split(s)[0]] + Split(s)[1..]
  {
    assert ([c] + s)[1..] == s;
  }

  lemma FirstOf(c: char, ts: seq<string>, us: seq<string>)
    requires ts != []
    ensures [[c] + (ts + us)[0]] + (ts + us)[1..] == [[c] + ts[0]] + ts[1..] + us
  {
    assert (ts + us)[1..] == ts[1..] + us;
  }

  lemma {:induction false} SplitToken(s: string)
    requires DotFree(s)
    ensures Split(s) == [s]
  {
    if s != "" {
      assert s == [s[0]] + s[1..];
      SplitToken(s[1..]);
    }
  }

  lemma {:induction false} SplitInjective(a: string, b: string)
    requires Split(a) == Split(b)
    ensures a == b
  {
    var ta, tb := Split(a), Split(b);
    if a == "" {
      assert ta[0] == tb[0] && |ta| == |tb|;
    } else {
      assert a == [a[0]] + a[1..];
      if a[0] == '.' {
        assert ta[0] == tb[0] == "" && |tb| > 1;
        assert ta[1..] == Split(a[1..]) && tb[1..] == Split(b[1..]);
        SplitInjective(a[1..], b[1..]);
        assert b == [b[0]] + b[1..];
      } else {
        assert ta[0][0] == a[0] && ta[0] == tb[0];
        assert b == [b[0]] + b[1..];
        var ra, rb := Split(a[1..]), Split(b[1..]);
        assert ta[0][1..] == ra[0] && tb[0][1..] == rb[0] && ta[1..] == ra[1..] && tb[1..] == rb[1..];
        assert ra == [ra[0]] + ra[1..] && rb == [rb[0]] + rb[1..];
        SplitInjective(a[1..], b[1..]);
      }
    }
  }

  /* Derived IDs */

  function KindName(kind: TaskKind): (s: string)
    ensures DotFree(s)
  {
    match kind
    case DeleteTimerTask => "delete_timer"
    case DeleteInboxTask => "delete_inbox_event"
    case PurgeTask => "purge_run_residue"
    case NotifyTask => "notify_parent_complete"
    case WorkerTerminateTask => "worker_terminate_run"
  }

  function TimerKindName(kind: TimerKind): (s: string)
    ensures DotFree(s)
  {
    match kind
    case WaitTimer => "wait_timeout"
    case StepTimer => "step_timeout"
  }

  function Render(id: DirectiveID): string {
    match id
    case Base(token) => token
    case Next(p) => "next." + Render(p)
    case ForTask(kind, p) => "bg." + KindName(kind) + "." + Render(p)
    case Callback(p) => "notify." + Render(p)
  }

  function RenderTimer(t: TimerID): string {
    TimerKindName(t.kind) + "." + Render(t.directive)
  }

  /** The generated part of an ID has no dots. */
  predicate Generated(id: DirectiveID) {
    match id
    case Base(token) => DotFree(token)
    case Next(p) => Generated(p)
    case ForTask(_, p) => Generated(p)
    case Callback(p) => Generated(p)
  }

  function Parts(id: DirectiveID): (ts: seq<string>)
    ensures ts != [] && (id.Base? <==> |ts| == 1)
  {
    match id
    case Base(token) => [token]
    case Next(p) => ["next"] + Parts(p)
    case ForTask(kind, p) => ["bg", KindName(kind)] + Parts(p)
    case Callback(p) => ["notify"] + Parts(p)
  }

  lemma {:induction false} RenderSplits(id: DirectiveID)
    requires Generated(id)
    ensures Split(Render(id)) == Parts(id)
  {
    hide Split;
    match id {
      case Base(token) => SplitToken(token);
      case Next(p) =>
        RenderSplits(p);
        SplitsAfter("next", Render(p));
        assert "next." + Render(p) == "next" + "." + Render(p);
      case ForTask(kind, p) =>
        RenderSplits(p);
        SplitsAfter(KindName(kind), Render(p));
        SplitsAfter("bg", KindName(kind) + "." + Render(p));
        assert "bg." + KindName(kind) + "." + Render(p) == "bg" + "." + (KindName(kind) + "." + Render(p));
      case Callback(p) =>
        RenderSplits(p);
        SplitsAfter("notify", Render(p));
        assert "notify." + Render(p) == "notify" + "." + Render(p);
    }
  }

  lemma SplitsAfter(head: string, tail: string)
    requires DotFree(head)
    ensures Split(head + "." + tail) == [head] + Split(tail)
  {
    SplitAppend(head, tail);
    SplitToken(head);
  }

  lemma KindNamesDiffer(a: TaskKind, b: TaskKind)
    requires KindName(a) == KindName(b)
    ensures a == b
  {
    var lengths := map[DeleteTimerTask := 12, DeleteInboxTask := 18, PurgeTask := 17, NotifyTask := 22,
      WorkerTerminateTask := 20];
    assert |KindName(a)| == lengths[a] && |KindName(b)| == lengths[b];
  }

  lemma {:induction false} PartsDiffer(a: DirectiveID, b: DirectiveID)
    requires Parts(a) == Parts(b)
    ensures a == b
  {
    var ts := Parts(a);
    if !a.Base? {
      assert |"next"| == 4 && |"bg"| == 2 && |"notify"| == 6;
      assert ts[0] == Parts(b)[0];
      match a {
        case Next(p) => assert ts[1..] == Parts(p) && Parts(b)[1..] == Parts(b.parent); PartsDiffer(p, b.parent);
        case ForTask(kind, p) =>
          assert ts[1] == KindName(kind) && Parts(b)[1] == KindName(b.taskKind);
          KindNamesDiffer(kind, b.taskKind);
          assert ts[2..] == Parts(p) && Parts(b)[2..] == Parts(b.parent);
          PartsDiffer(p, b.parent);
        case Callback(p) => assert ts[1..] == Parts(p) && Parts(b)[1..] == Parts(b.parent); PartsDiffer(p, b.parent);
      }
    }
  }

  /** Deriving IDs never brings two of them together, so the structured IDs of the model stand for the strings. */
  lemma RenderInjective(a: DirectiveID, b: DirectiveID)
    requires Generated(a) && Generated(b) && Render(a) == Render(b)
    ensures a == b
  {
    RenderSplits(a);
    RenderSplits(b);
    PartsDiffer(a, b);
  }

  lemma RenderTimerInjective(a: TimerID, b: TimerID)
    requires Generated(a.directive) && Generated(b.directive) && RenderTimer(a) == RenderTimer(b)
    ensures a == b
  {
    RenderSplits(a.directive);
    RenderSplits(b.directive);
    SplitsAfter(TimerKindName(a.kind), Render(a.directive));
    SplitsAfter(TimerKindName(b.kind), Render(b.directive));
    assert Split(RenderTimer(a))[1..] == Parts(a.directive) && Split(RenderTimer(b))[1..] == Parts(b.directive);
    assert TimerKindName(WaitTimer)[0] != TimerKindName(StepTimer)[0];
    PartsDiffer(a.directive, b.directive);
  }

  /* Patterns with placeholders */

  /** Every placeholder of a pattern takes up a token of its own. */
  datatype Token = Lit(text: string) | Hole(name: string)

  predicate BraceFree(s: string) { '{' !in s && '}' !in s }

  function Shown(t: Token): string {
    match t
    case Lit(text) => text
    case Hole(name) => "{" + name + "}"
  }

  function Show(ts: seq<Token>): string
    requires ts != []
  {
    if |ts| == 1 then Shown(ts[0]) else Shown(ts[0]) + "." + Show(ts[1..])
  }

  predicate Neat(ts: seq<Token>) {
    forall t :: t in ts ==> BraceFree(if t.Lit? then t.text else t.name)
  }

  /** All occurrences of a string, from left to right and without overlap. */
  function ReplaceAll(s: string, old_: string, new_: string): string
    requires old_ != ""
  {
    if |s| < |old_| then s
    else if s[..|old_|] == old_ then new_ + ReplaceAll(s[|old_|..], old_, new_)
    else [s[0]] + ReplaceAll(s[1..], old_, new_)
  }

  function Mark(key: string): string { "{" + key + "}" }

  function PutToken(t: Token, key: string, value: string): Token {
    if t == Hole(key) then Lit(value) else t
  }

  function Put(ts: seq<Token>, key: string, value: string): (r: seq<Token>)
    ensures |r| == |ts| && forall i :: 0 <= i < |ts| ==> r[i] == PutToken(ts[i], key, value)
  {
    if ts == [] then [] else [PutToken(ts[0], key, value)] + Put(ts[1..], key, value)
  }

  predicate Contains(s: string, m: string)
    requires m != ""
  {
    |s| >= |m| && (s[..|m|] == m || Contains(s[1..], m))
  }

  lemma TooShort(s: string, key: string, value: string)
    requires |s| < |Mark(key)|
    ensures ReplaceAll(s, Mark(key), value) == s
  {
  }

  lemma ReplaceFirst(rest: string, key: string, value: string)
    ensures ReplaceAll(Mark(key) + rest, Mark(key), value) == value + ReplaceAll(rest, Mark(key), value)
  {
    var s := Mark(key) + rest;
    assert s[..|Mark(key)|] == Mark(key) && s[|Mark(key)|..] == rest;
  }

  lemma StepsOver(text: string, key: string, value: string)
    requires text != "" && (|text| >= |Mark(key)| ==> text[..|Mark(key)|] != Mark(key))
    ensures ReplaceAll(text, Mark(key), value) == [text[0]] + ReplaceAll(text[1..], Mark(key), value)
  {
    if |text| < |Mark(key)| {
      TooShort(text[1..], key, value);
      assert text == [text[0]] + text[1..];
    }
  }

  /** A placeholder without a dot does not reach over one. */
  lemma {:induction false} DotSplits(text: string, rest: string, key: string, value: string)
    requires DotFree(key)
    ensures ReplaceAll(text + "." + rest, Mark(key), value)
         == ReplaceAll(text, Mark(key), value) + "." + ReplaceAll(rest, Mark(key), value)
    decreases |text|
  {
    hide ReplaceAll;
    var m, s := Mark(key), text + "." + rest;
    if text == "" {
      assert s == ['.'] + rest && s[1..] == rest;
      NotAtFirst(text, rest, key);
      StepsOver(s, key, value);
      TooShort(text, key, value);
    } else if |text| >= |m| && text[..|m|] == m {
      var tail := text[|m|..];
      assert text == m + tail && s == m + (tail + "." + rest);
      ReplaceFirst(tail, key, value);
      ReplaceFirst(tail + "." + rest, key, value);
      DotSplits(tail, rest, key, value);
    } else {
      assert s[0] == text[0] && s[1..] == text[1..] + "." + rest;
      NotAtFirst(text, rest, key);
      StepsOver(text, key, value);
      StepsOver(s, key, value);
      DotSplits(text[1..], rest, key, value);
    }
  }

  lemma NotAtFirst(text: string, rest: string, key: string)
    requires DotFree(key) && (|text| >= |Mark(key)| ==> text[..|Mark(key)|] != Mark(key))
    ensures var s := text + "." + rest; |s| >= |Mark(key)| ==> s[..|Mark(key)|] != Mark(key)
  {
    var m, s := Mark(key), text + "." + rest;
    if |text| >= |m| {
      assert s[..|m|] == text[..|m|];
    } else {
      assert s[|text|] == '.' && '.' !in m;
    }
  }

  lemma {:induction false} NotThere(s: string, key: string, value: string)
    requires !Contains(s, Mark(key))
    ensures ReplaceAll(s, Mark(key), value) == s
  {
    if |s| >= |Mark(key)| {
      NotThere(s[1..], key, value);
      assert s == [s[0]] + s[1..];
    }
  }

  lemma {:induction false} LengthAfter(s: string, key: string, value: string)
    ensures |value| >= |Mark(key)| ==> |ReplaceAll(s, Mark(key), value)| >= |s|
    ensures |value| <= |Mark(key)| ==> |ReplaceAll(s, Mark(key), value)| <= |s|
    decreases |s|
  {
    var m := Mark(key);
    if |s| < |m| {
    } else if s[..|m|] == m {
      LengthAfter(s[|m|..], key, value);
    } else {
      LengthAfter(s[1..], key, value);
    }
  }

  /** Replacing what is there by something else makes a difference. */
  lemma {:induction false} ThereChanges(s: string, key: string, value: string)
    requires Contains(s, Mark(key)) && value != Mark(key)
    ensures ReplaceAll(s, Mark(key), value) != s
    decreases |s|
  {
    var m := Mark(key);
    if s[..|m|] == m {
      var rest := s[|m|..];
      LengthAfter(rest, key, value);
      assert s == m + rest;
      if |value| == |m| { assert (value + ReplaceAll(rest, m, value))[..|m|] == value; }
    } else {
      ThereChanges(s[1..], key, value);
      assert s == [s[0]] + s[1..];
    }
  }

  lemma {:induction false} StartIsThere(s: string, m: string)
    requires m != "" && Contains(s, m)
    ensures m[0] in s
  {
    if s[..|m|] == m {
      assert s[0] == m[0];
    } else {
      StartIsThere(s[1..], m);
    }
  }

  /** One placeholder does not contain another. */
  lemma MarkContains(name: string, key: string)
    requires BraceFree(name) && BraceFree(key)
    ensures Contains(Mark(name), Mark(key)) <==> name == key
  {
    var s, m := Mark(name), Mark(key);
    assert s[1..] == name + "}";
    assert !Contains(name + "}", m) by { NoMark(name + "}", key); }
    if name == key { assert s[..|m|] == m; } else { OtherMark(name, key); }
  }

  lemma OtherMark(name: string, key: string)
    requires BraceFree(name) && BraceFree(key) && name != key
    ensures |Mark(name)| >= |Mark(key)| ==> Mark(name)[..|Mark(key)|] != Mark(key)
  {
    if |name| == |key| {
      var i :| 0 <= i < |name| && name[i] != key[i];
      assert Mark(name)[i + 1] == name[i] && Mark(key)[i + 1] == key[i];
    } else if |name| > |key| {
      assert Mark(name)[|key| + 1] == name[|key|] && Mark(key)[|key| + 1] == '}';
    }
  }

  /** A token in which at most a whole placeholder is replaced. */
  predicate Passable(t: Token, key: string) {
    if t.Lit? then !Contains(t.text, Mark(key)) else BraceFree(t.name)
  }

  lemma ReplaceToken(t: Token, key: string, value: string)
    requires Passable(t, key) && BraceFree(key)
    ensures ReplaceAll(Shown(t), Mark(key), value) == Shown(PutToken(t, key, value))
  {
    hide ReplaceAll, Contains;
    if t == Hole(key) {
      ReplaceWhole(key, value);
    } else {
      if t.Hole? { MarkContains(t.name, key); }
      NotThere(Shown(t), key, value);
    }
  }

  lemma ReplaceWhole(key: string, value: string)
    ensures ReplaceAll(Mark(key), Mark(key), value) == value
  {
    assert Mark(key)[..|Mark(key)|] == Mark(key) && Mark(key)[|Mark(key)|..] == "";
    TooShort("", key, value);
  }

  /** Replacing a placeholder in the text of a pattern puts the value into its tokens. */
  lemma {:induction false} ReplaceShown(ts: seq<Token>, key: string, value: string)
    requires ts != [] && (forall t :: t in ts ==> Passable(t, key)) && BraceFree(key) && DotFree(key)
    ensures ReplaceAll(Show(ts), Mark(key), value) == Show(Put(ts, key, value))
  {
    hide ReplaceAll, Passable;
    assert ts[0] in ts;
    ReplaceToken(ts[0], key, value);
    if |ts| > 1 {
      DotSplits(Shown(ts[0]), Show(ts[1..]), key, value);
      ReplaceShown(ts[1..], key, value);
      assert Put(ts, key, value)[1..] == Put(ts[1..], key, value);
    }
  }

  /** Text without an opening brace holds no placeholder. */
  lemma NoMark(text: string, key: string)
    requires '{' !in text
    ensures !Contains(text, Mark(key))
  {
    hide Contains;
    if Contains(text, Mark(key)) { StartIsThere(text, Mark(key)); }
  }

  /* Filling in all placeholders */

  /** The text of a pattern after its placeholders were replaced in a given order. */
  function Substituted(pattern: string, params: map<string, string>, order: seq<string>): string
    requires forall k :: k in order ==> k in params
  {
    if order == [] then pattern
    else
      var k := order[|order| - 1];
      ReplaceAll(Substituted(pattern, params, order[..|order| - 1]), Mark(k), params[k])
  }

  /** The pattern with all known placeholders filled in at once. */
  function Filled(ts: seq<Token>, params: map<string, string>): (r: seq<Token>)
    ensures |r| == |ts| && forall i :: 0 <= i < |ts| ==>
      r[i] == if ts[i].Hole? && ts[i].name in params then Lit(params[ts[i].name]) else ts[i]
  {
    if ts == [] then []
    else [if ts[0].Hole? && ts[0].name in params then Lit(params[ts[0].name]) else ts[0]] + Filled(ts[1..], params)
  }

  /** No value holds the placeholder of another parameter. */
  predicate Apart(params: map<string, string>) {
    && (forall k :: k in params ==> BraceFree(k) && DotFree(k))
    && (forall j, k :: j in params && k in params && j != k ==> !Contains(params[j], Mark(k)))
  }

  predicate NoneTwice(order: seq<string>) {
    forall i, j :: 0 <= i < j < |order| ==> order[i] != order[j]
  }

  /** The placeholders done so far are filled in, the others are still there. */
  lemma {:induction false} SubstitutedSoFar(ts: seq<Token>, params: map<string, string>, order: seq<string>)
    returns (r: seq<Token>)
    requires ts != [] && Neat(ts) && Apart(params) && NoneTwice(order) && forall k :: k in order ==> k in params
    ensures |r| == |ts| && Substituted(Show(ts), params, order) == Show(r)
    ensures forall i :: 0 <= i < |ts| ==>
      r[i] == if ts[i].Hole? && ts[i].name in order then Lit(params[ts[i].name]) else ts[i]
  {
    hide ReplaceAll, Show, Contains, Passable;
    if order == [] {
      r := ts;
    } else {
      var front, k := order[..|order| - 1], order[|order| - 1];
      assert order == front + [k] && k !in front;
      var q := SubstitutedSoFar(ts, params, front);
      forall t | t in q ensures Passable(t, k) {
        var i :| 0 <= i < |q| && q[i] == t;
        SoFarPassable(ts[i], t, params, front, k);
      }
      ReplaceShown(q, k, params[k]);
      r := Put(q, k, params[k]);
    }
  }

  lemma SoFarPassable(t0: Token, t: Token, params: map<string, string>, front: seq<string>, k: string)
    requires BraceFree(if t0.Lit? then t0.text else t0.name) && Apart(params) && k in params && k !in front
    requires forall j :: j in front ==> j in params
    requires t == if t0.Hole? && t0.name in front then Lit(params[t0.name]) else t0
    ensures Passable(t, k)
  {
    hide Contains;
    if t0.Lit? { NoMark(t0.text, k); }
  }

  /** Filling in the placeholders one by one, in whatever order a map hands them out, fills them in all at once,
      as long as no value holds the placeholder of another parameter. */
  lemma SubstitutionIsFilling(ts: seq<Token>, params: map<string, string>, order: seq<string>)
    requires ts != [] && Neat(ts) && Apart(params) && NoneTwice(order) && (forall k :: k in order <==> k in params)
    ensures Substituted(Show(ts), params, order) == Show(Filled(ts, params))
  {
    hide Substituted, Show, Apart;
    var r := SubstitutedSoFar(ts, params, order);
    assert r == Filled(ts, params);
  }

  /** Exactly when the order matters, for two placeholders of which the second holds nothing of the first: if the
      value of the first holds the placeholder of the second, and that is replaced by something else. */
  lemma OrderMattersIff(head: string, a: string, b: string, va: string, vb: string)
    requires BraceFree(head) && BraceFree(a) && DotFree(a) && BraceFree(b) && DotFree(b) && a != b
    requires !Contains(vb, Mark(a))
    ensures var ts := [Lit(head), Hole(a), Hole(b)];
            var params := map[a := va, b := vb];
            && Neat(ts) && Substituted(Show(ts), params, [b, a]) == Show(Filled(ts, params))
            && Substituted(Show(ts), params, [a, b]) == Show([Lit(head), Lit(ReplaceAll(va, Mark(b), vb)), Lit(vb)])
            && (Substituted(Show(ts), params, [a, b]) != Substituted(Show(ts), params, [b, a]) <==>
                  Contains(va, Mark(b)) && vb != Mark(b))
  {
    hide ReplaceAll, Show, Substituted, Contains;
    var ts, params := [Lit(head), Hole(a), Hole(b)], map[a := va, b := vb];
    TwoSteps(Show(ts), params, a, b);
    TwoSteps(Show(ts), params, b, a);
    NoMark(head, a);
    NoMark(head, b);
    ReplaceThree(Lit(head), Hole(a), Hole(b), a, va);
    ReplaceThree(Lit(head), Hole(a), Hole(b), b, vb);
    ReplaceThree(Lit(head), Hole(a), Lit(vb), a, va);
    ReplaceSecond(head, va, b, vb);
    assert Filled(ts, params) == [Lit(head), Lit(va), Lit(vb)];
    var v := ReplaceAll(va, Mark(b), vb);
    ShowThree(Lit(head), Lit(v), Lit(vb));
    ShowThree(Lit(head), Lit(va), Lit(vb));
    SameMiddle(head, v, va, vb);
    if Contains(va, Mark(b)) {
      if vb == Mark(b) { ReplaceBySame(va, b); } else { ThereChanges(va, b, vb); }
    } else {
      NotThere(va, b, vb);
    }
  }

  lemma {:induction false} ReplaceBySame(s: string, key: string)
    ensures ReplaceAll(s, Mark(key), Mark(key)) == s
    decreases |s|
  {
    var m := Mark(key);
    if |s| < |m| {
    } else if s[..|m|] == m {
      ReplaceBySame(s[|m|..], key);
      assert s == m + s[|m|..];
    } else {
      ReplaceBySame(s[1..], key);
      assert s == [s[0]] + s[1..];
    }
  }

  lemma SameMiddle(head: string, a: string, b: string, rest: string)
    ensures head + "." + a + "." + rest == head + "." + b + "." + rest <==> a == b
  {
    var s, t := head + "." + a + "." + rest, head + "." + b + "." + rest;
    if s == t {
      assert |a| == |b|;
      assert s[|head| + 1..|head| + 1 + |a|] == a && t[|head| + 1..|head| + 1 + |b|] == b;
    }
  }

  /** The placeholder of the second parameter is replaced in the value of the first as well. */
  lemma ReplaceSecond(head: string, va: string, b: string, vb: string)
    requires BraceFree(head) && BraceFree(b) && DotFree(b)
    ensures ReplaceAll(Show([Lit(head), Lit(va), Hole(b)]), Mark(b), vb)
         == Show([Lit(head), Lit(ReplaceAll(va, Mark(b), vb)), Lit(vb)])
  {
    hide ReplaceAll, Show, Contains;
    var v, rest := ReplaceAll(va, Mark(b), vb), va + "." + Mark(b);
    ShowThree(Lit(head), Lit(va), Hole(b));
    ShowThree(Lit(head), Lit(v), Lit(vb));
    assert head + "." + va + "." + Mark(b) == head + "." + rest;
    DotSplits(head, rest, b, vb);
    DotSplits(va, Mark(b), b, vb);
    NoMark(head, b);
    NotThere(head, b, vb);
    ReplaceWhole(b, vb);
    assert head + "." + (v + "." + vb) == head + "." + v + "." + vb;
  }

  /** So for a workflow named "{run_id}" a subject of its run is the one of a workflow that is named like the run, or
      not, depending on how the map is iterated. */
  lemma BracesBreakIt(head: string, runID: string)
    requires BraceFree(head) && BraceFree(runID)
    ensures var ts := [Lit(head), Hole("wf_id"), Hole("run_id")];
            var params := map["wf_id" := "{run_id}", "run_id" := runID];
            && Neat(ts)
            && Substituted(Show(ts), params, ["wf_id", "run_id"])
              == Show(Filled(ts, map["wf_id" := runID, "run_id" := runID]))
            && Substituted(Show(ts), params, ["run_id", "wf_id"]) == Show(Filled(ts, params))
            && Substituted(Show(ts), params, ["wf_id", "run_id"]) != Substituted(Show(ts), params, ["run_id", "wf_id"])
  {
    hide ReplaceAll, Show, Substituted, Contains;
    var w, r := "wf_id", "run_id";
    assert |w| == 5 && |r| == 6 && Mark(r) == "{run_id}";
    NoMark(runID, w);
    MarkContains(r, r);
    OrderMattersIff(head, w, r, Mark(r), runID);
    ReplaceWhole(r, runID);
    assert Filled([Lit(head), Hole(w), Hole(r)], map[w := runID, r := runID]) == [Lit(head), Lit(runID), Lit(runID)];
  }

  lemma TwoSteps(pattern: string, params: map<string, string>, a: string, b: string)
    requires a in params && b in params
    ensures Substituted(pattern, params, [a, b])
         == ReplaceAll(ReplaceAll(pattern, Mark(a), params[a]), Mark(b), params[b])
  {
    hide ReplaceAll;
    assert [a, b][..1] == [a] && [a][..0] == [];
    assert Substituted(pattern, params, [a]) == ReplaceAll(pattern, Mark(a), params[a]);
  }

  lemma ReplaceThree(a: Token, b: Token, c: Token, key: string, value: string)
    requires Passable(a, key) && Passable(b, key) && Passable(c, key) && BraceFree(key) && DotFree(key)
    ensures ReplaceAll(Show([a, b, c]), Mark(key), value)
         == Show([PutToken(a, key, value), PutToken(b, key, value), PutToken(c, key, value)])
  {
    hide ReplaceAll, Show, Passable;
    ReplaceShown([a, b, c], key, value);
    assert Put([a, b, c], key, value) == [PutToken(a, key, value), PutToken(b, key, value), PutToken(c, key, value)];
  }

  lemma ShowThree(a: Token, b: Token, c: Token)
    ensures Show([a, b, c]) == Shown(a) + "." + Shown(b) + "." + Shown(c)
  {
    assert [a, b, c][1..] == [b, c] && [b, c][1..] == [c];
    assert Show([b, c]) == Shown(b) + "." + Shown(c);
    assert Shown(a) + "." + (Shown(b) + "." + Shown(c)) == Shown(a) + "." + Shown(b) + "." + Shown(c);
  }

  /** The loop that fills in a pattern; `order` is how the map happens to be iterated. */
  method SubstituteParams(pattern: string, params: map<string, string>, order: seq<string>) returns (result: string)
    requires forall k :: k in order <==> k in params
    ensures result == Substituted(pattern, params, order)
    ensures forall ts :: ts != [] && pattern == Show(ts) && Neat(ts) && Apart(params) && NoneTwice(order) ==>
      result == Show(Filled(ts, params))
  {
    result := pattern;
    var i := 0;
    while i < |order|
      invariant 0 <= i <= |order|
      invariant result == Substituted(pattern, params, order[..i])
    {
      assert order[..i + 1][..i] == order[..i];
      result := ReplaceAll(result, Mark(order[i]), params[order[i]]);
      i := i + 1;
    }
    assert order[..i] == order;
    forall ts | ts != [] && pattern == Show(ts) && Neat(ts) && Apart(params) && NoneTwice(order)
      ensures result == Show(Filled(ts, params))
    {
      SubstitutionIsFilling(ts, params, order);
    }
  }
}
