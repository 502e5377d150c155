/**
 * Differences (operator/internal/compatibility/compatibility.go): two schemas are normalized,
 * compared, and the differences listed in the order of their paths as text.
 */
module Differences {
  import opened Json
  import opened SchemaDiff
  import Normalize
  import Order
  import Text

  // Names that look like CEL rules are written in brackets.
  predicate LooksLikeRule(name: string) {
    "!" <= name || exists i :: 0 <= i < |name| && SelfAt(name, i)
  }

  predicate SelfAt(name: string, i: nat) {
    i + 5 <= |name| && name[i..i + 5] == "self."
  }

  function Rendered(path: seq<string>): string {
    if path == [] then "$"
    else
      var name := path[|path| - 1];
      Rendered(path[..|path| - 1]) + StepText(name)
  }

  function StepText(name: string): string {
    if LooksLikeRule(name) then "[rule=" + name + "]" else "." + name
  }

  // The text of a path, name by name, and which names are written in brackets.
  lemma TextIsWritten(path: seq<string>, name: string)
    ensures Rendered([]) == "$"
    ensures LooksLikeRule(name) ==> Rendered(path + [name]) == Rendered(path) + "[rule=" + name + "]"
    ensures !LooksLikeRule(name) ==> Rendered(path + [name]) == Rendered(path) + "." + name
  {
    assert (path + [name])[..|path|] == path;
    Text.Regroup(Rendered(path), ".", name);
    Text.Regroup(Rendered(path), "[rule=", name);
    Text.Regroup(Rendered(path), "[rule=" + name, "]");
  }

  lemma RulesLookLikeRules(a: string, b: string)
    ensures LooksLikeRule("!" + a) && LooksLikeRule(a + "self." + b)
  {
    assert "self."[0..5] == "self." && SelfAt("self.", 0);
    assert "!" <= "!" + a;
    SelfInside(a, "self.", b);
  }

  lemma OnlyRulesDo(name: string) returns (a: string, b: string)
    requires LooksLikeRule(name)
    ensures name == "!" + b || name == a + "self." + b
  {
    if "!" <= name {
      a, b := "", name[1..];
      assert name == "!" + name[1..];
    } else {
      var i :| 0 <= i < |name| && SelfAt(name, i);
      a, b := name[..i], name[i + 5..];
      assert name == name[..i] + name[i..i + 5] + name[i + 5..];
    }
  }

  function PathText(d: Difference): string {
    Rendered(d.path)
  }

  // Everything is listed, in path order, and nothing exactly when the schemas differ only in what the
  // normal form is meant to forget.
  method Differences(live: Json, generated: Json, text: Json -> string) returns (out: seq<Difference>)
    ensures multiset(out) == multiset(Diff(Normalize.Normal(live, "", text), Normalize.Normal(generated, "", text)))
    ensures Order.Sorted(out, PathText)
    ensures Normalize.Told(live, "", text) ==> (out == [] <==> Normalize.Same(live, generated, ""))
  {
    hide Order.Sort, Order.Sorted, Normalize.Normal, Normalize.Told, Normalize.Same, Diff;
    var a := Normalize.NormalizeValue(live, "", text);
    var b := Normalize.NormalizeValue(generated, "", text);
    out := DiffValue([], a, b, []);
    ghost var ds := Diff(a, b);
    UnderNothing(ds);
    assert [] + ds == ds;
    out := Order.Sort(out, PathText);
    Order.SortSorts(ds, PathText);
    assert |multiset(out)| == |multiset(ds)|;
    EmptyMeansEqual(a, b);
    if Normalize.Told(live, "", text) { Normalize.NormalForgetsOnlyThat(live, generated, "", text); }
  }

  function Texts(ds: seq<Difference>): (r: seq<string>)
    ensures |r| == |ds|
  {
    seq(|ds|, i requires 0 <= i < |ds| => Rendered(ds[i].path))
  }

  // The texts of the paths at which two documents differ, sorted.
  method ChangedLeafPaths(a: Json, b: Json) returns (paths: seq<string>)
    ensures paths == Order.Sort(Texts(Diff(a, b)), Order.Itself)
    ensures paths == [] <==> a == b
    ensures ClearNames(a) && ClearNames(b) ==> Order.Increasing(paths, Order.Less)
  {
    hide Order.Sort, Order.Sorted, Diff, Rendered;
    var diffs := DiffValue([], a, b, []);
    ghost var ds := Diff(a, b);
    UnderNothing(ds);
    assert [] + ds == ds;
    paths := [];
    for i := 0 to |diffs|
      invariant paths == Texts(diffs[..i])
    {
      assert Texts(diffs[..i + 1]) == Texts(diffs[..i]) + [Rendered(diffs[i].path)];
      paths := paths + [Rendered(diffs[i].path)];
    }
    assert diffs[..|diffs|] == diffs;
    Order.SortSorts(paths, Order.Itself);
    paths := Order.Sort(paths, Order.Itself);
    assert |multiset(paths)| == |multiset(Texts(ds))| == |ds|;
    EmptyMeansEqual(a, b);
    if ClearNames(a) && ClearNames(b) { NoTextTwice(a, b); }
  }

  // ---------------------------------------------------------------- when the text tells positions apart

  // A name that stays in one piece: in brackets it closes none, and otherwise it begins no further step.
  predicate Clear(name: string) {
    if LooksLikeRule(name) then ']' !in name else '[' !in name && DotsHold(name)
  }

  // A dot begins a step unless a bracket would have been put around what follows.
  predicate DotsHold(name: string) {
    forall i :: 0 <= i < |name| && name[i] == '.' ==> i + 1 < |name| && name[i + 1] == '!'
  }

  predicate ClearPath(path: seq<string>) {
    forall i :: 0 <= i < |path| ==> Clear(path[i])
  }

  predicate Resumes(t: string) {
    t == "" || t[0] == '[' || (t[0] == '.' && (|t| > 1 ==> t[1] != '!'))
  }

  function StepsText(path: seq<string>): (t: string)
    ensures Resumes(t)
    ensures t == "" <==> path == []
  {
    if path == [] then "" else StepText(path[0]) + StepsText(path[1..])
  }

  lemma {:induction false} StepsConcat(p: seq<string>, q: seq<string>)
    ensures StepsText(p + q) == StepsText(p) + StepsText(q)
  {
    hide StepText;
    if p == [] {
      assert p + q == q;
    } else {
      StepsConcat(p[1..], q);
      assert (p + q)[1..] == p[1..] + q;
      Text.Regroup(StepText(p[0]), StepsText(p[1..]), StepsText(q));
    }
  }

  lemma {:induction false} RenderedIsSteps(path: seq<string>)
    ensures Rendered(path) == "$" + StepsText(path)
  {
    hide StepText;
    if path != [] {
      var init, name := path[..|path| - 1], path[|path| - 1];
      RenderedIsSteps(init);
      StepsConcat(init, [name]);
      assert path == init + [name];
      OneStep(name);
      Text.Regroup("$", StepsText(init), StepText(name));
    }
  }

  // The first step can be read off the text.
  lemma FirstStepIsRead(n: string, s: string, m: string, t: string)
    requires Clear(n) && Clear(m) && StepText(n) + s == StepText(m) + t && Resumes(s) && Resumes(t)
    ensures n == m && s == t
  {
    hide LooksLikeRule, Resumes, DotsHold;
    assert (StepText(n) + s)[0] == (StepText(m) + t)[0];
    assert StepText(n)[0] == StepText(m)[0];
    if LooksLikeRule(n) {
      BracketIsRead("[rule=", n, ']', s, m, t);
    } else {
      Text.Regroup(".", n, s);
      Text.Regroup(".", m, t);
      Text.SameRest(".", n + s, m + t);
      SameStop(n, s, m, t);
      SameStop(m, t, n, s);
      Text.SameCut(n, s, m, t);
    }
  }

  lemma BracketIsRead(open: string, n: string, close: char, s: string, m: string, t: string)
    requires open + n + [close] + s == open + m + [close] + t && close !in n && close !in m
    ensures n == m && s == t
  {
    Text.Regroup(open, n, [close]);
    Text.Regroup(open, m, [close]);
    Text.Regroup(open, n + [close], s);
    Text.Regroup(open, m + [close], t);
    Text.SameRest(open, n + [close] + s, m + [close] + t);
    Text.SameSplit(n, s, m, t, close);
  }

  lemma SameStop(n: string, s: string, m: string, t: string)
    requires n + s == m + t && '[' !in m && DotsHold(m) && Resumes(s)
    ensures |m| <= |n|
  {
    StopInside(n, s, m, t);
  }

  lemma StopInside(n: string, s: string, m: string, t: string)
    requires n + s == m + t
    ensures |n| < |m| ==> s != "" && s[0] == m[|n|]
    ensures |n| + 1 < |m| ==> |s| > 1 && s[1] == m[|n| + 1]
  {
    if |n| < |m| {
      assert (n + s)[|n|] == s[0];
      assert (m + t)[|n|] == m[|n|];
    }
    if |n| + 1 < |m| {
      assert (n + s)[|n| + 1] == s[1];
      assert (m + t)[|n| + 1] == m[|n| + 1];
    }
  }

  // No two paths of clear names have one text.
  lemma {:induction false} TextTellsClearPathsApart(p: seq<string>, q: seq<string>)
    requires ClearPath(p) && ClearPath(q)
    ensures Rendered(p) == Rendered(q) <==> p == q
  {
    RenderedIsSteps(p);
    RenderedIsSteps(q);
    if Rendered(p) == Rendered(q) {
      Text.SameRest("$", StepsText(p), StepsText(q));
      StepsTellApart(p, q);
    }
  }

  lemma {:induction false} StepsTellApart(p: seq<string>, q: seq<string>)
    requires ClearPath(p) && ClearPath(q) && StepsText(p) == StepsText(q)
    ensures p == q
  {
    hide Clear, StepText;
    if p != [] && q != [] {
      FirstStepIsRead(p[0], StepsText(p[1..]), q[0], StepsText(q[1..]));
      StepsTellApart(p[1..], q[1..]);
      assert p == [p[0]] + p[1..] && q == [q[0]] + q[1..];
    }
  }

  // A name with a dot in it reads like two, unless a bracket would be put around the second.
  lemma DottedNamesReadLikeTwo(p: seq<string>, a: string, b: string, q: seq<string>)
    requires !LooksLikeRule(a + "." + b)
    ensures Rendered(p + [a + "." + b] + q) == Rendered(p + [a, b] + q) <==> !("!" <= b)
  {
    hide LooksLikeRule, StepText;
    NoRuleInside(a, b);
    SameTextAround(p, [a + "." + b], [a, b], q);
    OneStep(a + "." + b);
    TwoSteps(a, b);
    DottedSteps(a, b);
  }

  lemma DottedSteps(a: string, b: string)
    requires !LooksLikeRule(a + "." + b) && !LooksLikeRule(a) && (LooksLikeRule(b) <==> "!" <= b)
    ensures StepText(a + "." + b) == StepText(a) + StepText(b) <==> !("!" <= b)
  {
    hide LooksLikeRule;
    assert StepText(a + "." + b) == "." + a + "." + b;
    Text.SameInside("." + a, "." + b, StepText(b), "");
    if "!" <= b { assert ("." + b)[0] != StepText(b)[0]; }
  }

  lemma TextIsAmbiguous()
    ensures Rendered(["a.b"]) == Rendered(["a", "b"])
  {
    var name := "a.b";
    assert "a" + "." + "b" == name && |name| == 3 && name[0] == 'a';
    DottedNamesReadLikeTwo([], "a", "b", []);
    assert [] + ["a.b"] + [] == ["a.b"] && [] + ["a", "b"] + [] == ["a", "b"];
  }

  // A rule with a closing bracket and a dot in it reads like a shorter rule and a name.
  lemma BracketedRulesReadLikeTwo(p: seq<string>, a: string, b: string, q: seq<string>)
    requires LooksLikeRule(a + "]." + b) && LooksLikeRule(a) && !LooksLikeRule(b + "]")
    ensures Rendered(p + [a + "]." + b] + q) == Rendered(p + [a, b + "]"] + q)
  {
    hide LooksLikeRule, StepText;
    SameTextAround(p, [a + "]." + b], [a, b + "]"], q);
    OneStep(a + "]." + b);
    TwoSteps(a, b + "]");
    BracketedSteps(a, b);
  }

  lemma BracketedSteps(a: string, b: string)
    requires LooksLikeRule(a + "]." + b) && LooksLikeRule(a) && !LooksLikeRule(b + "]")
    ensures StepText(a + "]." + b) == StepText(a) + StepText(b + "]")
  {
    hide LooksLikeRule;
    assert "]" + "." == "].";
    BetweenBrackets("[rule=", a, "]", ".", b);
  }

  lemma BetweenBrackets(open: string, a: string, close: string, dot: string, b: string)
    ensures open + (a + (close + dot) + b) + close == open + a + close + (dot + (b + close))
  {
  }

  lemma OneStep(name: string)
    ensures StepsText([name]) == StepText(name)
  {
    assert [name][1..] == [];
  }

  lemma TwoSteps(a: string, b: string)
    ensures StepsText([a, b]) == StepText(a) + StepText(b)
  {
    OneStep(a);
    OneStep(b);
    StepsConcat([a], [b]);
    assert [a] + [b] == [a, b];
  }

  lemma SameTextAround(p: seq<string>, x: seq<string>, y: seq<string>, q: seq<string>)
    ensures Rendered(p + x + q) == Rendered(p + y + q) <==> StepsText(x) == StepsText(y)
  {
    TextAround(p, x, q);
    TextAround(p, y, q);
    Text.SameInside("$" + StepsText(p), StepsText(x), StepsText(y), StepsText(q));
  }

  lemma TextAround(p: seq<string>, x: seq<string>, q: seq<string>)
    ensures Rendered(p + x + q) == "$" + StepsText(p) + StepsText(x) + StepsText(q)
  {
    hide StepsText, Rendered;
    RenderedIsSteps(p + x + q);
    StepsConcat(p + x, q);
    StepsConcat(p, x);
    Text.Regroup("$", StepsText(p), StepsText(x));
    Text.Regroup("$", StepsText(p) + StepsText(x), StepsText(q));
  }

  lemma NoRuleInside(a: string, b: string)
    requires !LooksLikeRule(a + "." + b)
    ensures !LooksLikeRule(a)
    ensures LooksLikeRule(b) <==> "!" <= b
  {
    SelfInside("", a, "." + b);
    assert "" + a + ("." + b) == a + "." + b;
    SelfInside(a + ".", b, "");
    assert a + "." + b + "" == a + "." + b;
    BangInFront(a, "." + b);
    assert a + ("." + b) == a + "." + b;
  }

  lemma BangInFront(x: string, q: string)
    ensures "!" <= x ==> "!" <= x + q
  {
  }

  lemma SelfInside(p: string, x: string, q: string)
    ensures (exists i :: 0 <= i < |x| && SelfAt(x, i)) ==> LooksLikeRule(p + x + q)
  {
    if i: nat :| i < |x| && SelfAt(x, i) {
      var whole := p + x + q;
      assert whole[|p| + i..|p| + i + 5] == x[i..i + 5];
      assert SelfAt(whole, |p| + i);
    }
  }

  // So for a name without brackets this is exact: it is clear if and only if it does not read like a
  // longer path of such names.
  lemma ClearExactly(name: string)
    requires Plain(name)
    ensures Clear(name) <==> forall path :: |path| > 1 && PlainPath(path) ==> Rendered(path) != Rendered([name])
  {
    hide LooksLikeRule, Clear, Plain;
    if Clear(name) {
      forall path | |path| > 1 && PlainPath(path) ensures Rendered(path) != Rendered([name]) {
        ClearReadsLikeOne(name, path);
      }
    } else {
      var a, b := SplitOfUnclear(name);
      assert PlainPath([a, b]);
      DottedNamesReadLikeTwo([], a, b, []);
      assert [] + [name] + [] == [name] && [] + [a, b] + [] == [a, b];
    }
  }

  predicate Plain(name: string) {
    '[' !in name && ']' !in name
  }

  predicate PlainPath(path: seq<string>) {
    forall i :: 0 <= i < |path| ==> Plain(path[i])
  }

  lemma SplitOfUnclear(name: string) returns (a: string, b: string)
    requires Plain(name) && !Clear(name)
    ensures name == a + "." + b && !LooksLikeRule(name) && !("!" <= b) && Plain(a) && Plain(b)
  {
    hide LooksLikeRule;
    var i :| 0 <= i < |name| && name[i] == '.' && !(i + 1 < |name| && name[i + 1] == '!');
    a, b := name[..i], name[i + 1..];
  }

  lemma ClearReadsLikeOne(name: string, path: seq<string>)
    requires Plain(name) && Clear(name) && |path| > 1 && PlainPath(path)
    ensures Rendered(path) != Rendered([name])
  {
    hide LooksLikeRule, Resumes, DotsHold;
    if Rendered(path) == Rendered([name]) {
      RenderedIsSteps(path);
      RenderedIsSteps([name]);
      OneStep(name);
      var n, s := path[0], StepsText(path[1..]);
      Text.SameRest("$", StepText(n) + s, StepText(name));
      assert StepText(name)[0] == StepText(n)[0];
      if LooksLikeRule(name) {
        BracketIsRead("[rule=", n, ']', s, name, "");
      } else {
        Text.Regroup(".", n, s);
        Text.SameRest(".", n + s, name);
        SameStop(n, s, name, "");
      }
    }
  }

  // ---------------------------------------------------------------- no text twice

  predicate ClearNames(v: Json) {
    v.Object? ==> forall k :: k in v.members ==> Clear(k) && ClearNames(v.members[k])
  }

  lemma {:induction false} DiffPathsAreClear(a: Json, b: Json)
    requires ClearNames(a) && ClearNames(b)
    ensures forall d :: d in Diff(a, b) ==> ClearPath(d.path)
    decreases a, 1, 0
  {
    hide Clear;
    if a != b && a.Object? && b.Object? {
      NamePathsAreClear(a, b, Order.SortedNames(a.members.Keys + b.members.Keys));
    }
  }

  lemma {:induction false} NamePathsAreClear(a: Json, b: Json, names: seq<string>)
    requires a.Object? && b.Object? && ClearNames(a) && ClearNames(b)
    requires forall k :: k in names ==> k in a.members || k in b.members
    ensures forall d :: d in DiffNames(a, b, names) ==> ClearPath(d.path)
    decreases a, 0, |names|
  {
    hide Clear;
    if names != [] {
      var k, rest := names[|names| - 1], names[..|names| - 1];
      NamePathsAreClear(a, b, rest);
      if k in a.members && k in b.members { DiffPathsAreClear(a.members[k], b.members[k]); }
      UnderIsClear(k, DiffMember(a, b, k));
    }
  }

  lemma UnderIsClear(k: string, ds: seq<Difference>)
    requires Clear(k) && forall d :: d in ds ==> ClearPath(d.path)
    ensures forall d :: d in Under([k], ds) ==> ClearPath(d.path)
  {
    hide Clear;
    forall d | d in Under([k], ds) ensures ClearPath(d.path) {
      var i :| 0 <= i < |ds| && Under([k], ds)[i] == d;
      assert ds[i] in ds && d.path == [k] + ds[i].path;
    }
  }

  lemma NoTextTwice(a: Json, b: Json)
    requires ClearNames(a) && ClearNames(b)
    ensures Order.Increasing(Order.Sort(Texts(Diff(a, b)), Order.Itself), Order.Less)
  {
    hide Clear, ClearNames, Diff, Rendered, Order.Sort, Order.Less;
    var ds := Diff(a, b);
    var texts := Texts(ds);
    DiffPathsAreClear(a, b);
    DiffIsAntichain(a, b);
    forall i, j | 0 <= i < j < |texts| ensures texts[i] != texts[j] {
      assert ds[i] in ds && ds[j] in ds && Apart(ds[i].path, ds[j].path);
      TextTellsClearPathsApart(ds[i].path, ds[j].path);
    }
    Order.SortOfEnumeration(texts, set x | x in texts);
  }
}
