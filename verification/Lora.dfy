/**
 * validateLoraModules (operator/internal/vllm/deployment.go): comma-separated name=path
 * entries whose paths must stay below /models.  The check cleans the path lexically and
 * looks at the cleaned text; here it is related to where the path leads.
 */
module Lora {
  import opened Wrappers
  import opened Text

  // ---------------------------------------------------------------- small string functions

  // unicode.IsSpace.
  predicate Space(c: char) {
    var n := c as int;
    || 9 <= n <= 13 || n == 0x20 || n == 0x85 || n == 0xA0 || n == 0x1680 || 0x2000 <= n <= 0x200A
    || n == 0x2028 || n == 0x2029 || n == 0x202F || n == 0x205F || n == 0x3000
  }

  // strings.TrimSpace.
  function TrimSpace(s: string): string {
    if s != "" && Space(s[0]) then TrimSpace(s[1..])
    else if s != "" && Space(s[|s| - 1]) then TrimSpace(s[..|s| - 1])
    else s
  }

  // The characters that count as space.
  lemma SpacesAre(c: char)
    ensures var spaces: set<int> := {
      0x09, 0x0A, 0x0B, 0x0C, 0x0D, 0x20, 0x85, 0xA0, 0x1680, 0x2000, 0x2001, 0x2002, 0x2003, 0x2004, 0x2005, 0x2006,
      0x2007, 0x2008, 0x2009, 0x200A, 0x2028, 0x2029, 0x202F, 0x205F, 0x3000};
      Space(c) <==> c as int in spaces
  {
  }

  predicate AllSpace(s: string) {
    forall c :: c in s ==> Space(c)
  }

  // Nothing to trim at either end.
  predicate Trimmed(s: string) {
    s != "" ==> !Space(s[0]) && !Space(s[|s| - 1])
  }

  // Trimming takes the space off both ends and nothing else.
  lemma {:induction false} TrimSpaceIs(a: string, t: string, b: string)
    requires AllSpace(a) && AllSpace(b) && Trimmed(t)
    ensures TrimSpace(a + t + b) == t
    decreases |a| + |b|
  {
    var s := a + t + b;
    if a != "" {
      assert s[0] == a[0] && s[1..] == a[1..] + t + b;
      TrimSpaceIs(a[1..], t, b);
    } else if t == "" && b != "" {
      assert s[0] == b[0] && s[1..] == "" + t + b[1..];
      TrimSpaceIs("", t, b[1..]);
    } else if b != "" {
      assert s[0] == t[0] && s[|s| - 1] == b[|b| - 1] && s[..|s| - 1] == "" + t + b[..|b| - 1];
      TrimSpaceIs("", t, b[..|b| - 1]);
    } else {
      assert s == t;
    }
  }

  lemma {:induction false} TrimSpaceLeaves(s: string) returns (a: string, b: string)
    ensures s == a + TrimSpace(s) + b && AllSpace(a) && AllSpace(b) && Trimmed(TrimSpace(s))
  {
    a, b := "", "";
    if s != "" && Space(s[0]) {
      a, b := TrimSpaceLeaves(s[1..]);
      a := [s[0]] + a;
    } else if s != "" && Space(s[|s| - 1]) {
      a, b := TrimSpaceLeaves(s[..|s| - 1]);
      b := b + [s[|s| - 1]];
    }
  }

  function Count(s: string, c: char): nat {
    if s == "" then 0 else (if s[0] == c then 1 else 0) + Count(s[1..], c)
  }

  function IndexByte(s: string, c: char): (i: nat)
    requires c in s
    ensures i < |s| && s[i] == c && c !in s[..i]
  {
    if s[0] == c then 0 else
      var i := 1 + IndexByte(s[1..], c);
      assert s[..i] == [s[0]] + s[1..][..i - 1];
      i
  }

  // strings.Contains(s, "..").
  predicate DotDot(s: string) {
    exists i :: 0 <= i < |s| - 1 && s[i] == '.' && s[i + 1] == '.'
  }

  lemma DotDotInside(a: string, b: string)
    ensures DotDot(a + ".." + b)
  {
    var s := a + ".." + b;
    assert s[|a|] == '.' && s[|a| + 1] == '.';
  }

  lemma DotDotIsInside(s: string) returns (a: string, b: string)
    requires DotDot(s)
    ensures s == a + ".." + b
  {
    var i :| 0 <= i < |s| - 1 && s[i] == '.' && s[i + 1] == '.';
    a, b := s[..i], s[i + 2..];
    assert s == s[..i] + [s[i]] + [s[i + 1]] + s[i + 2..];
  }

  // ---------------------------------------------------------------- lexical cleaning

  predicate Rooted(path: string) {
    path != "" && path[0] == '/'
  }

  // What the component list of a path becomes, left to right; a rooted path cannot climb above its root.
  function Collapse(components: seq<string>, rooted: bool): (kept: seq<string>)
    ensures forall k :: k in kept ==> k in components
    ensures "" !in kept && "." !in kept && (rooted ==> ".." !in kept)
  {
    if components == [] then []
    else
      var kept := Collapse(components[..|components| - 1], rooted);
      var c := components[|components| - 1];
      assert forall k :: k in kept ==> k in components;
      assert c in components;
      assert kept != [] ==> forall k :: k in kept[..|kept| - 1] ==> k in kept;
      if c == "" || c == "." then kept
      else if c != ".." then kept + [c]
      else if kept != [] && kept[|kept| - 1] != ".." then kept[..|kept| - 1]
      else if rooted then kept
      else kept + [c]
  }

  predicate ClimbsFirst(kept: seq<string>) {
    forall i, j :: 0 <= i < j < |kept| && kept[j] == ".." ==> kept[i] == ".."
  }

  // What climbs is left at the front only.
  lemma {:induction false} ClimbsStandFirst(components: seq<string>, rooted: bool)
    ensures ClimbsFirst(Collapse(components, rooted))
  {
    if components != [] {
      ClimbsStandFirst(components[..|components| - 1], rooted);
      OneMoreStep(Collapse(components[..|components| - 1], rooted), components[|components| - 1]);
    }
  }

  lemma OneMoreStep(kept: seq<string>, c: string)
    requires ClimbsFirst(kept)
    ensures kept != [] ==> ClimbsFirst(kept[..|kept| - 1])
    ensures c != ".." || kept == [] || kept[|kept| - 1] == ".." ==> ClimbsFirst(kept + [c])
  {
    forall i | 0 <= i < |kept| && kept[|kept| - 1] == ".." ensures kept[i] == ".." {
      if i < |kept| - 1 { assert kept[|kept| - 1] == ".."; }
    }
  }

  // filepath.Clean on a system whose separator is '/'.
  function Clean(path: string): string {
    var kept := Collapse(Split(path, '/'), Rooted(path));
    if Rooted(path) then "/" + Join(kept, "/")
    else if kept == [] then "." else Join(kept, "/")
  }

  // ---------------------------------------------------------------- where a path leads

  // Follow components from a directory, given as its components below the root.
  function Walk(dir: seq<string>, components: seq<string>): seq<string> {
    if components == [] then dir
    else
      var d := Walk(dir, components[..|components| - 1]);
      var c := components[|components| - 1];
      if c == "" || c == "." then d
      else if c != ".." then d + [c]
      else if d == [] then d
      else d[..|d| - 1]
  }

  // An empty component or "." stays, ".." goes to the parent if there is one, any other name goes below.
  lemma OneStep(dir: seq<string>, components: seq<string>, name: string)
    ensures Walk(dir, []) == dir
    ensures Walk(dir, components + [""]) == Walk(dir, components + ["."]) == Walk(dir, components)
    ensures name != "" && name != "." && name != ".." ==>
      && Walk(dir, components + [name]) == Walk(dir, components) + [name]
      && Walk(dir, components + [name] + [".."]) == Walk(dir, components)
    ensures Walk([], [".."]) == []
  {
    forall c ensures (components + [c])[..|components|] == components {}
    assert (components + [name] + [".."])[..|components| + 1] == components + [name];
    assert (Walk(dir, components) + [name])[..|Walk(dir, components)|] == Walk(dir, components);
    assert [".."][..0] == [];
  }

  function Resolve(dir: seq<string>, path: string): seq<string> {
    Walk(if Rooted(path) then [] else dir, Split(path, '/'))
  }

  lemma {:induction false} CollapseKeepsTheWalk(dir: seq<string>, components: seq<string>, rooted: bool)
    requires rooted ==> dir == []
    ensures Walk(dir, Collapse(components, rooted)) == Walk(dir, components)
  {
    if components != [] {
      var init, c := components[..|components| - 1], components[|components| - 1];
      CollapseKeepsTheWalk(dir, init, rooted);
      var kept := Collapse(init, rooted);
      assert kept != [] ==> kept[|kept| - 1] in kept;
      if c != ".." || !rooted {
        assert (kept + [c])[..|kept|] == kept;
      }
    }
  }

  // Cleaning never changes where a path leads, from any directory.
  lemma CleanKeepsTheMeaning(dir: seq<string>, path: string)
    ensures Resolve(dir, Clean(path)) == Resolve(dir, path)
  {
    var rooted := Rooted(path);
    var start := if rooted then [] else dir;
    var components := Split(path, '/');
    var kept := Collapse(components, rooted);
    CollapseKeepsTheWalk(start, components, rooted);
    if kept == [] {
      if rooted {
        SplitAfter("", '/', "");
        WalkSkips(start, [""]);
      } else {
        SplitWhole(".", '/');
      }
      WalkSkips(start, []);
      assert [""] + [] == [""] && ["."][..0] == [];
    } else {
      SplitOfJoin(kept, '/');
      var text := Join(kept, "/");
      assert kept[0] in kept;
      assert text[0] == kept[0][0];
      if rooted { SplitAfter("", '/', text); WalkSkips(start, kept); }
    }
  }

  lemma {:induction false} WalkSkips(dir: seq<string>, components: seq<string>)
    ensures Walk(dir, [""] + components) == Walk(dir, components)
  {
    var all := [""] + components;
    if components == [] {
      assert all[..0] == [];
    } else {
      WalkSkips(dir, components[..|components| - 1]);
      assert all[..|all| - 1] == [""] + components[..|components| - 1];
    }
  }

  // ---------------------------------------------------------------- the check

  // The components of a path that are not empty and not ".".
  function Steps(path: string): seq<string> {
    StepsOf(Split(path, '/'))
  }

  function StepsOf(components: seq<string>): (r: seq<string>)
    ensures forall k :: k in r ==> k in components && k != "" && k != "."
  {
    if components == [] then []
    else
      var r := StepsOf(components[..|components| - 1]);
      var c := components[|components| - 1];
      assert forall k :: k in r + [c] ==> k in components;
      if c == "" || c == "." then r else r + [c]
  }

  // A rooted path with no climbing component whose real components are "models" and at least
  // one more, none of those further ones containing "..".
  predicate BelowModels(path: string) {
    && Rooted(path) && ".." !in Split(path, '/')
    && var steps := Steps(path);
    && |steps| >= 2 && steps[0] == "models"
    && forall i :: 1 <= i < |steps| ==> !DotDot(steps[i])
  }

  ghost predicate GoodEntry(entry: string) {
    exists name, path ::
      entry == name + "=" + path && '=' !in name && '=' !in path && name != "" && BelowModels(path)
  }

  // The rule for the whole value.
  ghost predicate Accepts(s: string) {
    s == "" || forall i :: 0 <= i < |Split(s, ',')| ==> GoodEntry(TrimSpace(Split(s, ',')[i]))
  }

  datatype Reason = EmptyEntry | NotOneEquals | EmptyName | EmptyPath | Traversal | NotAbsolute | NotUnderModels

  // The refused entry's position (counted from one) and the reason given for it.
  datatype Refusal = Refusal(entry: nat, reason: Reason)

  method ValidateLoraModules(s: string) returns (refusal: Option<Refusal>)
    ensures refusal.None? <==> Accepts(s)
    ensures refusal.Some? ==>
      var n, entries := refusal.value.entry, Split(s, ',');
      && 1 <= n <= |entries| && !GoodEntry(TrimSpace(entries[n - 1]))
      && (forall i :: 0 <= i < n - 1 ==> GoodEntry(TrimSpace(entries[i])))
      && (refusal.value.reason == EmptyEntry <==> TrimSpace(entries[n - 1]) == "")
      && (forall name, path :: TrimSpace(entries[n - 1]) == name + "=" + path && '=' !in name && '=' !in path ==>
            Explains(Some(refusal.value.reason), name, path))
  {
    hide Explains;
    refusal := None;
    if s == "" { return; }
    var entries := Split(s, ',');
    for i := 0 to |entries|
      invariant refusal.None?
      invariant forall k :: 0 <= k < i ==> GoodEntry(TrimSpace(entries[k]))
    {
      var reason := CheckEntry(TrimSpace(entries[i]));
      if reason.Some? { return Some(Refusal(i + 1, reason.value)); }
    }
  }

  // The reason given for an entry name=path is the first that applies.
  ghost predicate Explains(reason: Option<Reason>, name: string, path: string) {
    var components, steps := Split(path, '/'), Steps(path);
    var below := Rooted(path) && |steps| >= 2 && steps[0] == "models";
    match reason
    case None => name != "" && path != "" && BelowModels(path)
    case Some(EmptyEntry) => false
    case Some(NotOneEquals) => false
    case Some(EmptyName) => name == ""
    case Some(EmptyPath) => name != "" && path == ""
    case Some(NotAbsolute) => name != "" && path != "" && ".." !in components && path[0] != '/'
    case Some(NotUnderModels) => name != "" && path != "" && ".." !in components && path[0] == '/' && !below
    case Some(Traversal) =>
      name != "" && path != "" && (".." in components || (below && exists i :: 1 <= i < |steps| && DotDot(steps[i])))
  }

  method CheckEntry(entry: string) returns (reason: Option<Reason>)
    ensures reason.None? <==> GoodEntry(entry)
    ensures reason == Some(EmptyEntry) <==> entry == ""
    ensures reason == Some(NotOneEquals) <==> entry != "" && multiset(entry)['='] != 1
    ensures forall name, path :: entry == name + "=" + path && '=' !in name && '=' !in path ==> Explains(reason, name, path)
  {
    hide GoodEntry, Explains, DotDot, Clean, Steps, BelowModels;
    OneEquals(entry);
    CountIsMany(entry, '=');
    NoSplit(entry);
    if entry == "" { return Some(EmptyEntry); }
    if Count(entry, '=') != 1 { return Some(NotOneEquals); }
    var eq := IndexByte(entry, '=');
    var name, path := entry[..eq], entry[eq + 1..];
    SplitIsForced(entry, eq);
    GoodWhenBelow(entry, name, path);
    Reasons(name, path);
    if name == "" { return Some(EmptyName); }
    if path == "" { return Some(EmptyPath); }
    var components := Split(path, '/');
    for i := 0 to |components|
      invariant ".." !in components[..i]
    {
      if components[i] == ".." { return Some(Traversal); }
    }
    assert components[..|components|] == components;
    var cleaned := Clean(path);
    CleanedShape(path);
    if !Rooted(cleaned) { return Some(NotAbsolute); }
    if !("/models/" <= cleaned) { return Some(NotUnderModels); }
    if DotDot(cleaned[|"/models/"|..]) || ".." <= path { return Some(Traversal); }
    return None;
  }

  lemma NoSplit(entry: string)
    ensures entry == "" || multiset(entry)['='] != 1 ==>
      forall name, path :: !(entry == name + "=" + path && '=' !in name && '=' !in path)
  {
    forall name, path: string | entry == name + "=" + path && '=' !in name && '=' !in path
      ensures entry != "" && multiset(entry)['='] == 1
    {
      OneSeparator(name, path);
    }
  }

  lemma OneSeparator(name: string, path: string)
    requires '=' !in name && '=' !in path
    ensures multiset(name + "=" + path)['='] == 1
  {
    assert multiset(name + "=" + path) == multiset(name) + multiset{'='} + multiset(path);
    assert '=' !in multiset(name) && '=' !in multiset(path);
  }

  lemma GoodWhenBelow(entry: string, name: string, path: string)
    requires entry == name + "=" + path && '=' !in name && '=' !in path
    requires forall n, p :: entry == n + "=" + p && '=' !in n ==> n == name && p == path
    ensures GoodEntry(entry) <==> name != "" && BelowModels(path)
  {
    if GoodEntry(entry) {
      var n, p :| entry == n + "=" + p && '=' !in n && '=' !in p && n != "" && BelowModels(p);
    }
  }

  // Which facts about the name and the path call for which reason.
  lemma Reasons(name: string, path: string)
    ensures Explains(Some(EmptyName), name, path) <==> name == ""
    ensures Explains(Some(EmptyPath), name, path) <==> name != "" && path == ""
    ensures name != "" && path != "" && ".." in Split(path, '/') ==> Explains(Some(Traversal), name, path)
    ensures name != "" && path != "" && ".." !in Split(path, '/') && !Rooted(path) ==> Explains(Some(NotAbsolute), name, path)
    ensures name != "" && ".." !in Split(path, '/') && Rooted(path) ==>
      var steps := Steps(path);
      if !(|steps| >= 2 && steps[0] == "models") then Explains(Some(NotUnderModels), name, path)
      else if exists i :: 1 <= i < |steps| && DotDot(steps[i]) then Explains(Some(Traversal), name, path)
      else Explains(None, name, path)
    ensures BelowModels(path) <==>
      && ".." !in Split(path, '/') && Rooted(path) && |Steps(path)| >= 2 && Steps(path)[0] == "models"
      && !exists i :: 1 <= i < |Steps(path)| && DotDot(Steps(path)[i])
  {
    hide DotDot, Steps;
  }

  // Counting one '=' is the same as having a split at it, and then there is only one.
  lemma {:induction false} CountIs(s: string, c: char)
    ensures Count(s, c) == 0 <==> c !in s
  {
    if s != "" { CountIs(s[1..], c); }
  }

  lemma {:induction false} CountIsMany(s: string, c: char)
    ensures Count(s, c) == multiset(s)[c]
  {
    if s != "" {
      CountIsMany(s[1..], c);
      assert s == [s[0]] + s[1..];
    }
  }

  lemma {:induction false} CountAt(s: string, c: char, i: nat)
    requires i < |s| && s[i] == c && c !in s[..i]
    ensures Count(s, c) == 1 + Count(s[i + 1..], c)
  {
    if i > 0 {
      assert s[0] != c by { assert s[..i][0] == s[0]; }
      assert s[1..][..i - 1] == s[..i][1..];
      CountAt(s[1..], c, i - 1);
      assert s[1..][i..] == s[i + 1..];
    }
  }

  lemma SplitIsForced(entry: string, eq: nat)
    requires eq < |entry| && entry[eq] == '=' && '=' !in entry[..eq]
    ensures Count(entry, '=') == 1 <==> '=' !in entry[eq + 1..]
    ensures forall name, path :: entry == name + "=" + path && '=' !in name ==> name == entry[..eq] && path == entry[eq + 1..]
    ensures entry == entry[..eq] + "=" + entry[eq + 1..]
  {
    hide Count;
    CountAt(entry, '=', eq);
    CountIs(entry[eq + 1..], '=');
    forall name, path: string | entry == name + "=" + path && '=' !in name
      ensures name == entry[..eq] && path == entry[eq + 1..]
    {
      SplitIsThere(entry, eq, name, path);
    }
  }

  lemma SplitIsThere(entry: string, eq: nat, name: string, path: string)
    requires eq < |entry| && entry[eq] == '=' && '=' !in entry[..eq]
    requires entry == name + "=" + path && '=' !in name
    ensures name == entry[..eq] && path == entry[eq + 1..]
  {
    assert entry == entry[..eq] + ['='] + entry[eq + 1..];
    SameSplit(entry[..eq], entry[eq + 1..], name, path, '=');
  }

  lemma OneEquals(entry: string)
    ensures GoodEntry(entry) ==> Count(entry, '=') == 1
    ensures Count(entry, '=') == 1 ==> '=' in entry
  {
    CountIs(entry, '=');
    if GoodEntry(entry) {
      var name, path :| entry == name + "=" + path && '=' !in name && '=' !in path && name != "" && BelowModels(path);
      assert entry[..|name|] == name && entry[|name|] == '=' && entry[|name| + 1..] == path;
      SplitIsForced(entry, |name|);
    }
  }

  // ---------------------------------------------------------------- what cleaning yields here

  lemma {:induction false} CollapseWithoutClimbing(components: seq<string>, rooted: bool)
    requires ".." !in components
    ensures Collapse(components, rooted) == StepsOf(components)
  {
    if components != [] { CollapseWithoutClimbing(components[..|components| - 1], rooted); }
  }

  lemma {:induction false} DotDotOfJoin(parts: seq<string>)
    ensures DotDot(Join(parts, "/")) <==> exists i :: 0 <= i < |parts| && DotDot(parts[i])
  {
    if |parts| > 1 {
      DotDotOfJoin(parts[1..]);
      var p, t := parts[0], Join(parts[1..], "/");
      DotDotAcross(p, t);
      if i :| 0 <= i < |parts[1..]| && DotDot(parts[1..][i]) { assert DotDot(parts[i + 1]); }
      if i :| 0 <= i < |parts| && DotDot(parts[i]) && i > 0 { assert DotDot(parts[1..][i - 1]); }
    }
  }

  lemma DotDotAcross(p: string, t: string)
    ensures DotDot(p + "/" + t) <==> DotDot(p) || DotDot(t)
  {
    var s := p + "/" + t;
    if i :| 0 <= i < |p| - 1 && p[i] == '.' && p[i + 1] == '.' { assert s[i] == '.' && s[i + 1] == '.'; }
    if i :| 0 <= i < |t| - 1 && t[i] == '.' && t[i + 1] == '.' {
      assert s[|p| + 1 + i] == '.' && s[|p| + 1 + i + 1] == '.';
    }
    if i :| 0 <= i < |s| - 1 && s[i] == '.' && s[i + 1] == '.' {
      assert s[|p|] == '/';
      if i < |p| { assert p[i] == '.' && p[i + 1] == '.'; } else { assert t[i - |p| - 1] == '.' && t[i - |p|] == '.'; }
    }
  }

  // The tests on the cleaned text are tests on the components.
  lemma CleanedShape(path: string)
    requires ".." !in Split(path, '/')
    ensures Rooted(Clean(path)) <==> Rooted(path)
    ensures ".." <= path ==> !Rooted(path)
    ensures Rooted(path) ==>
      var steps := Steps(path);
      && ("/models/" <= Clean(path) <==> |steps| >= 2 && steps[0] == "models")
      && ("/models/" <= Clean(path) ==>
            (DotDot(Clean(path)[|"/models/"|..]) <==> exists i :: 1 <= i < |steps| && DotDot(steps[i])))
  {
    CollapseWithoutClimbing(Split(path, '/'), Rooted(path));
    var steps := Steps(path);
    if steps != [] {
      assert steps[0] in steps;
      assert Join(steps, "/")[0] == steps[0][0];
    }
    if Rooted(path) { UnderModels(steps); }
  }

  lemma UnderModels(steps: seq<string>)
    requires forall p :: p in steps ==> '/' !in p && p != ""
    ensures "/models/" <= "/" + Join(steps, "/") <==> |steps| >= 2 && steps[0] == "models"
    ensures "/models/" <= "/" + Join(steps, "/") ==>
      (DotDot(("/" + Join(steps, "/"))[|"/models/"|..]) <==> exists i :: 1 <= i < |steps| && DotDot(steps[i]))
  {
    hide DotDot, Join;
    if |steps| == 0 {
      NoSlashNoPrefix("");
    } else if |steps| == 1 {
      assert steps[0] in steps;
      NoSlashNoPrefix(steps[0]);
    } else {
      assert steps[0] in steps;
      FirstComponent(steps[0], Join(steps[1..], "/"));
      DotDotOfJoin(steps[1..]);
      SomeOfTail(steps);
    }
    JoinSteps(steps);
  }

  lemma {:induction false} JoinSteps(steps: seq<string>)
    ensures |steps| == 0 ==> Join(steps, "/") == ""
    ensures |steps| == 1 ==> Join(steps, "/") == steps[0]
    ensures |steps| >= 2 ==> "/" + Join(steps, "/") == "/" + steps[0] + "/" + Join(steps[1..], "/")
  {
  }

  lemma NoSlashNoPrefix(p: string)
    requires '/' !in p
    ensures !("/models/" <= "/" + p)
  {
    assert "/models/"[7] == '/';
  }

  lemma FirstComponent(p: string, rest: string)
    requires '/' !in p
    ensures "/models/" <= "/" + p + "/" + rest <==> p == "models"
    ensures p == "models" ==> ("/" + p + "/" + rest)[|"/models/"|..] == rest
  {
    var whole, start := "/" + p + "/" + rest, "/" + "models" + "/";
    assert start == "/models/";
    if p == "models" {
      assert whole == start + rest;
    }
    if start <= whole {
      var t := whole[|start|..];
      assert "models" + "/" + t == whole[1..] == p + "/" + rest;
      SameSplit("models", t, p, rest, '/');
    }
  }

  lemma SomeOfTail(steps: seq<string>)
    requires |steps| > 0
    ensures (exists i :: 0 <= i < |steps[1..]| && DotDot(steps[1..][i])) <==> exists i :: 1 <= i < |steps| && DotDot(steps[i])
  {
    if i :| 0 <= i < |steps[1..]| && DotDot(steps[1..][i]) { assert DotDot(steps[i + 1]); }
    if i :| 1 <= i < |steps| && DotDot(steps[i]) { assert DotDot(steps[1..][i - 1]); }
  }

  // ---------------------------------------------------------------- what acceptance gives

  lemma {:induction false} WalkOfSteps(components: seq<string>, dir: seq<string>)
    requires ".." !in components
    ensures Walk(dir, components) == dir + StepsOf(components)
  {
    if components != [] { WalkOfSteps(components[..|components| - 1], dir); }
  }

  // Every accepted path leads strictly below /models, and no step of it ever climbs.
  lemma AcceptedStaysBelowModels(s: string, i: nat, name: string, path: string, dir: seq<string>)
    requires Accepts(s) && s != "" && i < |Split(s, ',')|
    requires TrimSpace(Split(s, ',')[i]) == name + "=" + path && '=' !in name
    ensures name != "" && Rooted(path)
    ensures |Resolve(dir, path)| >= 2 && Resolve(dir, path)[0] == "models"
    ensures forall k :: k in Resolve(dir, path) ==> k != "" && k != "." && k != ".."
    ensures forall m, n :: 0 <= m <= n <= |Split(path, '/')| ==>
      Walk([], Split(path, '/')[..m]) <= Walk([], Split(path, '/')[..n])
  {
    var entry := TrimSpace(Split(s, ',')[i]);
    var a, b :| entry == a + "=" + b && '=' !in a && '=' !in b && a != "" && BelowModels(b);
    assert entry[..|name|] == name && entry[|name|] == '=';
    SplitIsForced(entry, |name|);
    assert entry[|name| + 1..] == path;
    var components := Split(path, '/');
    WalkOfSteps(components, []);
    forall m, n | 0 <= m <= n <= |components|
      ensures Walk([], components[..m]) <= Walk([], components[..n])
    {
      NeverClimbs(components, m, n);
    }
  }

  lemma {:induction false} NeverClimbs(components: seq<string>, m: nat, n: nat)
    requires ".." !in components && m <= n <= |components|
    ensures Walk([], components[..m]) <= Walk([], components[..n])
    decreases n
  {
    if m < n {
      NeverClimbs(components, m, n - 1);
      assert components[..n][..n - 1] == components[..n - 1];
    }
  }
}
