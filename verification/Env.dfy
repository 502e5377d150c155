/**
 * Environment-variable lists (operator/internal/vllm/merge.go).  MergeEnv keeps an
 * index map beside an ordered list; here it refines "the names in first-occurrence order,
 * each with its last value", and nesting calls of it changes nothing.
 */
module Env {
  import opened Wrappers
  import opened Lists
  import Order

  // `content` is everything a variable carries besides its name (Value and ValueFrom).
  datatype EnvVar<V> = EnvVar(name: string, content: V)

  // ---------------------------------------------------------------- the reference

  // The index of the first variable called `name`, or |s| when there is none.
  function FirstAt<V>(s: seq<EnvVar<V>>, name: string): (i: nat)
    ensures i <= |s|
    ensures i < |s| ==> s[i].name == name
  {
    if s == [] || s[0].name == name then 0 else 1 + FirstAt(s[1..], name)
  }

  predicate Has<V>(s: seq<EnvVar<V>>, name: string) {
    FirstAt(s, name) < |s|
  }

  lemma {:induction false} FirstAtIs<V>(s: seq<EnvVar<V>>, name: string, i: nat)
    requires i <= |s| && (i < |s| ==> s[i].name == name)
    requires forall k :: 0 <= k < i ==> s[k].name != name
    ensures FirstAt(s, name) == i
  {
    if 0 < i {
      assert s[0].name != name;
      FirstAtIs(s[1..], name, i - 1);
    }
  }

  lemma {:induction false} NotBefore<V>(s: seq<EnvVar<V>>, name: string, k: nat)
    requires k < FirstAt(s, name)
    ensures s[k].name != name
  {
    if 0 < k { NotBefore(s[1..], name, k - 1); }
  }

  lemma Present<V>(s: seq<EnvVar<V>>, k: nat)
    requires k < |s|
    ensures FirstAt(s, s[k].name) <= k
  {
    if k < FirstAt(s, s[k].name) { NotBefore(s, s[k].name, k); }
  }

  // No later variable of s is called like s[i].
  predicate IsLast<V>(s: seq<EnvVar<V>>, i: int) {
    0 <= i < |s| && forall k :: i < k < |s| ==> s[k].name != s[i].name
  }

  // `r` lists the names of `s` in first-occurrence order, each with its last value.
  ghost predicate IsMerge<V>(r: seq<EnvVar<V>>, s: seq<EnvVar<V>>) {
    && (forall i, j :: 0 <= i < j < |r| ==> FirstAt(s, r[i].name) < FirstAt(s, r[j].name))
    && (forall i :: 0 <= i < |r| ==> exists k :: IsLast(s, k) && s[k] == r[i])
    && (forall k :: 0 <= k < |s| ==> FirstAt(r, s[k].name) < |r|)
  }

  // ---------------------------------------------------------------- the computation

  // One loop step: replace in place, or append.
  function Put<V>(r: seq<EnvVar<V>>, x: EnvVar<V>): seq<EnvVar<V>> {
    var i := FirstAt(r, x.name);
    if i < |r| then r[i := x] else r + [x]
  }

  lemma FirstAtSnoc<V>(t: seq<EnvVar<V>>, x: EnvVar<V>, name: string)
    ensures FirstAt(t + [x], name) ==
            if Has(t, name) then FirstAt(t, name) else if name == x.name then |t| else |t| + 1
  {
    var i := FirstAt(t, name);
    forall k | 0 <= k < i ensures (t + [x])[k].name != name { NotBefore(t, name, k); }
    FirstAtIs(t + [x], name, if i < |t| || name == x.name then i else |t| + 1);
  }

  // Putting a variable moves no name: a new one goes to the end.
  lemma FirstAtPut<V>(r: seq<EnvVar<V>>, x: EnvVar<V>, name: string)
    ensures FirstAt(Put(r, x), name) ==
            if Has(r, name) then FirstAt(r, name) else if name == x.name then |r| else |Put(r, x)|
    ensures Has(Put(r, x), name) <==> Has(r, name) || name == x.name
  {
    var q := Put(r, x);
    if Has(r, x.name) {
      var i := FirstAt(r, name);
      forall k | 0 <= k < i ensures q[k].name != name { NotBefore(r, name, k); }
      FirstAtIs(q, name, i);
    } else {
      FirstAtSnoc(r, x, name);
    }
  }

  function Onto<V>(r: seq<EnvVar<V>>, s: seq<EnvVar<V>>): seq<EnvVar<V>> {
    if s == [] then r else Put(Onto(r, s[..|s| - 1]), s[|s| - 1])
  }

  function Merged<V>(s: seq<EnvVar<V>>): seq<EnvVar<V>> {
    Onto([], s)
  }

  // The index map of the loop: the position of every name of `r`.
  ghost predicate Indexes<V>(positions: map<string, nat>, r: seq<EnvVar<V>>) {
    && (forall n :: n in positions ==> positions[n] < |r| && positions[n] == FirstAt(r, n))
    && (forall i :: 0 <= i < |r| ==> r[i].name in positions)
  }

  lemma PutKeepsIndexes<V>(positions: map<string, nat>, r: seq<EnvVar<V>>, x: EnvVar<V>)
    requires Indexes(positions, r)
    ensures x.name in positions ==>
      positions[x.name] < |r| && Put(r, x) == r[positions[x.name] := x] && Indexes(positions, Put(r, x))
    ensures x.name !in positions ==> Put(r, x) == r + [x] && Indexes(positions[x.name := |r|], Put(r, x))
  {
    hide FirstAt;
    forall n | n in positions || n == x.name ensures Has(Put(r, x), n) { FirstAtPut(r, x, n); }
    forall n | n in positions ensures FirstAt(Put(r, x), n) == FirstAt(r, n) { FirstAtPut(r, x, n); }
    FirstAtPut(r, x, x.name);
  }

  lemma MergedStep<V>(before: seq<EnvVar<V>>, list: seq<EnvVar<V>>, i: nat)
    requires i < |list|
    ensures Merged(before + list[..i + 1]) == Put(Merged(before + list[..i]), list[i])
  {
    assert (before + list[..i + 1])[..|before| + i] == before + list[..i];
  }

  method MergeEnv<V>(lists: seq<seq<EnvVar<V>>>) returns (result: seq<EnvVar<V>>)
    ensures result == Merged(Flatten(lists))
  {
    hide FirstAt, Put, Onto, Merged;
    result := [];
    var positions: map<string, nat> := map[];
    MergedNil<V>();
    for l := 0 to |lists|
      invariant result == Merged(Flatten(lists[..l]))
      invariant Indexes(positions, result)
    {
      hide FirstAt, Put, Onto, Merged, Indexes;
      ghost var before := Flatten(lists[..l]);
      var list := lists[l];
      assert before + list[..0] == before;
      for i := 0 to |list|
        invariant result == Merged(before + list[..i])
        invariant Indexes(positions, result)
      {
        var x := list[i];
        MergedStep(before, list, i);
        PutKeepsIndexes(positions, result, x);
        if x.name in positions {
          result := result[positions[x.name] := x];
        } else {
          positions := positions[x.name := |result|];
          result := result + [x];
        }
      }
      assert list[..|list|] == list && lists[..l + 1][..l] == lists[..l];
    }
    assert lists[..|lists|] == lists;
  }

  lemma MergedNil<V>()
    ensures Merged<V>([]) == []
  {
  }

  // ---------------------------------------------------------------- the refinement

  // Merging is exactly the reference, and the reference has only one answer.
  lemma {:induction false} MergedIsMerge<V>(s: seq<EnvVar<V>>)
    ensures IsMerge(Merged(s), s)
  {
    hide FirstAt, IsMerge, Put;
    if s == [] {
      NothingIsMerged<V>();
    } else {
      var t, x := s[..|s| - 1], s[|s| - 1];
      MergedIsMerge(t);
      PutIsMerge(Merged(t), t, x);
      assert s == t + [x];
    }
  }

  lemma NothingIsMerged<V>()
    ensures IsMerge<V>([], [])
  {
  }

  lemma PutIsMerge<V>(r: seq<EnvVar<V>>, t: seq<EnvVar<V>>, x: EnvVar<V>)
    requires IsMerge(r, t)
    ensures IsMerge(Put(r, x), t + [x])
  {
    hide FirstAt;
    var s, q := t + [x], Put(r, x);
    assert q[FirstAt(r, x.name)] == x;
    forall i | 0 <= i < |q| ensures exists k :: IsLast(s, k) && s[k] == q[i] {
      if q[i] == x { assert IsLast(s, |t|) && s[|t|] == x; } else { PutLast(r, t, x, i); }
    }
    forall i, j | 0 <= i < j < |q| ensures FirstAt(s, q[i].name) < FirstAt(s, q[j].name) { PutOrdered(r, t, x, i, j); }
    forall k | 0 <= k < |s| ensures FirstAt(q, s[k].name) < |q| { FirstAtPut(r, x, s[k].name); }
  }

  lemma PutLast<V>(r: seq<EnvVar<V>>, t: seq<EnvVar<V>>, x: EnvVar<V>, i: nat)
    requires IsMerge(r, t) && i < |Put(r, x)| && Put(r, x)[i] != x
    ensures exists k :: IsLast(t + [x], k) && (t + [x])[k] == Put(r, x)[i]
  {
    hide FirstAt;
    var k :| IsLast(t, k) && t[k] == r[i];
    if r[i].name == x.name { OnlyFirst(r, t, x.name, i); }
    StaysLast(t, x, k);
    assert (t + [x])[k] == r[i];
  }

  lemma StaysLast<V>(t: seq<EnvVar<V>>, x: EnvVar<V>, k: nat)
    requires IsLast(t, k) && t[k].name != x.name
    ensures IsLast(t + [x], k)
  {
  }

  lemma PutOrdered<V>(r: seq<EnvVar<V>>, t: seq<EnvVar<V>>, x: EnvVar<V>, i: nat, j: nat)
    requires IsMerge(r, t) && i < j < |Put(r, x)|
    ensures FirstAt(t + [x], Put(r, x)[i].name) < FirstAt(t + [x], Put(r, x)[j].name)
  {
    hide FirstAt;
    var q := Put(r, x);
    assert q[i].name == r[i].name;
    FirstAtSnoc(t, x, q[i].name);
    FirstAtSnoc(t, x, q[j].name);
    var k :| IsLast(t, k) && t[k] == r[i];
    Present(t, k);
    if j < |r| {
      assert q[j].name == r[j].name;
      var l :| IsLast(t, l) && t[l] == r[j];
      Present(t, l);
    }
  }

  // In a merge every name stands once.
  lemma OnlyFirst<V>(r: seq<EnvVar<V>>, t: seq<EnvVar<V>>, name: string, i: nat)
    requires IsMerge(r, t) && i < |r| && r[i].name == name
    ensures FirstAt(r, name) == i
  {
    Present(r, i);
  }

  function Places<V>(a: seq<EnvVar<V>>, s: seq<EnvVar<V>>): seq<int> {
    seq(|a|, i requires 0 <= i < |a| => FirstAt(s, a[i].name))
  }

  lemma SameNames<V>(a: seq<EnvVar<V>>, b: seq<EnvVar<V>>, s: seq<EnvVar<V>>, i: nat)
    requires IsMerge(a, s) && IsMerge(b, s) && i < |a|
    ensures FirstAt(s, a[i].name) < |s|
    ensures FirstAt(s, a[i].name) in Places(b, s)
  {
    hide FirstAt;
    var k :| IsLast(s, k) && s[k] == a[i];
    Present(s, k);
    var j := FirstAt(b, s[k].name);
    assert b[j].name == a[i].name && Places(b, s)[j] == FirstAt(s, a[i].name);
  }

  lemma MergeIsUnique<V>(a: seq<EnvVar<V>>, b: seq<EnvVar<V>>, s: seq<EnvVar<V>>)
    requires IsMerge(a, s) && IsMerge(b, s)
    ensures a == b
  {
    hide FirstAt;
    forall i | 0 <= i < |a| ensures Places(a, s)[i] in Places(b, s) { SameNames(a, b, s, i); }
    forall i | 0 <= i < |b| ensures Places(b, s)[i] in Places(a, s) { SameNames(b, a, s, i); }
    Order.IncreasingIsUnique(Places(a, s), Places(b, s), (x, y) => x < y);
    assert |a| == |Places(a, s)| == |b|;
    forall i | 0 <= i < |a| ensures a[i] == b[i] {
      SameNames(a, b, s, i);
      SameNames(b, a, s, i);
      assert Places(a, s)[i] == Places(b, s)[i];
      assert s[FirstAt(s, a[i].name)].name == b[i].name;
      var k :| IsLast(s, k) && s[k] == a[i];
      var l :| IsLast(s, l) && s[l] == b[i];
    }
  }

  // ---------------------------------------------------------------- nesting

  lemma {:induction false} OntoConcat<V>(r: seq<EnvVar<V>>, a: seq<EnvVar<V>>, b: seq<EnvVar<V>>)
    ensures Onto(r, a + b) == Onto(Onto(r, a), b)
  {
    if b == [] {
      assert a + b == a;
    } else {
      var c := b[..|b| - 1];
      OntoConcat(r, a, c);
      assert (a + b)[..|a + b| - 1] == a + c;
    }
  }

  // A later value for a name already present may be put in sooner.
  lemma {:induction false} PutEarlier<V>(r: seq<EnvVar<V>>, x: EnvVar<V>, s: seq<EnvVar<V>>)
    requires Has(r, x.name) && !Has(s, x.name)
    ensures Put(Onto(r, s), x) == Onto(Put(r, x), s)
    ensures Has(Onto(r, s), x.name)
  {
    if s != [] {
      var t, z := s[..|s| - 1], s[|s| - 1];
      assert s == t + [z];
      FirstAtSnoc(t, z, x.name);
      PutEarlier(r, x, t);
      PutsCommute(Onto(r, t), x, z);
    }
  }

  lemma PutsCommute<V>(w: seq<EnvVar<V>>, x: EnvVar<V>, z: EnvVar<V>)
    requires Has(w, x.name) && z.name != x.name
    ensures Put(Put(w, z), x) == Put(Put(w, x), z)
    ensures Has(Put(w, z), x.name)
  {
    hide FirstAt;
    FirstAtPut(w, z, x.name);
    FirstAtPut(w, x, z.name);
  }

  predicate Distinct<V>(s: seq<EnvVar<V>>) {
    forall i, j :: 0 <= i < j < |s| ==> s[i].name != s[j].name
  }

  lemma OntoPut<V>(r: seq<EnvVar<V>>, m: seq<EnvVar<V>>, x: EnvVar<V>)
    requires Distinct(m)
    ensures Onto(r, Put(m, x)) == Put(Onto(r, m), x)
    ensures Distinct(Put(m, x))
  {
    hide FirstAt;
    var i := FirstAt(m, x.name);
    if i < |m| {
      var p, y, q := m[..i], m[i], m[i + 1..];
      forall k | 0 <= k < |q| ensures q[k].name != x.name { assert q[k] == m[i + 1 + k]; }
      FirstAtIs(q, x.name, |q|);
      assert m == p + [y] + q && Put(m, x) == p + [x] + q;
      OntoReplaced(r, p, y, x, q);
    } else {
      assert Put(m, x)[..|m|] == m;
      forall k | 0 <= k < |m| ensures m[k].name != x.name { NotBefore(m, x.name, k); }
    }
  }

  lemma OntoReplaced<V>(r: seq<EnvVar<V>>, p: seq<EnvVar<V>>, y: EnvVar<V>, x: EnvVar<V>, q: seq<EnvVar<V>>)
    requires y.name == x.name && !Has(q, x.name)
    ensures Onto(r, p + [x] + q) == Put(Onto(r, p + [y] + q), x)
  {
    hide FirstAt;
    var w := Onto(r, p);
    OntoConcat(r, p + [y], q);
    OntoConcat(r, p + [x], q);
    assert (p + [y])[..|p|] == p && (p + [x])[..|p|] == p;
    assert Onto(r, p + [y]) == Put(w, y) && Onto(r, p + [x]) == Put(w, x);
    FirstAtPut(w, y, x.name);
    PutEarlier(Put(w, y), x, q);
    assert Put(Put(w, y), x) == Put(w, x);
  }

  lemma {:induction false} OntoMerged<V>(r: seq<EnvVar<V>>, s: seq<EnvVar<V>>)
    ensures Onto(r, Merged(s)) == Onto(r, s)
    ensures Distinct(Merged(s))
  {
    if s != [] {
      var t := s[..|s| - 1];
      OntoMerged(r, t);
      OntoPut(r, Merged(t), s[|s| - 1]);
    }
  }

  // Merging merged lists is merging the lists.
  lemma NestingDoesNotMatter<V>(a: seq<EnvVar<V>>, b: seq<EnvVar<V>>)
    ensures Merged(Merged(a) + Merged(b)) == Merged(a + b)
    ensures Merged(Merged(a) + b) == Merged(a + b)
    ensures Merged(a + Merged(b)) == Merged(a + b)
    ensures Merged(Merged(a)) == Merged(a)
  {
    OntoConcat([], Merged(a), Merged(b));
    OntoConcat([], Merged(a), b);
    OntoConcat([], a, Merged(b));
    OntoConcat([], a, b);
    OntoMerged(Onto([], a), b);
    OntoMerged([], a);
  }

  // The container's environment, computed as the resolvers and BuildDeployment nest the calls.
  method ContainerEnv<V>(defaults: seq<EnvVar<V>>, preset: Option<seq<EnvVar<V>>>, instance: seq<EnvVar<V>>)
    returns (env: seq<EnvVar<V>>)
    ensures env == Merged(defaults + (if preset.Some? then preset.value else []) + instance)
    ensures IsMerge(env, defaults + (if preset.Some? then preset.value else []) + instance)
  {
    hide FirstAt, Put, Onto, Merged, IsMerge;
    env := [];
    if preset.Some? { env := MergeEnv([preset.value]); }
    env := MergeEnv([env, instance]);
    env := MergeEnv([defaults, env]);
    var p := if preset.Some? then preset.value else [];
    FlattenOne(p);
    FlattenTwo(Merged(p), instance);
    FlattenTwo(defaults, Merged(Merged(p) + instance));
    MergedNil<V>();
    NestingDoesNotMatter(p, instance);
    NestingDoesNotMatter(defaults, p + instance);
    assert defaults + (p + instance) == defaults + p + instance;
    MergedIsMerge(defaults + p + instance);
  }
}
