/**
 * diffValue (operator/internal/compatibility/compatibility.go): the recursive comparison of
 * two decoded documents.  Positions are structural paths, relative to where the comparison starts.
 */
module SchemaDiff {
  import opened Wrappers
  import opened Json
  import Order

  datatype Difference = Difference(path: seq<string>, live: Json, generated: Json)

  // ---------------------------------------------------------------- the comparison

  function Under(path: seq<string>, ds: seq<Difference>): (r: seq<Difference>)
    ensures |r| == |ds|
  {
    seq(|ds|, i requires 0 <= i < |ds| => ds[i].(path := path + ds[i].path))
  }

  ghost function Diff(a: Json, b: Json): seq<Difference>
    decreases a, 1, 0
  {
    if a == b then []
    else if a.Object? && b.Object? then DiffNames(a, b, Order.SortedNames(a.members.Keys + b.members.Keys))
    else [Difference([], a, b)]
  }

  ghost function DiffNames(a: Json, b: Json, names: seq<string>): seq<Difference>
    requires a.Object? && b.Object?
    decreases a, 0, |names|
  {
    if names == [] then []
    else
      var k := names[|names| - 1];
      DiffNames(a, b, names[..|names| - 1]) + Under([k], DiffMember(a, b, k))
  }

  // A member on one side only is one difference, whose other side is nil.
  ghost function DiffMember(a: Json, b: Json, k: string): seq<Difference>
    requires a.Object? && b.Object?
    decreases a, 0, 0
  {
    if k !in a.members || k !in b.members then
      if k in a.members || k in b.members then [Difference([], a.Member(k), b.Member(k))] else []
    else Diff(a.members[k], b.members[k])
  }

  // The recursive procedure, appending to what it was given.
  method DiffValue(path: seq<string>, a: Json, b: Json, before: seq<Difference>) returns (out: seq<Difference>)
    ensures out == before + Under(path, Diff(a, b))
    decreases a
  {
    hide Under, Diff, DiffNames, DiffMember, Order.SortedNames, Order.Sort;
    out := before;
    Pieces(path, a, b);
    if a == b {
      return;
    }
    if a.Object? && b.Object? {
      var names := ListNames(a.members.Keys + b.members.Keys);
      names := Order.Sort(names, Order.Itself);
      assert names[..0] == [];
      for i := 0 to |names|
        invariant out == before + Under(path, DiffNames(a, b, names[..i]))
      {
        var k := names[i];
        assert k in names;
        var child := path + [k];
        MemberPieces(child, a, b, k);
        NextName(path, a, b, names, i);
        if k !in a.members {
          out := out + [Difference(child, Null, b.members[k])];
        } else if k !in b.members {
          out := out + [Difference(child, a.members[k], Null)];
        } else {
          out := DiffValue(child, a.members[k], b.members[k], out);
        }
      }
      assert names[..|names|] == names;
      return;
    }
    out := out + [Difference(path, a, b)];
  }

  lemma UnderNothing(ds: seq<Difference>)
    ensures Under([], ds) == ds
  {
    forall i | 0 <= i < |ds| ensures [] + ds[i].path == ds[i].path {}
  }

  lemma Pieces(path: seq<string>, a: Json, b: Json)
    ensures Under(path, []) == []
    ensures Under(path, [Difference([], a, b)]) == [Difference(path, a, b)]
    ensures a == b ==> Diff(a, b) == []
    ensures a != b && !(a.Object? && b.Object?) ==> Diff(a, b) == [Difference([], a, b)]
    ensures a != b && a.Object? && b.Object? ==>
      Diff(a, b) == DiffNames(a, b, Order.SortedNames(a.members.Keys + b.members.Keys)) && DiffNames(a, b, []) == []
  {
    assert path + [] == path;
  }

  lemma MemberPieces(child: seq<string>, a: Json, b: Json, k: string)
    requires a.Object? && b.Object? && k in a.members.Keys + b.members.Keys
    ensures k !in a.members ==> Under(child, DiffMember(a, b, k)) == [Difference(child, Null, b.members[k])]
    ensures k !in b.members ==> Under(child, DiffMember(a, b, k)) == [Difference(child, a.members[k], Null)]
    ensures k in a.members && k in b.members ==> DiffMember(a, b, k) == Diff(a.members[k], b.members[k])
  {
    assert child + [] == child;
  }

  lemma NextName(path: seq<string>, a: Json, b: Json, names: seq<string>, i: nat)
    requires a.Object? && b.Object? && i < |names|
    ensures Under(path, DiffNames(a, b, names[..i + 1])) ==
            Under(path, DiffNames(a, b, names[..i])) + Under(path + [names[i]], DiffMember(a, b, names[i]))
  {
    hide Under, DiffMember;
    assert names[..i + 1][..i] == names[..i];
    UnderConcat(path, DiffNames(a, b, names[..i]), Under([names[i]], DiffMember(a, b, names[i])));
    UnderUnder(path, names[i], DiffMember(a, b, names[i]));
  }

  // The keys of a map in some order, then sorted.
  method ListNames(keys: set<string>) returns (names: seq<string>)
    ensures Order.Sort(names, Order.Itself) == Order.SortedNames(keys)
  {
    names := [];
    var left := keys;
    while left != {}
      invariant left <= keys
      invariant forall x :: x in names <==> x in keys && x !in left
      invariant forall i, j :: 0 <= i < j < |names| ==> names[i] != names[j]
      decreases |left|
    {
      var k :| k in left;
      left := left - {k};
      names := names + [k];
    }
    Order.SortOfEnumeration(names, keys);
  }

  lemma UnderConcat(path: seq<string>, a: seq<Difference>, b: seq<Difference>)
    ensures Under(path, a + b) == Under(path, a) + Under(path, b)
  {
  }

  lemma UnderUnder(path: seq<string>, k: string, ds: seq<Difference>)
    ensures Under(path, Under([k], ds)) == Under(path + [k], ds)
  {
    forall i | 0 <= i < |ds| ensures path + ([k] + ds[i].path) == path + [k] + ds[i].path {}
  }

  // ---------------------------------------------------------------- no difference

  lemma {:induction false} NamesInside(a: Json, b: Json, names: seq<string>, k: string)
    requires a.Object? && b.Object? && k in names && DiffMember(a, b, k) != []
    ensures DiffNames(a, b, names) != []
  {
    var last := names[|names| - 1];
    if k != last { NamesInside(a, b, names[..|names| - 1], k); }
  }

  // The list is empty exactly when the documents are equal.
  lemma {:induction false} EmptyMeansEqual(a: Json, b: Json)
    ensures Diff(a, b) == [] <==> a == b
  {
    if a != b && a.Object? && b.Object? {
      var k :| k in a.members.Keys + b.members.Keys && !(k in a.members && k in b.members && a.members[k] == b.members[k]);
      if k in a.members && k in b.members { EmptyMeansEqual(a.members[k], b.members[k]); }
      NamesInside(a, b, Order.SortedNames(a.members.Keys + b.members.Keys), k);
    }
  }

  // ---------------------------------------------------------------- where the differences are

  predicate Apart(p: seq<string>, q: seq<string>) {
    !(p <= q) && !(q <= p)
  }

  // No position is reported twice and none lies under another.
  predicate Antichain(ds: seq<Difference>) {
    forall i, j :: 0 <= i < j < |ds| ==> Apart(ds[i].path, ds[j].path)
  }

  lemma {:induction false} DiffIsAntichain(a: Json, b: Json)
    ensures Antichain(Diff(a, b))
    decreases a, 1, 0
  {
    if a != b && a.Object? && b.Object? {
      NamesAreAntichain(a, b, Order.SortedNames(a.members.Keys + b.members.Keys));
    }
  }

  lemma {:induction false} NamesAreAntichain(a: Json, b: Json, names: seq<string>)
    requires a.Object? && b.Object? && Order.Increasing(names, Order.Less)
    ensures Antichain(DiffNames(a, b, names))
    ensures forall d :: d in DiffNames(a, b, names) ==> d.path != [] && d.path[0] in names
    decreases a, 0, |names|
  {
    if names != [] {
      var k, rest := names[|names| - 1], names[..|names| - 1];
      NamesAreAntichain(a, b, rest);
      if k in a.members && k in b.members { DiffIsAntichain(a.members[k], b.members[k]); }
      assert k !in rest by { forall i | 0 <= i < |rest| ensures rest[i] != k { Order.LessIsIrreflexive(k); } }
      UnderApart(k, DiffMember(a, b, k));
      var first, last := DiffNames(a, b, rest), Under([k], DiffMember(a, b, k));
      forall i, j | 0 <= i < |first| && 0 <= j < |last| ensures Apart(first[i].path, last[j].path) {
        assert first[i] in first && first[i].path[0] != last[j].path[0];
      }
    }
  }

  lemma UnderApart(k: string, ds: seq<Difference>)
    requires Antichain(ds)
    ensures Antichain(Under([k], ds))
  {
    forall i, j | 0 <= i < j < |ds| ensures Apart([k] + ds[i].path, [k] + ds[j].path) {
      var p, q := ds[i].path, ds[j].path;
      assert p == ([k] + p)[1..] && q == ([k] + q)[1..];
    }
  }

  // ---------------------------------------------------------------- swapping the sides

  function Swapped(ds: seq<Difference>): seq<Difference> {
    seq(|ds|, i requires 0 <= i < |ds| => Difference(ds[i].path, ds[i].generated, ds[i].live))
  }

  lemma {:induction false} SwapSwaps(a: Json, b: Json)
    ensures Diff(b, a) == Swapped(Diff(a, b))
    decreases a, 1, 0
  {
    if a != b && a.Object? && b.Object? {
      assert a.members.Keys + b.members.Keys == b.members.Keys + a.members.Keys;
      NamesSwap(a, b, Order.SortedNames(a.members.Keys + b.members.Keys));
    }
  }

  lemma {:induction false} NamesSwap(a: Json, b: Json, names: seq<string>)
    requires a.Object? && b.Object?
    ensures DiffNames(b, a, names) == Swapped(DiffNames(a, b, names))
    decreases a, 0, |names|
  {
    if names != [] {
      var k, rest := names[|names| - 1], names[..|names| - 1];
      NamesSwap(a, b, rest);
      if k in a.members && k in b.members { SwapSwaps(a.members[k], b.members[k]); }
      assert DiffMember(b, a, k) == Swapped(DiffMember(a, b, k));
      assert Under([k], Swapped(DiffMember(a, b, k))) == Swapped(Under([k], DiffMember(a, b, k)));
    }
  }

  // ---------------------------------------------------------------- replaying

  // Put `value` at a path; nil removes what is there.
  function Patch(v: Option<Json>, path: seq<string>, value: Json): Option<Json>
    decreases path
  {
    if path == [] then if value == Null then None else Some(value)
    else if v.None? || !v.value.Object? then v
    else Some(Object(Replace(v.value.members, path[0], Patch(Get(v.value.members, path[0]), path[1..], value))))
  }

  function Get(members: map<string, Json>, k: string): Option<Json> {
    if k in members then Some(members[k]) else None
  }

  function Replace(members: map<string, Json>, k: string, child: Option<Json>): map<string, Json> {
    if child.None? then members - {k} else members[k := child.value]
  }

  function Replay(v: Option<Json>, ds: seq<Difference>): Option<Json> {
    if ds == [] then v
    else
      var d := ds[|ds| - 1];
      Patch(Replay(v, ds[..|ds| - 1]), d.path, d.generated)
  }

  lemma {:induction false} ReplayConcat(v: Option<Json>, p: seq<Difference>, q: seq<Difference>)
    ensures Replay(v, p + q) == Replay(Replay(v, p), q)
  {
    if q == [] {
      assert p + q == p;
    } else {
      ReplayConcat(v, p, q[..|q| - 1]);
      assert (p + q)[..|p + q| - 1] == p + q[..|q| - 1];
    }
  }

  // Differences under one member change that member alone.
  lemma {:induction false} ReplayUnder(members: map<string, Json>, k: string, ds: seq<Difference>)
    ensures Replay(Some(Object(members)), Under([k], ds)) ==
            Some(Object(Replace(members, k, Replay(Get(members, k), ds))))
  {
    var us := Under([k], ds);
    if ds == [] {
      assert Replace(members, k, Get(members, k)) == members;
    } else {
      var d, rest := ds[|ds| - 1], ds[..|ds| - 1];
      assert us[..|us| - 1] == Under([k], rest);
      ReplayUnder(members, k, rest);
      var child := Replay(Get(members, k), rest);
      var now := Replace(members, k, child);
      assert Get(now, k) == child;
      assert ([k] + d.path)[1..] == d.path;
      var next := Patch(child, d.path, d.generated);
      assert Replace(now, k, next) == Replace(members, k, next);
    }
  }

  // Wherever the generated document holds a null, the live one holds it too.
  predicate NullsAgree(a: Option<Json>, b: Json)
    decreases b
  {
    a == Some(b) ||
    (b != Null &&
     (a.Some? && a.value.Object? && b.Object? ==> forall k :: k in b.members ==> NullsAgree(Get(a.value.members, k), b.members[k])))
  }

  // One name after another, each member becomes what its own differences make of it.
  lemma {:induction false} ReplayNames(a: Json, b: Json, names: seq<string>) returns (members: map<string, Json>)
    requires a.Object? && b.Object? && Order.Increasing(names, Order.Less)
    ensures Replay(Some(a), DiffNames(a, b, names)) == Some(Object(members))
    ensures forall k ::
      Get(members, k) == (if k in names then Replay(Get(a.members, k), DiffMember(a, b, k)) else Get(a.members, k))
  {
    hide DiffMember, Under, Replay;
    if names == [] {
      members := a.members;
      ReplayNothing(Some(a));
    } else {
      var last, rest := names[|names| - 1], names[..|names| - 1];
      var before := ReplayNames(a, b, rest);
      assert last !in rest by { forall i | 0 <= i < |rest| ensures rest[i] != last { Order.LessIsIrreflexive(last); } }
      var ds := DiffMember(a, b, last);
      ReplayConcat(Some(a), DiffNames(a, b, rest), Under([last], ds));
      ReplayUnder(before, last, ds);
      members := Replace(before, last, Replay(Get(before, last), ds));
      assert forall k :: k in names <==> k in rest || k == last;
    }
  }

  lemma ReplayNothing(v: Option<Json>)
    ensures Replay(v, []) == v
  {
  }

  lemma ReplayOne(v: Option<Json>, live: Json, generated: Json)
    ensures Replay(v, [Difference([], live, generated)]) == if generated == Null then None else Some(generated)
  {
    assert [Difference([], live, generated)][..0] == [];
  }

  // Replaying the differences on the live document gives the generated one, up to nulls that only
  // the generated one holds: nil stands for a null and for a missing value alike.
  lemma {:induction false} ReplayGivesGenerated(a: Json, b: Json)
    ensures Replay(Some(a), Diff(a, b)) == Some(b) <==> NullsAgree(Some(a), b)
    decreases a, b, 1
  {
    hide Replay;
    if a == b {
      ReplayNothing(Some(a));
    } else if a.Object? && b.Object? {
      var names := Order.SortedNames(a.members.Keys + b.members.Keys);
      var members := ReplayNames(a, b, names);
      forall k ensures Get(members, k) == Get(b.members, k) <==> k !in b.members || NullsAgree(Get(a.members, k), b.members[k]) {
        ReplayMember(a, b, k);
      }
      assert members == b.members <==> forall k :: Get(members, k) == Get(b.members, k) by { SameMembers(members, b.members); }
    } else {
      ReplayOne(Some(a), a, b);
    }
  }

  lemma ReplayMember(a: Json, b: Json, k: string)
    requires a.Object? && b.Object?
    ensures Replay(Get(a.members, k), DiffMember(a, b, k)) == Get(b.members, k) <==>
            k !in b.members || NullsAgree(Get(a.members, k), b.members[k])
    decreases a, b, 0
  {
    hide Replay;
    if k in a.members && k in b.members {
      ReplayGivesGenerated(a.members[k], b.members[k]);
    } else if k in a.members || k in b.members {
      ReplayOne(Get(a.members, k), a.Member(k), b.Member(k));
    } else {
      ReplayNothing(None);
    }
  }

  lemma SameMembers(p: map<string, Json>, q: map<string, Json>)
    ensures p == q <==> forall k :: Get(p, k) == Get(q, k)
  {
    if forall k :: Get(p, k) == Get(q, k) {
      forall k ensures k in p <==> k in q { assert Get(p, k) == Get(q, k); }
      forall k | k in p ensures p[k] == q[k] { assert Get(p, k) == Get(q, k); }
    }
  }

  // A null that only the generated document holds is reported, but as nil on both sides.
  lemma ANewNullIsNotReplayed()
    ensures var a, b := Object(map[]), Object(map["default" := Null]);
      && Diff(a, b) == [Difference(["default"], Null, Null)]
      && Replay(Some(a), Diff(a, b)) != Some(b)
  {
    var a, b := Object(map[]), Object(map["default" := Null]);
    OnlyName(a, b, "default");
    ReplayGivesGenerated(a, b);
    assert !NullsAgree(Get(a.members, "default"), b.members["default"]);
  }

  lemma {:induction false} OnlyName(a: Json, b: Json, k: string)
    requires a == Object(map[]) && b.Object? && b.members.Keys == {k}
    ensures Diff(a, b) == [Difference([k], Null, b.members[k])]
  {
    hide Order.SortedNames, DiffNames, DiffMember, Under;
    assert k in b.members.Keys && a != b;
    Order.LessIsStrict();
    Order.IncreasingIsUnique(Order.SortedNames({k}), [k], Order.Less);
    assert a.members.Keys + b.members.Keys == {k};
    LastName(a, b, k);
    Pieces([k], a, b);
    MemberPieces([k], a, b, k);
  }

  lemma LastName(a: Json, b: Json, k: string)
    requires a.Object? && b.Object?
    ensures DiffNames(a, b, [k]) == Under([k], DiffMember(a, b, k))
  {
    assert [k][..0] == [];
  }
}
