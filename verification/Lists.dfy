// Lists of lists.
module Lists {
  function Flatten<T>(lists: seq<seq<T>>): seq<T> {
    if lists == [] then [] else Flatten(lists[..|lists| - 1]) + lists[|lists| - 1]
  }

  lemma FlattenOne<T>(a: seq<T>)
    ensures Flatten([a]) == a
  {
    assert [a][..0] == [];
  }

  lemma FlattenTwo<T>(a: seq<T>, b: seq<T>)
    ensures Flatten([a, b]) == a + b
  {
    FlattenOne(a);
    assert [a, b][..1] == [a];
  }

  // `parts` are the words that some of the items have, in the order of the items, and `from` says which: all
  // that have any.
  ghost predicate Gathered<T(!new)>(items: seq<T>, has: (T, string) -> bool, from: seq<nat>, parts: seq<string>) {
    && |parts| == |from|
    && (forall i, j :: 0 <= i < j < |from| ==> from[i] < from[j])
    && (forall i :: 0 <= i < |from| ==> from[i] < |items| && has(items[from[i]], parts[i]))
    && (forall k, words :: 0 <= k < |items| && has(items[k], words) ==> k in from)
  }

  lemma GatherNone<T(!new)>(items: seq<T>, has: (T, string) -> bool, from: seq<nat>, parts: seq<string>, item: T)
    requires Gathered(items, has, from, parts) && forall words :: !has(item, words)
    ensures Gathered(items + [item], has, from, parts)
  {
  }

  lemma GatherOne<T(!new)>(
      items: seq<T>, has: (T, string) -> bool, from: seq<nat>, parts: seq<string>, item: T, words: string)
    requires Gathered(items, has, from, parts) && has(item, words)
    ensures Gathered(items + [item], has, from + [|items|], parts + [words])
  {
    var all, f := items + [item], from + [|items|];
    forall k, w | 0 <= k < |all| && has(all[k], w) ensures k in f {
      if k == |items| { assert f[|from|] == k; } else { assert has(items[k], w) && k in from; }
    }
  }

  lemma NothingGathered<T(!new)>(has: (T, string) -> bool)
    ensures Gathered([], has, [], [])
  {
  }
}
