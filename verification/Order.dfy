// Ordering: the order of strings, sorting, and the fact that a sorted list is determined by
// its elements.
module Order {
  // ---------------------------------------------------------------- strict lists

  predicate Increasing<T>(s: seq<T>, less: (T, T) -> bool) {
    forall i, j :: 0 <= i < j < |s| ==> less(s[i], s[j])
  }

  ghost predicate StrictOrder<T(!new)>(less: (T, T) -> bool) {
    && (forall x :: !less(x, x))
    && (forall x, y, z :: less(x, y) && less(y, z) ==> less(x, z))
  }

  // Two strictly increasing lists with the same elements are the same list.
  lemma {:induction false} IncreasingIsUnique<T(!new)>(a: seq<T>, b: seq<T>, less: (T, T) -> bool)
    requires StrictOrder(less) && Increasing(a, less) && Increasing(b, less)
    requires forall x :: x in a <==> x in b
    ensures a == b
  {
    assert a != [] ==> a[0] in a;
    assert b != [] ==> b[0] in b;
    if a != [] && b != [] {
      assert a[0] == b[0];
      forall x ensures x in a[1..] <==> x in b[1..] {
        assert x in a[1..] <==> x in a && x != a[0] by {
          if x in a && x != a[0] { var i :| 0 <= i < |a| && a[i] == x; assert a[1..][i - 1] == x; }
        }
        assert x in b[1..] <==> x in b && x != b[0] by {
          if x in b && x != b[0] { var i :| 0 <= i < |b| && b[i] == x; assert b[1..][i - 1] == x; }
        }
      }
      IncreasingIsUnique(a[1..], b[1..], less);
      assert a == [a[0]] + a[1..] && b == [b[0]] + b[1..];
    }
  }

  // ---------------------------------------------------------------- the order of strings

  // Go compares strings byte by byte, which for valid UTF-8 is character by character.
  predicate Less(a: string, b: string) {
    b != "" && (a == "" || a[0] < b[0] || (a[0] == b[0] && Less(a[1..], b[1..])))
  }

  lemma {:induction false} LessIsTransitive(a: string, b: string, c: string)
    requires Less(a, b) && Less(b, c)
    ensures Less(a, c)
  {
    if a != "" && a[0] == b[0] && b[0] == c[0] { LessIsTransitive(a[1..], b[1..], c[1..]); }
  }

  lemma {:induction false} LessIsIrreflexive(a: string)
    ensures !Less(a, a)
  {
    if a != "" { LessIsIrreflexive(a[1..]); }
  }

  lemma {:induction false} LessIsTotal(a: string, b: string)
    ensures a == b || Less(a, b) || Less(b, a)
  {
    if a != "" && b != "" && a[0] == b[0] {
      LessIsTotal(a[1..], b[1..]);
      assert a == [a[0]] + a[1..] && b == [b[0]] + b[1..];
    }
  }

  lemma LessIsStrict()
    ensures StrictOrder(Less)
  {
    forall x ensures !Less(x, x) { LessIsIrreflexive(x); }
    forall x, y, z | Less(x, y) && Less(y, z) ensures Less(x, z) { LessIsTransitive(x, y, z); }
  }

  // Where two strings first differ the smaller character decides, and a proper prefix comes first.
  lemma {:induction false} FirstDifferenceDecides(p: string, c: char, s: string, d: char, t: string)
    requires c != d
    ensures Less(p + [c] + s, p + [d] + t) <==> c < d
  {
    if p != "" {
      FirstDifferenceDecides(p[1..], c, s, d, t);
      assert (p + [c] + s)[1..] == p[1..] + [c] + s && (p + [d] + t)[1..] == p[1..] + [d] + t;
    }
  }

  lemma {:induction false} PrefixIsLess(p: string, s: string)
    ensures Less(p, p + s) <==> s != ""
    ensures !Less(p + s, p)
  {
    if p == "" {
      assert p + s == s;
    } else {
      PrefixIsLess(p[1..], s);
      assert (p + s)[1..] == p[1..] + s;
    }
  }

  predicate AtMost(a: string, b: string) {
    a == b || Less(a, b)
  }

  // ---------------------------------------------------------------- sorting by a text

  predicate Sorted<T>(s: seq<T>, text: T -> string) {
    forall i, j :: 0 <= i < j < |s| ==> AtMost(text(s[i]), text(s[j]))
  }

  function Insert<T>(x: T, s: seq<T>, text: T -> string): seq<T> {
    if s == [] || AtMost(text(x), text(s[0])) then [x] + s else [s[0]] + Insert(x, s[1..], text)
  }

  // sort.Strings and sort.Slice with "text(s[i]) < text(s[j])".
  function Sort<T>(s: seq<T>, text: T -> string): seq<T> {
    if s == [] then [] else Insert(s[|s| - 1], Sort(s[..|s| - 1], text), text)
  }

  lemma {:induction false} InsertSorts<T>(x: T, s: seq<T>, text: T -> string)
    requires Sorted(s, text)
    ensures Sorted(Insert(x, s, text), text)
    ensures multiset(Insert(x, s, text)) == multiset{x} + multiset(s)
  {
    var r := Insert(x, s, text);
    if s == [] {
    } else if AtMost(text(x), text(s[0])) {
      forall j | 0 <= j < |s| ensures AtMost(text(x), text(s[j])) {
        if j > 0 && text(x) != text(s[0]) && text(s[0]) != text(s[j]) {
          LessIsTransitive(text(x), text(s[0]), text(s[j]));
        }
      }
    } else {
      var t := Insert(x, s[1..], text);
      InsertSorts(x, s[1..], text);
      assert s == [s[0]] + s[1..];
      LessIsTotal(text(x), text(s[0]));
      forall j | 0 <= j < |t| ensures AtMost(text(s[0]), text(t[j])) {
        assert t[j] in multiset(t);
        if t[j] != x { assert t[j] in multiset(s[1..]); }
      }
    }
  }

  lemma {:induction false} SortSorts<T>(s: seq<T>, text: T -> string)
    ensures Sorted(Sort(s, text), text)
    ensures multiset(Sort(s, text)) == multiset(s)
  {
    hide Sorted, Insert, AtMost;
    NothingIsSorted(text);
    if s != [] {
      SortSorts(s[..|s| - 1], text);
      InsertSorts(s[|s| - 1], Sort(s[..|s| - 1], text), text);
      assert s == s[..|s| - 1] + [s[|s| - 1]];
    }
  }

  lemma NothingIsSorted<T>(text: T -> string)
    ensures Sorted([], text)
  {
  }

  // When the text tells elements apart, a sorted list is determined by its elements.
  lemma {:induction false} SortedIsUnique<T(!new)>(a: seq<T>, b: seq<T>, text: T -> string)
    requires Sorted(a, text) && Sorted(b, text) && multiset(a) == multiset(b)
    requires forall x, y :: x in a && y in a && text(x) == text(y) ==> x == y
    ensures a == b
  {
    hide Sorted;
    SameLength(a, b);
    if a != [] {
      FirstsAgree(a, b, text);
      TailsAgree(a, b);
      TailIsSorted(a, text);
      TailIsSorted(b, text);
      SortedIsUnique(a[1..], b[1..], text);
      assert a == [a[0]] + a[1..] && b == [b[0]] + b[1..];
    }
  }

  lemma SameLength<T>(a: seq<T>, b: seq<T>)
    requires multiset(a) == multiset(b)
    ensures |a| == |b|
  {
    assert |multiset(a)| == |a| && |multiset(b)| == |b|;
  }

  lemma SameElements<T>(a: seq<T>, b: seq<T>, x: T)
    requires multiset(a) == multiset(b)
    ensures x in a <==> x in b
  {
    assert x in a <==> x in multiset(a);
    assert x in b <==> x in multiset(b);
  }

  lemma FirstsAgree<T(!new)>(a: seq<T>, b: seq<T>, text: T -> string)
    requires Sorted(a, text) && Sorted(b, text) && multiset(a) == multiset(b) && |a| == |b| > 0
    requires forall x, y :: x in a && y in a && text(x) == text(y) ==> x == y
    ensures a[0] == b[0]
  {
    hide Sorted;
    SameElements(a, b, a[0]);
    SameElements(a, b, b[0]);
    FirstIsLeast(a, b[0], text);
    FirstIsLeast(b, a[0], text);
    if text(a[0]) != text(b[0]) {
      LessIsTransitive(text(a[0]), text(b[0]), text(a[0]));
      LessIsIrreflexive(text(a[0]));
    }
  }

  lemma TailsAgree<T>(a: seq<T>, b: seq<T>)
    requires multiset(a) == multiset(b) && |a| > 0 && |b| > 0 && a[0] == b[0]
    ensures multiset(a[1..]) == multiset(b[1..])
  {
    WithoutFirst(a);
    WithoutFirst(b);
  }

  lemma WithoutFirst<T>(a: seq<T>)
    requires |a| > 0
    ensures multiset(a[1..]) == multiset(a) - multiset{a[0]}
  {
    assert a == [a[0]] + a[1..];
  }

  lemma TailIsSorted<T>(a: seq<T>, text: T -> string)
    requires |a| > 0 && Sorted(a, text)
    ensures Sorted(a[1..], text)
  {
  }

  lemma FirstIsLeast<T>(a: seq<T>, x: T, text: T -> string)
    requires Sorted(a, text) && x in a
    ensures AtMost(text(a[0]), text(x))
  {
    var i :| 0 <= i < |a| && a[i] == x;
  }

  // ---------------------------------------------------------------- the sorted names of a set

  function Itself(t: string): string {
    t
  }

  ghost function SortedNames(names: set<string>): (r: seq<string>)
    ensures Increasing(r, Less)
    ensures forall x :: x in r <==> x in names
  {
    if names == {} then []
    else
      var x :| x in names;
      var rest := SortedNames(names - {x});
      InsertIsStrict(x, rest);
      Insert(x, rest, Itself)
  }

  lemma {:induction false} InsertIsStrict(x: string, s: seq<string>)
    requires Increasing(s, Less) && x !in s
    ensures Increasing(Insert(x, s, Itself), Less)
    ensures forall y :: y in Insert(x, s, Itself) <==> y == x || y in s
  {
    if s == [] {
    } else if AtMost(x, s[0]) {
      forall j | 0 < j < |s| ensures Less(x, s[j]) { LessIsTransitive(x, s[0], s[j]); }
    } else {
      InsertIsStrict(x, s[1..]);
      LessIsTotal(x, s[0]);
      var t := Insert(x, s[1..], Itself);
      assert s == [s[0]] + s[1..];
      forall j | 0 <= j < |t| ensures Less(s[0], t[j]) {
        assert t[j] in t;
        if t[j] != x { var i :| 0 <= i < |s[1..]| && s[1..][i] == t[j]; assert s[i + 1] == t[j]; }
      }
    }
  }

  // Sorting an enumeration of a set, in whatever order the set was walked, gives those names.
  lemma SortOfEnumeration(walk: seq<string>, names: set<string>)
    requires forall x :: x in walk <==> x in names
    requires forall i, j :: 0 <= i < j < |walk| ==> walk[i] != walk[j]
    ensures Sort(walk, Itself) == SortedNames(names)
  {
    var s := Sort(walk, Itself);
    SortSorts(walk, Itself);
    forall x ensures x in s <==> x in names {
      assert x in multiset(s) <==> x in multiset(walk);
    }
    forall i, j | 0 <= i < j < |s| ensures Less(s[i], s[j]) {
      if s[i] == s[j] {
        TwicePresent(s, i, j);
        OncePresent(walk, s[i]);
      }
    }
    LessIsStrict();
    IncreasingIsUnique(s, SortedNames(names), Less);
  }

  lemma TwicePresent<T>(s: seq<T>, i: nat, j: nat)
    requires i < j < |s| && s[i] == s[j]
    ensures multiset(s)[s[i]] >= 2
  {
    assert s == s[..j] + [s[j]] + s[j + 1..];
    assert s[..j][i] == s[i];
    assert s[i] in multiset(s[..j]);
  }

  lemma {:induction false} OncePresent<T>(s: seq<T>, x: T)
    requires forall i, j :: 0 <= i < j < |s| ==> s[i] != s[j]
    ensures multiset(s)[x] <= 1
  {
    if s != [] {
      var t, y := s[..|s| - 1], s[|s| - 1];
      OncePresent(t, x);
      assert s == t + [y];
      assert forall i :: 0 <= i < |t| ==> t[i] == s[i];
    }
  }
}
