/**
 * coerceIntegers, exactInt64, cloneObject and their use in Admit
 * (operator/internal/compatibility/compatibility.go).  Decoding JSON makes every number a float64;
 * where the schema says integer, exact values become int64, and cloning turns them back.
 */
module Coerce {
  import opened Wrappers
  import opened Json
  import Differences
  import Order
  import SchemaDiff

  // The part of a structural schema that coercion walks.
  datatype Structural = Structural(
    kind: string, properties: map<string, Structural>, additional: Option<Structural>, items: Option<Structural>)

  function Child(s: Option<Structural>, key: string): Option<Structural> {
    if s.None? then None
    else if key in s.value.properties then Some(s.value.properties[key])
    else s.value.additional
  }

  function Items(s: Option<Structural>): Option<Structural> {
    if s.None? then None else s.value.items
  }

  predicate IsInteger(s: Option<Structural>) {
    s.Some? && s.value.kind == "integer"
  }

  // ---------------------------------------------------------------- whole numbers as float64

  const P53: int := 9007199254740992
  const P63: int := 9223372036854775808

  // The distance between neighbouring doubles around a number of this size.
  function Ulp(size: nat, p: nat): (u: nat)
    requires p > 0
    ensures u > 0
    decreases size - p
  {
    if size < P53 * p then p else Ulp(size, 2 * p)
  }

  function Size(n: int): nat {
    if n < 0 then -n else n
  }

  function UlpOf(n: int): (u: nat)
    ensures u > 0
  {
    Ulp(Size(n), 1)
  }

  // float64 holds n exactly.
  predicate Whole(n: int) {
    n % UlpOf(n) == 0
  }

  // The float64 that decoding the digits of n gives: nearest, ties to the even neighbour.
  function Nearest(n: int): int {
    var u := UlpOf(n);
    var low, rest := n / u, n % u;
    if 2 * rest < u || (2 * rest == u && low % 2 == 0) then low * u else (low + 1) * u
  }

  lemma NearestIsExact(n: int)
    ensures Nearest(n) == n <==> Whole(n)
  {
    var u := UlpOf(n);
    var low, rest := n / u, n % u;
    assert n == low * u + rest;
    assert (low + 1) * u == low * u + u;
  }

  // ---------------------------------------------------------------- rounding twice is rounding once

  // u is p doubled some number of times.
  predicate Doubling(p: nat, u: nat)
    decreases u - p
  {
    u == p || (0 < p < u && Doubling(2 * p, u))
  }

  lemma {:induction false} DoublingDivides(p: nat, u: nat)
    requires p > 0 && Doubling(p, u)
    ensures u % p == 0
    decreases u - p
  {
    if u != p {
      DoublingDivides(2 * p, u);
      Multiple(2 * (u / (2 * p)), p);
    }
  }

  lemma Multiple(k: int, p: nat)
    requires p > 0
    ensures (k * p) % p == 0
  {
    var q, r := (k * p) / p, (k * p) % p;
    assert (k - q) * p == r;
    Cancel(k - q, 1, p);
    Cancel(-1, k - q, p);
  }

  lemma {:induction false} DoubledAgain(p: nat, u: nat)
    requires p > 0 && Doubling(p, u)
    ensures Doubling(p, 2 * u)
    decreases u - p
  {
    if u != p { DoubledAgain(2 * p, u); }
  }

  lemma {:induction false} UlpIsDoubling(size: nat, p: nat)
    requires p > 0
    ensures Doubling(p, Ulp(size, p)) && size < P53 * Ulp(size, p)
    decreases size - p
  {
    if size >= P53 * p { UlpIsDoubling(size, 2 * p); }
  }

  // The distance at a size divides every distance big enough for it.
  lemma {:induction false} UlpDivides(size: nat, p: nat, u: nat)
    requires p > 0 && Doubling(p, u) && size < P53 * u
    ensures u % Ulp(size, p) == 0
    decreases u - p
  {
    if size < P53 * p { DoublingDivides(p, u); } else { UlpDivides(size, 2 * p, u); }
  }

  lemma DividesThrough(n: int, k: int, u: nat, v: nat)
    requires u > 0 && v > 0 && n == k * u && u % v == 0
    ensures n % v == 0
  {
    var j := u / v;
    assert u == j * v;
    assert n == k * j * v;
    Multiple(k * j, v);
  }

  lemma Cancel(a: int, b: int, u: nat)
    requires a * u < b * u
    ensures a < b
  {
  }

  // A rounded number is a multiple of the distance it was rounded to, and no further out than the next
  // power of two.
  lemma NearestIsClose(n: int) returns (k: int)
    ensures Nearest(n) == k * UlpOf(n) && -P53 <= k <= P53
  {
    var u := UlpOf(n);
    var low := n / u;
    UlpIsDoubling(Size(n), 1);
    assert low * u <= n < (low + 1) * u;
    Cancel(low, P53, u);
    Cancel(-P53, low + 1, u);
    k := if Nearest(n) == low * u then low else low + 1;
  }

  lemma NearestIsWhole(n: int)
    ensures Whole(Nearest(n)) && Nearest(Nearest(n)) == Nearest(n)
  {
    hide Nearest, Ulp, Doubling;
    var u := UlpOf(n);
    var k := NearestIsClose(n);
    UlpIsDoubling(Size(n), 1);
    MultipleIsWhole(k, u);
    NearestIsExact(Nearest(n));
  }

  lemma MultipleIsWhole(k: int, u: nat)
    requires u > 0 && Doubling(1, u) && -P53 <= k <= P53
    ensures Whole(k * u)
  {
    hide Ulp, Doubling;
    var m := k * u;
    SizeOfMultiple(k, u);
    if Size(k) < P53 {
      Scale(Size(k), P53, u);
      UlpDivides(Size(m), 1, u);
      DividesThrough(m, k, u, UlpOf(m));
    } else {
      var half := if k < 0 then -P53 / 2 else P53 / 2;
      assert m == half * (2 * u);
      DoubledAgain(1, u);
      UlpDivides(Size(m), 1, 2 * u);
      DividesThrough(m, half, 2 * u, UlpOf(m));
    }
  }

  lemma Scale(a: int, b: int, u: nat)
    requires a < b && u > 0
    ensures a * u < b * u
  {
  }

  lemma SizeOfMultiple(k: int, u: nat)
    ensures Size(k * u) == Size(k) * u
  {
    if k < 0 { assert k * u <= 0; assert (-k) * u == -(k * u); } else { assert k * u >= 0; }
  }

  // The numbers a float64 holds are those of a significand below 2^53 times a power of two.
  predicate Scaled(n: int, k: int, u: nat) {
    Doubling(1, u) && -9007199254740992 < k < 9007199254740992 && n == k * u
  }

  lemma WholeIsSignificand(n: int)
    ensures Whole(n) <==> exists k, u :: Scaled(n, k, u)
  {
    hide Ulp, Doubling;
    if Whole(n) {
      var u := UlpOf(n);
      var k := n / u;
      UlpIsDoubling(Size(n), 1);
      assert n == k * u;
      Cancel(k, P53, u);
      assert (-P53) * u == -(P53 * u);
      Cancel(-P53, k, u);
      assert Scaled(n, k, u);
    } else if k, u :| Scaled(n, k, u) {
      DoublingIsPositive(1, u);
      MultipleIsWhole(k, u);
    }
  }

  lemma {:induction false} DoublingIsPositive(p: nat, u: nat)
    requires p > 0 && Doubling(p, u)
    ensures u > 0
    decreases u - p
  {
  }

  // ---------------------------------------------------------------- no float64 is nearer

  lemma {:induction false} UlpIsTight(size: nat, p: nat)
    requires p > 0
    ensures Ulp(size, p) == p || exists h: nat :: Ulp(size, p) == 2 * h && size >= P53 * h
    decreases size - p
  {
    if size >= P53 * p {
      UlpIsTight(size, 2 * p);
      if Ulp(size, 2 * p) == 2 * p { assert size >= P53 * p; }
    }
  }

  // The distance at a size is a multiple of every distance met on the way up to it.
  lemma {:induction false} UlpReaches(size: nat, p: nat, h: nat)
    requires p > 0 && Doubling(p, 2 * h) && size >= P53 * h
    ensures Ulp(size, p) % (2 * h) == 0
    decreases 2 * h - p
  {
    if p == 2 * h {
      UlpIsDoubling(size, p);
      DoublingDivides(p, Ulp(size, p));
    } else {
      AtLeast(2 * p, 2 * h);
      assert size >= P53 * p;
      UlpReaches(size, 2 * p, h);
    }
  }

  lemma {:induction false} AtLeast(p: nat, u: nat)
    requires Doubling(p, u)
    ensures p <= u
    decreases u - p
  {
  }

  function Distance(m: int, n: int): nat {
    Size(m - n)
  }

  // Rounding is to the nearest of all numbers that a float64 holds.
  lemma NearestIsNearest(n: int, m: int)
    requires Whole(m)
    ensures Distance(Nearest(n), n) <= Distance(m, n)
  {
    hide Ulp, Doubling;
    var u := UlpOf(n);
    UlpIsTight(Size(n), 1);
    UlpIsDoubling(Size(n), 1);
    if u == 1 {
    } else {
      var h: nat :| u == 2 * h && Size(n) >= P53 * h;
      if Size(m) >= P53 * h {
        UlpReaches(Size(m), 1, h);
        DividesThrough(m, m / UlpOf(m), UlpOf(m), u);
        NearestOfMultiples(n, m);
      } else {
        FinerIsFurther(n, m, h);
      }
    }
  }

  // It is between two multiples of the distance, and at the closer one.
  lemma Neighbours(n: int) returns (low: int, p: int)
    ensures p == low * UlpOf(n) && p <= n < p + UlpOf(n)
    ensures Distance(Nearest(n), n) <= n - p && Distance(Nearest(n), n) <= p + UlpOf(n) - n
    ensures n == p ==> Nearest(n) == n
  {
    hide Ulp;
    var u := UlpOf(n);
    low, p := n / u, n / u * u;
    assert n == p + n % u;
    assert (low + 1) * u == p + u;
  }

  lemma NearestOfMultiples(n: int, m: int)
    requires m % UlpOf(n) == 0
    ensures Distance(Nearest(n), n) <= Distance(m, n)
  {
    hide Ulp, Nearest;
    var u := UlpOf(n);
    var low, p := Neighbours(n);
    Beside(m / u, low, u);
    assert m == m / u * u;
  }

  lemma Beside(j: int, low: int, u: nat)
    ensures j <= low ==> j * u <= low * u
    ensures j > low ==> low * u + u <= j * u
  {
    if j <= low { Steps(j, low, u); } else { Steps(low + 1, j, u); }
    assert (low + 1) * u == low * u + u;
  }

  lemma Steps(a: int, b: int, u: nat)
    requires a <= b
    ensures a * u <= b * u
  {
  }

  // A number of a finer scale lies beyond the nearer multiple.
  lemma FinerIsFurther(n: int, m: int, h: nat)
    requires UlpOf(n) == 2 * h && Size(n) >= P53 * h > Size(m)
    ensures Distance(Nearest(n), n) <= Distance(m, n)
  {
    hide Ulp, Nearest;
    var u, edge := UlpOf(n), P53 / 2;
    var low, p := Neighbours(n);
    assert edge * u == P53 * h && (-edge) * u == -(P53 * h);
    Beside(edge, low, u);
    Beside(-edge, low, u);
  }

  predicate ExactInt64(x: real) {
    x.Floor as real == x && -P63 as real <= x < P63 as real
  }

  // ---------------------------------------------------------------- cloning and coercing

  // json.Marshal and json.Unmarshal: everything comes back but the int64s, which come back as floats.
  function Clone(v: Json): Json {
    match v
    case Int(n) => Float(Nearest(n) as real)
    case List(xs) => List(seq(|xs|, i requires 0 <= i < |xs| => Clone(xs[i])))
    case Object(m) => Object(map k | k in m :: Clone(m[k]))
    case _ => v
  }

  function Coerce(v: Json, s: Option<Structural>): Json
    decreases v, 0
  {
    match v
    case Object(m) => Object(map k | k in m :: CoerceChild(m[k], Child(s, k)))
    case List(xs) => List(seq(|xs|, i requires 0 <= i < |xs| => CoerceChild(xs[i], Items(s))))
    case _ => v
  }

  function CoerceChild(c: Json, s: Option<Structural>): Json
    decreases c, 1
  {
    if c.Float? && IsInteger(s) && ExactInt64(c.x) then Int(c.x.Floor) else Coerce(c, s)
  }

  // What becomes of one member, by the schema of the property, or if there is none that of additional ones:
  // a float that is a whole number below 2^63 in size becomes an int64 where the type is integer, and nothing
  // else changes but what lies deeper.
  lemma MemberIsCoerced(m: map<string, Json>, s: Structural, k: string)
    requires k in m
    ensures var w := Coerce(Object(m), Some(s));
      && w.Object? && w.members.Keys == m.Keys
      && var schema := if k in s.properties then Some(s.properties[k]) else s.additional;
      w.members[k] ==
        if m[k].Float? then
          if schema.Some? && schema.value.kind == "integer" && m[k].x == m[k].x.Floor as real
             && -9223372036854775808.0 <= m[k].x < 9223372036854775808.0
          then Int(m[k].x.Floor) else m[k]
        else Coerce(m[k], schema)
  {
    ChildIsCoerced(m[k], Child(Some(s), k));
  }

  lemma ItemIsCoerced(xs: seq<Json>, s: Structural, i: nat)
    requires i < |xs|
    ensures var w := Coerce(List(xs), Some(s));
      && w.List? && |w.items| == |xs|
      && w.items[i] ==
        if xs[i].Float? then
          if s.items.Some? && s.items.value.kind == "integer" && xs[i].x == xs[i].x.Floor as real
             && -9223372036854775808.0 <= xs[i].x < 9223372036854775808.0
          then Int(xs[i].x.Floor) else xs[i]
        else Coerce(xs[i], s.items)
  {
    ChildIsCoerced(xs[i], s.items);
  }

  lemma ChildIsCoerced(c: Json, s: Option<Structural>)
    ensures CoerceChild(c, s) ==
      if c.Float? then
        if s.Some? && s.value.kind == "integer" && c.x == c.x.Floor as real
           && -9223372036854775808.0 <= c.x < 9223372036854775808.0
        then Int(c.x.Floor) else c
      else Coerce(c, s)
  {
    if c.Float? { assert Coerce(c, s) == c; }
  }

  method CoerceIntegers(v: Json, s: Option<Structural>) returns (out: Json)
    ensures out == Coerce(v, s)
    decreases v
  {
    if s.None? {
      NoSchema(v);
      return v;
    }
    match v
    case Object(m) =>
      var x := m;
      var left := m.Keys;
      while left != {}
        invariant left <= m.Keys == x.Keys
        invariant forall k :: k in m ==> x[k] == if k in left then m[k] else CoerceChild(m[k], Child(s, k))
        decreases |left|
      {
        hide Coerce;
        var key :| key in left;
        left := left - {key};
        var child := m[key];
        var childSchema := Child(s, key);
        if childSchema.None? {
          NoSchema(child);
        } else if child.Float? && childSchema.value.kind == "integer" && ExactInt64(child.x) {
          x := x[key := Int(child.x.Floor)];
        } else {
          var coerced := CoerceIntegers(child, childSchema);
          x := x[key := coerced];
        }
      }
      return Object(x);
    case List(xs) =>
      if s.value.items.None? {
        NoItems(v, s);
        return v;
      }
      var x := xs;
      for i := 0 to |xs|
        invariant |x| == |xs|
        invariant forall k :: 0 <= k < |xs| ==> x[k] == if k >= i then xs[k] else CoerceChild(xs[k], Items(s))
      {
        hide Coerce;
        var child := xs[i];
        if child.Float? && s.value.items.value.kind == "integer" && ExactInt64(child.x) {
          x := x[i := Int(child.x.Floor)];
        } else {
          var coerced := CoerceIntegers(child, s.value.items);
          x := x[i := coerced];
        }
      }
      return List(x);
    case _ => return v;
  }

  lemma {:induction false} NoSchema(v: Json)
    ensures Coerce(v, None) == v
    ensures CoerceChild(v, None) == v
  {
    match v
    case Object(m) => forall k | k in m ensures CoerceChild(m[k], None) == m[k] { NoSchema(m[k]); }
    case List(xs) => forall i | 0 <= i < |xs| ensures CoerceChild(xs[i], None) == xs[i] { NoSchema(xs[i]); }
    case _ =>
  }

  lemma NoItems(v: Json, s: Option<Structural>)
    requires v.List? && Items(s).None?
    ensures Coerce(v, s) == v
  {
    forall i | 0 <= i < |v.items| ensures CoerceChild(v.items[i], None) == v.items[i] { NoSchema(v.items[i]); }
  }

  // ---------------------------------------------------------------- what survives

  // Every int64 stands where the schema says integer and is a float64 too; no float there is exact.
  predicate Settled(v: Json, s: Option<Structural>)
    decreases v, 0
  {
    match v
    case Int(_) => false
    case Object(m) => forall k :: k in m ==> SettledChild(m[k], Child(s, k))
    case List(xs) => forall i :: 0 <= i < |xs| ==> SettledChild(xs[i], Items(s))
    case _ => true
  }

  predicate SettledChild(c: Json, s: Option<Structural>)
    decreases c, 1
  {
    match c
    case Int(n) => IsInteger(s) && Whole(n) && -P63 <= n < P63
    case Float(x) => !(IsInteger(s) && ExactInt64(x))
    case _ => Settled(c, s)
  }

  // Cloning and coercing again gives a document back exactly when it is settled.
  lemma {:induction false} SettledIsFixed(v: Json, s: Option<Structural>)
    ensures Coerce(Clone(v), s) == v <==> Settled(v, s)
    decreases v, 0
  {
    hide Whole, Nearest, ExactInt64;
    match v
    case Object(m) =>
      forall k | k in m ensures CoerceChild(Clone(m[k]), Child(s, k)) == m[k] <==> SettledChild(m[k], Child(s, k)) {
        SettledChildIsFixed(m[k], Child(s, k));
      }
      if Coerce(Clone(v), s) == v {
        forall k | k in m ensures SettledChild(m[k], Child(s, k)) {
          assert Coerce(Clone(v), s).members[k] == CoerceChild(Clone(m[k]), Child(s, k));
        }
      }
    case List(xs) =>
      forall i | 0 <= i < |xs| ensures CoerceChild(Clone(xs[i]), Items(s)) == xs[i] <==> SettledChild(xs[i], Items(s)) {
        SettledChildIsFixed(xs[i], Items(s));
      }
      if Coerce(Clone(v), s) == v {
        forall i | 0 <= i < |xs| ensures SettledChild(xs[i], Items(s)) {
          assert Coerce(Clone(v), s).items[i] == CoerceChild(Clone(xs[i]), Items(s));
        }
      }
    case _ =>
  }

  lemma {:induction false} SettledChildIsFixed(c: Json, s: Option<Structural>)
    ensures CoerceChild(Clone(c), s) == c <==> SettledChild(c, s)
    decreases c, 1
  {
    if c.Int? {
      NearestIsExact(c.n);
      assert (Nearest(c.n) as real).Floor == Nearest(c.n);
    } else {
      SettledIsFixed(c, s);
    }
  }

  // A document as decoding leaves it: no int64s, and every whole number a float64.
  predicate FromJson(v: Json) {
    match v
    case Int(_) => false
    case Float(x) => ExactInt64(x) ==> Whole(x.Floor)
    case List(xs) => forall i :: 0 <= i < |xs| ==> FromJson(xs[i])
    case Object(m) => forall k :: k in m ==> FromJson(m[k])
    case _ => true
  }

  lemma {:induction false} CoercedIsSettled(v: Json, s: Option<Structural>)
    requires FromJson(v)
    ensures Settled(Coerce(v, s), s)
    ensures SettledChild(CoerceChild(v, s), s)
  {
    hide Whole;
    match v
    case Object(m) =>
      forall k | k in m ensures SettledChild(CoerceChild(m[k], Child(s, k)), Child(s, k)) { CoercedIsSettled(m[k], Child(s, k)); }
    case List(xs) =>
      forall i | 0 <= i < |xs| ensures SettledChild(CoerceChild(xs[i], Items(s)), Items(s)) { CoercedIsSettled(xs[i], Items(s)); }
    case _ =>
  }

  // Coercion survives cloning.
  lemma CoercionSurvivesCloning(v: Json, s: Option<Structural>)
    requires FromJson(v)
    ensures Coerce(Clone(Coerce(v, s)), s) == Coerce(v, s)
  {
    CoercedIsSettled(v, s);
    SettledIsFixed(Coerce(v, s), s);
  }

  lemma {:induction false} CoerceTwice(v: Json, s: Option<Structural>)
    ensures Coerce(Coerce(v, s), s) == Coerce(v, s)
    ensures CoerceChild(CoerceChild(v, s), s) == CoerceChild(v, s)
  {
    match v
    case Object(m) =>
      forall k | k in m
        ensures CoerceChild(CoerceChild(m[k], Child(s, k)), Child(s, k)) == CoerceChild(m[k], Child(s, k))
      {
        CoerceTwice(m[k], Child(s, k));
      }
    case List(xs) =>
      forall i | 0 <= i < |xs|
        ensures CoerceChild(CoerceChild(xs[i], Items(s)), Items(s)) == CoerceChild(xs[i], Items(s))
      {
        CoerceTwice(xs[i], Items(s));
      }
    case _ =>
  }

  // The document with every number a plain number.
  function Plain(v: Json): Json {
    match v
    case Int(n) => Float(n as real)
    case List(xs) => List(seq(|xs|, i requires 0 <= i < |xs| => Plain(xs[i])))
    case Object(m) => Object(map k | k in m :: Plain(m[k]))
    case _ => v
  }

  // Coercion changes no value.
  lemma {:induction false} CoercionKeepsValues(v: Json, s: Option<Structural>)
    ensures Plain(Coerce(v, s)) == Plain(v)
    ensures Plain(CoerceChild(v, s)) == Plain(v)
  {
    match v
    case Object(m) =>
      forall k | k in m ensures Plain(CoerceChild(m[k], Child(s, k))) == Plain(m[k]) { CoercionKeepsValues(m[k], Child(s, k)); }
    case List(xs) =>
      forall i | 0 <= i < |xs| ensures Plain(CoerceChild(xs[i], Items(s))) == Plain(xs[i]) { CoercionKeepsValues(xs[i], Items(s)); }
    case _ =>
  }

  // ---------------------------------------------------------------- admission

  // w is v with some object members removed, at any depth.
  predicate Pruned(w: Json, v: Json) {
    if w.Object? && v.Object? then
      forall k :: k in w.members ==> k in v.members && Pruned(w.members[k], v.members[k])
    else if w.List? && v.List? then
      |w.items| == |v.items| && forall i :: 0 <= i < |w.items| ==> Pruned(w.items[i], v.items[i])
    else w == v
  }

  lemma {:induction false} PrunedIsSettled(w: Json, v: Json, s: Option<Structural>)
    requires Pruned(w, v)
    ensures Settled(v, s) ==> Settled(w, s)
    ensures SettledChild(v, s) ==> SettledChild(w, s)
  {
    hide Whole, ExactInt64, IsInteger;
    if w.Object? && v.Object? {
      forall k | k in w.members
        ensures SettledChild(v.members[k], Child(s, k)) ==> SettledChild(w.members[k], Child(s, k))
      {
        PrunedIsSettled(w.members[k], v.members[k], Child(s, k));
      }
    } else if w.List? && v.List? {
      forall i | 0 <= i < |w.items|
        ensures SettledChild(v.items[i], Items(s)) ==> SettledChild(w.items[i], Items(s))
      {
        PrunedIsSettled(w.items[i], v.items[i], Items(s));
      }
    }
  }

  // A document as Go can hold it: floats are float64s, whatever the int64s.
  predicate FloatsAreDoubles(v: Json) {
    match v
    case Float(x) => ExactInt64(x) ==> Whole(x.Floor)
    case List(xs) => forall i :: 0 <= i < |xs| ==> FloatsAreDoubles(xs[i])
    case Object(m) => forall k :: k in m ==> FloatsAreDoubles(m[k])
    case _ => true
  }

  // Cloning leaves what decoding could have left.
  lemma {:induction false} CloneIsDecoded(v: Json)
    requires FloatsAreDoubles(v)
    ensures FromJson(Clone(v))
  {
    hide Whole, Nearest, ExactInt64;
    match v
    case Int(n) =>
      NearestIsWhole(n);
      assert (Nearest(n) as real).Floor == Nearest(n);
    case Object(m) => forall k | k in m ensures FromJson(Clone(m[k])) { CloneIsDecoded(m[k]); }
    case List(xs) => forall i | 0 <= i < |xs| ensures FromJson(Clone(xs[i])) { CloneIsDecoded(xs[i]); }
    case _ =>
  }

  // And a copy of what decoding left is equal to it.
  lemma {:induction false} CloneOfDecoded(v: Json)
    requires FromJson(v)
    ensures Clone(v) == v
  {
    hide Whole, ExactInt64;
    match v
    case Object(m) => forall k | k in m ensures Clone(m[k]) == m[k] { CloneOfDecoded(m[k]); }
    case List(xs) => forall i | 0 <= i < |xs| ensures Clone(xs[i]) == xs[i] { CloneOfDecoded(xs[i]); }
    case _ =>
  }

  // Admit up to validation.  `prune` and `fill` are the library's pruning and defaulting.  The copy
  // taken before defaulting is equal to the document it copies, so what is reported is what
  // defaulting changed and nothing that copying did.
  method Admit(obj: Json, s: Option<Structural>, prune: Json -> Json, fill: Json -> Json)
    returns (result: Json, defaultedPaths: seq<string>)
    requires forall v :: Pruned(prune(v), v)
    ensures result == fill(prune(Coerce(Clone(obj), s)))
    ensures FloatsAreDoubles(obj) ==>
      var admitted := prune(Coerce(Clone(obj), s));
      && defaultedPaths == Order.Sort(Differences.Texts(SchemaDiff.Diff(admitted, result)), Order.Itself)
      && (defaultedPaths == [] <==> result == admitted)
  {
    hide Order.Sort;
    var admitted := CoerceIntegers(Clone(obj), s);
    admitted := prune(admitted);
    var beforeDefaults := CoerceIntegers(Clone(admitted), s);
    result := fill(admitted);
    defaultedPaths := Differences.ChangedLeafPaths(beforeDefaults, result);
    if FloatsAreDoubles(obj) {
      CloneIsDecoded(obj);
      CoercedIsSettled(Clone(obj), s);
      PrunedIsSettled(admitted, Coerce(Clone(obj), s), s);
      SettledIsFixed(admitted, s);
    }
  }

  // An integer that no float64 holds is another integer after one copy.
  lemma LargeIntegersMove()
    ensures var s := Some(Structural("object", map["n" := Structural("integer", map[], None, None)], None, None));
      Coerce(Clone(Object(map["n" := Int(P53 + 1)])), s) == Object(map["n" := Int(P53)])
  {
    assert Ulp(P53 + 1, 1) == Ulp(P53 + 1, 2) == 2;
    assert Nearest(P53 + 1) == P53;
    assert (P53 as real).Floor == P53;
  }
}
