// Small string functions: decimal printing (strconv.Itoa) and joining.
module Text {
  import opened Wrappers

  function Digit(d: nat): char
    requires d < 10
  {
    '0' + d as char
  }

  // strconv.Itoa on a non-negative number.
  function Decimal(n: nat): (s: string)
    ensures |s| > 0
    ensures forall i :: 0 <= i < |s| ==> '0' <= s[i] <= '9'
  {
    if n < 10 then [Digit(n)] else Decimal(n / 10) + [Digit(n % 10)]
  }

  // The number that a string of digits denotes, or None if it is not one.
  function Number(s: string): Option<nat>
  {
    if s == [] || !('0' <= s[|s| - 1] <= '9') then None
    else
      var low := (s[|s| - 1] - '0') as nat;
      if |s| == 1 then Some(low)
      else
        var high := Number(s[..|s| - 1]);
        if high.None? then None else Some(10 * high.value + low)
  }

  // Place by place: the last digit stands for itself and what comes before it for ten times its worth.
  lemma DecimalIsPositional(n: nat, d: nat)
    requires d < 10
    ensures Decimal(d) == ["0123456789"[d]]
    ensures n > 0 ==> Decimal(10 * n + d) == Decimal(n) + ["0123456789"[d]]
  {
    assert (10 * n + d) / 10 == n && (10 * n + d) % 10 == d;
  }

  lemma {:induction false} NumberOfDecimal(n: nat)
    ensures Number(Decimal(n)) == Some(n)
  {
    if n >= 10 {
      NumberOfDecimal(n / 10);
      var s := Decimal(n);
      assert s[..|s| - 1] == Decimal(n / 10);
    }
  }

  // strconv.Itoa.
  function Itoa(n: int): string {
    if n < 0 then "-" + Decimal(-n) else Decimal(n)
  }

  function Integer(s: string): Option<int> {
    if s != "" && s[0] == '-' then
      var n := Number(s[1..]);
      if n.None? then None else
        var v: int := n.value;
        Some(-v)
    else
      var n := Number(s);
      if n.None? then None else Some(n.value)
  }

  lemma IntegerOfItoa(n: int)
    ensures Integer(Itoa(n)) == Some(n)
  {
    NumberOfDecimal(if n < 0 then -n else n);
    if n < 0 { assert Itoa(n)[1..] == Decimal(-n); }
  }

  // strings.Join and Python's str.join.
  function Join(parts: seq<string>, sep: string): string
  {
    if parts == [] then ""
    else if |parts| == 1 then parts[0]
    else parts[0] + sep + Join(parts[1..], sep)
  }

  // Joining puts the separator between neighbours and nowhere else.
  lemma {:induction false} JoinConcat(p: seq<string>, q: seq<string>, sep: string)
    requires p != [] && q != []
    ensures Join(p + q, sep) == Join(p, sep) + sep + Join(q, sep)
  {
    if |p| == 1 {
      assert (p + q)[1..] == q;
    } else {
      JoinConcat(p[1..], q, sep);
      assert (p + q)[1..] == p[1..] + q;
      FourInARow(p[0] + sep, Join(p[1..], sep), sep, Join(q, sep));
    }
  }

  lemma JoinFew(part: string, sep: string)
    ensures Join([], sep) == "" && Join([part], sep) == part
  {
  }

  lemma FourInARow(a: string, b: string, c: string, d: string)
    ensures a + (b + c + d) == a + b + c + d
  {
  }

  // strings.Split with a one-character separator.
  function Split(s: string, sep: char): (parts: seq<string>)
    ensures |parts| > 0
    ensures forall p :: p in parts ==> sep !in p
  {
    if s == [] then [""]
    else
      var rest := Split(s[1..], sep);
      assert rest[0] in rest;
      assert forall p :: p in rest[1..] ==> p in rest;
      if s[0] == sep then [""] + rest else [[s[0]] + rest[0]] + rest[1..]
  }

  lemma {:induction false} SplitAfter(p: string, sep: char, s: string)
    requires sep !in p
    ensures Split(p + [sep] + s, sep) == [p] + Split(s, sep)
  {
    if p == [] {
      assert (p + [sep] + s)[1..] == s;
    } else {
      SplitAfter(p[1..], sep, s);
      assert (p + [sep] + s)[1..] == p[1..] + [sep] + s;
      assert [p[0]] + p[1..] == p;
    }
  }

  lemma {:induction false} SplitWhole(p: string, sep: char)
    requires sep !in p
    ensures Split(p, sep) == [p]
  {
    if p != [] {
      SplitWhole(p[1..], sep);
      assert [p[0]] + p[1..] == p;
    }
  }

  lemma {:induction false} SplitOfJoin(parts: seq<string>, sep: char)
    requires parts != [] && forall p :: p in parts ==> sep !in p
    ensures Split(Join(parts, [sep]), sep) == parts
  {
    if |parts| == 1 {
      SplitWhole(parts[0], sep);
    } else {
      SplitOfJoin(parts[1..], sep);
      SplitAfter(parts[0], sep, Join(parts[1..], [sep]));
      assert parts == [parts[0]] + parts[1..];
    }
  }

  // Where a text is split at its first separator is determined.
  lemma SameSplit(p: string, t: string, q: string, u: string, c: char)
    requires p + [c] + t == q + [c] + u && c !in p && c !in q
    ensures p == q && t == u
  {
    SplitAfter(p, c, t);
    SplitAfter(q, c, u);
    var s := p + [c] + t;
    assert Split(s, c)[0] == p && Split(s, c)[0] == q;
    assert t == s[|p| + 1..] && u == s[|q| + 1..];
  }

  lemma Regroup(a: string, b: string, c: string)
    ensures (a + b) + c == a + (b + c)
  {
  }

  lemma SameRest(p: string, x: string, y: string)
    requires p + x == p + y
    ensures x == y
  {
    assert x == (p + x)[|p|..];
    assert y == (p + y)[|p|..];
  }

  lemma SameCut(p: string, x: string, q: string, y: string)
    requires p + x == q + y && |p| == |q|
    ensures p == q && x == y
  {
    assert p == (p + x)[..|p|] && x == (p + x)[|p|..];
    assert q == (q + y)[..|q|] && y == (q + y)[|q|..];
  }

  lemma SameInside(p: string, x: string, y: string, q: string)
    ensures p + x + q == p + y + q <==> x == y
  {
    if p + x + q == p + y + q {
      assert |p + x + q| == |p| + |x| + |q| && |p + y + q| == |p| + |y| + |q|;
      SameCut(p + x, q, p + y, q);
      SameRest(p, x, y);
    }
  }
}
