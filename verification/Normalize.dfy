/**
 * normalize (operator/internal/compatibility/compatibility.go): the form in which two schemas are
 * compared.  It drops prose, sorts required and enum lists, and keys CEL rules by their text.
 */
module Normalize {
  import opened Json
  import Order

  predicate Prose(key: string) {
    key == "description" || key == "title"
  }

  predicate HoldsRules(key: string) {
    key == "x-kubernetes-validations"
  }

  predicate Unordered(key: string) {
    key == "required" || key == "enum"
  }

  // The text that keys a rule: its "rule" member if that is a string, else empty.
  function RuleOf(item: Json): string
    requires item.Object?
  {
    if "rule" in item.members && item.members["rule"].Str? then item.members["rule"].s else ""
  }

  // ---------------------------------------------------------------- the form

  // `text` is the compact encoding that the sort compares.
  function Normal(v: Json, key: string, text: Json -> string): Json
    decreases v, 1, 0
  {
    match v
    case Object(m) => Object(map k | k in m && !Prose(k) :: Normal(m[k], k, text))
    case List(xs) =>
      if HoldsRules(key) then Object(Rules(v, |xs|, text))
      else if Unordered(key) then List(Order.Sort(Each(v, text), text))
      else List(Each(v, text))
    case _ => v
  }

  function Each(v: Json, text: Json -> string): (r: seq<Json>)
    requires v.List?
    ensures |r| == |v.items|
    decreases v, 0, 0
  {
    seq(|v.items|, i requires 0 <= i < |v.items| => Normal(v.items[i], "", text))
  }

  // The first n items by their rule; a later item replaces an earlier one, other values are ignored.
  function Rules(v: Json, n: nat, text: Json -> string): map<string, Json>
    requires v.List? && n <= |v.items|
    decreases v, 0, n
  {
    if n == 0 then map[]
    else
      var rest, item := Rules(v, n - 1, text), v.items[n - 1];
      if item.Object? then rest[RuleOf(item) := Normal(item, "", text)] else rest
  }

  method NormalizeValue(v: Json, key: string, text: Json -> string) returns (out: Json)
    ensures out == Normal(v, key, text)
    decreases v, 1
  {
    hide Prose, HoldsRules, Unordered, Rules, Each, Order.Sort;
    match v
    case Object(m) =>
      var members := NormalizeMembers(v, text);
      return Object(members);
    case List(xs) =>
      if HoldsRules(key) {
        var rules := NormalizeRules(v, text);
        return Object(rules);
      }
      var items := NormalizeItems(v, text);
      if Unordered(key) { items := Order.Sort(items, text); }
      return List(items);
    case _ => return v;
  }

  method NormalizeMembers(v: Json, text: Json -> string) returns (out: map<string, Json>)
    requires v.Object?
    ensures out == map k | k in v.members && !Prose(k) :: Normal(v.members[k], k, text)
    decreases v, 0
  {
    hide Prose, Normal;
    out := map[];
    var left := v.members.Keys;
    while left != {}
      invariant left <= v.members.Keys
      invariant out == map k | k in v.members && k !in left && !Prose(k) :: Normal(v.members[k], k, text)
      decreases |left|
    {
      var k :| k in left;
      left := left - {k};
      if !Prose(k) {
        var member := NormalizeValue(v.members[k], k, text);
        out := out[k := member];
      }
    }
  }

  method NormalizeRules(v: Json, text: Json -> string) returns (out: map<string, Json>)
    requires v.List?
    ensures out == Rules(v, |v.items|, text)
    decreases v, 0
  {
    hide RuleOf, Normal;
    out := map[];
    for i := 0 to |v.items|
      invariant out == Rules(v, i, text)
    {
      if v.items[i].Object? {
        var item := NormalizeValue(v.items[i], "", text);
        out := out[RuleOf(v.items[i]) := item];
      }
    }
  }

  method NormalizeItems(v: Json, text: Json -> string) returns (out: seq<Json>)
    requires v.List?
    ensures out == Each(v, text)
    decreases v, 0
  {
    hide Normal;
    out := [];
    for i := 0 to |v.items|
      invariant out == Each(v, text)[..i]
    {
      var item := NormalizeValue(v.items[i], "", text);
      out := out + [item];
    }
    assert Each(v, text)[..|v.items|] == Each(v, text);
  }

  // ---------------------------------------------------------------- which rule wins

  // Item i is the last of the first n items to carry its rule.
  predicate Wins(v: Json, n: nat, i: int) {
    v.List? && 0 <= i < n <= |v.items| && v.items[i].Object?
    && forall j :: i < j < n && v.items[j].Object? ==> RuleOf(v.items[j]) != RuleOf(v.items[i])
  }

  lemma {:induction false} WinnersAreTheRules(v: Json, n: nat, text: Json -> string)
    requires v.List? && n <= |v.items|
    ensures forall i :: Wins(v, n, i) ==>
      RuleOf(v.items[i]) in Rules(v, n, text) && Rules(v, n, text)[RuleOf(v.items[i])] == Normal(v.items[i], "", text)
    ensures forall r :: r in Rules(v, n, text) ==> exists i :: Wins(v, n, i) && RuleOf(v.items[i]) == r
  {
    hide Normal, RuleOf;
    if n > 0 {
      WinnersAreTheRules(v, n - 1, text);
      forall r | r in Rules(v, n, text) ensures exists i :: Wins(v, n, i) && RuleOf(v.items[i]) == r {
        if v.items[n - 1].Object? && RuleOf(v.items[n - 1]) == r {
          assert Wins(v, n, n - 1);
        } else {
          assert r in Rules(v, n - 1, text);
          var i :| Wins(v, n - 1, i) && RuleOf(v.items[i]) == r;
          assert Wins(v, n, i);
        }
      }
      forall i | Wins(v, n, i) && i < n - 1 ensures Wins(v, n - 1, i) {}
    }
  }

  // ---------------------------------------------------------------- sorting

  // The encoding tells the members of a list apart.
  ghost predicate TellsApart(s: seq<Json>, text: Json -> string) {
    forall i, j :: 0 <= i < |s| && 0 <= j < |s| && text(s[i]) == text(s[j]) ==> s[i] == s[j]
  }

  // The encoding tells apart what is sorted: the normal items of every required or enum list of v.
  ghost predicate Told(v: Json, key: string, text: Json -> string) {
    match v
    case Object(m) => forall k :: k in m && !Prose(k) ==> Told(m[k], k, text)
    case List(xs) =>
      && (Unordered(key) ==> TellsApart(Each(v, text), text))
      && forall i :: 0 <= i < |xs| ==> Told(xs[i], "", text)
    case _ => true
  }

  lemma ToldUnderAnyKey(v: Json, k: string, text: Json -> string)
    requires v.Object?
    ensures Told(v, k, text) == Told(v, "", text)
  {
  }

  lemma SortHolds(s: seq<Json>, text: Json -> string)
    ensures forall x :: x in Order.Sort(s, text) <==> x in s
    ensures |Order.Sort(s, text)| == |s|
  {
    Order.SortSorts(s, text);
    forall x ensures x in Order.Sort(s, text) <==> x in s {
      assert x in multiset(Order.Sort(s, text)) <==> x in multiset(s);
    }
    assert |multiset(Order.Sort(s, text))| == |multiset(s)|;
  }

  // Lists with the same elements sort to the same list.
  lemma SortsAgree(p: seq<Json>, q: seq<Json>, text: Json -> string)
    requires TellsApart(p, text)
    ensures Order.Sort(p, text) == Order.Sort(q, text) <==> multiset(p) == multiset(q)
  {
    Order.SortSorts(p, text);
    Order.SortSorts(q, text);
    SortHolds(p, text);
    if multiset(p) == multiset(q) {
      Order.SortedIsUnique(Order.Sort(p, text), Order.Sort(q, text), text);
    }
  }

  // ---------------------------------------------------------------- normalizing twice

  // No rule that a normal form keeps is itself called "description" or "title".
  predicate RulesKept(v: Json, key: string) {
    match v
    case Object(m) => forall k :: k in m && !Prose(k) ==> RulesKept(m[k], k)
    case List(xs) =>
      forall i :: 0 <= i < |xs| ==>
        if HoldsRules(key) then Wins(v, |xs|, i) ==> !Prose(RuleOf(xs[i])) && RulesKept(xs[i], "")
        else RulesKept(xs[i], "")
    case _ => true
  }

  lemma {:induction false} KeptRulesSettle(v: Json, key: string, text: Json -> string)
    requires Told(v, key, text) && RulesKept(v, key)
    ensures Normal(Normal(v, key, text), key, text) == Normal(v, key, text)
  {
    hide Order.Sort, RuleOf, Rules, Prose, HoldsRules, Unordered, TellsApart;
    match v
    case Object(m) =>
      forall k | k in m && !Prose(k) ensures Normal(Normal(m[k], k, text), k, text) == Normal(m[k], k, text) {
        KeptRulesSettle(m[k], k, text);
      }
    case List(xs) =>
      forall i | 0 <= i < |xs| && (HoldsRules(key) ==> Wins(v, |xs|, i))
        ensures Normal(Normal(xs[i], "", text), "", text) == Normal(xs[i], "", text)
      {
        KeptRulesSettle(xs[i], "", text);
      }
      if HoldsRules(key) {
        RulesSettle(v, key, text);
      } else {
        EachSettles(v, key, text);
      }
    case _ =>
  }

  // An object is normalized alike under every key.
  lemma KeyOfObject(v: Json, k: string, text: Json -> string)
    requires v.Object?
    ensures Normal(v, k, text) == Normal(v, "", text)
    ensures Normal(v, k, text).Object?
  {
  }

  lemma RulesSettle(v: Json, key: string, text: Json -> string)
    requires v.List? && HoldsRules(key)
    requires forall i :: Wins(v, |v.items|, i) ==> !Prose(RuleOf(v.items[i]))
    requires forall i :: Wins(v, |v.items|, i) ==>
      Normal(Normal(v.items[i], "", text), "", text) == Normal(v.items[i], "", text)
    ensures Normal(Normal(v, key, text), key, text) == Normal(v, key, text)
  {
    hide RuleOf, Rules, Prose, HoldsRules, Unordered, Order.Sort;
    var rules := Rules(v, |v.items|, text);
    WinnersAreTheRules(v, |v.items|, text);
    assert Normal(v, key, text) == Object(rules);
    forall r | r in rules ensures !Prose(r) && Normal(rules[r], r, text) == rules[r] {
      var i :| Wins(v, |v.items|, i) && RuleOf(v.items[i]) == r;
      KeyOfObject(v.items[i], "", text);
      KeyOfObject(rules[r], r, text);
    }
  }

  lemma EachSettles(v: Json, key: string, text: Json -> string)
    requires v.List? && !HoldsRules(key) && (Unordered(key) ==> TellsApart(Each(v, text), text))
    requires forall i :: 0 <= i < |v.items| ==>
      Normal(Normal(v.items[i], "", text), "", text) == Normal(v.items[i], "", text)
    ensures Normal(Normal(v, key, text), key, text) == Normal(v, key, text)
  {
    hide Order.Sort, Unordered, HoldsRules, TellsApart;
    var each, w := Each(v, text), Normal(v, key, text);
    SortHolds(each, text);
    forall i | 0 <= i < |w.items| ensures Normal(w.items[i], "", text) == w.items[i] {
      assert w.items[i] in each;
    }
    assert Each(w, text) == w.items;
    if Unordered(key) {
      Order.SortSorts(each, text);
      SortsAgree(each, w.items, text);
    }
  }

  // A normal form has its rules in objects, so nothing is left for a further pass to lose.
  lemma {:induction false} NormalKeepsItsRules(v: Json, key: string, text: Json -> string)
    ensures RulesKept(Normal(v, key, text), key)
  {
    hide Order.Sort, RuleOf, Rules, Prose, HoldsRules, Unordered;
    match v
    case Object(m) =>
      forall k | k in m ensures RulesKept(Normal(m[k], k, text), k) { NormalKeepsItsRules(m[k], k, text); }
    case List(xs) =>
      forall i | 0 <= i < |xs| ensures RulesKept(Normal(xs[i], "", text), "") { NormalKeepsItsRules(xs[i], "", text); }
      if HoldsRules(key) {
        var rules := Rules(v, |xs|, text);
        WinnersAreTheRules(v, |xs|, text);
        forall r | r in rules ensures RulesKept(rules[r], r) {
          var i :| Wins(v, |xs|, i) && RuleOf(xs[i]) == r;
          KeyOfObject(xs[i], "", text);
          KeptUnderAnyKey(rules[r], r);
        }
      } else {
        SortHolds(Each(v, text), text);
        assert forall x :: x in Each(v, text) ==> RulesKept(x, "");
      }
    case _ =>
  }

  lemma KeptUnderAnyKey(v: Json, k: string)
    requires v.Object?
    ensures RulesKept(v, k) == RulesKept(v, "")
  {
  }

  // Normalizing a second time can lose something; a third time never does.
  lemma ThirdTimeIsSecondTime(v: Json, key: string, text: Json -> string)
    requires Told(Normal(v, key, text), key, text)
    ensures var w := Normal(Normal(v, key, text), key, text); Normal(w, key, text) == w
  {
    NormalKeepsItsRules(v, key, text);
    KeptRulesSettle(Normal(v, key, text), key, text);
  }

  // Normalizing is idempotent exactly when no rule it keeps is called "description" or "title".
  lemma {:induction false} SettlesWhenRulesKept(v: Json, key: string, text: Json -> string)
    requires Told(v, key, text) && Told(Normal(v, key, text), key, text)
    ensures Normal(Normal(v, key, text), key, text) == Normal(v, key, text) <==> RulesKept(v, key)
  {
    hide Order.Sort, RuleOf, Rules, Prose, HoldsRules, Unordered, TellsApart;
    if Normal(Normal(v, key, text), key, text) == Normal(v, key, text) {
      match v
      case Object(m) =>
        forall k | k in m && !Prose(k) ensures RulesKept(m[k], k) {
          assert Normal(v, key, text).members[k] == Normal(m[k], k, text);
          SettlesWhenRulesKept(m[k], k, text);
        }
      case List(xs) =>
        forall i | 0 <= i < |xs| && (HoldsRules(key) ==> Wins(v, |xs|, i))
          ensures RulesKept(xs[i], "") && (HoldsRules(key) ==> !Prose(RuleOf(xs[i])))
        {
          if HoldsRules(key) { SettledRule(v, key, i, text); } else { SettledItem(v, key, i, text); }
          ToldWithin(v, key, i, text);
          SettlesWhenRulesKept(xs[i], "", text);
        }
      case _ =>
    }
    if RulesKept(v, key) { KeptRulesSettle(v, key, text); }
  }

  // Where the normal form's lists are told apart, so are those of each item's normal form.
  lemma ToldWithin(v: Json, key: string, i: nat, text: Json -> string)
    requires v.List? && i < |v.items| && Told(Normal(v, key, text), key, text) && (HoldsRules(key) ==> Wins(v, |v.items|, i))
    requires HoldsRules(key) ==> !Prose(RuleOf(v.items[i]))
    ensures Told(Normal(v.items[i], "", text), "", text)
  {
    hide RuleOf, Rules, Prose, HoldsRules, Unordered, Order.Sort, TellsApart;
    var w := Normal(v, key, text);
    if HoldsRules(key) {
      var r := RuleOf(v.items[i]);
      WinnersAreTheRules(v, |v.items|, text);
      KeyOfObject(v.items[i], "", text);
      ToldUnderAnyKey(w.members[r], r, text);
    } else {
      SortHolds(Each(v, text), text);
      assert Each(v, text)[i] in w.items;
    }
  }

  lemma SettledRule(v: Json, key: string, i: nat, text: Json -> string)
    requires v.List? && HoldsRules(key) && Wins(v, |v.items|, i)
    requires Normal(Normal(v, key, text), key, text) == Normal(v, key, text)
    ensures !Prose(RuleOf(v.items[i]))
    ensures Normal(Normal(v.items[i], "", text), "", text) == Normal(v.items[i], "", text)
  {
    hide RuleOf, Rules, Prose, HoldsRules, Unordered, Order.Sort;
    var rules, r := Rules(v, |v.items|, text), RuleOf(v.items[i]);
    WinnersAreTheRules(v, |v.items|, text);
    assert Normal(v, key, text) == Object(rules) && r in rules;
    assert Normal(Object(rules), key, text).members == rules;
    KeyOfObject(v.items[i], "", text);
    KeyOfObject(rules[r], r, text);
  }

  lemma SettledItem(v: Json, key: string, i: nat, text: Json -> string)
    requires v.List? && !HoldsRules(key) && Told(Normal(v, key, text), key, text) && i < |v.items|
    requires Normal(Normal(v, key, text), key, text) == Normal(v, key, text)
    ensures Normal(Normal(v.items[i], "", text), "", text) == Normal(v.items[i], "", text)
  {
    hide Order.Sort, Unordered, HoldsRules, TellsApart;
    var each, w := Each(v, text), Normal(v, key, text);
    SortHolds(each, text);
    SortHolds(Each(w, text), text);
    var x := each[i];
    if Unordered(key) {
      assert x in each;
      assert x in w.items;
      assert x in Each(w, text);
      var j :| 0 <= j < |w.items| && Each(w, text)[j] == x;
      assert w.items[j] in each;
      var l :| 0 <= l < |each| && each[l] == w.items[j];
      ToldWithin(v, key, l, text);
      ThirdTimeIsSecondTime(v.items[l], "", text);
    } else {
      assert Each(w, text)[i] == x;
    }
  }

  // ---------------------------------------------------------------- what the form forgets

  // Equal but for prose entries, the order of required and enum, and superseded or reordered rules; a
  // list of rules also matches the object that holds the same rules under their texts.
  ghost predicate Same(a: Json, b: Json, key: string)
    decreases a, 1, 0
  {
    if a.Object? && b.Object? then
      forall k :: !Prose(k) && (k in a.members || k in b.members) ==>
        k in a.members && k in b.members && Same(a.members[k], b.members[k], k)
    else if a.List? && b.List? then
      if HoldsRules(key) then
        (forall i :: Wins(a, |a.items|, i) ==> exists j ::
            Wins(b, |b.items|, j) && RuleOf(a.items[i]) == RuleOf(b.items[j]) && Same(a.items[i], b.items[j], "")) &&
        (forall j :: Wins(b, |b.items|, j) ==> exists i ::
            Wins(a, |a.items|, i) && RuleOf(a.items[i]) == RuleOf(b.items[j]))
      else if Unordered(key) then SomeOrder(a, |a.items|, b.items)
      else |a.items| == |b.items| && forall i :: 0 <= i < |a.items| ==> Same(a.items[i], b.items[i], "")
    else if HoldsRules(key) && a.List? && b.Object? then
      (forall i :: Wins(a, |a.items|, i) ==>
         RuleOf(a.items[i]) in Names(b) && Same(a.items[i], b.members[RuleOf(a.items[i])], RuleOf(a.items[i]))) &&
      (forall k :: k in Names(b) ==> exists i :: Wins(a, |a.items|, i) && RuleOf(a.items[i]) == k)
    else if HoldsRules(key) && a.Object? && b.List? then
      (forall j :: Wins(b, |b.items|, j) ==>
         RuleOf(b.items[j]) in Names(a) && Same(a.members[RuleOf(b.items[j])], b.items[j], RuleOf(b.items[j]))) &&
      (forall k :: k in Names(a) ==> exists j :: Wins(b, |b.items|, j) && RuleOf(b.items[j]) == k)
    else a == b
  }

  // The members that are not prose.
  function Names(v: Json): set<string>
    requires v.Object?
  {
    set k | k in v.members && !Prose(k)
  }

  // The first n items of a pair off with those of bs, in some order.
  ghost predicate SomeOrder(a: Json, n: nat, bs: seq<Json>)
    requires a.List? && n <= |a.items|
    decreases a, 0, n
  {
    if n == 0 then bs == []
    else exists j :: 0 <= j < |bs| && Same(a.items[n - 1], bs[j], "") && SomeOrder(a, n - 1, bs[..j] + bs[j + 1..])
  }

  // Two documents have the same normal form exactly when they differ in nothing else.
  lemma {:induction false} NormalForgetsOnlyThat(a: Json, b: Json, key: string, text: Json -> string)
    requires Told(a, key, text)
    ensures Normal(a, key, text) == Normal(b, key, text) <==> Same(a, b, key)
    decreases a, 1, 0
  {
    hide Order.Sort, RuleOf, Rules, Prose, HoldsRules, Unordered, TellsApart, SomeOrder;
    if a.Object? && b.Object? {
      forall k | !Prose(k) && k in a.members && k in b.members
        ensures Normal(a.members[k], k, text) == Normal(b.members[k], k, text) <==> Same(a.members[k], b.members[k], k)
      {
        NormalForgetsOnlyThat(a.members[k], b.members[k], k, text);
      }
      MembersAgree(a, b, key, text);
    } else if a.List? && b.List? {
      if HoldsRules(key) {
        forall i, j | Wins(a, |a.items|, i) && Wins(b, |b.items|, j)
          ensures Normal(a.items[i], "", text) == Normal(b.items[j], "", text) <==> Same(a.items[i], b.items[j], "")
        {
          NormalForgetsOnlyThat(a.items[i], b.items[j], "", text);
        }
        RulesAgree(a, b, text);
      } else if Unordered(key) {
        OrdersAgree(a, |a.items|, b.items, text);
        assert Each(a, text)[..|a.items|] == Each(a, text) && NormalAll(b.items, text) == Each(b, text);
        SortsAgree(Each(a, text), Each(b, text), text);
      } else {
        forall i | 0 <= i < |a.items| && i < |b.items|
          ensures Normal(a.items[i], "", text) == Normal(b.items[i], "", text) <==> Same(a.items[i], b.items[i], "")
        {
          NormalForgetsOnlyThat(a.items[i], b.items[i], "", text);
        }
        EachAgrees(a, b, text);
      }
    } else if HoldsRules(key) && a.List? && b.Object? {
      KeyedForgets(a, b, key, text);
    } else if HoldsRules(key) && a.Object? && b.List? {
      KeyedForgetsToo(a, b, key, text);
    }
  }

  // A list of rules on one side and the object that holds rules by text on the other.
  lemma KeyedForgets(a: Json, b: Json, key: string, text: Json -> string)
    requires Told(a, key, text) && HoldsRules(key) && a.List? && b.Object?
    ensures Normal(a, key, text) == Normal(b, key, text) <==> Same(a, b, key)
    decreases a, 0, 0
  {
    hide Order.Sort, RuleOf, Rules, Prose, HoldsRules, Unordered, TellsApart, SomeOrder, Normal;
    forall i | Wins(a, |a.items|, i) && RuleOf(a.items[i]) in Names(b)
      ensures var r := RuleOf(a.items[i]);
        Normal(a.items[i], r, text) == Normal(b.members[r], r, text) <==> Same(a.items[i], b.members[r], r)
    {
      ToldUnderAnyKey(a.items[i], RuleOf(a.items[i]), text);
      NormalForgetsOnlyThat(a.items[i], b.members[RuleOf(a.items[i])], RuleOf(a.items[i]), text);
    }
    KeyedAgree(a, b, key, text);
  }

  lemma KeyedForgetsToo(a: Json, b: Json, key: string, text: Json -> string)
    requires Told(a, key, text) && HoldsRules(key) && a.Object? && b.List?
    ensures Normal(a, key, text) == Normal(b, key, text) <==> Same(a, b, key)
    decreases a, 0, 0
  {
    hide Order.Sort, RuleOf, Rules, Prose, HoldsRules, Unordered, TellsApart, SomeOrder, Normal;
    forall j | Wins(b, |b.items|, j) && RuleOf(b.items[j]) in Names(a)
      ensures var r := RuleOf(b.items[j]);
        Normal(a.members[r], r, text) == Normal(b.items[j], r, text) <==> Same(a.members[r], b.items[j], r)
    {
      NormalForgetsOnlyThat(a.members[RuleOf(b.items[j])], b.items[j], RuleOf(b.items[j]), text);
    }
    KeyedAgree(b, a, key, text);
  }

  // A list of rules and an object have one normal form when the object holds the same rules by text.
  lemma KeyedAgree(a: Json, b: Json, key: string, text: Json -> string)
    requires a.List? && b.Object? && HoldsRules(key)
    ensures Normal(a, key, text) == Normal(b, key, text) <==>
      && (forall i :: Wins(a, |a.items|, i) ==>
            RuleOf(a.items[i]) in Names(b) &&
            Normal(a.items[i], RuleOf(a.items[i]), text) == Normal(b.members[RuleOf(a.items[i])], RuleOf(a.items[i]), text))
      && (forall k :: k in Names(b) ==> exists i :: Wins(a, |a.items|, i) && RuleOf(a.items[i]) == k)
  {
    hide RuleOf, Rules, Prose, Wins, HoldsRules, Normal;
    NormalRules(a, key, text);
    WinnersAreTheRules(a, |a.items|, text);
    NormalMembers(b, key, text);
    var p, q := Rules(a, |a.items|, text), Normal(b, key, text).members;
    assert q.Keys == Names(b);
    hide Names;
    AgreeByKey(a, p, q);
  }

  lemma AgreeByKey(a: Json, p: map<string, Json>, q: map<string, Json>)
    requires a.List? && forall i :: Wins(a, |a.items|, i) ==> 0 <= i < |a.items| && a.items[i].Object? && RuleOf(a.items[i]) in p
    requires forall r :: r in p ==> exists i :: Wins(a, |a.items|, i) && RuleOf(a.items[i]) == r
    ensures p == q <==>
      && (forall i :: Wins(a, |a.items|, i) ==> RuleOf(a.items[i]) in q && p[RuleOf(a.items[i])] == q[RuleOf(a.items[i])])
      && (forall k :: k in q ==> exists i :: Wins(a, |a.items|, i) && RuleOf(a.items[i]) == k)
  {
    hide RuleOf, Wins;
    if p != q {
      var k :| k in p.Keys + q.Keys && !(k in p && k in q && p[k] == q[k]);
      if k in p {
        var i :| Wins(a, |a.items|, i) && RuleOf(a.items[i]) == k;
      }
    }
  }

  lemma NormalRules(v: Json, key: string, text: Json -> string)
    requires v.List? && HoldsRules(key)
    ensures Normal(v, key, text) == Object(Rules(v, |v.items|, text))
    ensures forall i :: Wins(v, |v.items|, i) ==>
      && 0 <= i < |v.items| && v.items[i].Object? && RuleOf(v.items[i]) in Rules(v, |v.items|, text)
      && Rules(v, |v.items|, text)[RuleOf(v.items[i])] == Normal(v.items[i], RuleOf(v.items[i]), text)
  {
    hide RuleOf, Rules, Prose, HoldsRules;
    WinnersAreTheRules(v, |v.items|, text);
    assert Normal(v, key, text) == Object(Rules(v, |v.items|, text));
    forall i | Wins(v, |v.items|, i)
      ensures Normal(v.items[i], RuleOf(v.items[i]), text) == Normal(v.items[i], "", text)
    {
      KeyOfObject(v.items[i], RuleOf(v.items[i]), text);
    }
  }

  lemma NormalMembers(v: Json, key: string, text: Json -> string)
    requires v.Object?
    ensures Normal(v, key, text).Object?
    ensures forall k :: k in Normal(v, key, text).members <==> k in v.members && !Prose(k)
    ensures forall k :: k in v.members && !Prose(k) ==> Normal(v, key, text).members[k] == Normal(v.members[k], k, text)
  {
  }

  lemma MembersAgree(a: Json, b: Json, key: string, text: Json -> string)
    requires a.Object? && b.Object?
    ensures Normal(a, key, text) == Normal(b, key, text) <==>
      forall k :: !Prose(k) && (k in a.members || k in b.members) ==>
        k in a.members && k in b.members && Normal(a.members[k], k, text) == Normal(b.members[k], k, text)
  {
    hide Prose, Normal;
    NormalMembers(a, key, text);
    NormalMembers(b, key, text);
    var p, q := Normal(a, key, text).members, Normal(b, key, text).members;
    if p == q {
      forall k | !Prose(k) && (k in a.members || k in b.members)
        ensures k in a.members && k in b.members && Normal(a.members[k], k, text) == Normal(b.members[k], k, text)
      {
        assert k in p && k in q && p[k] == q[k];
      }
    }
  }

  lemma RulesAgree(a: Json, b: Json, text: Json -> string)
    requires a.List? && b.List?
    ensures Rules(a, |a.items|, text) == Rules(b, |b.items|, text) <==>
      && (forall i :: Wins(a, |a.items|, i) ==> exists j ::
            Wins(b, |b.items|, j) && RuleOf(a.items[i]) == RuleOf(b.items[j]) &&
            Normal(a.items[i], "", text) == Normal(b.items[j], "", text))
      && (forall j :: Wins(b, |b.items|, j) ==> exists i :: Wins(a, |a.items|, i) && RuleOf(a.items[i]) == RuleOf(b.items[j]))
  {
    hide RuleOf, Rules, Normal;
    WinnersAreTheRules(a, |a.items|, text);
    WinnersAreTheRules(b, |b.items|, text);
  }

  lemma EachAgrees(a: Json, b: Json, text: Json -> string)
    requires a.List? && b.List?
    ensures Each(a, text) == Each(b, text) <==>
      |a.items| == |b.items| && forall i :: 0 <= i < |a.items| ==> Normal(a.items[i], "", text) == Normal(b.items[i], "", text)
  {
    hide Normal;
    var p, q := Each(a, text), Each(b, text);
    assert forall i :: 0 <= i < |p| ==> p[i] == Normal(a.items[i], "", text);
    assert forall i :: 0 <= i < |q| ==> q[i] == Normal(b.items[i], "", text);
  }

  function NormalAll(xs: seq<Json>, text: Json -> string): (r: seq<Json>)
    ensures |r| == |xs|
  {
    seq(|xs|, i requires 0 <= i < |xs| => Normal(xs[i], "", text))
  }

  lemma NormalWithout(xs: seq<Json>, j: nat, text: Json -> string)
    requires j < |xs|
    ensures multiset(NormalAll(xs, text)) ==
            multiset(NormalAll(xs[..j] + xs[j + 1..], text)) + multiset{Normal(xs[j], "", text)}
  {
    hide Normal;
    var all, rest := NormalAll(xs, text), NormalAll(xs[..j] + xs[j + 1..], text);
    assert rest == all[..j] + all[j + 1..];
    assert all == all[..j] + [all[j]] + all[j + 1..];
  }

  lemma {:induction false} OrdersAgree(a: Json, n: nat, bs: seq<Json>, text: Json -> string)
    requires a.List? && n <= |a.items| && forall i :: 0 <= i < |a.items| ==> Told(a.items[i], "", text)
    ensures multiset(Each(a, text)[..n]) == multiset(NormalAll(bs, text)) <==> SomeOrder(a, n, bs)
    decreases a, 0, n
  {
    hide Normal, Told, Same, SomeOrder, Each, NormalAll;
    SomeOrderMeans(a, n, bs);
    if n == 0 {
      assert |multiset(NormalAll(bs, text))| == |bs|;
      assert NormalAll([], text) == [];
    } else {
      var x := a.items[n - 1];
      LastOfEach(a, n, text);
      forall j | 0 <= j < |bs|
        ensures Same(x, bs[j], "") <==> Normal(x, "", text) == Normal(bs[j], "", text)
        ensures multiset(Each(a, text)[..n - 1]) == multiset(NormalAll(bs[..j] + bs[j + 1..], text)) <==>
                SomeOrder(a, n - 1, bs[..j] + bs[j + 1..])
      {
        NormalForgetsOnlyThat(x, bs[j], "", text);
        OrdersAgree(a, n - 1, bs[..j] + bs[j + 1..], text);
      }
      BagsAgree(multiset(Each(a, text)[..n - 1]), Normal(x, "", text), bs, text);
    }
  }

  lemma SomeOrderMeans(a: Json, n: nat, bs: seq<Json>)
    requires a.List? && n <= |a.items|
    ensures SomeOrder(a, n, bs) <==>
      if n == 0 then bs == []
      else exists j :: 0 <= j < |bs| && Same(a.items[n - 1], bs[j], "") && SomeOrder(a, n - 1, bs[..j] + bs[j + 1..])
  {
  }

  lemma LastOfEach(a: Json, n: nat, text: Json -> string)
    requires a.List? && 0 < n <= |a.items|
    ensures multiset(Each(a, text)[..n]) == multiset(Each(a, text)[..n - 1]) + multiset{Normal(a.items[n - 1], "", text)}
  {
    hide Normal;
    assert Each(a, text)[..n] == Each(a, text)[..n - 1] + [Normal(a.items[n - 1], "", text)];
  }

  // A bag and one more make up the normal forms of bs exactly when the one is among them and the bag
  // makes up the rest.
  lemma BagsAgree(bag: multiset<Json>, x: Json, bs: seq<Json>, text: Json -> string)
    ensures bag + multiset{x} == multiset(NormalAll(bs, text)) <==>
      exists j :: 0 <= j < |bs| && x == Normal(bs[j], "", text) && bag == multiset(NormalAll(bs[..j] + bs[j + 1..], text))
  {
    hide Normal;
    var all := NormalAll(bs, text);
    forall j | 0 <= j < |bs| && x == Normal(bs[j], "", text)
      ensures bag + multiset{x} == multiset(all) <==> bag == multiset(NormalAll(bs[..j] + bs[j + 1..], text))
    {
      NormalWithout(bs, j, text);
      var rest := multiset(NormalAll(bs[..j] + bs[j + 1..], text));
      assert bag == (bag + multiset{x}) - multiset{x} && rest == (rest + multiset{x}) - multiset{x};
    }
    if bag + multiset{x} == multiset(all) {
      assert x in multiset(all);
      var j :| 0 <= j < |all| && all[j] == x;
    }
  }

  // ---------------------------------------------------------------- which keys are special

  // Lists of required names and of enum values have one normal form exactly when they have the same items,
  // however often each and in whatever order.
  lemma RequiredAndEnumForgetOrder(xs: seq<Json>, ys: seq<Json>, key: string, text: Json -> string)
    requires key == "required" || key == "enum"
    requires TellsApart(NormalAll(xs, text), text)
    ensures Normal(List(xs), key, text) == Normal(List(ys), key, text)
      <==> multiset(NormalAll(xs, text)) == multiset(NormalAll(ys, text))
    ensures multiset(xs) == multiset(ys) ==> Normal(List(xs), key, text) == Normal(List(ys), key, text)
  {
    hide Order.Sort, TellsApart, Normal;
    var p, q := NormalAll(xs, text), NormalAll(ys, text);
    assert Each(List(xs), text) == p && Each(List(ys), text) == q;
    UnorderedIsSorted(xs, key, text);
    UnorderedIsSorted(ys, key, text);
    SortsAgree(p, q, text);
    if multiset(xs) == multiset(ys) { SameBags(xs, ys, text); }
  }

  lemma UnorderedIsSorted(xs: seq<Json>, key: string, text: Json -> string)
    requires key == "required" || key == "enum"
    ensures Normal(List(xs), key, text) == List(Order.Sort(Each(List(xs), text), text))
  {
    hide Order.Sort;
  }

  lemma BagWithout(xs: seq<Json>, j: nat)
    requires j < |xs|
    ensures multiset(xs[..j] + xs[j + 1..]) == multiset(xs) - multiset{xs[j]}
  {
    assert xs == xs[..j] + [xs[j]] + xs[j + 1..];
  }

  lemma {:induction false} SameBags(xs: seq<Json>, ys: seq<Json>, text: Json -> string)
    requires multiset(xs) == multiset(ys)
    ensures multiset(NormalAll(xs, text)) == multiset(NormalAll(ys, text))
  {
    hide Normal;
    if xs == [] {
      assert |multiset(ys)| == |ys|;
      assert ys == [];
    } else {
      var x := xs[|xs| - 1];
      assert x in multiset(xs);
      assert x in multiset(ys);
      var j :| 0 <= j < |ys| && ys[j] == x;
      var init, rest := xs[..|xs| - 1], ys[..j] + ys[j + 1..];
      BagWithout(xs, |xs| - 1);
      BagWithout(ys, j);
      assert init + [] == init;
      SameBags(init, rest, text);
      NormalWithout(ys, j, text);
      assert xs[..|xs| - 1] + xs[|xs|..] == init;
      NormalWithout(xs, |xs| - 1, text);
    }
  }

  // Every other list but one of rules keeps its items where they are.
  lemma OtherListsKeepOrder(xs: seq<Json>, ys: seq<Json>, key: string, text: Json -> string)
    requires key != "required" && key != "enum" && key != "x-kubernetes-validations"
    ensures Normal(List(xs), key, text).List? && |Normal(List(xs), key, text).items| == |xs|
    ensures forall i :: 0 <= i < |xs| ==> Normal(List(xs), key, text).items[i] == Normal(xs[i], "", text)
    ensures Normal(List(xs), key, text) == Normal(List(ys), key, text)
      <==> |xs| == |ys| && forall i :: 0 <= i < |xs| ==> Normal(xs[i], "", text) == Normal(ys[i], "", text)
  {
    OrderedIsEach(xs, key, text);
    OrderedIsEach(ys, key, text);
    EachAgrees(List(xs), List(ys), text);
  }

  lemma OrderedIsEach(xs: seq<Json>, key: string, text: Json -> string)
    requires key != "required" && key != "enum" && key != "x-kubernetes-validations"
    ensures Normal(List(xs), key, text) == List(Each(List(xs), text))
  {
  }

  // An object loses its description and its title, and each other member keeps its name.
  lemma ObjectsLoseProseOnly(m: map<string, Json>, key: string, text: Json -> string)
    ensures Normal(Object(m), key, text) ==
      Object(map k | k in m && k != "description" && k != "title" :: Normal(m[k], k, text))
  {
  }

  // What keys a rule: the string under "rule", or the empty string.
  lemma RuleIsKeyed(m: map<string, Json>, r: string)
    ensures RuleOf(Object(m)) == r <==>
      if "rule" in m && m["rule"].Str? then m["rule"] == Str(r) else r == ""
  {
  }

  // A list of rules becomes an object that has, under the key of each item that is an object, the normal form
  // of the last such item, and nothing else.
  lemma RulesBecomeMembers(xs: seq<Json>, text: Json -> string)
    ensures var v := Normal(List(xs), "x-kubernetes-validations", text);
      && v.Object?
      && (forall r :: r in v.members <==> exists i :: 0 <= i < |xs| && xs[i].Object? && RuleOf(xs[i]) == r)
      && (forall i :: Wins(List(xs), |xs|, i) ==>
            RuleOf(xs[i]) in v.members && v.members[RuleOf(xs[i])] == Normal(xs[i], "", text))
  {
    hide RuleOf, Rules, Normal;
    var v := List(xs);
    var rules := Rules(v, |xs|, text);
    WinnersAreTheRules(v, |xs|, text);
    RulesAreNormal(xs, text);
    forall i | 0 <= i < |xs| && xs[i].Object? ensures RuleOf(xs[i]) in rules { LaterWins(v, i, |xs|); }
  }

  lemma RulesAreNormal(xs: seq<Json>, text: Json -> string)
    ensures Normal(List(xs), "x-kubernetes-validations", text) == Object(Rules(List(xs), |xs|, text))
  {
    hide Rules;
  }

  lemma {:induction false} LaterWins(v: Json, i: nat, n: nat)
    requires v.List? && i < n <= |v.items| && v.items[i].Object?
    ensures exists j :: Wins(v, n, j) && RuleOf(v.items[j]) == RuleOf(v.items[i])
    decreases n
  {
    hide RuleOf;
    var last := v.items[n - 1];
    if last.Object? && RuleOf(last) == RuleOf(v.items[i]) {
      assert Wins(v, n, n - 1);
    } else {
      LaterWins(v, i, n - 1);
      var j :| Wins(v, n - 1, j) && RuleOf(v.items[j]) == RuleOf(v.items[i]);
      assert Wins(v, n, j);
    }
  }

  // A property that is itself called "title" is dropped like prose, and its schema with it.
  lemma APropertyCalledTitleIsForgotten(schema: Json, text: Json -> string)
    ensures Normal(Object(map["title" := schema]), "properties", text) == Normal(Object(map[]), "properties", text)
  {
  }

  lemma LoneMember(k: string, v: Json, key: string, text: Json -> string)
    ensures Normal(Object(map[k := v]), key, text) ==
            Object(if Prose(k) then map[] else map[k := Normal(v, k, text)])
  {
    hide Prose;
    NormalMembers(Object(map[k := v]), key, text);
  }

  lemma LoneRule(rule: Json, key: string, text: Json -> string)
    requires rule.Object? && HoldsRules(key)
    ensures Normal(List([rule]), key, text) == Object(map[RuleOf(rule) := Normal(rule, "", text)])
  {
    hide RuleOf;
    assert Rules(List([rule]), 0, text) == map[];
  }

  // A rule called "description" is kept by one pass and lost by the next.
  lemma ARuleCalledDescriptionIsLost(text: Json -> string)
    ensures var rule := Object(map["rule" := Str("description")]);
      var rules := List([rule]);
      && Normal(rules, "x-kubernetes-validations", text) == Object(map["description" := rule])
      && Normal(Normal(rules, "x-kubernetes-validations", text), "x-kubernetes-validations", text) == Object(map[])
  {
    hide Normal;
    var rule := Object(map["rule" := Str("description")]);
    assert RuleOf(rule) == "description" && !Prose("rule");
    LoneMember("rule", Str("description"), "", text);
    assert Normal(Str("description"), "rule", text) == Str("description") by { Scalar(Str("description"), "rule", text); }
    LoneRule(rule, "x-kubernetes-validations", text);
    LoneMember("description", rule, "x-kubernetes-validations", text);
  }

  lemma Scalar(v: Json, key: string, text: Json -> string)
    requires !v.Object? && !v.List?
    ensures Normal(v, key, text) == v && Told(v, key, text)
  {
  }

  // What the theorems ask of the encoding can be met: here by one that reads strings only.
  lemma AnEncodingThatTells(x: string, y: string)
    ensures var list, text := List([Str(x), Str(y)]), StringsOnly();
      Told(list, "enum", text) && Told(Normal(list, "enum", text), "enum", text)
  {
    hide Order.Sort, Prose;
    var list, text := List([Str(x), Str(y)]), StringsOnly();
    assert Each(list, text) == [Str(x), Str(y)];
    var w := Normal(list, "enum", text);
    SortHolds(Each(list, text), text);
    assert w == List(Order.Sort(Each(list, text), text));
    forall i | 0 <= i < |w.items| ensures w.items[i].Str? { assert w.items[i] in Each(list, text); }
    assert Each(w, text) == w.items;
  }

  function StringsOnly(): Json -> string {
    (x: Json) => if x.Str? then x.s else ""
  }
}
