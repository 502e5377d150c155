/**
 * Which Node updates reach the reconcilers (operator/controllers/node_predicate.go), and the
 * address that endpoint selection takes from a Node.
 */
module Nodes {
  import opened Wrappers
  import opened Lists

  datatype Address = Address(internal: bool, text: string)
  datatype NodeCondition = NodeCondition(ready: bool, status: string)
  datatype Node = Node(addresses: seq<Address>, conditions: seq<NodeCondition>)

  // ---------------------------------------------------------------- internal addresses

  // The addresses of type InternalIP, in order.
  function InternalOf(addresses: seq<Address>): seq<string> {
    if addresses == [] then []
    else
      var rest, last := InternalOf(addresses[..|addresses| - 1]), addresses[|addresses| - 1];
      if last.internal then rest + [last.text] else rest
  }

  predicate IsInternal(a: Address, ip: string) {
    a == Address(true, ip)
  }

  // They are exactly those: `from` says where each one stood.
  lemma {:induction false} InternalAreWhere(addresses: seq<Address>) returns (from: seq<nat>)
    ensures Gathered(addresses, IsInternal, from, InternalOf(addresses))
  {
    hide Gathered;
    if addresses == [] {
      from := [];
      NothingGathered<Address>(IsInternal);
    } else {
      var init, last := addresses[..|addresses| - 1], addresses[|addresses| - 1];
      from := InternalAreWhere(init);
      assert addresses == init + [last];
      if last.internal {
        GatherOne(init, IsInternal, from, InternalOf(init), last, last.text);
        from := from + [|init|];
      } else {
        GatherNone(init, IsInternal, from, InternalOf(init), last);
      }
    }
  }

  lemma {:induction false} InternalOfConcat(a: seq<Address>, b: seq<Address>)
    ensures InternalOf(a + b) == InternalOf(a) + InternalOf(b)
  {
    if b == [] {
      assert a + b == a;
    } else {
      InternalOfConcat(a, b[..|b| - 1]);
      assert (a + b)[..|a + b| - 1] == a + b[..|b| - 1];
    }
  }

  // nodeInternalIP on a Node that was read: its first internal address, or empty.
  function FirstIP(n: Node): string {
    var ips := InternalOf(n.addresses);
    if ips == [] then "" else ips[0]
  }

  lemma {:induction false} NoneInternal(addresses: seq<Address>)
    requires forall j :: 0 <= j < |addresses| ==> !addresses[j].internal
    ensures InternalOf(addresses) == []
  {
    if addresses != [] { NoneInternal(addresses[..|addresses| - 1]); }
  }

  // The first one, wherever it stands.
  lemma FirstIPIs(n: Node, i: nat)
    requires i <= |n.addresses| && forall j :: 0 <= j < i ==> !n.addresses[j].internal
    requires i < |n.addresses| ==> n.addresses[i].internal
    ensures FirstIP(n) == if i < |n.addresses| then n.addresses[i].text else ""
  {
    var init := n.addresses[..i];
    NoneInternal(init);
    if i < |n.addresses| {
      var one := [n.addresses[i]];
      assert one[..0] == [];
      assert n.addresses == init + one + n.addresses[i + 1..];
      InternalOfConcat(init, one);
      InternalOfConcat(init + one, n.addresses[i + 1..]);
    } else {
      assert init == n.addresses;
    }
  }

  method NodeInternalIP(n: Option<Node>) returns (ip: string)
    ensures ip == if n.None? then "" else FirstIP(n.value)
  {
    if n.None? { return ""; }
    var addresses := n.value.addresses;
    for i := 0 to |addresses|
      invariant InternalOf(addresses[..i]) == []
    {
      assert addresses[..i + 1][..i] == addresses[..i];
      if addresses[i].internal {
        assert addresses == addresses[..i + 1] + addresses[i + 1..];
        InternalOfConcat(addresses[..i + 1], addresses[i + 1..]);
        return addresses[i].text;
      }
    }
    assert addresses[..|addresses|] == addresses;
    return "";
  }

  method InternalIPs(n: Option<Node>) returns (out: seq<string>)
    ensures out == if n.None? then [] else InternalOf(n.value.addresses)
  {
    out := [];
    if n.None? { return; }
    var addresses := n.value.addresses;
    for i := 0 to |addresses|
      invariant out == InternalOf(addresses[..i])
    {
      assert addresses[..i + 1][..i] == addresses[..i];
      if addresses[i].internal { out := out + [addresses[i].text]; }
    }
    assert addresses[..|addresses|] == addresses;
  }

  ghost function IPsOf(n: Option<Node>): seq<string> {
    if n.None? then [] else InternalOf(n.value.addresses)
  }

  // ---------------------------------------------------------------- comparing two Nodes

  function CountOf(seen: map<string, int>, ip: string): int {
    if ip in seen then seen[ip] else 0
  }

  // `seen` holds how far the counts of `up` exceed those of `down`.
  ghost predicate Counts(seen: map<string, int>, up: multiset<string>, down: multiset<string>) {
    forall ip :: CountOf(seen, ip) + down[ip] == up[ip]
  }

  method SameInternalIPs(a: Option<Node>, b: Option<Node>) returns (same: bool)
    ensures same <==> multiset(IPsOf(a)) == multiset(IPsOf(b))
  {
    hide InternalOf, Counts;
    var aIPs := InternalIPs(a);
    var bIPs := InternalIPs(b);
    if |aIPs| != |bIPs| {
      assert |multiset(aIPs)| == |aIPs| && |multiset(bIPs)| == |bIPs|;
      return false;
    }
    var seen: map<string, int> := map[];
    NothingCounted();
    for i := 0 to |aIPs|
      invariant Counts(seen, multiset(aIPs[..i]), multiset{})
    {
      CountUp(seen, aIPs, i);
      seen := seen[aIPs[i] := CountOf(seen, aIPs[i]) + 1];
    }
    assert aIPs[..|aIPs|] == aIPs;
    for i := 0 to |bIPs|
      invariant Counts(seen, multiset(aIPs), multiset(bIPs[..i]))
      invariant multiset(bIPs[..i]) <= multiset(aIPs)
    {
      CountDown(seen, multiset(aIPs), bIPs, i);
      seen := seen[bIPs[i] := CountOf(seen, bIPs[i]) - 1];
      if seen[bIPs[i]] < 0 {
        return false;
      }
    }
    assert bIPs[..|bIPs|] == bIPs;
    SameSize(multiset(bIPs), multiset(aIPs));
    return true;
  }

  lemma NothingCounted()
    ensures Counts(map[], multiset{}, multiset{})
  {
  }

  lemma CountUp(seen: map<string, int>, ips: seq<string>, i: nat)
    requires i < |ips| && Counts(seen, multiset(ips[..i]), multiset{})
    ensures Counts(seen[ips[i] := CountOf(seen, ips[i]) + 1], multiset(ips[..i + 1]), multiset{})
  {
    assert ips[..i + 1] == ips[..i] + [ips[i]];
  }

  lemma CountDown(seen: map<string, int>, up: multiset<string>, ips: seq<string>, i: nat)
    requires i < |ips| && Counts(seen, up, multiset(ips[..i])) && multiset(ips[..i]) <= up
    ensures Counts(seen[ips[i] := CountOf(seen, ips[i]) - 1], up, multiset(ips[..i + 1]))
    ensures if CountOf(seen, ips[i]) - 1 < 0 then multiset(ips) != up else multiset(ips[..i + 1]) <= up
  {
    OneMore(ips, i);
  }

  lemma OneMore(ips: seq<string>, i: nat)
    requires i < |ips|
    ensures multiset(ips[..i + 1]) == multiset(ips[..i]) + multiset{ips[i]}
    ensures multiset(ips[..i + 1])[ips[i]] <= multiset(ips)[ips[i]]
  {
    assert ips[..i + 1] == ips[..i] + [ips[i]];
    assert ips == ips[..i + 1] + ips[i + 1..];
  }

  lemma SameSize(p: multiset<string>, q: multiset<string>)
    requires p <= q && |p| == |q|
    ensures p == q
  {
    assert q == p + (q - p);
  }

  // The status of the first Ready condition, or "Unknown".
  function ReadyOf(conditions: seq<NodeCondition>): string {
    if conditions == [] then "Unknown"
    else if conditions[0].ready then conditions[0].status
    else ReadyOf(conditions[1..])
  }

  lemma {:induction false} ReadyOfFirst(conditions: seq<NodeCondition>, i: nat)
    requires i <= |conditions| && forall j :: 0 <= j < i ==> !conditions[j].ready
    requires i < |conditions| ==> conditions[i].ready
    ensures ReadyOf(conditions) == if i < |conditions| then conditions[i].status else "Unknown"
  {
    if i > 0 { ReadyOfFirst(conditions[1..], i - 1); }
  }

  method NodeReadyStatus(n: Option<Node>) returns (status: string)
    ensures status == if n.None? then "Unknown" else ReadyOf(n.value.conditions)
  {
    if n.None? { return "Unknown"; }
    var conditions := n.value.conditions;
    for i := 0 to |conditions|
      invariant ReadyOf(conditions) == ReadyOf(conditions[i..])
    {
      if conditions[i].ready { return conditions[i].status; }
    }
    return "Unknown";
  }

  // Whether an update is let through; None stands for an object that is not a Node.
  ghost predicate Relevant(before: Option<Node>, after: Option<Node>) {
    before.Some? && after.Some?
    && (multiset(IPsOf(before)) != multiset(IPsOf(after)) || ReadyOf(before.value.conditions) != ReadyOf(after.value.conditions))
  }

  method NodeRelevantUpdate(before: Option<Node>, after: Option<Node>) returns (relevant: bool)
    ensures relevant <==> Relevant(before, after)
  {
    if before.None? { return false; }
    if after.None? { return false; }
    var same := SameInternalIPs(before, after);
    if !same { return true; }
    var was := NodeReadyStatus(before);
    var now := NodeReadyStatus(after);
    return was != now;
  }

  // ---------------------------------------------------------------- what dropping an update costs

  predicate OneAddress(n: Node) {
    forall i, j :: 0 <= i < j < |InternalOf(n.addresses)| ==> InternalOf(n.addresses)[i] == InternalOf(n.addresses)[j]
  }

  // After a dropped update the address chosen before is still an internal address of the Node.
  lemma DroppedKeepsTheAddress(before: Node, after: Node)
    requires !Relevant(Some(before), Some(after))
    ensures FirstIP(before) != "" ==> FirstIP(before) in InternalOf(after.addresses)
    ensures OneAddress(before) ==> FirstIP(after) == FirstIP(before)
  {
    var p, q := InternalOf(before.addresses), InternalOf(after.addresses);
    assert |multiset(p)| == |p| && |multiset(q)| == |q|;
    if p != [] {
      assert p[0] in multiset(q);
      assert q[0] in multiset(p);
    }
  }

  // No dropped update moves the first address exactly when all internal addresses are one address.
  lemma DroppedNeverMovesIt(before: Node)
    ensures (forall after :: !Relevant(Some(before), Some(after)) ==> FirstIP(after) == FirstIP(before)) <==> OneAddress(before)
  {
    forall after | OneAddress(before) && !Relevant(Some(before), Some(after)) ensures FirstIP(after) == FirstIP(before) {
      DroppedKeepsTheAddress(before, after);
    }
    if !OneAddress(before) {
      var ips := InternalOf(before.addresses);
      var j :| 0 < j < |ips| && ips[j] != ips[0];
      var after := MovedFirst(before, j);
    }
  }

  // The same addresses with the j-th internal one listed first.
  lemma MovedFirst(before: Node, j: nat) returns (after: Node)
    requires 0 < j < |InternalOf(before.addresses)|
    ensures !Relevant(Some(before), Some(after)) && FirstIP(after) == InternalOf(before.addresses)[j]
  {
    hide InternalOf;
    var ips := InternalOf(before.addresses);
    var others := ips[..j] + ips[j + 1..];
    after := Node(Others([ips[j]] + others), before.conditions);
    InternalOfOthers([ips[j]] + others);
    assert ips == ips[..j] + [ips[j]] + ips[j + 1..];
  }

  // After a dropped update the first address is one of those there were.
  lemma DroppedChoosesAmong(before: Node, after: Node)
    requires !Relevant(Some(before), Some(after))
    ensures FirstIP(after) in InternalOf(before.addresses) || FirstIP(after) == FirstIP(before) == ""
  {
    var p, q := InternalOf(before.addresses), InternalOf(after.addresses);
    assert |multiset(p)| == |p| && |multiset(q)| == |q|;
    if q != [] { assert q[0] in multiset(p); }
  }

  // Each of them can be the first one after a dropped update.
  lemma CanBeFirst(before: Node, ip: string) returns (after: Node)
    requires ip in InternalOf(before.addresses)
    ensures !Relevant(Some(before), Some(after)) && FirstIP(after) == ip
  {
    var j :| 0 <= j < |InternalOf(before.addresses)| && InternalOf(before.addresses)[j] == ip;
    if j == 0 { after := before; } else { after := MovedFirst(before, j); }
  }

  function Others(ips: seq<string>): seq<Address> {
    if ips == [] then [] else Others(ips[..|ips| - 1]) + [Address(true, ips[|ips| - 1])]
  }

  lemma {:induction false} InternalOfOthers(ips: seq<string>)
    ensures InternalOf(Others(ips)) == ips
  {
    if ips != [] {
      InternalOfOthers(ips[..|ips| - 1]);
      assert Others(ips)[..|Others(ips)| - 1] == Others(ips[..|ips| - 1]);
    }
  }
}
