/**
 * The endpoint of a NodePort service (operator/controllers/vllminstance_controller.go,
 * ssa.go): the least Ready node that has an internal address.
 */
module Endpoints {
  import opened Wrappers
  import opened Lists
  import opened Text
  import Order
  import Nodes

  datatype Endpoint = Endpoint(node: Option<string>, ready: Option<bool>)

  predicate IsReady(e: Endpoint) {
    e.node.Some? && e.ready == Some(true)
  }

  // The nodes that some endpoint of some slice names as Ready.
  function ReadyNodes(endpoints: seq<Endpoint>): set<string> {
    set e | e in endpoints && IsReady(e) :: e.node.value
  }

  // The strictly increasing list of exactly those nodes.
  method ReadyNodeNames(slices: seq<seq<Endpoint>>) returns (names: seq<string>)
    ensures Order.Increasing(names, Order.Less)
    ensures forall n :: n in names <==> n in ReadyNodes(Flatten(slices))
    ensures forall n :: n in names <==>
      exists s :: 0 <= s < |slices| && Endpoint(Some(n), Some(true)) in slices[s]
  {
    names := [];
    var seen: set<string> := {};
    for s := 0 to |slices|
      invariant seen == ReadyNodes(Flatten(slices[..s]))
      invariant forall n :: n in names <==> n in seen
      invariant forall i, j :: 0 <= i < j < |names| ==> names[i] != names[j]
    {
      ghost var before := Flatten(slices[..s]);
      var endpoints := slices[s];
      assert before + endpoints[..0] == before;
      for e := 0 to |endpoints|
        invariant seen == ReadyNodes(before + endpoints[..e])
        invariant forall n :: n in names <==> n in seen
        invariant forall i, j :: 0 <= i < j < |names| ==> names[i] != names[j]
      {
        var ep := endpoints[e];
        NextEndpoint(before, endpoints, e);
        if ep.node.None? || ep.ready.None? || !ep.ready.value {
          continue;
        }
        var n := ep.node.value;
        if n in seen {
          continue;
        }
        seen := seen + {n};
        names := names + [n];
      }
      assert endpoints[..|endpoints|] == endpoints && slices[..s + 1][..s] == slices[..s];
    }
    assert slices[..|slices|] == slices;
    Order.SortOfEnumeration(names, seen);
    names := Order.Sort(names, Order.Itself);
    forall n ensures n in names <==> exists s :: 0 <= s < |slices| && Endpoint(Some(n), Some(true)) in slices[s] {
      InSomeSlice(slices, Endpoint(Some(n), Some(true)));
      assert n in ReadyNodes(Flatten(slices)) <==> Endpoint(Some(n), Some(true)) in Flatten(slices) by {
        assert IsReady(Endpoint(Some(n), Some(true)));
      }
    }
  }

  lemma {:induction false} InSomeSlice(slices: seq<seq<Endpoint>>, e: Endpoint)
    ensures e in Flatten(slices) <==> exists s :: 0 <= s < |slices| && e in slices[s]
  {
    if slices != [] {
      InSomeSlice(slices[..|slices| - 1], e);
      var last := |slices| - 1;
      if s :| 0 <= s < last && e in slices[..last][s] { assert e in slices[s]; }
      if s :| 0 <= s < |slices| && e in slices[s] && s < last { assert e in slices[..last][s]; }
    }
  }

  lemma NextEndpoint(before: seq<Endpoint>, endpoints: seq<Endpoint>, e: nat)
    requires e < |endpoints|
    ensures ReadyNodes(before + endpoints[..e + 1]) ==
            ReadyNodes(before + endpoints[..e]) + if IsReady(endpoints[e]) then {endpoints[e].node.value} else {}
  {
    assert before + endpoints[..e + 1] == before + endpoints[..e] + [endpoints[e]];
  }

  // net.JoinHostPort brackets a host that holds a colon.
  function EndpointURL(host: string, port: int): string {
    "http://" + (if ':' in host then "[" + host + "]" else host) + ":" + Itoa(port) + "/v1"
  }

  lemma URLIsWritten(host: string, port: int)
    ensures ':' !in host ==> EndpointURL(host, port) == "http://" + host + ":" + Itoa(port) + "/v1"
    ensures ':' in host ==> EndpointURL(host, port) == "http://[" + host + "]:" + Itoa(port) + "/v1"
  {
    hide Itoa;
    assert "http://" + ("[" + host + "]") + ":" == "http://[" + host + "]:";
  }

  function IPOf(nodes: map<string, Nodes.Node>, name: string): string {
    if name in nodes then Nodes.FirstIP(nodes[name]) else ""
  }

  // The endpoint is the least ready node that has an address, or nothing if none has one.
  ghost predicate IsEndpoint(ready: set<string>, nodes: map<string, Nodes.Node>, port: int, url: string) {
    || (url == "" && forall n :: n in ready ==> IPOf(nodes, n) == "")
    || exists n :: n in ready && IPOf(nodes, n) != "" && url == EndpointURL(IPOf(nodes, n), port)
                   && forall m :: m in ready && IPOf(nodes, m) != "" ==> Order.AtMost(n, m)
  }

  // `slices` is None when listing them failed; a Node that cannot be read is not in `nodes`.
  method ResolveEndpoint(slices: Option<seq<seq<Endpoint>>>, nodes: map<string, Nodes.Node>, port: int) returns (url: string)
    ensures slices.None? ==> url == ""
    ensures slices.Some? ==> IsEndpoint(ReadyNodes(Flatten(slices.value)), nodes, port, url)
  {
    if slices.None? { return ""; }
    var readyNodes := ReadyNodeNames(slices.value);
    for i := 0 to |readyNodes|
      invariant forall k :: 0 <= k < i ==> IPOf(nodes, readyNodes[k]) == ""
    {
      var name := readyNodes[i];
      var ip := Nodes.NodeInternalIP(if name in nodes then Some(nodes[name]) else None);
      if ip != "" {
        forall m | m in ReadyNodes(Flatten(slices.value)) && IPOf(nodes, m) != "" ensures Order.AtMost(name, m) {
          assert m in readyNodes;
          var k :| 0 <= k < |readyNodes| && readyNodes[k] == m;
        }
        assert name in readyNodes;
        return EndpointURL(ip, port);
      }
    }
    return "";
  }

  // The endpoint depends only on which nodes are ready and on their addresses.
  lemma EndpointIsDetermined(
      ready: set<string>, p: map<string, Nodes.Node>, q: map<string, Nodes.Node>, port: int, u: string, v: string)
    requires IsEndpoint(ready, p, port, u) && IsEndpoint(ready, q, port, v)
    requires forall n :: n in ready ==> IPOf(p, n) == IPOf(q, n)
    ensures u == v
  {
    if m :| m in ready && IPOf(p, m) != "" {
      var a :| a in ready && IPOf(p, a) != "" && u == EndpointURL(IPOf(p, a), port)
        && forall m :: m in ready && IPOf(p, m) != "" ==> Order.AtMost(a, m);
      var b :| b in ready && IPOf(q, b) != "" && v == EndpointURL(IPOf(q, b), port)
        && forall m :: m in ready && IPOf(q, m) != "" ==> Order.AtMost(b, m);
      assert Order.AtMost(a, b) && Order.AtMost(b, a);
      if a != b {
        Order.LessIsTransitive(a, b, a);
        Order.LessIsIrreflexive(a);
      }
    }
  }

  // Reordering slices or endpoints, or moving endpoints between slices, changes no ready node.
  lemma ReadyNodesIgnoreOrder(p: seq<seq<Endpoint>>, q: seq<seq<Endpoint>>)
    requires multiset(Flatten(p)) == multiset(Flatten(q))
    ensures ReadyNodes(Flatten(p)) == ReadyNodes(Flatten(q))
  {
    forall e ensures e in Flatten(p) <==> e in Flatten(q) {
      assert e in multiset(Flatten(p)) <==> e in multiset(Flatten(q));
    }
  }

  // ---------------------------------------------------------------- dropped Node updates

  lemma SameAddressesSameEndpoint(
      ready: set<string>, p: map<string, Nodes.Node>, q: map<string, Nodes.Node>, port: int, url: string)
    requires IsEndpoint(ready, p, port, url) && forall n :: n in ready ==> IPOf(p, n) == IPOf(q, n)
    ensures IsEndpoint(ready, q, port, url)
  {
  }

  lemma EndpointExists(ready: set<string>, nodes: map<string, Nodes.Node>, port: int) returns (url: string)
    ensures IsEndpoint(ready, nodes, port, url)
  {
    var names := Order.SortedNames(set n | n in ready && IPOf(nodes, n) != "");
    if names == [] {
      forall n | n in ready ensures IPOf(nodes, n) == "" { assert n !in names; }
      url := "";
    } else {
      assert names[0] in names;
      forall m | m in ready && IPOf(nodes, m) != "" ensures Order.AtMost(names[0], m) {
        assert m in names;
        var k :| 0 <= k < |names| && names[k] == m;
      }
      url := EndpointURL(IPOf(nodes, names[0]), port);
    }
  }

  // Every ready node with an address comes after `name`, or is it.
  ghost predicate Leads(ready: set<string>, nodes: map<string, Nodes.Node>, name: string) {
    forall m :: m in ready && IPOf(nodes, m) != "" ==> Order.AtMost(name, m)
  }

  // The endpoint is the leading node's, or without an address there, that of the other nodes.
  lemma LeaderDecides(
      ready: set<string>, nodes: map<string, Nodes.Node>, name: string, port: int, url: string, others: string)
    requires name in ready && Leads(ready, nodes, name)
    requires IsEndpoint(ready, nodes, port, url) && IsEndpoint(ready - {name}, nodes, port, others)
    ensures url == if IPOf(nodes, name) != "" then EndpointURL(IPOf(nodes, name), port) else others
  {
    hide EndpointURL;
    if IPOf(nodes, name) != "" {
      EndpointIsDetermined(ready, nodes, nodes, port, url, EndpointURL(IPOf(nodes, name), port));
    } else {
      assert IsEndpoint(ready, nodes, port, others);
      EndpointIsDetermined(ready, nodes, nodes, port, url, others);
    }
  }

  // A node that does not lead has no say.
  lemma OthersDecide(
      ready: set<string>, nodes: map<string, Nodes.Node>, name: string, after: Nodes.Node, port: int, u: string, v: string)
    requires name !in ready || exists m :: m in ready && IPOf(nodes, m) != "" && Order.Less(m, name)
    requires IsEndpoint(ready, nodes, port, u) && IsEndpoint(ready, nodes[name := after], port, v)
    ensures u == v
  {
    hide EndpointURL, Order.Less;
    var now := nodes[name := after];
    if name in ready {
      var m :| m in ready && IPOf(nodes, m) != "" && Order.Less(m, name);
      var n :| n in ready && IPOf(nodes, n) != "" && u == EndpointURL(IPOf(nodes, n), port)
        && forall m :: m in ready && IPOf(nodes, m) != "" ==> Order.AtMost(n, m);
      if n != m { Order.LessIsTransitive(n, m, name); }
      Order.LessIsIrreflexive(n);
      assert IPOf(now, n) == IPOf(nodes, n);
      forall x | x in ready && IPOf(now, x) != "" ensures Order.AtMost(n, x) {
        assert x != name ==> IPOf(now, x) == IPOf(nodes, x);
      }
    } else {
      SameAddressesSameEndpoint(ready, nodes, now, port, u);
    }
    EndpointIsDetermined(ready, now, now, port, u, v);
  }

  // A dropped update of the Node to `after`, and the endpoint there is then.
  ghost predicate DroppedTo(
      ready: set<string>, nodes: map<string, Nodes.Node>, name: string, after: Nodes.Node, port: int, url: string)
    requires name in nodes
  {
    !Nodes.Relevant(Some(nodes[name]), Some(after)) && IsEndpoint(ready, nodes[name := after], port, url)
  }

  // No dropped update of a Node moves the endpoint exactly when the Node is not ready, or a ready node
  // with an address comes before it, or each of its internal addresses leads to the endpoint there is
  // (an empty one leads to the endpoint of the other nodes).
  lemma DroppedUpdatesKeepTheEndpoint(
      ready: set<string>, nodes: map<string, Nodes.Node>, name: string, port: int, url: string, others: string)
    requires name in nodes
    requires IsEndpoint(ready, nodes, port, url) && IsEndpoint(ready - {name}, nodes, port, others)
    ensures (forall after, v :: DroppedTo(ready, nodes, name, after, port, v) ==> v == url)
      <==>
      || name !in ready
      || (exists m :: m in ready && IPOf(nodes, m) != "" && Order.Less(m, name))
      || (forall ip :: ip in Nodes.InternalOf(nodes[name].addresses) ==>
            (if ip != "" then EndpointURL(ip, port) else others) == url)
  {
    hide EndpointURL, IsEndpoint, Nodes.Relevant;
    var ips := Nodes.InternalOf(nodes[name].addresses);
    if name !in ready || exists m :: m in ready && IPOf(nodes, m) != "" && Order.Less(m, name) {
      forall after, v | DroppedTo(ready, nodes, name, after, port, v) ensures v == url {
        OthersDecide(ready, nodes, name, after, port, url, v);
      }
    } else {
      forall m | m in ready && IPOf(nodes, m) != "" ensures Order.AtMost(name, m) { Order.LessIsTotal(m, name); }
      LeaderDecides(ready, nodes, name, port, url, others);
      forall after, v | DroppedTo(ready, nodes, name, after, port, v)
        ensures v == if Nodes.FirstIP(after) != "" then EndpointURL(Nodes.FirstIP(after), port) else others
        ensures Nodes.FirstIP(after) in ips || Nodes.FirstIP(after) == Nodes.FirstIP(nodes[name]) == ""
      {
        SameAddressesSameEndpoint(ready - {name}, nodes, nodes[name := after], port, others);
        LeaderDecides(ready, nodes[name := after], name, port, v, others);
        Nodes.DroppedChoosesAmong(nodes[name], after);
      }
      if forall after, v :: DroppedTo(ready, nodes, name, after, port, v) ==> v == url {
        forall ip | ip in ips ensures (if ip != "" then EndpointURL(ip, port) else others) == url {
          var after := Nodes.CanBeFirst(nodes[name], ip);
          var v := EndpointExists(ready, nodes[name := after], port);
          assert DroppedTo(ready, nodes, name, after, port, v);
        }
      }
    }
  }

  // In particular a dropped update of a Node whose internal addresses are all one address.
  lemma DroppedUpdateKeepsTheEndpoint(
      ready: set<string>, nodes: map<string, Nodes.Node>, name: string, after: Nodes.Node, port: int, u: string, v: string)
    requires name in nodes && !Nodes.Relevant(Some(nodes[name]), Some(after)) && Nodes.OneAddress(nodes[name])
    requires IsEndpoint(ready, nodes, port, u) && IsEndpoint(ready, nodes[name := after], port, v)
    ensures u == v
  {
    Nodes.DroppedKeepsTheAddress(nodes[name], after);
    EndpointIsDetermined(ready, nodes, nodes[name := after], port, u, v);
  }
}
