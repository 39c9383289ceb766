/** What the controller learns from the nodes of the workload cluster: which of them it can talk
    to, and which machines are healthy. */
module WorkloadCluster {
  import opened Prelude
  import opened Remediation
  import opened ControlPlaneMachines

  /** Asking for a single node after it was listed. */
  datatype Lookup = Ready | NotReady | Missing | Failed

  /** The k8sd proxy of a node, by how far a request to it gets. */
  datatype Proxy = NoPod | PodNotReady | NoClient | Silent | Answers

  datatype NodeInfo = NodeInfo(name: NodeName, unreachable: bool, lookup: Lookup, proxy: Proxy)

  predicate DistinctNames(nodes: seq<NodeInfo>) {
    forall i, j :: 0 <= i < j < |nodes| ==> nodes[i].name != nodes[j].name
  }

  // ----- The proxy -----

  predicate Usable(node: NodeInfo, ignore: set<NodeName>) {
    node.name !in ignore && node.proxy.Answers?
  }

  function ProxyFor(nodes: seq<NodeInfo>, ignore: set<NodeName>): (r: Option<NodeName>)
    ensures r.None? <==> forall i :: 0 <= i < |nodes| ==> !Usable(nodes[i], ignore)
    ensures r.Some? ==> r.value !in ignore && exists i :: 0 <= i < |nodes| && Usable(nodes[i], ignore) && nodes[i].name == r.value
  {
    if nodes == [] then None
    else if Usable(nodes[0], ignore) then Some(nodes[0].name)
    else
      assert forall i :: 0 < i < |nodes| ==> nodes[i] == nodes[1..][i-1];
      ProxyFor(nodes[1..], ignore)
  }

  method GetK8sdProxyForControlPlane(nodes: seq<NodeInfo>, ignore: set<NodeName>) returns (proxy: Option<NodeName>)
    ensures proxy == ProxyFor(nodes, ignore)
  {
    for i := 0 to |nodes|
      invariant ProxyFor(nodes[i..], ignore) == ProxyFor(nodes, ignore)
    {
      var node := nodes[i];
      if node.name in ignore {
        continue;
      }
      if node.proxy.NoPod? {
        continue;
      }
      if node.proxy.PodNotReady? {
        continue;
      }
      if node.proxy.NoClient? {
        continue;
      }
      if node.proxy.Silent? {
        continue;
      }
      return Some(node.name);
    }
    proxy := None;
  }

  // ----- The health of the machines -----

  predicate DistinctNodes(machines: Machines) {
    forall a, b :: a in machines && b in machines && a != b && machines[a].node.Some? ==> machines[a].node != machines[b].node
  }

  predicate Hosts(node: NodeInfo, m: Machine) {
    m.node == Some(node.name)
  }

  /** The condition of the machine on a node. A node that is there but not ready changes nothing. */
  function Report(node: NodeInfo, m: Machine): Option<Condition> {
    if m.deleting then Some(IsFalse)
    else if node.unreachable then Some(IsUnknown)
    else match node.lookup
      case Ready => Some(IsTrue)
      case NotReady => m.agent
      case Missing => Some(IsFalse)
      case Failed => Some(IsUnknown)
  }

  /** After a failed lookup no further machine is looked at. */
  predicate Aborts(machines: Machines, node: NodeInfo) {
    && !node.unreachable && (node.lookup.Missing? || node.lookup.Failed?)
    && exists n :: n in machines && Hosts(node, machines[n]) && !machines[n].deleting
  }

  function LastLookedAt(machines: Machines, nodes: seq<NodeInfo>, i: nat): (k: nat)
    requires i <= |nodes|
    ensures i <= k <= |nodes|
    ensures forall j :: i <= j < k ==> !Aborts(machines, nodes[j])
    ensures k < |nodes| ==> Aborts(machines, nodes[k])
    decreases |nodes| - i
  {
    if i == |nodes| || Aborts(machines, nodes[i]) then i else LastLookedAt(machines, nodes, i + 1)
  }

  /** What an inspection that listed these nodes says of one machine. */
  predicate InspectedOne(nodes: seq<NodeInfo>, last: nat, m: Machine, agent: Option<Condition>) {
    && (forall i :: 0 <= i < |nodes| && i <= last && Hosts(nodes[i], m) ==> agent == Report(nodes[i], m))
    && ((forall i :: 0 <= i < |nodes| && i <= last ==> !Hosts(nodes[i], m)) ==>
          agent == if last == |nodes| && m.node.Some? then Some(IsFalse) else m.agent)
  }

  /** The machines after an inspection; all unknown if the nodes could not be listed. */
  predicate Inspected(machines: Machines, nodes: Option<seq<NodeInfo>>, r: Machines) {
    && OnlyAgentsDiffer(machines, r)
    && forall n :: n in machines ==>
      if nodes.None? then r[n].agent == Some(IsUnknown)
      else InspectedOne(nodes.value, LastLookedAt(machines, nodes.value, 0), machines[n], r[n].agent)
  }

  predicate SameButAgent(m: Machine, r: Machine) {
    r == m.(agent := r.agent)
  }

  predicate OnlyAgentsDiffer(machines: Machines, r: Machines) {
    r.Keys == machines.Keys && forall n :: n in machines ==> SameButAgent(machines[n], r[n])
  }

  predicate Vouches(node: NodeInfo, m: Machine) {
    Hosts(node, m) && !m.deleting && !node.unreachable && node.lookup.Ready?
  }

  /** A machine is called healthy only if it was so before or its node is reachable and ready. */
  predicate HealthyForAReason(nodes: seq<NodeInfo>, m: Machine, agent: Option<Condition>) {
    agent == Some(IsTrue) && agent != m.agent ==> exists i :: 0 <= i < |nodes| && Vouches(nodes[i], m)
  }

  /** The first i nodes have been looked at. */
  predicate SoFar(nodes: seq<NodeInfo>, i: nat, m: Machine, agent: Option<Condition>)
    requires i <= |nodes|
  {
    && (forall j :: 0 <= j < i && Hosts(nodes[j], m) ==> agent == Report(nodes[j], m))
    && ((forall j :: 0 <= j < i ==> !Hosts(nodes[j], m)) ==> agent == m.agent)
  }

  /** The machine on a node, if any. */
  method HostedOn(machines: Machines, node: NodeInfo) returns (r: Option<Name>)
    ensures r.Some? ==> r.value in machines && Hosts(node, machines[r.value])
    ensures r.None? ==> forall n :: n in machines ==> !Hosts(node, machines[n])
  {
    var rest := machines.Keys;
    while rest != {}
      invariant rest <= machines.Keys
      invariant forall n :: n in machines && n !in rest ==> !Hosts(node, machines[n])
      decreases rest
    {
      var n :| n in rest;
      if Hosts(node, machines[n]) {
        return Some(n);
      }
      rest := rest - {n};
    }
    r := None;
  }

  /** Look at the machine on one listed node; stop says that the lookup of the node failed. */
  method InspectMachine(m: Machine, node: NodeInfo) returns (agent: Option<Condition>, stop: bool)
    requires Hosts(node, m)
    ensures agent == Report(node, m)
    ensures agent == Some(IsTrue) && agent != m.agent ==> Vouches(node, m)
    ensures stop <==> !m.deleting && !node.unreachable && (node.lookup.Missing? || node.lookup.Failed?)
  {
    agent, stop := m.agent, false;
    if m.deleting {
      agent := Some(IsFalse);
    } else if node.unreachable {
      agent := Some(IsUnknown);
    } else if node.lookup.Missing? {
      agent, stop := Some(IsFalse), true;
    } else if node.lookup.Failed? {
      agent, stop := Some(IsUnknown), true;
    } else if node.lookup.Ready? {
      agent := Some(IsTrue);
    }
  }

  /** What inspecting node i adds to an inspection that has reached it. */
  lemma OneMoreNode(nodes: seq<NodeInfo>, i: nat, m: Machine, was: Machine, agent: Option<Condition>)
    requires i < |nodes| && SameButAgent(m, was)
    ensures HealthyForAReason(nodes, m, was.agent) && (agent == was.agent || (agent == Some(IsTrue) ==> Vouches(nodes[i], was)))
      ==> HealthyForAReason(nodes, m, agent)
    ensures
      && DistinctNames(nodes) && SoFar(nodes, i, m, was.agent)
      && agent == (if Hosts(nodes[i], was) then Report(nodes[i], was) else was.agent)
      ==> SoFar(nodes, i + 1, m, agent)
  {
  }

  lemma Stopped(nodes: seq<NodeInfo>, i: nat, m: Machine, agent: Option<Condition>)
    requires i < |nodes| && SoFar(nodes, i + 1, m, agent)
    ensures InspectedOne(nodes, i, m, agent)
  {
  }

  lemma AbortsToo(machines: Machines, r: Machines, node: NodeInfo)
    requires OnlyAgentsDiffer(machines, r)
    ensures Aborts(machines, node) == Aborts(r, node) && DistinctNodes(machines) == DistinctNodes(r)
  {
    assert forall n :: n in machines ==> SameButAgent(machines[n], r[n]);
  }

  /** One listed node has been looked at. */
  predicate LookedAt(machines: Machines, node: NodeInfo, r: Machines, stop: bool) {
    && OnlyAgentsDiffer(machines, r)
    && (forall n :: n in machines && r[n].agent != machines[n].agent && r[n].agent == Some(IsTrue) ==> Vouches(node, machines[n]))
    && (DistinctNodes(machines) ==>
          && stop == Aborts(machines, node)
          && forall n :: n in machines ==> r[n].agent == if Hosts(node, machines[n]) then Report(node, machines[n]) else machines[n].agent)
  }

  /** Look at one listed node. */
  method InspectNode(machines: Machines, node: NodeInfo) returns (r: Machines, stop: bool)
    ensures LookedAt(machines, node, r, stop)
  {
    var hosted := HostedOn(machines, node);
    if hosted.None? {
      return machines, false;
    }
    var agent;
    agent, stop := InspectMachine(machines[hosted.value], node);
    r := machines[hosted.value := machines[hosted.value].(agent := agent)];
  }

  predicate Distinct(machines: Machines, nodes: seq<NodeInfo>) {
    DistinctNodes(machines) && DistinctNames(nodes)
  }

  /** The first i nodes have been looked at, and none of them stopped the inspection. */
  predicate Halfway(machines: Machines, nodes: seq<NodeInfo>, i: nat, r: Machines)
    requires i <= |nodes|
  {
    && OnlyAgentsDiffer(machines, r)
    && (forall n :: n in machines ==> HealthyForAReason(nodes, machines[n], r[n].agent))
    && (Distinct(machines, nodes) ==>
          && i <= LastLookedAt(machines, nodes, 0)
          && forall n :: n in machines ==> SoFar(nodes, i, machines[n], r[n].agent))
  }

  /** What holds of one machine when node i has been looked at, too. */
  predicate OneHalfway(machines: Machines, nodes: seq<NodeInfo>, i: nat, n: Name, r: Machines)
    requires n in machines && n in r && i <= |nodes|
  {
    && SameButAgent(machines[n], r[n])
    && HealthyForAReason(nodes, machines[n], r[n].agent)
    && (Distinct(machines, nodes) ==> SoFar(nodes, i, machines[n], r[n].agent))
  }

  lemma MachineLookedAt(machines: Machines, nodes: seq<NodeInfo>, i: nat, was: Machines, r: Machines, stop: bool, n: Name)
    requires i < |nodes| && Halfway(machines, nodes, i, was) && LookedAt(was, nodes[i], r, stop)
    requires n in machines
    ensures OneHalfway(machines, nodes, i + 1, n, r)
  {
    AbortsToo(machines, was, nodes[i]);
    assert SameButAgent(machines[n], was[n]) && SameButAgent(was[n], r[n]);
    OneMoreNode(nodes, i, machines[n], was[n], r[n].agent);
  }

  lemma NodeLookedAt(machines: Machines, nodes: seq<NodeInfo>, i: nat, was: Machines, r: Machines, stop: bool)
    requires i < |nodes| && Halfway(machines, nodes, i, was) && LookedAt(was, nodes[i], r, stop)
    ensures OnlyAgentsDiffer(machines, r)
    ensures forall n :: n in machines ==> OneHalfway(machines, nodes, i + 1, n, r)
    ensures Distinct(machines, nodes) ==> stop == Aborts(machines, nodes[i])
  {
    AbortsToo(machines, was, nodes[i]);
    forall n | n in machines
      ensures OneHalfway(machines, nodes, i + 1, n, r)
    {
      MachineLookedAt(machines, nodes, i, was, r, stop, n);
    }
  }

  lemma LastOneIs(machines: Machines, nodes: seq<NodeInfo>, i: nat)
    requires i < |nodes| && i <= LastLookedAt(machines, nodes, 0) && Aborts(machines, nodes[i])
    ensures LastLookedAt(machines, nodes, 0) == i
  {
  }

  lemma GoesOn(machines: Machines, nodes: seq<NodeInfo>, i: nat, r: Machines)
    requires i < |nodes| && OnlyAgentsDiffer(machines, r)
    requires Distinct(machines, nodes) ==> i <= LastLookedAt(machines, nodes, 0) && !Aborts(machines, nodes[i])
    requires forall n :: n in machines ==> OneHalfway(machines, nodes, i + 1, n, r)
    ensures Halfway(machines, nodes, i + 1, r)
  {
    forall n | n in machines
      ensures HealthyForAReason(nodes, machines[n], r[n].agent)
      ensures Distinct(machines, nodes) ==> SoFar(nodes, i + 1, machines[n], r[n].agent)
    {
      assert OneHalfway(machines, nodes, i + 1, n, r);
    }
  }

  lemma InspectionStops(machines: Machines, nodes: seq<NodeInfo>, i: nat, r: Machines)
    requires i < |nodes| && OnlyAgentsDiffer(machines, r) && Distinct(machines, nodes)
    requires i <= LastLookedAt(machines, nodes, 0) && Aborts(machines, nodes[i])
    requires forall n :: n in machines ==> OneHalfway(machines, nodes, i + 1, n, r)
    ensures Inspected(machines, Some(nodes), r)
  {
    LastOneIs(machines, nodes, i);
    forall n | n in machines
      ensures InspectedOne(nodes, LastLookedAt(machines, nodes, 0), machines[n], r[n].agent)
    {
      assert OneHalfway(machines, nodes, i + 1, n, r);
      Stopped(nodes, i, machines[n], r[n].agent);
    }
  }

  lemma StopsOrGoesOn(machines: Machines, nodes: seq<NodeInfo>, i: nat, was: Machines, r: Machines, stop: bool)
    requires i < |nodes| && Halfway(machines, nodes, i, was) && LookedAt(was, nodes[i], r, stop)
    ensures OnlyAgentsDiffer(machines, r)
    ensures forall n :: n in machines ==> HealthyForAReason(nodes, machines[n], r[n].agent)
    ensures if stop then Distinct(machines, nodes) ==> Inspected(machines, Some(nodes), r) else Halfway(machines, nodes, i + 1, r)
  {
    NodeLookedAt(machines, nodes, i, was, r, stop);
    assert forall n :: n in machines ==> OneHalfway(machines, nodes, i + 1, n, r);
    if !stop {
      GoesOn(machines, nodes, i, r);
    } else if Distinct(machines, nodes) {
      InspectionStops(machines, nodes, i, r);
    }
  }

  method UpdateAgentConditions(machines: Machines, nodes: Option<seq<NodeInfo>>) returns (r: Machines)
    ensures OnlyAgentsDiffer(machines, r)
    ensures forall n :: n in machines ==> HealthyForAReason(nodes.GetOr([]), machines[n], r[n].agent)
    ensures Distinct(machines, nodes.GetOr([])) ==> Inspected(machines, nodes, r)
    ensures nodes.None? ==> forall n :: n in machines ==> n in r && r[n].agent == Some(IsUnknown)
    ensures nodes.Some? && Distinct(machines, nodes.value) ==>
      forall n, i :: n in machines && 0 <= i < |nodes.value| && machines[n].node == Some(nodes.value[i].name) && GetsAsFarAs(machines, nodes.value, i) ==>
          && n in r
          && (machines[n].deleting ==> r[n].agent == Some(IsFalse))
          && (!machines[n].deleting && nodes.value[i].unreachable ==> r[n].agent == Some(IsUnknown))
          && (!machines[n].deleting && !nodes.value[i].unreachable ==>
                && (nodes.value[i].lookup == Missing ==> r[n].agent == Some(IsFalse))
                && (nodes.value[i].lookup == Lookup.Failed ==> r[n].agent == Some(IsUnknown))
                && (nodes.value[i].lookup == Ready ==> r[n].agent == Some(IsTrue))
                && (nodes.value[i].lookup == NotReady ==> r[n].agent == machines[n].agent))
  {
    if nodes.None? {
      return map n | n in machines :: machines[n].(agent := Some(IsUnknown));
    }
    r := InspectNodes(machines, nodes.value);
    if Distinct(machines, nodes.value) {
      EveryMachineInPlainTerms(machines, nodes.value, r);
    }
  }

  /** Look at the listed nodes in turn, up to a lookup that fails. */
  method InspectNodes(machines: Machines, listed: seq<NodeInfo>) returns (r: Machines)
    ensures OnlyAgentsDiffer(machines, r)
    ensures forall n :: n in machines ==> HealthyForAReason(listed, machines[n], r[n].agent)
    ensures Distinct(machines, listed) ==> Inspected(machines, Some(listed), r)
  {
    r := machines;
    for i := 0 to |listed|
      invariant Halfway(machines, listed, i, r)
    {
      ghost var was := r;
      var stop;
      r, stop := InspectNode(r, listed[i]);
      StopsOrGoesOn(machines, listed, i, was, r, stop);
      if stop {
        return;
      }
    }
    r := ReportMissing(machines, listed, r);
  }

  /** The machines whose node was not listed at all. */
  method ReportMissing(machines: Machines, nodes: seq<NodeInfo>, was: Machines) returns (r: Machines)
    requires Halfway(machines, nodes, |nodes|, was)
    ensures OnlyAgentsDiffer(machines, r)
    ensures forall n :: n in machines ==> HealthyForAReason(nodes, machines[n], r[n].agent)
    ensures Distinct(machines, nodes) ==> Inspected(machines, Some(nodes), r)
  {
    r := map n | n in was ::
      if was[n].node.Some? && (forall i :: 0 <= i < |nodes| ==> !Hosts(nodes[i], was[n]))
      then was[n].(agent := Some(IsFalse)) else was[n];
    forall n | n in machines
      ensures SameButAgent(machines[n], r[n]) && HealthyForAReason(nodes, machines[n], r[n].agent)
      ensures Distinct(machines, nodes) ==> InspectedOne(nodes, |nodes|, machines[n], r[n].agent)
    {
      assert SameButAgent(machines[n], was[n]) && HealthyForAReason(nodes, machines[n], was[n].agent);
    }
  }

  // ----- In plain terms -----

  /** The proxy is on the first listed node that is not ignored and whose pod answers. */
  lemma {:induction false} ProxyInPlainTerms(nodes: seq<NodeInfo>, ignore: set<NodeName>, i: nat)
    requires i < |nodes| && nodes[i].name !in ignore && nodes[i].proxy == Answers
    requires forall j :: 0 <= j < i ==> nodes[j].name in ignore || nodes[j].proxy != Answers
    ensures ProxyFor(nodes, ignore) == Some(nodes[i].name)
  {
    if i > 0 {
      forall j | 0 <= j < i - 1
        ensures nodes[1..][j] == nodes[j + 1]
      {
      }
      ProxyInPlainTerms(nodes[1..], ignore, i - 1);
    }
  }

  /** No earlier node, reachable and with a machine that is not being deleted, was missing or could not
      be looked up. */
  predicate GetsAsFarAs(machines: Machines, nodes: seq<NodeInfo>, i: nat)
    requires i <= |nodes|
  {
    forall j, o :: 0 <= j < i && o in machines && machines[o].node == Some(nodes[j].name) && !machines[o].deleting ==>
      nodes[j].unreachable || nodes[j].lookup in {Ready, NotReady}
  }

  /** What an inspection makes of the machine on a node that it gets to. */
  lemma InspectionInPlainTerms(machines: Machines, nodes: seq<NodeInfo>, r: Machines, n: Name, i: nat)
    requires Distinct(machines, nodes) && Inspected(machines, Some(nodes), r)
    requires n in machines && i < |nodes| && machines[n].node == Some(nodes[i].name)
    requires GetsAsFarAs(machines, nodes, i)
    ensures n in r && r[n] == machines[n].(agent := r[n].agent)
    ensures machines[n].deleting ==> r[n].agent == Some(IsFalse)
    ensures !machines[n].deleting && nodes[i].unreachable ==> r[n].agent == Some(IsUnknown)
    ensures !machines[n].deleting && !nodes[i].unreachable ==>
      && (nodes[i].lookup == Missing ==> r[n].agent == Some(IsFalse))
      && (nodes[i].lookup == Lookup.Failed ==> r[n].agent == Some(IsUnknown))
      && (nodes[i].lookup == Ready ==> r[n].agent == Some(IsTrue))
      && (nodes[i].lookup == NotReady ==> r[n].agent == machines[n].agent)
  {
    forall j | 0 <= j < i
      ensures !Aborts(machines, nodes[j])
    {
    }
    GetsTo(machines, nodes, 0, i);
    assert SameButAgent(machines[n], r[n]);
    assert InspectedOne(nodes, LastLookedAt(machines, nodes, 0), machines[n], r[n].agent);
    assert Hosts(nodes[i], machines[n]);
  }

  lemma EveryMachineInPlainTerms(machines: Machines, nodes: seq<NodeInfo>, r: Machines)
    requires Distinct(machines, nodes) && Inspected(machines, Some(nodes), r)
    ensures forall n, i :: n in machines && 0 <= i < |nodes| && machines[n].node == Some(nodes[i].name) && GetsAsFarAs(machines, nodes, i) ==>
      && n in r
      && (machines[n].deleting ==> r[n].agent == Some(IsFalse))
      && (!machines[n].deleting && nodes[i].unreachable ==> r[n].agent == Some(IsUnknown))
      && (!machines[n].deleting && !nodes[i].unreachable ==>
            && (nodes[i].lookup == Missing ==> r[n].agent == Some(IsFalse))
            && (nodes[i].lookup == Lookup.Failed ==> r[n].agent == Some(IsUnknown))
            && (nodes[i].lookup == Ready ==> r[n].agent == Some(IsTrue))
            && (nodes[i].lookup == NotReady ==> r[n].agent == machines[n].agent))
  {
    forall n, i | n in machines && 0 <= i < |nodes| && machines[n].node == Some(nodes[i].name) && GetsAsFarAs(machines, nodes, i)
      ensures n in r && r[n].agent == Report(nodes[i], machines[n])
    {
      InspectionInPlainTerms(machines, nodes, r, n, i);
    }
  }

  lemma {:induction false} GetsTo(machines: Machines, nodes: seq<NodeInfo>, from: nat, i: nat)
    requires from <= i < |nodes| && forall j :: from <= j < i ==> !Aborts(machines, nodes[j])
    ensures i <= LastLookedAt(machines, nodes, from)
    decreases i - from
  {
    if from < i {
      GetsTo(machines, nodes, from + 1, i);
    }
  }

  /** After a lookup that found nothing or failed, no later node is looked at; if the nodes could not be
      listed at all, every machine is unknown. */
  lemma StopsInPlainTerms(machines: Machines, nodes: seq<NodeInfo>, r: Machines, n: Name, o: Name, i: nat, k: nat)
    requires Distinct(machines, nodes) && Inspected(machines, Some(nodes), r)
    requires n in machines && k < i < |nodes| && machines[n].node == Some(nodes[i].name)
    requires o in machines && machines[o].node == Some(nodes[k].name) && !machines[o].deleting
    requires !nodes[k].unreachable && nodes[k].lookup in {Missing, Lookup.Failed}
    ensures n in r && r[n] == machines[n]
  {
    assert Aborts(machines, nodes[k]);
    assert LastLookedAt(machines, nodes, 0) <= k;
    assert SameButAgent(machines[n], r[n]);
    assert InspectedOne(nodes, LastLookedAt(machines, nodes, 0), machines[n], r[n].agent);
    assert forall j :: 0 <= j < |nodes| && j <= k ==> !Hosts(nodes[j], machines[n]);
  }

  lemma UnlistedInPlainTerms(machines: Machines, r: Machines, n: Name)
    requires Inspected(machines, None, r) && n in machines
    ensures n in r && r[n] == machines[n].(agent := Some(IsUnknown))
  {
    assert SameButAgent(machines[n], r[n]);
  }

  /** And of a machine whose node is not listed, if every node can be looked at. */
  lemma MissingNodeInPlainTerms(machines: Machines, nodes: seq<NodeInfo>, r: Machines, n: Name)
    requires Distinct(machines, nodes) && Inspected(machines, Some(nodes), r)
    requires n in machines && forall i :: 0 <= i < |nodes| ==> machines[n].node != Some(nodes[i].name)
    requires GetsAsFarAs(machines, nodes, |nodes|)
    ensures n in r && r[n].agent == if machines[n].node.Some? then Some(IsFalse) else machines[n].agent
  {
    forall j | 0 <= j < |nodes|
      ensures !Aborts(machines, nodes[j])
    {
    }
    assert LastLookedAt(machines, nodes, 0) == |nodes|;
    assert InspectedOne(nodes, |nodes|, machines[n], r[n].agent);
  }

  /** After the inspection of a control plane with a node that is unreachable, or gone, nothing is made
      or removed, unless it is the machine of that node that is to be removed. */
  lemma UnreachableStopsChanges(machines: Machines, nodes: seq<NodeInfo>, r: Machines, n: Name, i: nat, excluded: Option<Name>)
    requires Distinct(machines, nodes) && Inspected(machines, Some(nodes), r)
    requires n in machines && i < |nodes| && machines[n].node == Some(nodes[i].name)
    requires GetsAsFarAs(machines, nodes, i)
    requires nodes[i].unreachable || nodes[i].lookup in {Missing, Lookup.Failed}
    ensures Preflight(r, excluded) ==> excluded == Some(n)
  {
    InspectionInPlainTerms(machines, nodes, r, n, i);
    assert |r.Keys| == |r| && r.Keys != {};
  }
}
