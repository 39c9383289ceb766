/** A control plane over its lifetime: every write of its controller, whatever the specification
    is at that moment, and every step of the world around it. */
module Lifecycle {
  import opened Prelude
  import opened MachineFilters
  import opened Remediation
  import opened ControlPlaneMachines
  import opened WorkloadCluster

  /** The remediation annotation carries its history: its last element is its value. The last
      three fields are history: the in-progress annotation has been handed to a machine; the
      annotation of a remediation whose closing patch has not landed yet; how many such patches
      never landed. */
  datatype ControlPlane = ControlPlane(
    machines: Machines,
    born: set<Name>,                     // every name ever used
    members: set<NodeName>,              // of the k8sd cluster
    nodes: seq<NodeInfo>,                // control plane nodes of the workload cluster
    remediation: seq<RemediationData>,   // remediation-in-progress, [] if it is absent
    initialized: bool,
    hasConfigMap: bool,
    filled: bool,
    pending: seq<RemediationData>,
    lost: nat)

  datatype Move =
    | Create(name: Name, spec: KcpSpec, desc: Description, created: nat, domain: Option<string>)
    | DeleteSurplus(name: Name, spec: KcpSpec, annotated: set<Name>)
    | DeleteUnhealthy(name: Name, strategy: Option<Strategy>, now: int)
    | SetAgent(name: Name, agent: Option<Condition>)
    | RemoveMember(node: NodeName, via: NodeName)
    | SaveRemediation
    | ClearRemediation
    | SaveInitialized
    | NodeUp(name: Name, node: NodeName)
    | Vanish(name: Name)
    | MarkHealth(name: Name, unhealthy: bool)
    | Annotate(name: Name, on: bool)
    | ListNodes(nodes: seq<NodeInfo>)
    | MemberJoins(node: NodeName)
    | ConfigMapAppears

  function NewMachine(desc: Description, created: nat, domain: Option<string>, remediation: seq<RemediationData>): Machine {
    Machine(desc, created, domain, false, None, None, false, false, remediation, false)
  }

  /** May be chosen to make room, by a pass that saw these delete annotations. */
  predicate Removable(spec: KcpSpec, machines: Machines, name: Name, annotated: set<Name>) {
    && Wants(spec, machines) == ScaleDown
    && name in CandidatesAmong(machines.Keys, annotated, MachinesNeedingRollout(spec, machines))
    && Preflight(machines, Some(name))
  }

  predicate CanMove(mv: Move, s: ControlPlane) {
    match mv
    case Create(name, spec, desc, created, _) =>
      && name !in s.born
      && ClonedFrom(spec.wanted, desc) && (spec.deadline.Some? ==> spec.deadline.value <= created)
      && (Wants(spec, s.machines) == Initialize
          || (Wants(spec, s.machines) == ScaleUp && Preflight(s.machines, None)))
    case DeleteSurplus(name, spec, annotated) => name in s.machines && Removable(spec, s.machines, name, annotated)
    case DeleteUnhealthy(name, strategy, now) =>
      && name in s.machines && !s.machines[name].deleting
      && s.remediation == []
      && Verdict(LastOf(s.machines[name].chain), strategy, now).Some?
      && (s.initialized ==> |s.machines| > 1 && !HasDeletingMachine(s.machines))
    case SetAgent(name, agent) =>
      && name in s.machines && s.initialized
      && (agent == Some(IsTrue) ==> s.machines[name].node.Some? && !s.machines[name].deleting)
    case RemoveMember(node, via) => via in s.members && via != node
    case SaveRemediation => s.pending != [] && s.remediation == []
    case ClearRemediation => s.filled
    case SaveInitialized => s.hasConfigMap
    case NodeUp(name, node) =>
      && name in s.machines && s.machines[name].node.None?
      && forall n :: n in s.machines ==> s.machines[n].node != Some(node)
    case Vanish(name) => name in s.machines && s.machines[name].deleting
    case MarkHealth(name, _) => name in s.machines
    case Annotate(name, _) => name in s.machines
    case ListNodes(nodes) => DistinctNames(nodes)
    case MemberJoins(_) => true
    case ConfigMapAppears => true
  }

  function Update(s: ControlPlane, name: Name, m: Machine): ControlPlane {
    s.(machines := s.machines[name := m])
  }

  function Moved(mv: Move, s: ControlPlane): ControlPlane
    requires CanMove(mv, s)
  {
    match mv
    case Create(name, _, desc, created, domain) =>
      Update(s, name, NewMachine(desc, created, domain, s.remediation))
        .(born := s.born + {name}, filled := s.filled || s.remediation != [])
    case DeleteSurplus(name, _, _) => Update(s, name, s.machines[name].(deleting := true))
    case DeleteUnhealthy(name, strategy, now) =>
      Update(s, name, s.machines[name].(deleting := true)).(
        pending := Extended(s.machines[name].chain, name, strategy, now),
        lost := if s.pending == [] then s.lost else s.lost + 1)
    case SetAgent(name, agent) =>
      Update(s, name, s.machines[name].(agent := agent, everHealthy := s.machines[name].everHealthy || agent == Some(IsTrue)))
    case RemoveMember(node, _) => s.(members := s.members - {node})
    case SaveRemediation => s.(remediation := s.pending, pending := [], filled := false)
    case ClearRemediation => s.(remediation := [], filled := false)
    case SaveInitialized => s.(initialized := true)
    case NodeUp(name, node) => Update(s, name, s.machines[name].(node := Some(node)))
    case Vanish(name) => s.(machines := s.machines - {name})
    case MarkHealth(name, unhealthy) => Update(s, name, s.machines[name].(unhealthy := unhealthy))
    case Annotate(name, on) => Update(s, name, s.machines[name].(deleteAnnotation := on))
    case ListNodes(nodes) => s.(nodes := nodes)
    case MemberJoins(node) => s.(members := s.members + {node})
    case ConfigMapAppears => s.(hasConfigMap := true)
  }

  function Run(start: ControlPlane, moves: seq<Move>): Option<ControlPlane> {
    if moves == [] then Some(start)
    else
      var last := |moves| - 1;
      match Run(start, moves[..last])
      case None => None
      case Some(s) => if CanMove(moves[last], s) then Some(Moved(moves[last], s)) else None
  }

  lemma {:induction false} RunSnoc(start: ControlPlane, moves: seq<Move>, mv: Move)
    requires Run(start, moves).Some? && CanMove(mv, Run(start, moves).value)
    ensures Run(start, moves + [mv]) == Some(Moved(mv, Run(start, moves).value))
  {
    assert (moves + [mv])[..|moves|] == moves;
  }

  // ----- What every reachable state satisfies -----

  predicate SaneMachine(initialized: bool, m: Machine) {
    m.agent == Some(IsTrue) ==> initialized && m.everHealthy
  }

  ghost predicate Sane(s: ControlPlane) {
    forall n :: n in s.machines ==> SaneMachine(s.initialized, s.machines[n])
  }

  ghost predicate Inv(s: ControlPlane) {
    && s.machines.Keys <= s.born
    && DistinctNodes(s.machines)
    && DistinctNames(s.nodes)
    && (s.filled ==> s.remediation != [])
    && Sane(s)
  }

  /** A run may start from no machines at all. */
  lemma EmptyStart(s: ControlPlane)
    requires s.machines == map[] && s.nodes == [] && s.remediation == [] && !s.filled
    ensures Inv(s) && Calm(s)
  {
  }

  lemma MoveKeepsInv(mv: Move, s: ControlPlane)
    requires Inv(s) && CanMove(mv, s)
    ensures Inv(Moved(mv, s))
  {
    MoveKeepsSane(mv, s);
    MoveKeepsDistinct(mv, s);
  }

  lemma MoveKeepsSane(mv: Move, s: ControlPlane)
    requires Sane(s) && CanMove(mv, s)
    ensures Sane(Moved(mv, s))
  {
  }

  lemma MoveKeepsDistinct(mv: Move, s: ControlPlane)
    requires DistinctNodes(s.machines) && CanMove(mv, s)
    ensures DistinctNodes(Moved(mv, s).machines)
  {
    match mv {
      case NodeUp(name, node) => NodeUpKeepsDistinct(s.machines, name, node);
      case Vanish(_) =>
      case Create(name, _, _, _, _) => SameNodeKeepsDistinct(s.machines, name, Moved(mv, s).machines[name]);
      case DeleteSurplus(name, _, _) => SameNodeKeepsDistinct(s.machines, name, Moved(mv, s).machines[name]);
      case DeleteUnhealthy(name, _, _) => SameNodeKeepsDistinct(s.machines, name, Moved(mv, s).machines[name]);
      case SetAgent(name, _) => SameNodeKeepsDistinct(s.machines, name, Moved(mv, s).machines[name]);
      case MarkHealth(name, _) => SameNodeKeepsDistinct(s.machines, name, Moved(mv, s).machines[name]);
      case Annotate(name, _) => SameNodeKeepsDistinct(s.machines, name, Moved(mv, s).machines[name]);
      case _ =>
    }
  }

  lemma SameNodeKeepsDistinct(machines: Machines, name: Name, m: Machine)
    requires DistinctNodes(machines) && (m.node.None? || (name in machines && m.node == machines[name].node))
    ensures DistinctNodes(machines[name := m])
  {
  }

  lemma NodeUpKeepsDistinct(machines: Machines, name: Name, node: NodeName)
    requires DistinctNodes(machines) && name in machines
    requires forall n :: n in machines ==> machines[n].node != Some(node)
    ensures DistinctNodes(machines[name := machines[name].(node := Some(node))])
  {
  }

  // ----- One disruption at a time -----

  ghost predicate AtMostOneDeleting(machines: Machines) {
    forall a, b :: a in machines && b in machines && machines[a].deleting && machines[b].deleting ==> a == b
  }

  ghost predicate AtMostOneNeverHealthy(machines: Machines) {
    forall a, b :: a in machines && b in machines && !machines[a].everHealthy && !machines[b].everHealthy ==> a == b
  }

  ghost predicate AtMostOne(machines: Machines) {
    forall a, b :: a in machines && b in machines ==> a == b
  }

  ghost predicate Calm(s: ControlPlane) {
    && Sane(s)
    && (!s.initialized ==> AtMostOne(s.machines))
    && AtMostOneDeleting(s.machines)
    && AtMostOneNeverHealthy(s.machines)
  }

  lemma MoveKeepsCalm(mv: Move, s: ControlPlane)
    requires Calm(s) && CanMove(mv, s)
    ensures Calm(Moved(mv, s))
  {
    match mv {
      case Create(_, _, _, _, _) => CreateKeepsCalm(mv, s);
      case DeleteSurplus(name, _, _) => DeleteKeepsCalm(s, name);
      case DeleteUnhealthy(name, _, _) => DeleteKeepsCalm(s, name);
      case SetAgent(name, _) => TouchKeepsCalm(s, name, Moved(mv, s).machines[name]);
      case NodeUp(name, _) => TouchKeepsCalm(s, name, Moved(mv, s).machines[name]);
      case MarkHealth(name, _) => TouchKeepsCalm(s, name, Moved(mv, s).machines[name]);
      case Annotate(name, _) => TouchKeepsCalm(s, name, Moved(mv, s).machines[name]);
      case Vanish(name) =>
      case _ =>
    }
  }

  lemma DeleteKeepsCalm(s: ControlPlane, name: Name)
    requires Calm(s) && name in s.machines
    requires s.initialized ==> !HasDeletingMachine(s.machines)
    ensures Calm(Update(s, name, s.machines[name].(deleting := true)))
  {
  }

  lemma TouchKeepsCalm(s: ControlPlane, name: Name, m: Machine)
    requires Calm(s) && name in s.machines && SaneMachine(s.initialized, m)
    requires m.deleting == s.machines[name].deleting && (s.machines[name].everHealthy ==> m.everHealthy)
    ensures Calm(Update(s, name, m))
  {
  }

  lemma CreateKeepsCalm(mv: Move, s: ControlPlane)
    requires Calm(s) && CanMove(mv, s) && mv.Create?
    ensures Calm(Moved(mv, s))
  {
    if s.machines != map[] {
      forall n | n in s.machines
        ensures s.initialized && s.machines[n].everHealthy
      {
        assert SaneMachine(s.initialized, s.machines[n]);
      }
    }
  }

  lemma {:induction false} RunKeepsCalm(start: ControlPlane, moves: seq<Move>)
    requires Calm(start) && Run(start, moves).Some?
    ensures Calm(Run(start, moves).value)
  {
    if moves != [] {
      var last := |moves| - 1;
      RunKeepsCalm(start, moves[..last]);
      MoveKeepsCalm(moves[last], Run(start, moves[..last]).value);
    }
  }

  /** From no machines on, whatever becomes of the specification: until the control plane is
      initialized it has at most one machine; at most one machine is ever being deleted; at most
      one has never been healthy. */
  lemma {:induction false} OneDisruptionAtATime(start: ControlPlane, moves: seq<Move>, s: ControlPlane, a: Name, b: Name)
    requires start.machines == map[] && Run(start, moves) == Some(s)
    requires a in s.machines && b in s.machines && a != b
    ensures s.initialized
    ensures !(s.machines[a].deleting && s.machines[b].deleting)
    ensures s.machines[a].everHealthy || s.machines[b].everHealthy
  {
    RunKeepsCalm(start, moves);
  }

  // ----- The size of the control plane -----

  /** The move is made under this specification. */
  predicate Uses(spec: KcpSpec, mv: Move) {
    match mv
    case Create(_, used, _, _, _) => used == spec
    case DeleteSurplus(_, used, _) => used == spec
    case DeleteUnhealthy(_, strategy, _) => strategy == spec.remediation
    case _ => true
  }

  function Target(spec: KcpSpec): nat {
    spec.replicas + spec.maxSurge.GetOr(0)
  }

  function Live(machines: Machines): set<Name> {
    set n | n in machines && !machines[n].deleting
  }

  /** Machines not being deleted, and those whose replacement is on order. */
  function Strength(s: ControlPlane): nat {
    |Live(s.machines)| + (if s.remediation != [] && !s.filled then 1 else 0) + (if s.pending != [] then 1 else 0) + s.lost
  }

  function Floor(spec: KcpSpec): int {
    if spec.maxSurge.GetOr(0) == 0 then spec.replicas - 1 else spec.replicas
  }

  lemma SizeStep(spec: KcpSpec, mv: Move, s: ControlPlane)
    requires CanMove(mv, s) && Uses(spec, mv)
    ensures |Moved(mv, s).machines| <= |s.machines| || |Moved(mv, s).machines| <= Target(spec)
  {
  }

  lemma StrengthStep(spec: KcpSpec, mv: Move, s: ControlPlane)
    requires s.machines.Keys <= s.born && CanMove(mv, s) && Uses(spec, mv)
    ensures Strength(s) >= Floor(spec) ==> Strength(Moved(mv, s)) >= Floor(spec)
  {
    var s' := Moved(mv, s);
    match mv {
      case Create(name, _, _, _, _) => CreateAdds(s.machines, name, s'.machines[name]);
      case DeleteSurplus(name, _, _) =>
        DeleteTakes(s.machines, name);
        assert !HasDeletingMachine(s.machines);
        assert Live(s.machines) == s.machines.Keys;
      case DeleteUnhealthy(name, _, _) => DeleteTakes(s.machines, name);
      case _ => assert Live(s'.machines) == Live(s.machines);
    }
  }

  lemma CreateAdds(machines: Machines, name: Name, m: Machine)
    requires !m.deleting && name !in machines
    ensures |Live(machines[name := m])| == |Live(machines)| + 1
  {
    assert Live(machines[name := m]) == Live(machines) + {name};
  }

  lemma DeleteTakes(machines: Machines, name: Name)
    requires name in machines && !machines[name].deleting
    ensures |Live(machines[name := machines[name].(deleting := true)])| == |Live(machines)| - 1
  {
    assert Live(machines[name := machines[name].(deleting := true)]) == Live(machines) - {name};
  }

  lemma {:induction false} RunKeepsInv(start: ControlPlane, moves: seq<Move>)
    requires Inv(start) && Run(start, moves).Some?
    ensures Inv(Run(start, moves).value)
  {
    if moves != [] {
      var last := |moves| - 1;
      RunKeepsInv(start, moves[..last]);
      MoveKeepsInv(moves[last], Run(start, moves[..last]).value);
    }
  }

  /** With one specification there are never more machines than at the start or than replicas plus
      surge; and once the machines not being deleted, together with the remediations whose
      replacement is still to be made, are replicas plus surge less one (less none, if the surge
      is larger than one), they never get fewer. A closing patch that never lands costs one. */
  lemma {:induction false} SizeEnvelope(spec: KcpSpec, start: ControlPlane, moves: seq<Move>)
    requires Inv(start) && Run(start, moves).Some?
    requires forall i :: 0 <= i < |moves| ==> Uses(spec, moves[i])
    ensures var s := Run(start, moves).value;
      && (|s.machines| <= |start.machines| || |s.machines| <= Target(spec))
      && (Strength(start) >= Floor(spec) ==> Strength(s) >= Floor(spec))
  {
    if moves != [] {
      var last := |moves| - 1;
      SizeEnvelope(spec, start, moves[..last]);
      RunKeepsInv(start, moves[..last]);
      SizeStep(spec, moves[last], Run(start, moves[..last]).value);
      StrengthStep(spec, moves[last], Run(start, moves[..last]).value);
    }
  }

  /** So after a pass whose patch landed, and if every one before it did, no more than one machine
      is missing for each remediation in progress. */
  lemma SizeBetweenPasses(spec: KcpSpec, start: ControlPlane, moves: seq<Move>)
    requires Inv(start) && Run(start, moves).Some?
    requires forall i :: 0 <= i < |moves| ==> Uses(spec, moves[i])
    requires Strength(start) >= Floor(spec)
    ensures var s := Run(start, moves).value;
      s.pending == [] && s.lost == 0 ==>
        |Live(s.machines)| + (if s.remediation != [] then 1 else 0) >= Floor(spec)
  {
    SizeEnvelope(spec, start, moves);
  }

  // ----- Remediation -----

  ghost predicate ChainsHold(strategy: Option<Strategy>, s: ControlPlane) {
    && Chain(strategy, s.remediation) && Chain(strategy, s.pending)
    && forall n :: n in s.machines ==> Chain(strategy, s.machines[n].chain)
  }

  lemma MoveKeepsChains(strategy: Option<Strategy>, mv: Move, s: ControlPlane)
    requires ChainsHold(strategy, s) && CanMove(mv, s)
    requires mv.DeleteUnhealthy? ==> mv.strategy == strategy
    ensures ChainsHold(strategy, Moved(mv, s))
  {
    if mv.DeleteUnhealthy? {
      ExtendedIsChain(s.machines[mv.name].chain, mv.name, strategy, mv.now);
    }
  }

  lemma {:induction false} RunKeepsChains(strategy: Option<Strategy>, start: ControlPlane, moves: seq<Move>)
    requires ChainsHold(strategy, start) && Run(start, moves).Some?
    requires forall i :: 0 <= i < |moves| && moves[i].DeleteUnhealthy? ==> moves[i].strategy == strategy
    ensures ChainsHold(strategy, Run(start, moves).value)
  {
    if moves != [] {
      var last := |moves| - 1;
      RunKeepsChains(strategy, start, moves[..last]);
      MoveKeepsChains(strategy, moves[last], Run(start, moves[..last]).value);
    }
  }

  /** Of the remediations that led to a machine, each replacing the machine made by the one
      before, no more than maxRetry + 1 in a row are closer to each other than minHealthyPeriod;
      no two, if retryPeriod is not below minHealthyPeriod. */
  lemma {:induction false} RemediationsAreBounded(strategy: Option<Strategy>, start: ControlPlane, moves: seq<Move>,
    n: Name, i: nat, j: nat)
    requires start.machines == map[] && start.remediation == [] && start.pending == []
    requires Run(start, moves).Some? && n in Run(start, moves).value.machines
    requires forall k :: 0 <= k < |moves| && moves[k].DeleteUnhealthy? ==> moves[k].strategy == strategy
    requires i <= j <= |Run(start, moves).value.machines[n].chain|
    requires Close(strategy, Run(start, moves).value.machines[n].chain[i..j])
    ensures strategy.Some? && strategy.value.maxRetry.Some? && strategy.value.maxRetry.value >= 0 ==> j - i <= strategy.value.maxRetry.value + 1
    ensures RetryPeriod(strategy) >= MinHealthyPeriod(strategy) ==> j - i <= 1
  {
    RunKeepsChains(strategy, start, moves);
    var chain := Run(start, moves).value.machines[n].chain;
    var part := chain[i..j];
    forall k | 0 <= k < |part| - 1
      ensures Link(strategy, part[k], part[k+1])
    {
      assert Link(strategy, chain[i+k], chain[(i+k)+1]);
    }
    RetryBound(strategy, part);
  }

  // ----- Membership -----

  /** Removals alone never empty the cluster. */
  lemma {:induction false} MembersRemain(start: ControlPlane, moves: seq<Move>)
    requires start.members != {} && Run(start, moves).Some?
    ensures Run(start, moves).value.members != {}
  {
    if moves != [] {
      var last := |moves| - 1;
      MembersRemain(start, moves[..last]);
      var s := Run(start, moves[..last]).value;
      if moves[last].RemoveMember? {
        assert moves[last].via in Moved(moves[last], s).members;
      }
    }
  }

  /** What the world around the controller can do at any point: a node comes up for a machine, what was
      deleted goes, and health and delete annotations change. */
  lemma MachinesInPlainTerms(s: ControlPlane, n: Name, node: NodeName, on: bool)
    requires n in s.machines
    ensures CanMove(MarkHealth(n, on), s) && Moved(MarkHealth(n, on), s) == s.(machines := s.machines[n := s.machines[n].(unhealthy := on)])
    ensures CanMove(Annotate(n, on), s) && Moved(Annotate(n, on), s) == s.(machines := s.machines[n := s.machines[n].(deleteAnnotation := on)])
    ensures s.machines[n].deleting ==> CanMove(Vanish(n), s) && Moved(Vanish(n), s) == s.(machines := s.machines - {n})
    ensures s.machines[n].node.None? && (forall o :: o in s.machines ==> s.machines[o].node != Some(node)) ==>
      CanMove(NodeUp(n, node), s) && Moved(NodeUp(n, node), s) == s.(machines := s.machines[n := s.machines[n].(node := Some(node))])
  {
  }

  /** And the nodes that are listed change, members join the k8sd cluster, and its config map appears. */
  lemma NodesInPlainTerms(s: ControlPlane, node: NodeName, nodes: seq<NodeInfo>)
    ensures (forall i, j :: 0 <= i < j < |nodes| ==> nodes[i].name != nodes[j].name) ==>
      CanMove(ListNodes(nodes), s) && Moved(ListNodes(nodes), s) == s.(nodes := nodes)
    ensures CanMove(MemberJoins(node), s) && Moved(MemberJoins(node), s) == s.(members := s.members + {node})
    ensures CanMove(ConfigMapAppears, s) && Moved(ConfigMapAppears, s) == s.(hasConfigMap := true)
  {
  }
}
