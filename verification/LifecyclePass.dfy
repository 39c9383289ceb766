/** What one undisturbed pass of the control plane controller makes of a control plane. */
module LifecyclePass {
  import opened Prelude
  import opened MachineFilters
  import opened Remediation
  import opened ControlPlaneMachines
  import opened WorkloadCluster
  import opened Lifecycle
  import opened LifecycleProgress

  /** The machine that the pass makes, if it makes one. */
  datatype Made = Made(name: Name, created: nat, domain: Option<string>)

  function Recorded(m: Machine, agent: Option<Condition>): Machine {
    m.(agent := agent, everHealthy := m.everHealthy || agent == Some(IsTrue))
  }

  /** The machines once the conditions of those outside rest have been patched. */
  function AfterPatches(machines: Machines, report: Machines, rest: set<Name>): Machines
    requires report.Keys == machines.Keys
  {
    map n | n in machines :: if n in rest then machines[n] else Recorded(machines[n], report[n].agent)
  }

  /** What the pass sees of the machines' health. */
  predicate Reported(s: ControlPlane, report: Machines) {
    if s.initialized then Inspected(s.machines, Some(s.nodes), report) else report == s.machines
  }

  function Inspection(s: ControlPlane, report: Machines): ControlPlane
    requires report.Keys == s.machines.Keys
  {
    s.(machines := AfterPatches(s.machines, report, {}))
  }

  /** The k8sd cluster can be asked to remove the node of the machine, or has no need to. */
  predicate CanLeave(s: ControlPlane, m: Machine) {
    m.node.Some? ==> ProxyFor(s.nodes, {m.node.value}).Some? && ProxyFor(s.nodes, {m.node.value}).value in s.members
  }

  function Left(s: ControlPlane, m: Machine): ControlPlane {
    if m.node.Some? then s.(members := s.members - {m.node.value}) else s
  }

  /** It is safe to remediate machine n now. */
  predicate MayRemediate(strategy: Option<Strategy>, now: int, s: ControlPlane, n: Name) {
    && n in s.machines && !s.machines[n].deleting
    && s.remediation == []
    && Verdict(LastOf(s.machines[n].chain), strategy, now).Some?
    && (s.initialized ==>
          |s.machines| > 1 && !HasHealthyMachineStillProvisioning(s.machines) && !HasDeletingMachine(s.machines))
  }

  predicate NothingToRemediate(spec: KcpSpec, now: int, s: ControlPlane) {
    forall n :: n in s.machines && IsToBeRemediated(s.machines, n) ==> !MayRemediate(spec.remediation, now, s, n)
  }

  /** What a pass does to the set of machines. Remediation comes first. */
  datatype Choice = Nothing | Remediates(name: Name) | Adds | Removes(name: Name)

  ghost predicate ScaleFits(spec: KcpSpec, domains: set<string>, machines: Machines, choice: Choice) {
    var plan := Wants(spec, machines);
    var outdated := MachinesNeedingRollout(spec, machines);
    match choice
    case Adds => plan == Initialize || (plan == ScaleUp && Preflight(machines, None))
    case Removes(n) => plan == ScaleDown && n in machines && VictimFits(machines, domains, outdated, n) && Preflight(machines, Some(n))
    case Nothing =>
      || plan == Stay
      || (plan == ScaleUp && !Preflight(machines, None))
      || (plan == ScaleDown && exists n :: VictimFits(machines, domains, outdated, n) && !Preflight(machines, Some(n)))
    case Remediates(_) => false
  }

  ghost predicate ChoiceFits(spec: KcpSpec, now: int, domains: set<string>, s: ControlPlane, choice: Choice) {
    if choice.Remediates? then IsToBeRemediated(s.machines, choice.name) && MayRemediate(spec.remediation, now, s, choice.name)
    else NothingToRemediate(spec, now, s) && ScaleFits(spec, domains, s.machines, choice)
  }

  /** The pass from the end of the inspection on. */
  function Acted(spec: KcpSpec, now: int, made: Made, s: ControlPlane, choice: Choice): ControlPlane
    requires choice.Remediates? ==> MayRemediate(spec.remediation, now, s, choice.name)
    requires choice.Removes? ==> choice.name in s.machines
  {
    match choice
    case Nothing => s
    case Remediates(n) =>
      if !CanLeave(s, s.machines[n]) then s
      else Left(s, s.machines[n]).(
        machines := s.machines[n := s.machines[n].(deleting := true)],
        remediation := Extended(s.machines[n].chain, n, spec.remediation, now),
        filled := false,
        pending := [],
        lost := if s.pending == [] then s.lost else s.lost + 1)
    case Adds =>
      s.(
        machines := s.machines[made.name := NewMachine(Clone(spec.wanted), made.created, made.domain, s.remediation)],
        born := s.born + {made.name},
        remediation := [],
        filled := if s.remediation == [] then s.filled else false)
    case Removes(n) =>
      if !CanLeave(s, s.machines[n]) then s
      else Left(s, s.machines[n]).(machines := s.machines[n := s.machines[n].(deleting := true)])
  }

  /** How the pass ends: in an error if a node could not be removed, at rest if nothing is wanted. */
  function PassOutcome(spec: KcpSpec, s: ControlPlane, choice: Choice): Outcome
    requires choice.Remediates? || choice.Removes? ==> choice.name in s.machines
  {
    match choice
    case Nothing => if Wants(spec, s.machines) == Stay then Finished else Requeue
    case Adds => Requeue
    case _ => if CanLeave(s, s.machines[choice.name]) then Requeue else Error
  }

  function Latched(s: ControlPlane): ControlPlane {
    s.(initialized := s.initialized || s.hasConfigMap)
  }

  // ----- When a pass changes nothing -----

  predicate Serves(node: NodeInfo) {
    !node.unreachable && node.lookup.Ready? && node.proxy.Answers?
  }

  predicate Up(s: ControlPlane, m: Machine) {
    && !m.deleting && !m.unhealthy
    && m.node.Some? && m.node.value in s.members
    && exists i :: 0 <= i < |s.nodes| && Hosts(s.nodes[i], m)
  }

  predicate Hosted(s: ControlPlane, node: NodeInfo) {
    exists n :: n in s.machines && Hosts(node, s.machines[n])
  }

  /** All machines are up, nodes and machines match, and every node serves. */
  predicate Cooperative(s: ControlPlane) {
    && s.initialized
    && DistinctNodes(s.machines)
    && (forall n {:trigger Up(s, s.machines[n])} :: n in s.machines ==> Up(s, s.machines[n]))
    && (forall i {:trigger Serves(s.nodes[i])} {:trigger Hosted(s, s.nodes[i])} ::
          0 <= i < |s.nodes| ==> Serves(s.nodes[i]) && Hosted(s, s.nodes[i]))
  }

  lemma NothingAborts(s: ControlPlane)
    requires Cooperative(s)
    ensures LastLookedAt(s.machines, s.nodes, 0) == |s.nodes|
  {
    assert forall i :: 0 <= i < |s.nodes| && Serves(s.nodes[i]) ==> !Aborts(s.machines, s.nodes[i]);
  }

  lemma AllFoundHealthy(s: ControlPlane, report: Machines, n: Name)
    requires Cooperative(s) && Reported(s, report) && n in s.machines
    ensures report[n] == s.machines[n].(agent := Some(IsTrue))
  {
    NothingAborts(s);
    assert Up(s, s.machines[n]);
    var i :| 0 <= i < |s.nodes| && Hosts(s.nodes[i], s.machines[n]);
    assert Serves(s.nodes[i]);
    assert InspectedOne(s.nodes, |s.nodes|, s.machines[n], report[n].agent);
    assert SameButAgent(s.machines[n], report[n]);
  }

  lemma ProxyIsAnother(s: ControlPlane, node: NodeName, n: Name) returns (o: Name)
    requires Cooperative(s) && n in s.machines && s.machines[n].node == Some(node)
    requires ProxyFor(s.nodes, {node}).Some?
    ensures o in s.machines && o != n && ProxyFor(s.nodes, {node}).value in s.members
  {
    var proxy := ProxyFor(s.nodes, {node}).value;
    var i :| 0 <= i < |s.nodes| && Usable(s.nodes[i], {node}) && s.nodes[i].name == proxy;
    assert Hosted(s, s.nodes[i]);
    o :| o in s.machines && Hosts(s.nodes[i], s.machines[o]);
    assert Up(s, s.machines[o]);
  }

  lemma AnotherIsProxy(s: ControlPlane, node: NodeName, n: Name, o: Name)
    requires Cooperative(s) && n in s.machines && s.machines[n].node == Some(node)
    requires o in s.machines && o != n
    ensures ProxyFor(s.nodes, {node}).Some?
  {
    assert Up(s, s.machines[o]);
    var i :| 0 <= i < |s.nodes| && Hosts(s.nodes[i], s.machines[o]);
    assert Serves(s.nodes[i]) && Usable(s.nodes[i], {node});
  }

  /** A node can be removed exactly if it is not the only one. */
  lemma CanLeaveExactlyIfNotAlone(s: ControlPlane, n: Name)
    requires Cooperative(s) && n in s.machines
    ensures CanLeave(s, s.machines[n]) <==> |s.machines| > 1
  {
    assert Up(s, s.machines[n]);
    var node := s.machines[n].node.value;
    assert |s.machines.Keys| == |s.machines|;
    if ProxyFor(s.nodes, {node}).Some? {
      var o := ProxyIsAnother(s, node, n);
      SubsetSize({n, o}, s.machines.Keys);
    } else if |s.machines| > 1 {
      assert |s.machines.Keys - {n}| > 0;
      var o :| o in s.machines.Keys - {n};
      AnotherIsProxy(s, node, n, o);
    }
  }

  lemma {:induction false} SubsetSize<T>(a: set<T>, b: set<T>)
    requires a <= b
    ensures |a| <= |b|
  {
    if a != {} {
      var x :| x in a;
      SubsetSize(a - {x}, b - {x});
    }
  }

  /** Whoever is in the control plane, and whoever is leaving it. */
  predicate SameSet(a: Machines, b: Machines) {
    a.Keys == b.Keys && DeletingMachines(a) == DeletingMachines(b)
  }

  /** The one control plane machine there is would have to go first. */
  predicate Stuck(spec: KcpSpec, s: ControlPlane) {
    |s.machines| == 1 && if Outdateds(spec, s) == {} then spec.replicas == 0 else Target(spec) <= 1
  }

  lemma StillUp(s: ControlPlane, report: Machines, n: Name)
    requires Cooperative(s) && Reported(s, report) && n in s.machines
    ensures var s1 := Inspection(s, report);
      s1.machines[n] == Recorded(s.machines[n], Some(IsTrue)) && Up(s1, s1.machines[n])
  {
    AllFoundHealthy(s, report, n);
    assert Up(s, s.machines[n]);
    var i :| 0 <= i < |s.nodes| && Hosts(s.nodes[i], s.machines[n]);
    var s1 := Inspection(s, report);
    assert Hosts(s1.nodes[i], s1.machines[n]);
  }

  lemma StillHosted(s: ControlPlane, report: Machines, i: nat)
    requires Cooperative(s) && Reported(s, report) && i < |s.nodes|
    ensures Hosted(Inspection(s, report), s.nodes[i])
  {
    assert Hosted(s, s.nodes[i]);
    var n :| n in s.machines && Hosts(s.nodes[i], s.machines[n]);
    AllFoundHealthy(s, report, n);
    assert Hosts(s.nodes[i], Inspection(s, report).machines[n]);
  }

  lemma AllStillUp(s: ControlPlane, report: Machines)
    requires Cooperative(s) && Reported(s, report)
    ensures var s1 := Inspection(s, report);
      forall n :: n in s.machines ==> s1.machines[n] == Recorded(s.machines[n], Some(IsTrue)) && Up(s1, s1.machines[n])
  {
    forall n | n in s.machines
      ensures var s1 := Inspection(s, report);
        s1.machines[n] == Recorded(s.machines[n], Some(IsTrue)) && Up(s1, s1.machines[n])
    {
      StillUp(s, report, n);
    }
  }

  /** When everything is up, an inspection calls every machine healthy and changes nothing else. */
  lemma InspectionSettles(s: ControlPlane, report: Machines)
    requires Cooperative(s) && Reported(s, report)
    ensures var s1 := Inspection(s, report);
      s1 == s.(machines := s1.machines) && Cooperative(s1) && Settled(s1) && SameSet(s1.machines, s.machines)
  {
    AllStillUp(s, report);
    forall i | 0 <= i < |s.nodes|
      ensures Hosted(Inspection(s, report), s.nodes[i])
    {
      StillHosted(s, report, i);
    }
    AllHealthySettles(s, Inspection(s, report));
  }

  lemma AllHealthySettles(s: ControlPlane, s1: ControlPlane)
    requires Cooperative(s) && s1 == s.(machines := s1.machines) && s1.machines.Keys == s.machines.Keys
    requires forall n :: n in s.machines ==> s1.machines[n] == Recorded(s.machines[n], Some(IsTrue)) && Up(s1, s1.machines[n])
    requires forall i :: 0 <= i < |s1.nodes| ==> Hosted(s1, s1.nodes[i])
    ensures Cooperative(s1) && Settled(s1) && SameSet(s1.machines, s.machines)
  {
    assert DistinctNodes(s1.machines) by {
      assert forall n :: n in s.machines ==> s1.machines[n].node == s.machines[n].node;
    }
    assert SameSet(s1.machines, s.machines) by {
      assert forall n :: n in s.machines ==> s1.machines[n].deleting == s.machines[n].deleting;
    }
  }

  /** When everything is up, a pass leaves the set of machines alone exactly if it is as wanted, or
      has to be replaced without a rollout strategy, or would have to shrink from one machine: then
      no other node is left to remove its node through. A single machine with no surge is never
      rolled. */
  lemma RestsExactlyWhen(spec: KcpSpec, now: int, made: Made, domains: set<string>, s: ControlPlane, choice: Choice)
    requires Cooperative(s) && Settled(s) && made.name !in s.machines
    requires ChoiceFits(spec, now, domains, s, choice)
    ensures SameSet(Acted(spec, now, made, s, choice).machines, s.machines)
      <==> AtTarget(spec, s) || (spec.maxSurge.None? && Outdateds(spec, s) != {}) || Stuck(spec, s)
  {
    NobodyToRemediate(s);
    match choice {
      case Removes(n) =>
        RemovesUnlessAlone(spec, now, made, s, n);
      case _ =>
    }
  }

  lemma NobodyToRemediate(s: ControlPlane)
    requires Cooperative(s)
    ensures forall n :: !IsToBeRemediated(s.machines, n)
  {
    assert UnhealthyMachines(s.machines) == {} by {
      assert forall n :: n in s.machines ==> Up(s, s.machines[n]);
    }
  }

  lemma RemovesUnlessAlone(spec: KcpSpec, now: int, made: Made, s: ControlPlane, n: Name)
    requires Cooperative(s) && n in s.machines
    ensures SameSet(Acted(spec, now, made, s, Removes(n)).machines, s.machines) <==> |s.machines| <= 1
  {
    CanLeaveExactlyIfNotAlone(s, n);
    assert Up(s, s.machines[n]);
    assert n !in DeletingMachines(s.machines);
    var s' := Acted(spec, now, made, s, Removes(n));
    assert CanLeave(s, s.machines[n]) ==> n in DeletingMachines(s'.machines);
  }

  /** One machine of no version, up and healthy. */
  function LoneMachine(n: Name): ControlPlane {
    var m := Machine(Description(None, false, None, None), 0, None, false, Some("node"), Some(IsTrue), false, false, [], true);
    ControlPlane(map[n := m], {n}, {"node"}, [NodeInfo("node", false, Ready, Answers)], [], true, true, false, [], 0)
  }

  lemma LoneMachineIsUp(n: Name)
    ensures Cooperative(LoneMachine(n)) && Settled(LoneMachine(n))
  {
    var s := LoneMachine(n);
    assert Hosts(s.nodes[0], s.machines[n]);
    assert Up(s, s.machines[n]) && Hosted(s, s.nodes[0]) && Serves(s.nodes[0]);
  }

  lemma LoneMachineIsPicked(spec: KcpSpec, domains: set<string>, n: Name)
    requires spec.replicas == 1 && spec.maxSurge == Some(0)
    ensures var s := LoneMachine(n);
      n in Outdateds(spec, s) && |s.machines| == 1 && ScaleFits(spec, domains, s.machines, Removes(n))
  {
    var s := LoneMachine(n);
    assert |s.machines| == |s.machines.Keys| == 1;
    assert n in MachinesNeedingRollout(spec, s.machines);
    assert Candidates(s.machines, MachinesNeedingRollout(spec, s.machines)) == {n};
  }

  /** Such a rest short of the target exists: one outdated machine, one replica and no surge. Every pass
      picks the machine, cannot remove its node, and ends in an error. */
  lemma LoneMachineIsNeverRolled(spec: KcpSpec, now: int, made: Made, domains: set<string>)
    returns (s: ControlPlane, choice: Choice)
    requires spec.replicas == 1 && spec.maxSurge == Some(0)
    ensures Cooperative(s) && Settled(s) && made.name !in s.machines
    ensures ChoiceFits(spec, now, domains, s, choice) && Stuck(spec, s) && !AtTarget(spec, s)
    ensures SameSet(Acted(spec, now, made, s, choice).machines, s.machines) && PassOutcome(spec, s, choice) == Error
  {
    var n := made.name + 1;
    s, choice := LoneMachine(n), Removes(n);
    LoneMachineIsUp(n);
    LoneMachineIsPicked(spec, domains, n);
    NobodyToRemediate(s);
    RemovesUnlessAlone(spec, now, made, s, n);
    CanLeaveExactlyIfNotAlone(s, n);
  }

  // ----- In plain terms -----

  /** When a remediation of machine n may be made. */
  lemma MayRemediateInPlainTerms(strategy: Option<Strategy>, now: int, s: ControlPlane, n: Name)
    ensures MayRemediate(strategy, now, s, n) <==>
      && n in s.machines && !s.machines[n].deleting && s.remediation == []
      && (s.machines[n].chain == [] || Verdict(Some(s.machines[n].chain[|s.machines[n].chain| - 1]), strategy, now).Some?)
      && (s.initialized ==>
            && |s.machines| > 1
            && forall o :: o in s.machines ==> !s.machines[o].deleting && (s.machines[o].node.Some? || s.machines[o].unhealthy))
  {
  }

  /** What a remediation does: the node leaves the k8sd cluster through the first other node that answers,
      the machine is deleted, and what remediated it is recorded on the control plane; without such a node
      nothing is done, and that is an error. */
  lemma RemediationInPlainTerms(spec: KcpSpec, now: int, made: Made, s: ControlPlane, n: Name)
    requires MayRemediate(spec.remediation, now, s, n)
    ensures var m, s' := s.machines[n], Acted(spec, now, made, s, Remediates(n));
      && (PassOutcome(spec, s, Remediates(n)) == Requeue <==> CanLeave(s, m))
      && (PassOutcome(spec, s, Remediates(n)) == Error <==> !CanLeave(s, m))
      && (!CanLeave(s, m) ==> s' == s)
      && (CanLeave(s, m) ==>
            && s'.machines == s.machines[n := m.(deleting := true)]
            && s'.members == (if m.node.Some? then s.members - {m.node.value} else s.members)
            && s'.remediation != [] && s'.remediation[..|s'.remediation| - 1] == m.chain
            && var d := s'.remediation[|s'.remediation| - 1];
            && d.machine == n && d.timestamp == Some(now - now % 1_000_000_000)
            && d.retryCount == if m.chain == [] then 0 else Verdict(Some(m.chain[|m.chain| - 1]), spec.remediation, now).value)
  {
    MayRemediateInPlainTerms(spec.remediation, now, s, n);
  }

  /** Whether a machine's node can be removed: through the first listed node, other than its own, whose
      proxy answers, if that is a member. */
  lemma CanLeaveInPlainTerms(s: ControlPlane, m: Machine)
    ensures CanLeave(s, m) <==>
      m.node.None? || exists i :: 0 <= i < |s.nodes| && s.nodes[i].name in s.members && IsProxy(s.nodes, m.node.value, i)
  {
    if m.node.Some? {
      forall i | 0 <= i < |s.nodes| && IsProxy(s.nodes, m.node.value, i)
        ensures ProxyFor(s.nodes, {m.node.value}) == Some(s.nodes[i].name)
      {
        ProxyInPlainTerms(s.nodes, {m.node.value}, i);
      }
      if ProxyFor(s.nodes, {m.node.value}).Some? {
        var i := FirstUsable(s.nodes, m.node.value, 0);
        assert IsProxy(s.nodes, m.node.value, i);
      }
    }
  }

  /** Node i is the first other than this one whose proxy answers. */
  predicate IsProxy(nodes: seq<NodeInfo>, node: NodeName, i: nat)
    requires i < |nodes|
  {
    && nodes[i].name != node && nodes[i].proxy == Answers
    && forall j :: 0 <= j < i ==> nodes[j].name == node || nodes[j].proxy != Answers
  }

  lemma {:induction false} FirstUsable(nodes: seq<NodeInfo>, node: NodeName, from: nat) returns (i: nat)
    requires from <= |nodes| && exists k :: from <= k < |nodes| && Usable(nodes[k], {node})
    requires forall j :: 0 <= j < from ==> nodes[j].name == node || nodes[j].proxy != Answers
    ensures i < |nodes| && IsProxy(nodes, node, i)
    decreases |nodes| - from
  {
    if Usable(nodes[from], {node}) {
      i := from;
    } else {
      i := FirstUsable(nodes, node, from + 1);
    }
  }

  /** A machine that is made is made from the specification, is handed the remediation that is in progress,
      and takes it over; a machine that is removed leaves the k8sd cluster and is deleted. */
  lemma ScalingInPlainTerms(spec: KcpSpec, now: int, made: Made, s: ControlPlane, n: Name)
    requires n in s.machines
    ensures var s', w := Acted(spec, now, made, s, Adds), spec.wanted;
      && PassOutcome(spec, s, Adds) == Requeue
      && s'.remediation == [] && s'.members == s.members && made.name in s'.machines
      && (forall o :: o in s'.machines && o != made.name ==> o in s.machines && s'.machines[o] == s.machines[o])
      && (forall o :: o in s.machines ==> o in s'.machines)
      && var m := s'.machines[made.name];
      && m.chain == s.remediation && m.created == made.created && m.domain == made.domain
      && m.desc.version == Some(w.version) && m.desc.config == Some(w.config)
      && m.desc.infra == Some(InfraObject(Some(w.template.name), Some(w.template.groupKind)))
      && !m.deleting && m.node.None? && m.agent.None? && !m.unhealthy && !m.deleteAnnotation
    ensures var m, s' := s.machines[n], Acted(spec, now, made, s, Removes(n));
      && PassOutcome(spec, s, Removes(n)) == (if CanLeave(s, m) then Requeue else Error)
      && s' == if CanLeave(s, m)
               then s.(machines := s.machines[n := m.(deleting := true)],
                       members := if m.node.Some? then s.members - {m.node.value} else s.members)
               else s
  {
  }

  /** When a pass makes a machine, removes one, or does neither. */
  lemma ChoiceInPlainTerms(spec: KcpSpec, now: int, domains: set<string>, s: ControlPlane, choice: Choice)
    requires ChoiceFits(spec, now, domains, s, choice)
    ensures var rollout, size := exists n :: n in s.machines && Outdated(spec, s.machines[n]), |s.machines|;
      var calm := forall n :: n in s.machines ==> !s.machines[n].deleting && s.machines[n].agent == Some(IsTrue);
      && (choice.Adds? ==> (calm && if rollout then spec.maxSurge.Some? && size < spec.replicas + spec.maxSurge.value else size < spec.replicas))
      && (choice.Removes? ==>
            && choice.name in s.machines
            && (if rollout then spec.maxSurge.Some? && size >= spec.replicas + spec.maxSurge.value else size > spec.replicas)
            && forall n :: n in s.machines ==> !s.machines[n].deleting && (n == choice.name || s.machines[n].agent == Some(IsTrue)))
      && (choice.Nothing? && calm ==> if rollout then spec.maxSurge.None? else size == spec.replicas)
  {
    WantsInPlainTerms(spec, s.machines);
    assert |s.machines| == 0 ==> s.machines.Keys == {} by {
      assert |s.machines| == |s.machines.Keys|;
    }
  }

  /** What keeps a pass from removing a machine that is too many, or outdated at full size: somebody is
      being deleted, or a machine other than the one to go is not healthy. */
  lemma HeldBackInPlainTerms(spec: KcpSpec, now: int, domains: set<string>, s: ControlPlane)
    requires ChoiceFits(spec, now, domains, s, Nothing)
    requires if exists n :: n in s.machines && Outdated(spec, s.machines[n])
             then spec.maxSurge.Some? && |s.machines| >= spec.replicas + spec.maxSurge.value else |s.machines| > spec.replicas
    ensures exists n, o ::
      && VictimFits(s.machines, domains, MachinesNeedingRollout(spec, s.machines), n)
      && o in s.machines && (s.machines[o].deleting || (o != n && s.machines[o].agent != Some(IsTrue)))
  {
    WantsInPlainTerms(spec, s.machines);
    var outdated := MachinesNeedingRollout(spec, s.machines);
    var n :| VictimFits(s.machines, domains, outdated, n) && !Preflight(s.machines, Some(n));
  }

  /** And before it does: whether there is an unhealthy machine to remediate now. */
  lemma RemediationComesFirst(spec: KcpSpec, now: int, domains: set<string>, s: ControlPlane, choice: Choice, n: Name)
    requires ChoiceFits(spec, now, domains, s, choice) && IsToBeRemediated(s.machines, n)
    ensures choice.Remediates? <==> MayRemediate(spec.remediation, now, s, n)
    ensures choice.Remediates? ==> choice.name == n && s.machines[n].unhealthy
  {
    ToBeRemediatedInPlainTerms(s.machines, n);
  }

  /** What an inspection leaves of a machine on a listed node that it gets to: its condition is what the
      node says, and nothing else about it changes. */
  lemma ConditionsInPlainTerms(s: ControlPlane, report: Machines, n: Name, i: nat)
    requires s.initialized && DistinctNodes(s.machines) && DistinctNames(s.nodes) && Reported(s, report)
    requires n in s.machines && i < |s.nodes| && s.machines[n].node == Some(s.nodes[i].name) && GetsAsFarAs(s.machines, s.nodes, i)
    ensures report.Keys == s.machines.Keys
    ensures var node, m, m' := s.nodes[i], s.machines[n], Inspection(s, report).machines[n];
      && m' == m.(agent := m'.agent, everHealthy := m.everHealthy || m'.agent == Some(IsTrue))
      && m'.agent == (if m.deleting then Some(IsFalse)
                      else if node.unreachable then Some(IsUnknown)
                      else if node.lookup == Missing then Some(IsFalse)
                      else if node.lookup == Lookup.Failed then Some(IsUnknown)
                      else if node.lookup == Ready then Some(IsTrue)
                      else m.agent)
  {
    InspectionInPlainTerms(s.machines, s.nodes, report, n, i);
  }

  /** So a pass that finds a node unreachable, or gone, makes no machine, and removes none but the one on
      that node. */
  lemma UnreachableStopsThePass(spec: KcpSpec, now: int, domains: set<string>, s: ControlPlane, report: Machines, choice: Choice, n: Name, i: nat)
    requires s.initialized && DistinctNodes(s.machines) && DistinctNames(s.nodes) && Reported(s, report)
    requires n in s.machines && i < |s.nodes| && s.machines[n].node == Some(s.nodes[i].name) && GetsAsFarAs(s.machines, s.nodes, i)
    requires s.nodes[i].unreachable || s.nodes[i].lookup in {Missing, Lookup.Failed}
    requires report.Keys == s.machines.Keys && ChoiceFits(spec, now, domains, Inspection(s, report), choice)
    ensures !choice.Adds? && (choice.Removes? ==> choice.name == n)
  {
    ConditionsInPlainTerms(s, report, n, i);
    ChoiceInPlainTerms(spec, now, domains, Inspection(s, report), choice);
  }

  /** Without an inspection the conditions stay as they are. */
  lemma NotInspected(s: ControlPlane, report: Machines)
    requires !s.initialized && Sane(s) && Reported(s, report)
    ensures Inspection(s, report) == s
  {
  }

  lemma InspectionKeeps(s: ControlPlane, report: Machines)
    requires report.Keys == s.machines.Keys
    ensures var s1 := Inspection(s, report);
      && s1 == s.(machines := s1.machines) && s1.machines.Keys == s.machines.Keys
      && forall n :: n in s.machines ==>
           s1.machines[n].deleting == s.machines[n].deleting && s1.machines[n].chain == s.machines[n].chain && s1.machines[n].node == s.machines[n].node
  {
  }

  /** What a pass leaves: who is a member of the set, who is leaving it, what remediation is in progress,
      and whether the control plane counts as initialized. */
  lemma PassInPlainTerms(spec: KcpSpec, now: int, made: Made, s: ControlPlane, choice: Choice)
    requires made.name !in s.machines
    requires choice.Remediates? ==> MayRemediate(spec.remediation, now, s, choice.name)
    requires choice.Removes? ==> choice.name in s.machines
    ensures var s', moved := Latched(Acted(spec, now, made, s, choice)), PassOutcome(spec, s, choice) == Requeue;
      && (s'.initialized <==> s.initialized || s.hasConfigMap)
      && s'.nodes == s.nodes && s'.hasConfigMap == s.hasConfigMap
      && s'.machines.Keys == (if choice.Adds? then s.machines.Keys + {made.name} else s.machines.Keys)
      && (forall n :: n in s.machines ==>
            (s'.machines[n].deleting <==> s.machines[n].deleting || (choice in {Remediates(n), Removes(n)} && moved)))
      && (s'.remediation ==
            if choice.Adds? then []
            else if choice.Remediates? && moved then s.machines[choice.name].chain + [s'.remediation[|s'.remediation| - 1]]
            else s.remediation)
  {
    match choice {
      case Remediates(n) => RemediationInPlainTerms(spec, now, made, s, n);
      case Adds => assert Acted(spec, now, made, s, Adds).machines.Keys == s.machines.Keys + {made.name};
      case Removes(n) => ScalingInPlainTerms(spec, now, made, s, n);
      case Nothing =>
    }
  }

  /** The two together: what a pass makes of the set of machines and of the remediation in progress. */
  lemma PassHandsOver(spec: KcpSpec, now: int, made: Made, domains: set<string>, s: ControlPlane, report: Machines, choice: Choice,
    s': ControlPlane, outcome: Outcome)
    requires report.Keys == s.machines.Keys && made.name !in s.machines
    requires ChoiceFits(spec, now, domains, Inspection(s, report), choice)
    requires s' == Latched(Acted(spec, now, made, Inspection(s, report), choice))
    requires outcome == PassOutcome(spec, Inspection(s, report), choice)
    ensures s'.initialized <==> s.initialized || s.hasConfigMap
    ensures s'.machines.Keys == if choice.Adds? then s.machines.Keys + {made.name} else s.machines.Keys
    ensures choice.Adds? ==> s'.machines[made.name].chain == s.remediation && s'.remediation == []
    ensures choice.Nothing? || choice.Removes? ==> s'.remediation == s.remediation
    ensures choice.Removes? && outcome == Requeue ==> choice.name in s.machines && s'.machines[choice.name].deleting
    ensures choice.Remediates? && outcome == Requeue ==>
      && choice.name in s.machines && s'.machines[choice.name].deleting
      && s'.remediation != [] && s'.remediation[..|s'.remediation| - 1] == s.machines[choice.name].chain
      && s'.remediation[|s'.remediation| - 1].machine == choice.name
  {
    var s1 := Inspection(s, report);
    InspectionKeeps(s, report);
    PassInPlainTerms(spec, now, made, s1, choice);
    match choice {
      case Remediates(n) => RemediationInPlainTerms(spec, now, made, s1, n);
      case _ =>
    }
  }
}
