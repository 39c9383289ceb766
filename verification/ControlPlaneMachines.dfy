/** The machines of a control plane and the selections its controller makes among them. */
module ControlPlaneMachines {
  import opened Prelude
  import opened MachineFilters
  import opened Remediation

  type NodeName = string

  datatype Condition = IsTrue | IsFalse | IsUnknown

  /** A control plane machine. Names stand for their rank in name order. The last element of the
      chain is the remediation-for annotation; what comes before it is history. */
  datatype Machine = Machine(
    desc: Description,
    created: nat,
    domain: Option<string>,
    deleting: bool,
    node: Option<NodeName>,
    agent: Option<Condition>,      // AgentHealthy
    unhealthy: bool,               // failed its health check, remediation is up to the owner
    deleteAnnotation: bool,
    chain: seq<RemediationData>,
    everHealthy: bool)             // history: AgentHealthy was true at some time

  type Machines = map<Name, Machine>

  /** The specification of the control plane, as one pass reads it. The deadline is rolloutAfter,
      once it has passed. Without a rollout strategy there is no maxSurge. */
  datatype KcpSpec = KcpSpec(
    wanted: Wanted,
    deadline: Option<nat>,
    replicas: nat,
    maxSurge: Option<nat>,
    remediation: Option<Strategy>)

  // ----- Filters -----

  predicate Outdated(spec: KcpSpec, m: Machine) {
    && !m.deleting
    && ((spec.deadline.Some? && m.created < spec.deadline.value) || !MatchesConfiguration(spec.wanted, m.desc))
  }

  function MachinesNeedingRollout(spec: KcpSpec, machines: Machines): (r: set<Name>)
    ensures r <= machines.Keys
  {
    set n | n in machines && Outdated(spec, machines[n])
  }

  function UnhealthyMachines(machines: Machines): set<Name> {
    set n | n in machines && machines[n].unhealthy
  }

  function DeletingMachines(machines: Machines): set<Name> {
    set n | n in machines && machines[n].deleting
  }

  predicate HasDeletingMachine(machines: Machines) {
    exists n :: n in machines && machines[n].deleting
  }

  predicate HasHealthyMachineStillProvisioning(machines: Machines) {
    exists n :: n in machines && !machines[n].unhealthy && machines[n].node.None?
  }

  function WithDeleteAnnotation(machines: Machines, among: set<Name>): set<Name> {
    set n | n in among && n in machines && machines[n].deleteAnnotation
  }

  function InDomain(machines: Machines, among: set<Name>, domain: Option<string>): set<Name> {
    set n | n in among && n in machines && machines[n].domain == domain
  }

  function OutsideDomains(machines: Machines, among: set<Name>, domains: set<string>): set<Name> {
    set n | n in among && n in machines && !(machines[n].domain.Some? && machines[n].domain.value in domains)
  }

  // ----- The oldest machine -----

  predicate Older(machines: Machines, a: Name, b: Name) {
    && a in machines && b in machines
    && (machines[a].created < machines[b].created || (machines[a].created == machines[b].created && a < b))
  }

  predicate IsOldest(machines: Machines, among: set<Name>, n: Name) {
    && n in among && n in machines
    && forall o :: o in among && o in machines && o != n ==> Older(machines, n, o)
  }

  method Oldest(machines: Machines, among: set<Name>) returns (r: Option<Name>)
    requires among <= machines.Keys
    ensures r.None? <==> among == {}
    ensures r.Some? ==> IsOldest(machines, among, r.value)
    ensures r.Some? ==> r.value in among && forall o :: o in among ==>
      machines[r.value].created <= machines[o].created && (machines[r.value].created == machines[o].created ==> r.value <= o)
  {
    r := None;
    var rest := among;
    while rest != {}
      invariant rest <= among
      invariant r.None? <==> rest == among
      invariant r.Some? ==> IsOldest(machines, among - rest, r.value)
      decreases rest
    {
      var n :| n in rest;
      if r.None? || Older(machines, n, r.value) {
        r := Some(n);
      }
      rest := rest - {n};
    }
    assert among - rest == among;
  }

  // ----- What to do -----

  datatype Plan = Stay | Initialize | ScaleUp | ScaleDown

  /** A rollout takes precedence over a change of size. */
  function Wants(spec: KcpSpec, machines: Machines): Plan {
    if MachinesNeedingRollout(spec, machines) != {} then
      if spec.maxSurge.None? then Stay
      else if |machines| < spec.replicas + spec.maxSurge.value then ScaleUp
      else ScaleDown
    else if |machines| < spec.replicas then
      if |machines| == 0 then Initialize else ScaleUp
    else if |machines| > spec.replicas then ScaleDown
    else Stay
  }

  /** Stable enough to change, the machine to be removed, if any, aside. */
  predicate Preflight(machines: Machines, excluded: Option<Name>) {
    |machines| != 0 ==>
      && !HasDeletingMachine(machines)
      && forall n :: n in machines && excluded != Some(n) ==> machines[n].agent == Some(IsTrue)
  }

  predicate PreflightCheckCondition(m: Machine) {
    m.agent.Some? && !m.agent.value.IsFalse? && !m.agent.value.IsUnknown?
  }

  method PreflightChecks(machines: Machines, excluded: Option<Name>) returns (ok: bool)
    ensures ok == Preflight(machines, excluded)
    ensures ok <==> forall n :: n in machines ==>
      !machines[n].deleting && (excluded != Some(n) ==> machines[n].agent == Some(IsTrue))
  {
    assert |machines| == 0 ==> machines.Keys == {} by {
      assert |machines| == |machines.Keys|;
    }
    if |machines| == 0 {
      return true;
    }
    if HasDeletingMachine(machines) {
      return false;
    }
    var failures := 0;
    var rest := machines.Keys;
    while rest != {}
      invariant rest <= machines.Keys
      invariant failures == 0 <==>
        forall n :: n in machines && n !in rest && excluded != Some(n) ==> machines[n].agent == Some(IsTrue)
      decreases rest
    {
      var n :| n in rest;
      rest := rest - {n};
      if excluded != Some(n) && !PreflightCheckCondition(machines[n]) {
        failures := failures + 1;
      }
    }
    ok := failures == 0;
  }

  // ----- Which machine to remove -----

  /** The machines to choose from: annotated outdated ones, annotated ones, outdated ones, or all. */
  function CandidatesAmong(all: set<Name>, annotated: set<Name>, outdated: set<Name>): (r: set<Name>)
    ensures annotated <= all && outdated <= all ==> r <= all
    ensures all != {} ==> r != {}
  {
    if annotated * outdated != {} then annotated * outdated
    else if annotated != {} then annotated
    else if outdated != {} then outdated
    else all
  }

  function Annotated(machines: Machines): (r: set<Name>)
    ensures r <= machines.Keys
  {
    WithDeleteAnnotation(machines, machines.Keys)
  }

  function Candidates(machines: Machines, outdated: set<Name>): (r: set<Name>)
    ensures outdated <= machines.Keys ==> r <= machines.Keys
    ensures machines.Keys != {} ==> r != {}
  {
    CandidatesAmong(machines.Keys, Annotated(machines), outdated)
  }

  /** Of the failure domains that hold a candidate, none holds more control plane machines. */
  predicate HasMostMachines(machines: Machines, candidates: set<Name>, fd: Option<string>) {
    forall c :: c in candidates && c in machines ==>
      |InDomain(machines, machines.Keys, machines[c].domain)| <= |InDomain(machines, machines.Keys, fd)|
  }

  /** The victim is the oldest of the candidates outside the current failure domains; if there are
      none, the oldest candidate of a failure domain with the most machines. */
  predicate VictimFits(machines: Machines, domains: set<string>, outdated: set<Name>, n: Name) {
    var candidates := Candidates(machines, outdated);
    var outside := OutsideDomains(machines, candidates, domains);
    if outside != {} then IsOldest(machines, outside, n)
    else
      && n in machines && IsOldest(machines, InDomain(machines, candidates, machines[n].domain), n)
      && HasMostMachines(machines, candidates, machines[n].domain)
  }

  method PickMost(machines: Machines, candidates: set<Name>) returns (fd: Option<string>)
    requires candidates <= machines.Keys && candidates != {}
    ensures InDomain(machines, candidates, fd) != {} && HasMostMachines(machines, candidates, fd)
  {
    var best :| best in candidates;
    var rest := candidates;
    while rest != {}
      invariant rest <= candidates && best in candidates
      invariant HasMostMachines(machines, candidates - rest, machines[best].domain)
      decreases rest
    {
      var n :| n in rest;
      if |InDomain(machines, machines.Keys, machines[n].domain)| > |InDomain(machines, machines.Keys, machines[best].domain)| {
        best := n;
      }
      rest := rest - {n};
    }
    fd := machines[best].domain;
    assert candidates - rest == candidates && best in InDomain(machines, candidates, fd);
  }

  method FailureDomainWithMostMachines(machines: Machines, domains: set<string>, candidates: set<Name>)
    returns (fd: Option<string>)
    requires candidates <= machines.Keys && candidates != {}
    ensures InDomain(machines, candidates, fd) != {}
    ensures var outside := OutsideDomains(machines, candidates, domains);
      if outside != {} then exists n :: IsOldest(machines, outside, n) && machines[n].domain == fd
      else HasMostMachines(machines, candidates, fd)
  {
    var notInFailureDomains := OutsideDomains(machines, candidates, domains);
    if notInFailureDomains != {} {
      var oldest := Oldest(machines, notInFailureDomains);
      fd := machines[oldest.value].domain;
      assert oldest.value in InDomain(machines, candidates, fd);
      return;
    }
    fd := PickMost(machines, candidates);
  }

  method SelectMachineForScaleDown(machines: Machines, domains: set<string>, outdated: set<Name>)
    returns (r: Option<Name>)
    requires outdated <= machines.Keys
    ensures r.None? <==> |machines| == 0
    ensures r.Some? ==> VictimFits(machines, domains, outdated, r.value) && r.value in Candidates(machines, outdated)
  {
    assert WithDeleteAnnotation(machines, outdated) == Annotated(machines) * outdated;
    var candidates := machines.Keys;
    if WithDeleteAnnotation(machines, outdated) != {} {
      candidates := WithDeleteAnnotation(machines, outdated);
    } else if Annotated(machines) != {} {
      candidates := Annotated(machines);
    } else if outdated != {} {
      candidates := outdated;
    }
    if candidates == {} {
      return None;
    }
    var fd := FailureDomainWithMostMachines(machines, domains, candidates);
    r := Oldest(machines, InDomain(machines, candidates, fd));
    OldestInDomain(machines, candidates, domains, fd, r.value);
  }

  /** Outside the current domains, the oldest machine of the oldest machine's domain is that machine. */
  lemma OldestInDomain(machines: Machines, candidates: set<Name>, domains: set<string>, fd: Option<string>, n: Name)
    requires candidates <= machines.Keys && IsOldest(machines, InDomain(machines, candidates, fd), n)
    requires var outside := OutsideDomains(machines, candidates, domains);
      outside != {} ==> exists o :: IsOldest(machines, outside, o) && machines[o].domain == fd
    ensures var outside := OutsideDomains(machines, candidates, domains);
      outside != {} ==> IsOldest(machines, outside, n)
  {
  }

  /** During a rollout the machine removed is sure to be an outdated one exactly when no machine
      carries the delete annotation, or some outdated machine does. */
  lemma OnlyOutdatedRemoved(machines: Machines, outdated: set<Name>)
    requires outdated <= machines.Keys && outdated != {}
    ensures Candidates(machines, outdated) <= outdated
      <==> Annotated(machines) == {} || Annotated(machines) * outdated != {}
  {
  }

  // ----- Which machine to remediate -----

  function WithoutNode(machines: Machines, among: set<Name>): set<Name> {
    set n | n in among && n in machines && machines[n].node.None?
  }

  predicate IsToBeRemediated(machines: Machines, n: Name) {
    var unhealthy := UnhealthyMachines(machines);
    IsOldest(machines, if WithoutNode(machines, unhealthy) != {} then WithoutNode(machines, unhealthy) else unhealthy, n)
  }

  method GetMachineToBeRemediated(machines: Machines, unhealthy: set<Name>) returns (n: Name)
    requires unhealthy == UnhealthyMachines(machines) != {}
    ensures IsToBeRemediated(machines, n) && machines[n].unhealthy
    ensures forall o :: o in machines && machines[o].unhealthy && machines[o].node.None? ==>
      machines[n].node.None? && machines[n].created <= machines[o].created
    ensures machines[n].node.Some? ==> forall o :: o in machines && machines[o].unhealthy ==> machines[n].created <= machines[o].created
  {
    var r := Oldest(machines, WithoutNode(machines, unhealthy));
    if r.None? {
      r := Oldest(machines, unhealthy);
    }
    n := r.value;
    ToBeRemediatedInPlainTerms(machines, n);
  }

  /** An unhealthy machine; if some have no node, one without; and the oldest of those. */
  lemma ToBeRemediatedInPlainTerms(machines: Machines, n: Name)
    requires IsToBeRemediated(machines, n)
    ensures n in machines && machines[n].unhealthy
    ensures forall o :: o in machines && machines[o].unhealthy && machines[o].node.None? ==>
      machines[n].node.None? && machines[n].created <= machines[o].created
    ensures machines[n].node.Some? ==> forall o :: o in machines && machines[o].unhealthy ==> machines[n].created <= machines[o].created
  {
    forall o | o in machines && machines[o].unhealthy && machines[o].node.None?
      ensures o in WithoutNode(machines, UnhealthyMachines(machines))
    {
    }
  }

  // ----- In plain terms -----

  /** Which machines are to be rolled out. */
  lemma OutdatedInPlainTerms(spec: KcpSpec, machines: Machines, n: Name)
    ensures n in MachinesNeedingRollout(spec, machines) <==>
      && n in machines && !machines[n].deleting
      && var m, w := machines[n], spec.wanted;
      || (spec.deadline.Some? && m.created < spec.deadline.value)
      || m.desc.version.None?
      || (var v := m.desc.version.value;
          (if v != "" && v[0] == 'v' then v[1..] else v) != (if w.version != "" && w.version[0] == 'v' then w.version[1..] else w.version))
      || (m.desc.hasConfigRef && m.desc.config.Some? && m.desc.config.value.rest != w.config.rest)
      || (m.desc.infra.Some? && m.desc.infra.value.clonedFromName.Some? && m.desc.infra.value.clonedFromGroupKind.Some?
          && (m.desc.infra.value.clonedFromName.value != w.template.name || m.desc.infra.value.clonedFromGroupKind.value != w.template.groupKind))
  {
    if n in machines {
      MismatchInPlainTerms(spec.wanted, machines[n].desc);
    }
  }

  /** What a pass wants, from the number of machines and whether any of them is to be rolled out. */
  lemma WantsInPlainTerms(spec: KcpSpec, machines: Machines)
    ensures var rollout, size := exists n :: n in machines && Outdated(spec, machines[n]), |machines|;
      && (Wants(spec, machines) == ScaleUp <==>
            if rollout then spec.maxSurge.Some? && size < spec.replicas + spec.maxSurge.value else 0 < size < spec.replicas)
      && (Wants(spec, machines) == ScaleDown <==>
            if rollout then spec.maxSurge.Some? && size >= spec.replicas + spec.maxSurge.value else size > spec.replicas)
      && (Wants(spec, machines) == Initialize <==> !rollout && size == 0 < spec.replicas)
  {
    if n :| n in machines && Outdated(spec, machines[n]) {
      assert n in MachinesNeedingRollout(spec, machines);
    } else {
      assert MachinesNeedingRollout(spec, machines) == {};
    }
  }

  /** Which machines may be picked to be removed: those that are annotated and outdated, if any; else
      those that are annotated; else the outdated ones; else all. */
  lemma CandidatesInPlainTerms(machines: Machines, outdated: set<Name>, n: Name)
    requires outdated <= machines.Keys
    ensures n in Candidates(machines, outdated) <==>
      && n in machines
      && if exists o :: o in outdated && machines[o].deleteAnnotation then n in outdated && machines[n].deleteAnnotation
         else if exists o :: o in machines && machines[o].deleteAnnotation then machines[n].deleteAnnotation
         else outdated != {} ==> n in outdated
  {
    if o :| o in outdated && machines[o].deleteAnnotation {
      assert o in Annotated(machines) * outdated;
    } else if o :| o in machines && machines[o].deleteAnnotation {
      assert o in Annotated(machines);
      assert Annotated(machines) * outdated == {};
    } else {
      assert Annotated(machines) == {};
    }
  }

  /** The one picked: if a candidate is in none of the current failure domains, the oldest of those;
      otherwise the oldest candidate of its domain, and no candidate's domain holds more machines. */
  lemma VictimInPlainTerms(machines: Machines, domains: set<string>, outdated: set<Name>, n: Name)
    requires outdated <= machines.Keys && VictimFits(machines, domains, outdated, n)
    ensures var c := Candidates(machines, outdated);
      && n in c && n in machines
      && if machines[n].domain.Some? && machines[n].domain.value in domains then
           forall o :: o in c ==>
             && machines[o].domain.Some? && machines[o].domain.value in domains
             && (machines[o].domain == machines[n].domain ==> machines[n].created <= machines[o].created)
             && |set m | m in machines && machines[m].domain == machines[o].domain|
                <= |set m | m in machines && machines[m].domain == machines[n].domain|
         else
           forall o :: o in c && !(machines[o].domain.Some? && machines[o].domain.value in domains) ==>
             machines[n].created <= machines[o].created
  {
    var c := Candidates(machines, outdated);
    var outside := OutsideDomains(machines, c, domains);
    if outside == {} {
      forall o | o in c
        ensures machines[o].domain.Some? && machines[o].domain.value in domains
        ensures InDomain(machines, machines.Keys, machines[o].domain) == set m | m in machines && machines[m].domain == machines[o].domain
      {
        assert o !in outside;
      }
    }
  }
}
