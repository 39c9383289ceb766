/** The control plane controller, call by call. */
module LifecycleController {
  import opened Prelude
  import opened MachineFilters
  import opened Remediation
  import opened ControlPlaneMachines
  import opened WorkloadCluster
  import opened Lifecycle
  import opened LifecyclePass
  import opened LifecycleApi

  /** The machine has left, if it can, and then the move was made. */
  function Evicted(s: ControlPlane, m: Machine, mv: Move): ControlPlane
    requires CanMove(mv, Left(s, m))
  {
    if CanLeave(s, m) then Moved(mv, Left(s, m)) else s
  }

  /** The control plane before the closing patch of a pass. */
  function Unclosed(spec: KcpSpec, now: int, made: Made, s: ControlPlane, choice: Choice): ControlPlane
    requires choice.Remediates? ==> MayRemediate(spec.remediation, now, s, choice.name)
    requires choice.Removes? ==> choice.name in s.machines && CanMove(Removal(spec, s.machines, choice.name), s)
    requires choice.Adds? ==> CanMove(Creation(spec, made), s)
  {
    match choice
    case Nothing => s
    case Remediates(n) => Evicted(s, s.machines[n], DeleteUnhealthy(n, spec.remediation, now))
    case Adds => Moved(Creation(spec, made), s)
    case Removes(n) => Evicted(s, s.machines[n], Removal(spec, s.machines, n))
  }

  /** Machine n has been remediated, as far as that was possible; the annotation is in memory. */
  ghost predicate HasRemediated(spec: KcpSpec, now: int, s: ControlPlane, n: Name, s': ControlPlane,
    annotation: seq<RemediationData>, outcome: Outcome)
  {
    && MayRemediate(spec.remediation, now, s, n)
    && outcome == PassOutcome(spec, s, Remediates(n))
    && s' == Unclosed(spec, now, Made(0, 0, None), s, Remediates(n))
    && annotation == if CanLeave(s, s.machines[n]) then s'.pending else []
  }

  /** The set of machines has been changed as chosen, as far as that was possible. */
  ghost predicate HasScaled(spec: KcpSpec, made: Made, s: ControlPlane, choice: Choice, s': ControlPlane,
    before: seq<RemediationData>, annotation: seq<RemediationData>, outcome: Outcome)
  {
    && !choice.Remediates?
    && (choice.Removes? ==> choice.name in s.machines && CanMove(Removal(spec, s.machines, choice.name), s))
    && (choice.Adds? ==> CanMove(Creation(spec, made), s))
    && s' == Unclosed(spec, 0, made, s, choice)
    && annotation == (if choice.Adds? then [] else before)
    && outcome == PassOutcome(spec, s, choice)
  }

  lemma HasAdded(spec: KcpSpec, made: Made, s: ControlPlane, s': ControlPlane, before: seq<RemediationData>)
    requires CanMove(Creation(spec, made), s) && s' == Moved(Creation(spec, made), s)
    ensures HasScaled(spec, made, s, Adds, s', before, [], Requeue)
  {
  }

  lemma HasLeftAlone(spec: KcpSpec, made: Made, s: ControlPlane, before: seq<RemediationData>)
    ensures HasScaled(spec, made, s, Nothing, s, before, before, if Wants(spec, s.machines) == Stay then Finished else Requeue)
  {
  }

  lemma HasRemoved(spec: KcpSpec, made: Made, s: ControlPlane, n: Name, s': ControlPlane, before: seq<RemediationData>, outcome: Outcome)
    requires n in s.machines && CanMove(Removal(spec, s.machines, n), s) && CanMove(Removal(spec, s.machines, n), Left(s, s.machines[n]))
    requires s' == Evicted(s, s.machines[n], Removal(spec, s.machines, n))
    requires outcome == if CanLeave(s, s.machines[n]) then Requeue else Error
    ensures HasScaled(spec, made, s, Removes(n), s', before, before, outcome)
  {
  }

  /** What an undisturbed pass has done before its closing patch. */
  ghost predicate HasReconciled(spec: KcpSpec, now: int, made: Made, domains: set<string>, s: ControlPlane, report: Machines,
    choice: Choice, s': ControlPlane, annotation: seq<RemediationData>, outcome: Outcome)
  {
    && report.Keys == s.machines.Keys && Reported(s, report)
    && var s1 := Inspection(s, report);
    && ChoiceFits(spec, now, domains, s1, choice)
    && if choice.Remediates? then HasRemediated(spec, now, s1, choice.name, s', annotation, outcome)
       else HasScaled(spec, made, s1, choice, s', s.remediation, annotation, outcome)
  }

  /** The closing patch of the annotation. */
  function Closed(s: ControlPlane, before: seq<RemediationData>, annotation: seq<RemediationData>): ControlPlane
    requires annotation != before ==> CanMove(if before == [] then SaveRemediation else ClearRemediation, s)
  {
    if annotation == before then s
    else if before == [] then Moved(SaveRemediation, s)
    else Moved(ClearRemediation, s)
  }

  /** Together with the closing patch that is what a pass should do. */
  lemma ClosedIsActed(spec: KcpSpec, now: int, made: Made, domains: set<string>, s: ControlPlane, report: Machines, choice: Choice,
    s': ControlPlane, annotation: seq<RemediationData>, outcome: Outcome)
    requires HasReconciled(spec, now, made, domains, s, report, choice, s', annotation, outcome)
    requires annotation != s.remediation ==> CanMove(if s.remediation == [] then SaveRemediation else ClearRemediation, s')
    ensures Closed(s', s.remediation, annotation) == Acted(spec, now, made, Inspection(s, report), choice)
    ensures outcome == PassOutcome(spec, Inspection(s, report), choice)
  {
    var s1 := Inspection(s, report);
    match choice {
      case Remediates(n) => ClosedRemediation(spec, now, made, s1, n, s', annotation, outcome);
      case Adds => ClosedAddition(spec, now, made, s1, s', annotation, outcome);
      case Removes(n) => ClosedRemoval(spec, now, made, s1, n, s', annotation, outcome);
      case Nothing =>
    }
  }

  lemma ClosedRemoval(spec: KcpSpec, now: int, made: Made, s: ControlPlane, n: Name, s': ControlPlane,
    annotation: seq<RemediationData>, outcome: Outcome)
    requires HasScaled(spec, made, s, Removes(n), s', s.remediation, annotation, outcome)
    ensures annotation == s.remediation && s' == Acted(spec, now, made, s, Removes(n))
  {
  }

  lemma ClosedRemediation(spec: KcpSpec, now: int, made: Made, s: ControlPlane, n: Name, s': ControlPlane,
    annotation: seq<RemediationData>, outcome: Outcome)
    requires HasRemediated(spec, now, s, n, s', annotation, outcome)
    requires annotation != [] ==> CanMove(SaveRemediation, s')
    ensures Closed(s', [], annotation) == Acted(spec, now, made, s, Remediates(n))
  {
  }

  lemma ClosedAddition(spec: KcpSpec, now: int, made: Made, s: ControlPlane, s': ControlPlane,
    annotation: seq<RemediationData>, outcome: Outcome)
    requires HasScaled(spec, made, s, Adds, s', s.remediation, annotation, outcome)
    requires annotation != s.remediation ==> CanMove(if s.remediation == [] then SaveRemediation else ClearRemediation, s')
    ensures Closed(s', s.remediation, annotation) == Acted(spec, now, made, s, Adds)
  {
  }

  function Removal(spec: KcpSpec, machines: Machines, name: Name): Move {
    DeleteSurplus(name, spec, Annotated(machines))
  }

  function Creation(spec: KcpSpec, made: Made): Move {
    Create(made.name, spec, Clone(spec.wanted), made.created, made.domain)
  }

  // ----- Patching the conditions of the machines, one by one -----

  /** Patching a condition that is as it was changes nothing. */
  lemma NothingToPatch(owned: Machines, report: Machines, rest: set<Name>, n: Name)
    requires report.Keys == owned.Keys && n in owned && report[n].agent == owned[n].agent
    ensures SameAgents(AfterPatches(owned, report, rest), AfterPatches(owned, report, rest - {n}))
    ensures SaneMachine(true, owned[n]) ==> AfterPatches(owned, report, rest - {n}) == AfterPatches(owned, report, rest)
  {
  }

  lemma PatchedOne(owned: Machines, report: Machines, rest: set<Name>, n: Name, s: ControlPlane, s': ControlPlane)
    requires report.Keys == owned.Keys && n in rest && n in owned && Mirrors(owned, s.machines)
    requires SameAgents(AfterPatches(owned, report, rest), s.machines)
    requires CanMove(SetAgent(n, report[n].agent), s) && Steady(Moved(SetAgent(n, report[n].agent), s), s')
    ensures SameAgents(AfterPatches(owned, report, rest - {n}), s'.machines)
  {
    var s1 := Moved(SetAgent(n, report[n].agent), s);
    forall m | m in owned && m in s'.machines
      ensures s'.machines[m].agent == AfterPatches(owned, report, rest - {n})[m].agent
    {
      assert m in s1.machines && s'.machines[m].agent == s1.machines[m].agent;
    }
  }

  lemma PatchedAround(owned: Machines, report: Machines, rest: set<Name>, n: Name, s0: ControlPlane, s1: ControlPlane, s2: ControlPlane, ok: bool)
    requires report.Keys == owned.Keys && n in rest && n in owned && Mirrors(owned, s1.machines) && Around(s0, s1) && Around(s1, s2)
    requires ok ==> CanMove(SetAgent(n, report[n].agent), s1) && Steady(Moved(SetAgent(n, report[n].agent), s1), s2)
    ensures Around(s0, s2) && Mirrors(owned, s2.machines)
    ensures ok && SameAgents(AfterPatches(owned, report, rest), s1.machines) ==>
      SameAgents(AfterPatches(owned, report, rest - {n}), s2.machines)
  {
    SteadyIsTransitive(s0, s1, s2);
    MirrorsIsTransitive(owned, s1.machines, s2.machines);
    if ok && SameAgents(AfterPatches(owned, report, rest), s1.machines) {
      PatchedOne(owned, report, rest, n, s1, s2);
    }
  }

  lemma PatchedOneQuietly(owned: Machines, report: Machines, rest: set<Name>, n: Name, s: ControlPlane)
    requires report.Keys == owned.Keys && n in rest && n in owned
    requires s.machines == AfterPatches(owned, report, rest) && CanMove(SetAgent(n, report[n].agent), s)
    ensures Moved(SetAgent(n, report[n].agent), s) == s.(machines := AfterPatches(owned, report, rest - {n}))
  {
    assert s.machines[n] == owned[n];
    assert Moved(SetAgent(n, report[n].agent), s).machines == AfterPatches(owned, report, rest - {n});
  }

  lemma NothingToInspect(s: ControlPlane)
    requires Sane(s)
    ensures Inspection(s, s.machines) == s
  {
  }

  lemma MirrorsPatched(owned: Machines, report: Machines, now: Machines)
    requires report.Keys == owned.Keys && Mirrors(owned, now)
    ensures Mirrors(AfterPatches(owned, report, {}), now)
  {
  }

  /** What a pass relies on to the end: nobody else takes back initialized or the config map, and
      nobody else makes machines. */
  predicate Forward(s: ControlPlane, s': ControlPlane) {
    s'.initialized == s.initialized && (s.hasConfigMap ==> s'.hasConfigMap)
  }

  /** The move was made, at some point between the two states. */
  ghost predicate MadeBetween(s: ControlPlane, mv: Move, s': ControlPlane) {
    exists at :: Steady(s, at) && CanMove(mv, at) && Steady(Moved(mv, at), s')
  }

  // ----- Scaling -----

  /** A machine may be made, as far as the list in memory tells. */
  predicate MayAdd(spec: KcpSpec, machines: Machines) {
    Wants(spec, machines) == Initialize || (Wants(spec, machines) == ScaleUp && Preflight(machines, None))
  }

  lemma MayCreate(spec: KcpSpec, made: Made, owned: Machines, s: ControlPlane)
    requires Mirrors(owned, s.machines) && SameAgents(owned, s.machines) && MayAdd(spec, owned)
    requires made.name !in s.born && (spec.deadline.Some? ==> spec.deadline.value <= made.created)
    ensures CanMove(Creation(spec, made), s)
  {
    assert |owned| == 0 ==> owned.Keys == {} by {
      assert |owned| == |owned.Keys|;
    }
    MirrorsAgree(spec, owned, s.machines);
    if Preflight(owned, None) {
      MirrorsAgreeOnPreflight(owned, s.machines, None);
    }
  }

  lemma MayDeleteSurplus(spec: KcpSpec, owned: Machines, s: ControlPlane, n: Name)
    requires Mirrors(owned, s.machines) && SameAgents(owned, s.machines) && n in owned
    requires Wants(spec, owned) == ScaleDown && Preflight(owned, Some(n))
    requires n in Candidates(owned, MachinesNeedingRollout(spec, owned))
    ensures CanMove(Removal(spec, owned, n), s)
  {
    assert |owned| == |owned.Keys| && owned.Keys != {};
    MirrorsAgree(spec, owned, s.machines);
    MirrorsAgreeOnPreflight(owned, s.machines, Some(n));
  }

  lemma InStepSteadily(owned: Machines, s: ControlPlane, s': ControlPlane)
    requires Mirrors(owned, s.machines) && SameAgents(owned, s.machines) && Steady(s, s')
    ensures Mirrors(owned, s'.machines) && SameAgents(owned, s'.machines)
  {
  }

  lemma MayDeleteUnhealthy(spec: KcpSpec, now: int, owned: Machines, name: Name, s: ControlPlane)
    requires Mirrors(owned, s.machines) && name in owned && !owned[name].deleting && s.remediation == []
    requires Verdict(LastOf(owned[name].chain), spec.remediation, now).Some?
    requires s.initialized ==> |owned| > 1 && !HasDeletingMachine(owned)
    ensures CanMove(DeleteUnhealthy(name, spec.remediation, now), s) && s.machines[name].chain == owned[name].chain
  {
    assert SameMachine(owned[name], s.machines[name]);
    if s.initialized {
      MirrorsAgree(spec, owned, s.machines);
      assert |owned| == |owned.Keys| && |s.machines| == |s.machines.Keys|;
    }
  }

  lemma MayDeleteUnhealthyLater(spec: KcpSpec, now: int, owned: Machines, name: Name, s: ControlPlane)
    requires Mirrors(owned, s.machines) && SameAgents(owned, s.machines)
    requires name in owned && !owned[name].deleting && s.remediation == []
    requires Verdict(LastOf(owned[name].chain), spec.remediation, now).Some?
    requires s.initialized ==> |owned| > 1 && !HasDeletingMachine(owned)
    ensures forall s' :: Steady(s, s') ==> CanMove(DeleteUnhealthy(name, spec.remediation, now), s')
  {
    forall s' | Steady(s, s')
      ensures CanMove(DeleteUnhealthy(name, spec.remediation, now), s')
    {
      InStepSteadily(owned, s, s');
      MayDeleteUnhealthy(spec, now, owned, name, s');
    }
  }

  lemma UnhealthyDeleted(spec: KcpSpec, now: int, owned: Machines, name: Name, s: ControlPlane, s': ControlPlane)
    requires Mirrors(owned, s.machines) && name in owned && Verdict(LastOf(owned[name].chain), spec.remediation, now).Some?
    ensures MadeBetween(s, DeleteUnhealthy(name, spec.remediation, now), s') ==>
      && s'.remediation == s.remediation && Forward(s, s')
      && s'.pending == Extended(owned[name].chain, name, spec.remediation, now)
  {
    var mv := DeleteUnhealthy(name, spec.remediation, now);
    if MadeBetween(s, mv, s') {
      var at :| Steady(s, at) && CanMove(mv, at) && Steady(Moved(mv, at), s');
      MirrorsIsTransitive(owned, s.machines, at.machines);
      assert SameMachine(owned[name], at.machines[name]);
    }
  }

  lemma RemediatedQuietly(spec: KcpSpec, now: int, s: ControlPlane, name: Name)
    requires MayRemediate(spec.remediation, now, s, name)
    ensures var m := s.machines[name];
      var s' := Evicted(s, m, DeleteUnhealthy(name, spec.remediation, now));
      && HasRemediated(spec, now, s, name, s', if CanLeave(s, m) then Extended(m.chain, name, spec.remediation, now) else [],
           if CanLeave(s, m) then Requeue else Error)
  {
  }

  lemma MayDeleteSurplusLater(spec: KcpSpec, owned: Machines, name: Name, s: ControlPlane)
    requires Mirrors(owned, s.machines) && SameAgents(owned, s.machines) && name in owned
    requires Wants(spec, owned) == ScaleDown && Preflight(owned, Some(name))
    requires name in Candidates(owned, MachinesNeedingRollout(spec, owned))
    ensures forall s' :: Steady(s, s') ==> CanMove(Removal(spec, owned, name), s')
  {
    forall s' | Steady(s, s')
      ensures CanMove(Removal(spec, owned, name), s')
    {
      InStepSteadily(owned, s, s');
      MayDeleteSurplus(spec, owned, s', name);
    }
  }

  lemma SurplusDeleted(mv: Move, s: ControlPlane, s': ControlPlane)
    requires mv.DeleteSurplus?
    ensures MadeBetween(s, mv, s') ==> s'.remediation == s.remediation && Forward(s, s')
  {
  }

  lemma OnlyOneToRemediate(machines: Machines, n: Name)
    requires IsToBeRemediated(machines, n)
    ensures forall o :: IsToBeRemediated(machines, o) ==> o == n
  {
  }

  class CK8sControlPlaneReconciler {
    const api: Api
    // the control plane object in memory, changed in place and patched at the end of a pass
    var remediation: seq<RemediationData>
    var initialized: bool

    constructor (api: Api)
      ensures this.api == api
    {
      this.api, remediation, initialized := api, [], false;
    }

    /** The list of machines in memory is as good as the store. */
    ghost predicate InStep(owned: Machines)
      reads this, api
    {
      && api.Valid() && Mirrors(owned, api.st.machines) && SameAgents(owned, api.st.machines)
      && remediation == api.st.remediation && initialized == api.st.initialized
    }

    /** The annotation in memory, started from this value, can be patched. */
    ghost predicate Patchable(before: seq<RemediationData>)
      reads this, api
    {
      && api.Valid() && api.st.remediation == before
      && (|| remediation == before
          || (before == [] && remediation != [] && api.st.pending == remediation)
          || (before != [] && remediation == [] && api.st.filled))
    }

    method RemoveMachineFromCluster(m: Machine) returns (ok: bool)
      requires api.Valid() && m.node.Some?
      modifies api
      ensures api.Valid() && old(api.moves) <= api.moves && Steady(old(api.st), api.st)
      ensures old(api.Quiet()) ==>
        && api.Quiet() && ok == CanLeave(old(api.st), m)
        && api.st == if ok then Left(old(api.st), m) else old(api.st)
      ensures ok ==> api.failures == old(api.failures)
    {
      var node := m.node.value;
      var seen;
      ok, seen := api.Read();   // the control plane nodes
      if !ok {
        return;
      }
      ghost var s1 := api.st;
      var nodes := seen.nodes;
      ok, seen := api.Read();   // the proxy pods
      ghost var s2 := api.st;
      SteadyIsTransitive(old(api.st), s1, s2);
      if !ok {
        return;
      }
      var proxy := GetK8sdProxyForControlPlane(nodes, {node});
      if proxy.None? {
        return false;
      }
      ok := api.RemoveNode(proxy.value, node);
      SteadyIsTransitive(old(api.st), s2, api.st);
    }

    /** Reach the workload cluster and remove the node of the machine, if it has one. */
    method TakeOut(m: Machine) returns (ok: bool)
      requires api.Valid()
      modifies api
      ensures api.Valid() && old(api.moves) <= api.moves && Steady(old(api.st), api.st)
      ensures old(api.Quiet()) ==>
        && api.Quiet() && ok == CanLeave(old(api.st), m)
        && api.st == if ok then Left(old(api.st), m) else old(api.st)
      ensures ok ==> api.failures == old(api.failures)
    {
      var seen;
      ok, seen := api.Read();
      if !ok {
        return;
      }
      ghost var s1 := api.st;
      if m.node.Some? {
        ok := RemoveMachineFromCluster(m);
        SteadyIsTransitive(old(api.st), s1, api.st);
      }
    }

    /** Remove the node of the machine, then delete the machine. */
    method Evict(m: Machine, mv: Move) returns (ok: bool)
      requires api.Valid() && forall s :: Steady(api.st, s) ==> CanMove(mv, s)
      modifies api
      ensures api.Valid() && old(api.moves) <= api.moves
      ensures ok ==> MadeBetween(old(api.st), mv, api.st)
      ensures !ok ==> Steady(old(api.st), api.st) || MadeBetween(old(api.st), mv, api.st)
      ensures old(api.Quiet()) ==>
        && api.Quiet() && ok == CanLeave(old(api.st), m)
        && CanMove(mv, Left(old(api.st), m)) && api.st == Evicted(old(api.st), m, mv)
      ensures ok ==> api.failures == old(api.failures)
    {
      ghost var s0 := api.st;
      assert Steady(s0, Left(s0, m)) by {
        SteadyIsReflexive(s0);
      }
      ok := TakeOut(m);
      if !ok {
        return;
      }
      ghost var s1 := api.st;
      assert CanMove(mv, s1);
      ok := api.Do(mv);
      if !Steady(s1, api.st) {
        assert MadeBetween(s0, mv, api.st);
      } else {
        SteadyIsTransitive(s0, s1, api.st);
      }
    }

    // ----- Conditions -----

    method PatchMachines(owned: Machines, report: Machines) returns (ok: bool, patched: Machines)
      requires InStep(owned) && initialized && OnlyAgentsDiffer(owned, report)
      requires forall n :: n in owned && report[n].agent == Some(IsTrue) && report[n].agent != owned[n].agent ==>
        owned[n].node.Some? && !owned[n].deleting
      modifies api
      ensures api.Valid() && old(api.moves) <= api.moves && Around(old(api.st), api.st)
      ensures ok ==> InStep(patched)
      ensures old(api.Quiet()) && owned == old(api.st).machines ==>
        && api.Quiet() && ok && patched == AfterPatches(owned, report, {})
        && api.st == old(api.st).(machines := patched)
      ensures ok ==> api.failures == old(api.failures)
    {
      var failures := 0;
      var rest := owned.Keys;
      ghost var s0 := api.st;
      SteadyIsReflexive(s0);
      assert AfterPatches(owned, report, rest) == owned;
      while rest != {}
        invariant rest <= owned.Keys
        invariant api.Valid() && old(api.moves) <= api.moves && Around(s0, api.st)
        invariant Mirrors(owned, api.st.machines)
        invariant failures == 0 ==> SameAgents(AfterPatches(owned, report, rest), api.st.machines)
        invariant failures == 0 ==> api.failures == old(api.failures)
        invariant old(api.Quiet()) && owned == s0.machines ==>
          api.Quiet() && failures == 0 && api.st == s0.(machines := AfterPatches(owned, report, rest))
        decreases rest
      {
        var n :| n in rest;
        var landed := PatchMachine(owned, report, n, rest, s0);
        if !landed {
          failures := failures + 1;
        }
        rest := rest - {n};
      }
      ok := failures == 0;
      patched := AfterPatches(owned, report, {});
      MirrorsPatched(owned, report, api.st.machines);
    }

    method PatchMachine(owned: Machines, report: Machines, n: Name, ghost rest: set<Name>, ghost s0: ControlPlane) returns (ok: bool)
      requires api.Valid() && api.st.initialized && Around(s0, api.st) && OnlyAgentsDiffer(owned, report)
      requires n in owned && n in rest && Mirrors(owned, api.st.machines)
      requires report[n].agent == Some(IsTrue) && report[n].agent != owned[n].agent ==> owned[n].node.Some? && !owned[n].deleting
      requires owned == s0.machines ==> Sane(s0)
      modifies api
      ensures api.Valid() && old(api.moves) <= api.moves && Around(s0, api.st)
      ensures Mirrors(owned, api.st.machines)
      ensures ok && old(SameAgents(AfterPatches(owned, report, rest), api.st.machines)) ==>
        SameAgents(AfterPatches(owned, report, rest - {n}), api.st.machines)
      ensures old(api.Quiet()) && owned == s0.machines && old(api.st) == s0.(machines := AfterPatches(owned, report, rest)) ==>
        api.Quiet() && ok && api.st == s0.(machines := AfterPatches(owned, report, rest - {n}))
      ensures ok ==> api.failures == old(api.failures)
    {
      ghost var s1 := api.st;
      if report[n].agent == owned[n].agent {
        NothingToPatch(owned, report, rest, n);
        return true;
      }
      assert n in s1.machines ==> SameMachine(owned[n], s1.machines[n]);
      ok := api.PatchAgent(n, report[n].agent);
      PatchedAround(owned, report, rest, n, s0, s1, api.st, ok);
      if s1 == s0.(machines := AfterPatches(owned, report, rest)) && n in s1.machines {
        PatchedOneQuietly(owned, report, rest, n, s1);
      }
    }

    /** Reach the workload cluster and list its control plane nodes. */
    method ListNodes() returns (ok: bool, nodes: Option<seq<NodeInfo>>)
      requires api.Valid()
      modifies api
      ensures api.Valid() && old(api.moves) <= api.moves && Steady(old(api.st), api.st)
      ensures nodes.Some? ==> DistinctNames(nodes.value)
      ensures old(api.Quiet()) ==> api.Quiet() && ok && api.st == old(api.st) && nodes == Some(api.st.nodes)
      ensures api.failures == old(api.failures)
    {
      nodes := None;
      var seen;
      ok, seen := api.Read();
      if !ok {
        return;
      }
      ghost var s1 := api.st;
      var listed;
      listed, seen := api.Read();
      SteadyIsTransitive(old(api.st), s1, api.st);
      if listed {
        nodes := Some(seen.nodes);
      }
    }

    method ReconcileControlPlaneConditions(owned: Machines) returns (ok: bool, report: Machines, patched: Machines)
      requires InStep(owned)
      modifies api
      ensures api.Valid() && old(api.moves) <= api.moves && Around(old(api.st), api.st)
      ensures ok ==> InStep(patched)
      ensures old(api.Quiet()) && owned == old(api.st).machines ==>
        && api.Quiet() && ok && report.Keys == owned.Keys && Reported(old(api.st), report)
        && api.st == Inspection(old(api.st), report) && patched == api.st.machines
      ensures ok ==> api.failures == old(api.failures)
    {
      ok, report, patched := true, owned, owned;
      ghost var s0 := api.st;
      if !initialized {
        SteadyIsReflexive(s0);
        NothingToInspect(s0);
        return;
      }
      var nodes;
      ok, nodes := ListNodes();
      ghost var s1 := api.st;
      if !ok {
        return;
      }
      InStepSteadily(owned, s0, s1);
      report := UpdateAgentConditions(owned, nodes);
      assert forall n :: n in owned ==> HealthyForAReason(nodes.GetOr([]), owned[n], report[n].agent);
      ok, patched := PatchMachines(owned, report);
      SteadyIsTransitive(s0, s1, api.st);
    }

    // ----- Remediation -----

    /** Not handled: there is nothing to remediate, or not now; the pass goes on. */
    method ReconcileUnhealthyMachines(spec: KcpSpec, now: int, owned: Machines) returns (handled: bool, outcome: Outcome, choice: Choice)
      requires InStep(owned)
      modifies api, this`remediation
      ensures api.Valid() && old(api.moves) <= api.moves
      ensures !handled ==> InStep(owned) && remediation == old(remediation) && Steady(old(api.st), api.st)
      ensures Patchable(old(remediation)) && Forward(old(api.st), api.st)
      ensures old(api.Quiet()) && owned == old(api.st).machines ==>
        && var s := old(api.st);
        && api.Quiet() && handled == choice.Remediates?
        && (!handled ==> choice.Nothing? && NothingToRemediate(spec, now, s) && api.st == s)
        && (handled ==>
              IsToBeRemediated(s.machines, choice.name) && HasRemediated(spec, now, s, choice.name, api.st, remediation, outcome))
      ensures !handled || outcome != Error ==> api.failures == old(api.failures)
    {
      handled, outcome, choice := false, Finished, Nothing;
      SteadyIsReflexive(api.st);
      var unhealthy := UnhealthyMachines(owned);
      if unhealthy == {} {
        return;
      }
      var name := GetMachineToBeRemediated(owned, unhealthy);
      OnlyOneToRemediate(owned, name);
      if owned[name].deleting {
        return;
      }
      if remediation != [] {
        return;
      }
      handled, outcome, choice := RemediateIfSafe(spec, now, owned, name);
    }

    method RemediateIfSafe(spec: KcpSpec, now: int, owned: Machines, name: Name) returns (handled: bool, outcome: Outcome, choice: Choice)
      requires InStep(owned) && IsToBeRemediated(owned, name) && !owned[name].deleting && remediation == []
      modifies api, this`remediation
      ensures !handled ==> InStep(owned) && remediation == [] && Steady(old(api.st), api.st)
      ensures Patchable([]) && old(api.moves) <= api.moves && Forward(old(api.st), api.st)
      ensures !handled || outcome != Error ==> api.failures == old(api.failures)
      ensures old(api.Quiet()) && owned == old(api.st).machines ==>
        && var s := old(api.st);
        && api.Quiet() && handled == choice.Remediates?
        && (!handled ==> choice.Nothing? && !MayRemediate(spec.remediation, now, s, name) && api.st == s)
        && (handled ==> choice == Remediates(name) && HasRemediated(spec, now, s, name, api.st, remediation, outcome))
    {
      handled, outcome, choice := false, Finished, Nothing;
      var safe, data := CheckRemediation(spec, now, owned, name);
      if !safe {
        // the reason is recorded on the machine
        var patched, _ := api.Read();
        InStepSteadily(owned, old(api.st), api.st);
        handled, outcome := !patched, if patched then Finished else Error;
        return;
      }
      outcome := Remediate(spec, now, owned, name, data);
      handled, choice := true, Remediates(name);
      var patched, _ := api.Read();
      if !patched {
        outcome := Error;
      }
    }

    method CheckRemediation(spec: KcpSpec, now: int, owned: Machines, name: Name) returns (safe: bool, data: RemediationData)
      requires name in owned
      ensures safe <==>
        && Verdict(LastOf(owned[name].chain), spec.remediation, now).Some?
        && (initialized ==> |owned| > 1 && !HasHealthyMachineStillProvisioning(owned) && !HasDeletingMachine(owned))
      ensures safe ==> data == RemediationData(name, Some(now), Verdict(LastOf(owned[name].chain), spec.remediation, now).value)
    {
      data, safe := CheckRetryLimits(LastOf(owned[name].chain), name, spec.remediation, now);
      if !safe {
        return;
      }
      if initialized {
        if |owned| <= 1 {
          return false, data;
        }
        if HasHealthyMachineStillProvisioning(owned) {
          return false, data;
        }
        if HasDeletingMachine(owned) {
          return false, data;
        }
      }
    }

    method Remediate(spec: KcpSpec, now: int, owned: Machines, name: Name, data: RemediationData) returns (outcome: Outcome)
      requires InStep(owned) && name in owned && !owned[name].deleting && remediation == []
      requires Verdict(LastOf(owned[name].chain), spec.remediation, now).Some?
      requires data == RemediationData(name, Some(now), Verdict(LastOf(owned[name].chain), spec.remediation, now).value)
      requires initialized ==> |owned| > 1 && !HasDeletingMachine(owned)
      modifies api, this`remediation
      ensures Patchable([]) && old(api.moves) <= api.moves && Forward(old(api.st), api.st)
      ensures old(api.Quiet()) && owned == old(api.st).machines && MayRemediate(spec.remediation, now, old(api.st), name) ==>
        api.Quiet() && HasRemediated(spec, now, old(api.st), name, api.st, remediation, outcome)
      ensures outcome != Error ==> api.failures == old(api.failures)
    {
      ghost var s := api.st;
      var ok := EvictUnhealthy(spec, now, owned, name);
      if ok {
        remediation := owned[name].chain + [data.(timestamp := Some(Stored(now)))];
      }
      if owned == s.machines && MayRemediate(spec.remediation, now, s, name) {
        RemediatedQuietly(spec, now, s, name);
      }
      outcome := if ok then Requeue else Error;
    }

    method EvictUnhealthy(spec: KcpSpec, now: int, owned: Machines, name: Name) returns (ok: bool)
      requires InStep(owned) && name in owned && !owned[name].deleting && remediation == []
      requires Verdict(LastOf(owned[name].chain), spec.remediation, now).Some?
      requires initialized ==> |owned| > 1 && !HasDeletingMachine(owned)
      modifies api
      ensures Patchable([]) && old(api.moves) <= api.moves && Forward(old(api.st), api.st)
      ensures ok ==> api.st.pending == Extended(owned[name].chain, name, spec.remediation, now)
      ensures ok ==> api.failures == old(api.failures)
      ensures old(api.Quiet()) && owned == old(api.st).machines ==>
        && api.Quiet() && ok == CanLeave(old(api.st), owned[name])
        && CanMove(DeleteUnhealthy(name, spec.remediation, now), Left(old(api.st), owned[name]))
        && api.st == Evicted(old(api.st), owned[name], DeleteUnhealthy(name, spec.remediation, now))
    {
      var mv := DeleteUnhealthy(name, spec.remediation, now);
      MayDeleteUnhealthyLater(spec, now, owned, name, api.st);
      ok := Evict(owned[name], mv);
      UnhealthyDeleted(spec, now, owned, name, old(api.st), api.st);
    }

    // ----- Scaling -----

    method CloneConfigsAndGenerateMachine(spec: KcpSpec, made: Made, owned: Machines) returns (ok: bool)
      requires InStep(owned) && MayAdd(spec, owned)
      requires made.name !in api.st.born && (spec.deadline.Some? ==> spec.deadline.value <= made.created)
      modifies api, this`remediation
      ensures Patchable(old(remediation)) && old(api.moves) <= api.moves && Forward(old(api.st), api.st)
      ensures old(api.Quiet()) ==>
        && api.Quiet() && ok && CanMove(Creation(spec, made), old(api.st))
        && api.st == Moved(Creation(spec, made), old(api.st)) && remediation == []
      ensures ok ==> api.failures == old(api.failures)
    {
      ghost var s0 := api.st;
      MayCreate(spec, made, owned, s0);
      var seen;
      ok, seen := api.Read();   // clone the infrastructure template
      ghost var s1 := api.st;
      InStepSteadily(owned, s0, s1);
      if !ok {
        return;
      }
      ok, seen := api.Read();   // make the bootstrap config
      ghost var s2 := api.st;
      InStepSteadily(owned, s1, s2);
      if ok {
        MayCreate(spec, made, owned, s2);
        ok := GenerateMachine(spec, made);
      }
      if !ok {
        var cleaned, _ := api.Read();
      }
    }

    method GenerateMachine(spec: KcpSpec, made: Made) returns (ok: bool)
      requires api.Valid() && remediation == api.st.remediation && CanMove(Creation(spec, made), api.st)
      modifies api, this`remediation
      ensures Patchable(old(remediation)) && old(api.moves) <= api.moves && Forward(old(api.st), api.st)
      ensures old(api.Quiet()) ==> api.Quiet() && ok && api.st == Moved(Creation(spec, made), old(api.st)) && remediation == []
      ensures old(api.Quiet()) ==>
        && made.name in api.st.machines
        && var m, w := api.st.machines[made.name], spec.wanted;
        && m.chain == old(api.st.remediation) && m.created == made.created && m.domain == made.domain
        && m.desc.version == Some(w.version) && m.desc.config == Some(w.config)
        && m.desc.infra == Some(InfraObject(Some(w.template.name), Some(w.template.groupKind)))
        && !m.deleting && m.node.None? && m.agent.None? && !m.deleteAnnotation
      ensures ok ==> api.failures == old(api.failures)
    {
      ok := api.Do(Creation(spec, made));
      if ok {
        remediation := [];
      }
    }

    method InitializeControlPlane(spec: KcpSpec, made: Made, owned: Machines) returns (outcome: Outcome)
      requires InStep(owned) && Wants(spec, owned) == Initialize
      requires made.name !in api.st.born && (spec.deadline.Some? ==> spec.deadline.value <= made.created)
      modifies api, this`remediation
      ensures Patchable(old(remediation)) && old(api.moves) <= api.moves && Forward(old(api.st), api.st)
      ensures old(api.Quiet()) ==>
        api.Quiet() && HasScaled(spec, made, old(api.st), Adds, api.st, old(remediation), remediation, outcome)
      ensures outcome != Error ==> api.failures == old(api.failures)
    {
      ghost var s0 := api.st;
      var ok, seen := api.Read();   // the machines, not from a cache
      InStepSteadily(owned, s0, api.st);
      if !ok {
        return Error;
      }
      assert |seen.machines| == 0 by {
        assert |owned| == |owned.Keys| && |seen.machines| == |seen.machines.Keys|;
        assert owned.Keys == {};
      }
      if |seen.machines| > 0 {
        return Error;
      }
      ok := CloneConfigsAndGenerateMachine(spec, made, owned);
      outcome := if ok then Requeue else Error;
      if old(api.Quiet()) {
        HasAdded(spec, made, s0, api.st, old(remediation));
      }
    }

    method ScaleUpControlPlane(spec: KcpSpec, made: Made, owned: Machines) returns (outcome: Outcome, choice: Choice)
      requires InStep(owned) && Wants(spec, owned) == ScaleUp
      requires made.name !in api.st.born && (spec.deadline.Some? ==> spec.deadline.value <= made.created)
      modifies api, this`remediation
      ensures Patchable(old(remediation)) && old(api.moves) <= api.moves && Forward(old(api.st), api.st)
      ensures choice == if Preflight(owned, None) then Adds else Nothing
      ensures choice.Nothing? ==>
        api.st == old(api.st) && (old(api.Quiet()) ==> api.Quiet()) && remediation == old(remediation) && outcome == Requeue
      ensures old(api.Quiet()) && (choice.Adds? || owned == old(api.st).machines) ==>
        api.Quiet() && HasScaled(spec, made, old(api.st), choice, api.st, old(remediation), remediation, outcome)
      ensures outcome != Error ==> api.failures == old(api.failures)
    {
      var stable := PreflightChecks(owned, None);
      if !stable {
        HasLeftAlone(spec, made, api.st, remediation);
        return Requeue, Nothing;
      }
      ghost var s := api.st;
      var ok := CloneConfigsAndGenerateMachine(spec, made, owned);
      outcome, choice := if ok then Requeue else Error, Adds;
      if old(api.Quiet()) {
        HasAdded(spec, made, s, api.st, old(remediation));
      }
    }

    method ScaleDownControlPlane(spec: KcpSpec, domains: set<string>, owned: Machines, outdated: set<Name>, ghost made: Made)
      returns (outcome: Outcome, choice: Choice)
      requires InStep(owned) && Wants(spec, owned) == ScaleDown && outdated == MachinesNeedingRollout(spec, owned)
      modifies api
      ensures Patchable(remediation) && old(api.moves) <= api.moves && Forward(old(api.st), api.st)
      ensures choice.Removes? || choice.Nothing?
      ensures ScaleFits(spec, domains, owned, choice)
      ensures choice.Nothing? ==> api.st == old(api.st) && (old(api.Quiet()) ==> api.Quiet()) && outcome == Requeue
      ensures old(api.Quiet()) && owned == old(api.st).machines ==>
        api.Quiet() && HasScaled(spec, made, old(api.st), choice, api.st, remediation, remediation, outcome)
      ensures outcome != Error ==> api.failures == old(api.failures)
    {
      var victim := SelectMachineForScaleDown(owned, domains, outdated);
      var name := victim.value;
      var stable := PreflightChecks(owned, Some(name));
      if !stable {
        HasLeftAlone(spec, made, api.st, remediation);
        return Requeue, Nothing;
      }
      choice := Removes(name);
      ghost var s := api.st;
      MayDeleteSurplus(spec, owned, s, name);
      outcome := RemoveSurplus(spec, owned, name);
      if old(api.Quiet()) && owned == s.machines {
        HasRemoved(spec, made, s, name, api.st, remediation, outcome);
      }
    }

    method RemoveSurplus(spec: KcpSpec, owned: Machines, name: Name) returns (outcome: Outcome)
      requires InStep(owned) && name in owned && Wants(spec, owned) == ScaleDown
      requires name in Candidates(owned, MachinesNeedingRollout(spec, owned)) && Preflight(owned, Some(name))
      modifies api
      ensures Patchable(remediation) && old(api.moves) <= api.moves && Forward(old(api.st), api.st)
      ensures old(api.Quiet()) && owned == old(api.st).machines ==>
        && api.Quiet() && CanMove(Removal(spec, owned, name), Left(old(api.st), owned[name]))
        && outcome == (if CanLeave(old(api.st), owned[name]) then Requeue else Error)
        && api.st == Evicted(old(api.st), owned[name], Removal(spec, owned, name))
      ensures outcome != Error ==> api.failures == old(api.failures)
    {
      var mv := Removal(spec, owned, name);
      MayDeleteSurplusLater(spec, owned, name, api.st);
      var ok := Evict(owned[name], mv);
      SurplusDeleted(mv, old(api.st), api.st);
      outcome := if ok then Requeue else Error;
    }

    /** The machines are rolled out one by one, within replicas plus surge. */
    method UpgradeControlPlane(spec: KcpSpec, made: Made, domains: set<string>, owned: Machines, machinesRequireUpgrade: set<Name>)
      returns (outcome: Outcome, choice: Choice)
      requires InStep(owned) && machinesRequireUpgrade == MachinesNeedingRollout(spec, owned) != {}
      requires made.name !in api.st.born && (spec.deadline.Some? ==> spec.deadline.value <= made.created)
      modifies api, this`remediation
      ensures Patchable(old(remediation)) && old(api.moves) <= api.moves && Forward(old(api.st), api.st)
      ensures ScaleFits(spec, domains, owned, choice)
      ensures old(api.Quiet()) && owned == old(api.st).machines ==>
        api.Quiet() && HasScaled(spec, made, old(api.st), choice, api.st, old(remediation), remediation, outcome)
      ensures outcome != Error ==> api.failures == old(api.failures)
    {
      if spec.maxSurge.None? {
        HasLeftAlone(spec, made, api.st, remediation);
        return Finished, Nothing;
      }
      var maxNodes := spec.replicas + spec.maxSurge.value;
      if |owned| < maxNodes {
        outcome, choice := ScaleUpControlPlane(spec, made, owned);
      } else {
        outcome, choice := ScaleDownControlPlane(spec, domains, owned, machinesRequireUpgrade, made);
      }
    }

    method Scale(spec: KcpSpec, made: Made, domains: set<string>, owned: Machines) returns (outcome: Outcome, choice: Choice)
      requires InStep(owned)
      requires made.name !in api.st.born && (spec.deadline.Some? ==> spec.deadline.value <= made.created)
      modifies api, this`remediation
      ensures Patchable(old(remediation)) && old(api.moves) <= api.moves && Forward(old(api.st), api.st)
      ensures ScaleFits(spec, domains, owned, choice)
      ensures old(api.Quiet()) && owned == old(api.st).machines ==>
        api.Quiet() && HasScaled(spec, made, old(api.st), choice, api.st, old(remediation), remediation, outcome)
      ensures outcome != Error ==> api.failures == old(api.failures)
    {
      var needRollout := MachinesNeedingRollout(spec, owned);
      if needRollout != {} {
        outcome, choice := UpgradeControlPlane(spec, made, domains, owned, needRollout);
        return;
      }
      // all owned machines are up to date
      var numMachines := |owned|;
      if numMachines < spec.replicas && numMachines == 0 {
        outcome := InitializeControlPlane(spec, made, owned);
        choice := Adds;
      } else if numMachines < spec.replicas {
        outcome, choice := ScaleUpControlPlane(spec, made, owned);
      } else if numMachines > spec.replicas {
        outcome, choice := ScaleDownControlPlane(spec, domains, owned, needRollout, made);
      } else {
        HasLeftAlone(spec, made, api.st, remediation);
        outcome, choice := Finished, Nothing;
      }
    }

    // ----- The end of a pass -----

    /** One more read of something that decides nothing but whether the pass goes on. */
    method ReadOn(ghost s0: ControlPlane) returns (ok: bool, seen: ControlPlane)
      requires api.Valid() && Steady(s0, api.st)
      modifies api
      ensures api.Valid() && old(api.moves) <= api.moves && Steady(s0, api.st)
      ensures seen == old(api.st) && Steady(seen, api.st)
      ensures old(api.Quiet()) ==> api.Quiet() && ok && api.st == old(api.st)
      ensures api.failures == old(api.failures)
    {
      ghost var s1 := api.st;
      ok, seen := api.Read();
      SteadyIsTransitive(s0, s1, api.st);
    }

    /** Initialized is latched once the k8sd config map is seen. A call that fails is an error, except
        that a workload cluster that cannot be connected to is only logged. */
    method UpdateStatus() returns (ok: bool)
      requires api.Valid()
      modifies api, this`initialized
      ensures api.Valid() && old(api.moves) <= api.moves && Steady(old(api.st), api.st)
      ensures initialized ==> old(initialized) || api.st.hasConfigMap
      ensures old(initialized) ==> initialized
      ensures initialized != old(initialized) ==> ok
      ensures old(api.Quiet()) ==>
        api.Quiet() && ok && api.st == old(api.st) && initialized == (old(initialized) || api.st.hasConfigMap)
      ensures api.failures == old(api.failures)
    {
      ghost var s0 := api.st;
      var seen;
      for i := 0 to 3               // the machines; their configs and infrastructure objects; the kubeconfig
        invariant api.Valid() && old(api.moves) <= api.moves && Steady(s0, api.st) && initialized == old(initialized) && api.failures == old(api.failures)
        invariant old(api.Quiet()) ==> api.Quiet() && api.st == old(api.st)
      {
        ok, seen := ReadOn(s0);
        if !ok {
          return;
        }
      }
      ok, seen := ReadOn(s0);       // the connection to the workload cluster
      if !ok {
        return true;
      }
      ok, seen := ReadOn(s0);       // the auth token
      if !ok {
        return;
      }
      ok, seen := ReadOn(s0);       // the status of the workload cluster
      if !ok {
        return;
      }
      if seen.hasConfigMap {
        initialized := true;
      }
    }

    /** Annotations and status are patched separately; one may fail and the other not. */
    method PatchObject(remediationBefore: seq<RemediationData>, initializedBefore: bool) returns (ok: bool)
      requires Patchable(remediationBefore)
      requires initialized && !initializedBefore ==> api.st.hasConfigMap
      modifies api
      ensures api.Valid() && old(api.moves) <= api.moves
      ensures old(api.Quiet()) ==>
        && api.Quiet() && ok
        && var closed := Closed(old(api.st), remediationBefore, remediation);
        api.st == if initialized && !initializedBefore then closed.(initialized := true) else closed
      ensures ok ==> api.failures == old(api.failures)
    {
      ok := true;
      if remediation != remediationBefore {
        ok := api.Do(if remediationBefore == [] then SaveRemediation else ClearRemediation);
      }
      if initialized && !initializedBefore {
        var patched := api.Do(SaveInitialized);
        ok := ok && patched;
      }
    }

    // ----- A pass -----

    /** The machines, and what else NewControlPlane reads. */
    method GetControlPlane() returns (ok: bool, owned: Machines)
      requires api.Valid()
      modifies api
      ensures api.Valid() && old(api.moves) <= api.moves && Steady(old(api.st), api.st)
      ensures owned == old(api.st).machines
      ensures old(api.Quiet()) ==> api.Quiet() && ok && api.st == old(api.st)
      ensures api.failures == old(api.failures)
    {
      ghost var s0 := api.st;
      var seen;
      ok, seen := api.Read();
      owned := seen.machines;
      if ok {
        ghost var s1 := api.st;
        ok, seen := api.Read();   // their configs and infrastructure objects
        SteadyIsTransitive(s0, s1, api.st);
      }
    }

    method ReconcileMachines(spec: KcpSpec, now: int, made: Made, domains: set<string>)
      returns (outcome: Outcome, report: Machines, choice: Choice)
      requires api.Valid() && remediation == api.st.remediation && initialized == api.st.initialized
      requires made.name !in api.st.born && (spec.deadline.Some? ==> spec.deadline.value <= made.created)
      modifies api, this`remediation
      ensures Patchable(old(remediation)) && old(api.moves) <= api.moves && Forward(old(api.st), api.st)
      ensures old(api.Quiet()) ==>
        api.Quiet() && HasReconciled(spec, now, made, domains, old(api.st), report, choice, api.st, remediation, outcome)
      ensures outcome != Error ==> api.failures == old(api.failures)
    {
      report, choice := map[], Nothing;
      ghost var s0 := api.st;
      var ok, owned := GetControlPlane();
      if !ok {
        return Error, report, choice;
      }
      ghost var s1 := api.st;
      ok, report, owned := ReconcileControlPlaneConditions(owned);
      SteadyIsTransitive(s0, s1, api.st);
      if !ok {
        return Error, report, choice;
      }
      var handled;
      handled, outcome, choice := ReconcileUnhealthyMachines(spec, now, owned);
      if !handled {
        outcome, choice := Scale(spec, made, domains, owned);
      }
    }

    /** One pass. Every write it makes, up to wherever it is cut short, is one of the moves of
        Lifecycle, and it ends in an error if one of them failed; undisturbed, it inspects the machines, remediates, rolls out or scales by at
        most one machine, and latches initialized. */
    method Reconcile(spec: KcpSpec, now: int, made: Made, domains: set<string>) returns (outcome: Outcome, report: Machines, choice: Choice)
      requires api.Valid()
      requires made.name !in api.st.born && (spec.deadline.Some? ==> spec.deadline.value <= made.created)
      modifies this, api
      ensures api.Valid() && old(api.moves) <= api.moves
      ensures outcome != Error ==> api.failures == old(api.failures)
      ensures old(api.Quiet()) ==>
        && api.Quiet()
        && var s := old(api.st);
        && report.Keys == s.machines.Keys && Reported(s, report)
        && ChoiceFits(spec, now, domains, Inspection(s, report), choice)
        && api.st == Latched(Acted(spec, now, made, Inspection(s, report), choice))
        && outcome == PassOutcome(spec, Inspection(s, report), choice)
      ensures Run(api.start, api.moves) == Some(api.st)
      ensures old(api.script == [] && !api.down) ==>
        && (api.st.initialized <==> old(api.st).initialized || old(api.st).hasConfigMap)
        && (choice.Adds? ==> made.name in api.st.machines && api.st.machines[made.name].chain == old(api.st).remediation && api.st.remediation == [])
        && (choice.Nothing? || choice.Removes? ==> api.st.remediation == old(api.st).remediation)
        && (choice.Removes? && outcome == Requeue ==> choice.name in api.st.machines && api.st.machines[choice.name].deleting)
        && (choice.Remediates? && outcome == Requeue ==>
              && choice.name in old(api.st).machines && choice.name in api.st.machines && api.st.machines[choice.name].deleting
              && api.st.remediation != [] && api.st.remediation[..|api.st.remediation| - 1] == old(api.st).machines[choice.name].chain
              && api.st.remediation[|api.st.remediation| - 1].machine == choice.name)
    {
      ghost var s := api.st;
      assert made.name !in s.machines;
      outcome, report, choice := Pass(spec, now, made, domains);
      if old(api.Quiet()) {
        PassHandsOver(spec, now, made, domains, s, report, choice, api.st, outcome);
      }
    }

    method Pass(spec: KcpSpec, now: int, made: Made, domains: set<string>) returns (outcome: Outcome, report: Machines, choice: Choice)
      requires api.Valid()
      requires made.name !in api.st.born && (spec.deadline.Some? ==> spec.deadline.value <= made.created)
      modifies this, api
      ensures api.Valid() && old(api.moves) <= api.moves
      ensures old(api.Quiet()) ==>
        && api.Quiet()
        && var s := old(api.st);
        && report.Keys == s.machines.Keys && Reported(s, report)
        && ChoiceFits(spec, now, domains, Inspection(s, report), choice)
        && api.st == Latched(Acted(spec, now, made, Inspection(s, report), choice))
        && outcome == PassOutcome(spec, Inspection(s, report), choice)
      ensures outcome != Error ==> api.failures == old(api.failures)
    {
      report, choice := map[], Nothing;
      ghost var s0 := api.st;
      var ok, seen := api.Read();   // the control plane object
      if !ok {
        return Requeue, report, choice;
      }
      remediation, initialized := seen.remediation, seen.initialized;
      outcome, report, choice := ReconcileMachines(spec, now, made, domains);
      ghost var s1, reconciled := api.st, outcome;
      ok := ClosePass(seen.remediation, seen.initialized);
      if !ok {
        outcome := Error;
      }
      if old(api.Quiet()) {
        ClosedIsActed(spec, now, made, domains, s0, report, choice, s1, remediation, reconciled);
      }
    }

    /** What is done at the end of a pass, however it went: the status, and the closing patches. */
    method ClosePass(remediationBefore: seq<RemediationData>, initializedBefore: bool) returns (ok: bool)
      requires Patchable(remediationBefore) && initialized == initializedBefore == api.st.initialized
      modifies api, this`initialized
      ensures api.Valid() && old(api.moves) <= api.moves
      ensures ok ==> api.failures == old(api.failures)
      ensures old(api.Quiet()) ==> api.Quiet() && ok && api.st == Latched(Closed(old(api.st), remediationBefore, remediation))
    {
      var updated := UpdateStatus();
      ok := PatchObject(remediationBefore, initializedBefore);
      ok := ok && updated;
    }
  }
}
