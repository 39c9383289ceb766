/** What closing patches that do not land cost a control plane. */
module LifecycleLimits {
  import opened Prelude
  import opened Remediation
  import opened ControlPlaneMachines
  import opened WorkloadCluster
  import opened Lifecycle
  import opened LifecyclePass

  /** The remediations whose closing patch has not landed. */
  function Unlanded(s: ControlPlane): nat {
    s.lost + if s.pending != [] then 1 else 0
  }

  /** What the lower bound counts: machines not being deleted, and one for the annotation. */
  function Counted(s: ControlPlane): nat {
    |Live(s.machines)| + if s.remediation != [] then 1 else 0
  }

  /** A control plane gets no further below the lower bound than there are remediations whose
      closing patch did not land. */
  lemma ShortfallIsBounded(spec: KcpSpec, start: ControlPlane, moves: seq<Move>, s: ControlPlane)
    requires Inv(start) && Strength(start) >= Floor(spec) && Run(start, moves) == Some(s)
    requires forall i :: 0 <= i < |moves| ==> Uses(spec, moves[i])
    ensures Counted(s) >= Floor(spec) - Unlanded(s)
  {
    SizeEnvelope(spec, start, moves);
  }

  predicate Ordinary(m: Machine, members: set<NodeName>) {
    !m.deleting && !m.unhealthy && m.chain == [] && m.node.Some? && m.node.value in members
  }

  /** An initialized control plane of healthy machines that never were remediated. */
  ghost predicate AllOrdinary(s: ControlPlane) {
    && s.initialized && s.remediation == [] && DistinctNodes(s.machines)
    && forall n :: n in s.machines ==> Ordinary(s.machines[n], s.members)
  }

  /** The moves of a run, one after the other. */
  lemma Then(spec: KcpSpec, start: ControlPlane, moves: seq<Move>, s: ControlPlane, mv: Move)
    returns (moves': seq<Move>, s': ControlPlane)
    requires Run(start, moves) == Some(s) && CanMove(mv, s) && Uses(spec, mv)
    requires forall i :: 0 <= i < |moves| ==> Uses(spec, moves[i])
    ensures Run(start, moves') == Some(s') && s' == Moved(mv, s)
    ensures forall i :: 0 <= i < |moves'| ==> Uses(spec, moves'[i])
  {
    RunSnoc(start, moves, mv);
    moves', s' := moves + [mv], Moved(mv, s);
  }

  /** One machine fails its health check and is remediated as a pass would, but the patch is lost. */
  lemma OneLostRemediation(spec: KcpSpec, now: int, start: ControlPlane, moves: seq<Move>, s: ControlPlane, n: Name, o: Name)
    returns (moves': seq<Move>, s': ControlPlane)
    requires Run(start, moves) == Some(s) && AllOrdinary(s)
    requires forall i :: 0 <= i < |moves| ==> Uses(spec, moves[i])
    requires n in s.machines && o in s.machines && n != o
    ensures Run(start, moves') == Some(s') && AllOrdinary(s')
    ensures forall i :: 0 <= i < |moves'| ==> Uses(spec, moves'[i])
    ensures s'.machines == s.machines - {n} && Unlanded(s') == Unlanded(s) + 1
  {
    assert Ordinary(s.machines[n], s.members) && Ordinary(s.machines[o], s.members);
    var node, via := s.machines[n].node.value, s.machines[o].node.value;
    moves', s' := Then(spec, start, moves, s, MarkHealth(n, true));
    IsPicked(spec, now, s, n, o);
    moves', s' := Then(spec, start, moves', s', RemoveMember(node, via));
    moves', s' := Then(spec, start, moves', s', DeleteUnhealthy(n, spec.remediation, now));
    moves', s' := Then(spec, start, moves', s', Vanish(n));
  }

  /** A pass that sees that machine remediates it. */
  lemma IsPicked(spec: KcpSpec, now: int, s: ControlPlane, n: Name, o: Name)
    requires AllOrdinary(s) && n in s.machines && o in s.machines && n != o
    ensures var seen := Moved(MarkHealth(n, true), s);
      IsToBeRemediated(seen.machines, n) && MayRemediate(spec.remediation, now, seen, n)
  {
    var seen := Moved(MarkHealth(n, true), s);
    assert UnhealthyMachines(seen.machines) == {n} by {
      assert forall m :: m in s.machines ==> Ordinary(s.machines[m], s.members);
    }
    SubsetSize({n, o}, seen.machines.Keys);
    assert forall m :: m in seen.machines ==> m == n || Ordinary(seen.machines[m], s.members);
  }

  /** The bound is met: k lost patches leave k machines less, with nothing on order for them, for
      any number that leaves one. */
  lemma {:induction false} ShortfallIsReached(spec: KcpSpec, now: int, start: ControlPlane, k: nat)
    returns (moves: seq<Move>, s: ControlPlane)
    requires AllOrdinary(start) && start.pending == [] && start.lost == 0 && k < |start.machines|
    ensures Run(start, moves) == Some(s) && AllOrdinary(s)
    ensures forall i :: 0 <= i < |moves| ==> Uses(spec, moves[i])
    ensures Unlanded(s) == k && |s.machines| == |start.machines| - k && Counted(s) == |start.machines| - k
  {
    if k == 0 {
      moves, s := [], start;
    } else {
      moves, s := ShortfallIsReached(spec, now, start, k - 1);
      var n :| n in s.machines;
      assert |s.machines.Keys - {n}| > 0;
      var o :| o in s.machines.Keys - {n};
      var was := s;
      moves, s := OneLostRemediation(spec, now, start, moves, s, n, o);
      assert s.machines.Keys == was.machines.Keys - {n};
    }
    assert Live(s.machines) == s.machines.Keys by {
      assert forall m :: m in s.machines ==> Ordinary(s.machines[m], s.members);
    }
  }

  /** Three healthy replicas with a surge of one, two remediations, both patches lost: one machine
      is left and nothing is on order, two below the lower bound. */
  lemma TwoLostPatches(spec: KcpSpec, now: int, start: ControlPlane) returns (moves: seq<Move>, s: ControlPlane)
    requires spec.replicas == 3 && spec.maxSurge == Some(1)
    requires Inv(start) && AllOrdinary(start) && start.pending == [] && start.lost == 0 && |start.machines| == 3
    ensures Strength(start) >= Floor(spec)
    ensures Run(start, moves) == Some(s) && Unlanded(s) == 2
    ensures |s.machines| == 1 && s.remediation == [] && Counted(s) == Floor(spec) - 2
  {
    assert Live(start.machines) == start.machines.Keys by {
      assert forall m :: m in start.machines ==> Ordinary(start.machines[m], start.members);
    }
    moves, s := ShortfallIsReached(spec, now, start, 2);
  }
}
