/** Under one specification a rollout, and any change of size, comes to an end, and ends where it
    should. */
module LifecycleProgress {
  import opened Prelude
  import opened MachineFilters
  import opened Remediation
  import opened ControlPlaneMachines
  import opened WorkloadCluster
  import opened Lifecycle

  function Outdateds(spec: KcpSpec, s: ControlPlane): set<Name> {
    MachinesNeedingRollout(spec, s.machines)
  }

  /** The size the current phase aims at. */
  function Goal(spec: KcpSpec, s: ControlPlane): nat {
    if Outdateds(spec, s) != {} then Target(spec) else spec.replicas
  }

  function Distance(a: nat, b: nat): nat {
    if a < b then b - a else a - b
  }

  function Measure(spec: KcpSpec, s: ControlPlane): nat {
    (2 * spec.maxSurge.GetOr(0) + 4) * |Outdateds(spec, s)|
    + 2 * Distance(|Live(s.machines)|, Goal(spec, s))
    + |DeletingMachines(s.machines)|
  }

  /** Changes the set of machines, or who is leaving it. */
  predicate Changes(mv: Move) {
    mv.Create? || mv.DeleteSurplus? || mv.DeleteUnhealthy? || mv.Vanish?
  }

  /** A move of a rollout, or of a change of size: no remediation, and no delete annotation seen. */
  predicate Plain(spec: KcpSpec, mv: Move) {
    Uses(spec, mv) && !mv.DeleteUnhealthy? && (mv.DeleteSurplus? ==> mv.annotated == {})
  }

  /** A machine just made is never one to roll out. */
  lemma CreateKeepsOutdated(spec: KcpSpec, mv: Move, s: ControlPlane)
    requires s.machines.Keys <= s.born && CanMove(mv, s) && mv.Create? && mv.spec == spec
    ensures Outdateds(spec, Moved(mv, s)) == Outdateds(spec, s)
    ensures Live(Moved(mv, s).machines) == Live(s.machines) + {mv.name} && mv.name !in s.machines
    ensures DeletingMachines(Moved(mv, s).machines) == DeletingMachines(s.machines)
  {
    CloneMatches(spec.wanted, mv.desc);
  }

  lemma CreateShrinks(spec: KcpSpec, mv: Move, s: ControlPlane)
    requires s.machines.Keys <= s.born && CanMove(mv, s) && mv.Create? && mv.spec == spec
    ensures Measure(spec, Moved(mv, s)) < Measure(spec, s)
  {
    CreateKeepsOutdated(spec, mv, s);
    NobodyDeleting(spec, mv, s);
  }

  lemma NobodyDeleting(spec: KcpSpec, mv: Move, s: ControlPlane)
    requires CanMove(mv, s) && (mv.Create? || mv.DeleteSurplus?) && mv.spec == spec
    ensures Live(s.machines) == s.machines.Keys && |Live(s.machines)| == |s.machines|
  {
  }

  /** While there are outdated machines, and no delete annotation is seen, no other machine is
      removed. */
  lemma OnlyOutdatedLeave(spec: KcpSpec, mv: Move, s: ControlPlane)
    requires CanMove(mv, s) && mv.DeleteSurplus? && mv.spec == spec && mv.annotated == {}
    ensures Outdateds(spec, s) != {} ==> mv.name in Outdateds(spec, s)
  {
  }

  lemma DeleteMoves(spec: KcpSpec, mv: Move, s: ControlPlane)
    requires CanMove(mv, s) && mv.DeleteSurplus? && mv.spec == spec && mv.annotated == {}
    ensures var s' := Moved(mv, s);
      && |Live(s.machines)| == |s.machines| && |Live(s'.machines)| == |s.machines| - 1
      && |DeletingMachines(s.machines)| == 0 && |DeletingMachines(s'.machines)| == 1
      && |Outdateds(spec, s')| == if Outdateds(spec, s) == {} then 0 else |Outdateds(spec, s)| - 1
  {
    var s' := Moved(mv, s);
    OnlyOutdatedLeave(spec, mv, s);
    NobodyDeleting(spec, mv, s);
    DeleteTakes(s.machines, mv.name);
    assert DeletingMachines(s.machines) == {};
    assert DeletingMachines(s'.machines) == {mv.name};
    assert Outdateds(spec, s') == Outdateds(spec, s) - {mv.name};
  }

  lemma DeleteArithmetic(surge: nat, replicas: nat, outdated: nat, live: nat)
    requires if outdated > 0 then live >= replicas + surge else live > replicas
    requires live > 0
    ensures var left := if outdated == 0 then 0 else outdated - 1;
      (2 * surge + 4) * left + 2 * Distance(live - 1, if left > 0 then replicas + surge else replicas) + 1
      < (2 * surge + 4) * outdated + 2 * Distance(live, if outdated > 0 then replicas + surge else replicas)
  {
  }

  lemma DeleteShrinks(spec: KcpSpec, mv: Move, s: ControlPlane)
    requires CanMove(mv, s) && mv.DeleteSurplus? && mv.spec == spec && mv.annotated == {}
    ensures Measure(spec, Moved(mv, s)) < Measure(spec, s)
  {
    DeleteMoves(spec, mv, s);
    DeleteArithmetic(spec.maxSurge.GetOr(0), spec.replicas, |Outdateds(spec, s)|, |s.machines|);
  }

  lemma VanishShrinks(spec: KcpSpec, mv: Move, s: ControlPlane)
    requires CanMove(mv, s) && mv.Vanish?
    ensures Measure(spec, Moved(mv, s)) < Measure(spec, s)
  {
    var s' := Moved(mv, s);
    assert Outdateds(spec, s') == Outdateds(spec, s);
    assert Live(s'.machines) == Live(s.machines);
    assert DeletingMachines(s'.machines) == DeletingMachines(s.machines) - {mv.name};
  }

  lemma OthersKeepMeasure(spec: KcpSpec, mv: Move, s: ControlPlane)
    requires CanMove(mv, s) && !Changes(mv)
    ensures Measure(spec, Moved(mv, s)) == Measure(spec, s)
  {
    var s' := Moved(mv, s);
    assert Outdateds(spec, s') == Outdateds(spec, s);
    assert Live(s'.machines) == Live(s.machines);
    assert DeletingMachines(s'.machines) == DeletingMachines(s.machines);
  }

  function ChangeCount(moves: seq<Move>): nat {
    if moves == [] then 0
    else ChangeCount(moves[..|moves|-1]) + if Changes(moves[|moves|-1]) then 1 else 0
  }

  /** In any run under one specification, without remediation and delete annotations seen, the set of
      machines changes no more often than the start's measure says. */
  lemma {:induction false} RolloutTerminates(spec: KcpSpec, start: ControlPlane, moves: seq<Move>)
    requires Inv(start) && Run(start, moves).Some?
    requires forall i :: 0 <= i < |moves| ==> Plain(spec, moves[i])
    ensures ChangeCount(moves) + Measure(spec, Run(start, moves).value) <= Measure(spec, start)
  {
    if moves != [] {
      var last := |moves| - 1;
      var mv := moves[last];
      RolloutTerminates(spec, start, moves[..last]);
      RunKeepsInv(start, moves[..last]);
      var s := Run(start, moves[..last]).value;
      assert Plain(spec, mv);
      match mv {
        case Create(_, _, _, _, _) => CreateShrinks(spec, mv, s);
        case DeleteSurplus(_, _, _) => DeleteShrinks(spec, mv, s);
        case Vanish(_) => VanishShrinks(spec, mv, s);
        case _ => OthersKeepMeasure(spec, mv, s);
      }
    }
  }

  // ----- Where it ends -----

  /** Nobody is leaving and everybody is healthy: the world has done its part. */
  ghost predicate Settled(s: ControlPlane) {
    forall n :: n in s.machines ==> !s.machines[n].deleting && s.machines[n].agent == Some(IsTrue)
  }

  predicate AtTarget(spec: KcpSpec, s: ControlPlane) {
    |s.machines| == spec.replicas && Outdateds(spec, s) == {}
  }

  ghost predicate AtRest(spec: KcpSpec, s: ControlPlane) {
    forall mv :: Plain(spec, mv) && Changes(mv) ==> !CanMove(mv, s)
  }

  lemma SomeMove(spec: KcpSpec, s: ControlPlane) returns (mv: Move)
    requires Settled(s) && Wants(spec, s.machines) != Stay
    ensures Plain(spec, mv) && Changes(mv) && CanMove(mv, s)
  {
    if Wants(spec, s.machines) == ScaleDown {
      var outdated := Outdateds(spec, s);
      assert |s.machines.Keys| == |s.machines| > 0;
      var candidates := CandidatesAmong(s.machines.Keys, {}, outdated);
      assert candidates <= s.machines.Keys;
      var n :| n in candidates;
      assert n in s.machines.Keys;
      mv := DeleteSurplus(n, spec, {});
    } else {
      var n := SomeAbove(s.born);
      mv := Create(n, spec, Clone(spec.wanted), spec.deadline.GetOr(0), None);
    }
  }

  /** With a rollout strategy, the machines come to rest exactly when there are as many as wanted
      and all are up to date. Without one they also rest while any of them is outdated. */
  lemma RestsExactlyAtTarget(spec: KcpSpec, s: ControlPlane)
    requires Settled(s)
    ensures AtRest(spec, s) <==> AtTarget(spec, s) || (spec.maxSurge.None? && Outdateds(spec, s) != {})
  {
    if Wants(spec, s.machines) != Stay {
      var mv := SomeMove(spec, s);
      assert CanMove(mv, s);
    }
  }

  // ----- A new version -----

  lemma DescriptionKept(mv: Move, s: ControlPlane, n: Name)
    requires CanMove(mv, s) && n in s.born
    ensures n in Moved(mv, s).born
    ensures n in Moved(mv, s).machines ==> n in s.machines && Moved(mv, s).machines[n].desc == s.machines[n].desc
  {
  }

  lemma {:induction false} DescriptionStays(start: ControlPlane, moves: seq<Move>, n: Name)
    requires Run(start, moves).Some? && n in start.born
    ensures var s := Run(start, moves).value;
      n in s.born && (n in s.machines ==> n in start.machines && s.machines[n].desc == start.machines[n].desc)
  {
    if moves != [] {
      var last := |moves| - 1;
      DescriptionStays(start, moves[..last], n);
      DescriptionKept(moves[last], Run(start, moves[..last]).value, n);
    }
  }

  /** A changed version rolls every machine: any that is not being deleted is to be replaced as long as
      its version, leading v aside, is another one. */
  lemma NewVersionRollsOut(spec: KcpSpec, machines: Machines, n: Name)
    requires n in machines && !machines[n].deleting
    requires machines[n].desc.version.Some? ==>
      var v, w := machines[n].desc.version.value, spec.wanted.version;
      (if v != "" && v[0] == 'v' then v[1..] else v) != (if w != "" && w[0] == 'v' then w[1..] else w)
    ensures n in MachinesNeedingRollout(spec, machines)
    ensures Wants(spec, machines) == if spec.maxSurge.None? then Stay
      else if |machines| < spec.replicas + spec.maxSurge.value then ScaleUp else ScaleDown
  {
    OutdatedInPlainTerms(spec, machines, n);
  }

  /** And when the rollout has come to rest, on whatever run, none of the machines of another version is
      left, and there are as many as wanted, all of the new version. */
  lemma NewVersionReplacesAll(spec: KcpSpec, start: ControlPlane, moves: seq<Move>, n: Name)
    requires Inv(start) && Run(start, moves).Some? && spec.maxSurge.Some?
    requires Settled(Run(start, moves).value) && AtRest(spec, Run(start, moves).value)
    requires n in start.machines
    requires start.machines[n].desc.version.Some? ==>
      var v, w := start.machines[n].desc.version.value, spec.wanted.version;
      (if v != "" && v[0] == 'v' then v[1..] else v) != (if w != "" && w[0] == 'v' then w[1..] else w)
    ensures var s := Run(start, moves).value;
      && n !in s.machines && |s.machines| == spec.replicas
      && forall m :: m in s.machines ==>
           && s.machines[m].desc.version.Some?
           && var v, w := s.machines[m].desc.version.value, spec.wanted.version;
           (if v != "" && v[0] == 'v' then v[1..] else v) == (if w != "" && w[0] == 'v' then w[1..] else w)
  {
    var s := Run(start, moves).value;
    RestsExactlyAtTarget(spec, s);
    DescriptionStays(start, moves, n);
    forall m | m in s.machines
      ensures m !in MachinesNeedingRollout(spec, s.machines)
    {
      OutdatedInPlainTerms(spec, s.machines, m);
    }
    forall m | m in s.machines
      ensures s.machines[m].desc.version.Some?
      ensures var v, w := s.machines[m].desc.version.value, spec.wanted.version;
        (if v != "" && v[0] == 'v' then v[1..] else v) == (if w != "" && w[0] == 'v' then w[1..] else w)
    {
      OutdatedInPlainTerms(spec, s.machines, m);
    }
  }
}
