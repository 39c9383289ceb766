/** Where the guarantees of the control-plane upgrade end. */
module ControlPlaneLimits {
  import opened Prelude
  import opened InPlace
  import opened MachineUpgrade
  import opened ControlPlaneUpgrade
  import opened ControlPlanePass
  import SnapOption

  /** The orchestrator reports the failure of the machine it waits for. */
  predicate ReportsFailure(s: Cluster) {
    && Acts(s.owner) && !Scans(s) && s.lock.value.holder.Some?
    && var to, m := GetUpgradeInstructions(s.owner.ann), s.machines[s.lock.value.holder.value];
    GetUpgradeInstructions(m.ann) == to && !IsUpgraded(m.ann, to) && IsMachineUpgradeFailed(m.ann)
  }

  /** A pass keeps what the owner asks for, except exactly when it reports a failure on an owner
      that holds its target as release alone: an owner once marked done, whose mark
      in-progress for a machine that joined later was lost in a crash. */
  lemma PassKeepsTarget(s: Cluster, pick: Option<Name>)
    requires Scans(s) ==> PickFits(s, GetUpgradeInstructions(s.owner.ann), pick)
    ensures GetUpgradeInstructions(OrchestratorPass(s, pick).owner.ann) == GetUpgradeInstructions(s.owner.ann)
       <==> !(ReportsFailure(s) && s.owner.ann.upgradeTo.None?)
  {
  }

  /** A lost target stays lost: no later pass does anything. */
  lemma LostTargetStops(s: Cluster, pick: Option<Name>, later: Option<Name>)
    requires ReportsFailure(s) && s.owner.ann.upgradeTo.None?
    ensures var s' := OrchestratorPass(s, pick); !Scans(s') && OrchestratorPass(s', later) == s'
  {
  }

  /** That state is reachable: the owner is done, a machine joins, the orchestrator locks and
      marks it and dies before marking the owner, and the refresh fails. */
  lemma LostTargetIsReachable(to: string, owner: Owner, n: Name) returns (start: Cluster, moves: seq<Move>, s: Cluster)
    requires SnapOption.Decodable(to) && to != "" && Acts(owner)
    requires owner.ann == MarkedDone(NO_ANNOTATIONS, to)
    ensures Init(to, start) && start.owner == owner
    ensures Run(to, start, moves) == Some(s) && ReportsFailure(s) && s.owner.ann.upgradeTo.None?
  {
    start := Cluster(None, map[], {}, owner);
    moves, s := [], start;
    moves, s := Then(to, start, moves, s, Join(n, ""));
    moves, s := Then(to, start, moves, s, Acquire(n));
    moves, s := Then(to, start, moves, s, MarkMachine(n));
    moves, s := FailingRefresh(to, start, moves, s, n);
  }

  lemma FailingRefresh(to: string, start: Cluster, moves: seq<Move>, s: Cluster, n: Name) returns (moves': seq<Move>, s': Cluster)
    requires SnapOption.Decodable(to) && Run(to, start, moves) == Some(s)
    requires n in s.machines && s.machines[n] == Machine(MarkedToUpgrade(to), false, Node("", []))
    ensures Run(to, start, moves') == Some(s')
    ensures n in s'.machines && s' == s.(machines := s.machines[n := s'.machines[n]])
    ensures var ann := s'.machines[n].ann; ann.upgradeTo == Some(to) && ann.release.None? && IsMachineUpgradeFailed(ann)
  {
    var m := s.machines[n];
    moves', s' := OnOne(to, start, moves, s, n, IssueRefresh);
    m := m.(node := Node("", [Change(to, Pending)]));
    moves', s' := OnOne(to, start, moves', s', n, RecordChange(0));
    m := m.(ann := m.ann.(status := Some(InProgress), changeId := Some(0)));
    moves', s' := OnOne(to, start, moves', s', n, Complete(Errored));
    m := m.(node := Node("", [Change(to, Errored)]));
    moves', s' := OnOne(to, start, moves', s', n, RecordFailed("then"));
    m := m.(ann := m.ann.(status := Some(UpgradeFailed), lastFailed := Some("then")));
    assert s'.machines[n] == m;
  }

  lemma OnOne(to: string, start: Cluster, moves: seq<Move>, s: Cluster, n: Name, a: Action) returns (moves': seq<Move>, s': Cluster)
    requires Run(to, start, moves) == Some(s)
    requires n in s.machines && !a.Mark? && Enabled(a, s.machines[n])
    ensures Run(to, start, moves') == Some(s') && s' == s.(machines := s.machines[n := Effect(a, s.machines[n])])
  {
    moves', s' := Then(to, start, moves, s, OnMachine(n, a));
  }

  lemma Then(to: string, start: Cluster, moves: seq<Move>, s: Cluster, mv: Move) returns (moves': seq<Move>, s': Cluster)
    requires Run(to, start, moves) == Some(s) && CanMove(to, mv, s)
    ensures Run(to, start, moves') == Some(s') && s' == Moved(to, mv, s)
  {
    RunSnoc(to, start, moves, mv);
    moves', s' := moves + [mv], Moved(to, mv, s);
  }
}
