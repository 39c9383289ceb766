/** The control plane under an orchestrated in-place upgrade to one fixed target: the lock,
    the machines, the owner, and every single write of the orchestrator, of the per-machine
    controllers and of the world around them. The guards are about the state at the time of the
    write; ControlPlaneRefinement shows that passes, which go by what they read earlier, keep to them. */
module ControlPlaneUpgrade {
  import opened Prelude
  import opened InPlace
  import opened MachineUpgrade

  type Name = string

  /** The lock ConfigMap. No holder: its lock-information key is missing or unreadable. */
  datatype LockMap = LockMap(holder: Option<Name>)

  datatype Owner = Owner(ann: Annotations, deleting: bool, replicas: Option<int>, readyReplicas: int)

  datatype Cluster = Cluster(
    lock: Option<LockMap>,
    machines: map<Name, Machine>,
    born: set<Name>,      // every name ever used: generated names are not reused
    owner: Owner)

  datatype Move =
    | Acquire(name: Name)
    | MarkMachine(name: Name)
    | Unlock
    | OwnerInProgress
    | OwnerDone(listed: set<Name>)
    | OwnerFailed
    | OnMachine(name: Name, action: Action)
    | Join(name: Name, running: string)
    | Gone(name: Name)
    | OwnerStatus(deleting: bool, replicas: Option<int>, readyReplicas: int)

  predicate HeldBy(lock: Option<LockMap>, name: Name) {
    lock == Some(LockMap(Some(name)))
  }

  /** The lock of a machine is given up once the machine is upgraded, or was never, or is no longer,
      asked to be. */
  predicate Releasable(to: string, a: Annotations) {
    GetUpgradeInstructions(a) != to || IsUpgraded(a, to)
  }

  predicate CanMove(to: string, mv: Move, s: Cluster) {
    match mv
    case Acquire(name) => s.lock.None? && name in s.born
    case MarkMachine(name) => HeldBy(s.lock, name) && name in s.machines && Enabled(Mark(to), s.machines[name])
    case Unlock =>
      && s.lock.Some? && s.lock.value.holder.Some?
      && (s.lock.value.holder.value in s.machines ==> Releasable(to, s.machines[s.lock.value.holder.value].ann))
    case OwnerInProgress => GetUpgradeInstructions(s.owner.ann) == to
    case OwnerDone(listed) =>
      && GetUpgradeInstructions(s.owner.ann) == to
      && forall n :: n in listed && n in s.machines ==> IsUpgraded(s.machines[n].ann, to)
    case OwnerFailed => GetUpgradeInstructions(s.owner.ann) == to
    case OnMachine(name, a) => name in s.machines && !a.Mark? && Enabled(a, s.machines[name])
    case Join(name, _) => name !in s.born
    case Gone(name) => name in s.machines
    case OwnerStatus(deleting, _, _) => s.owner.deleting ==> deleting
  }

  function Moved(to: string, mv: Move, s: Cluster): Cluster
    requires CanMove(to, mv, s)
  {
    match mv
    case Acquire(name) => s.(lock := Some(LockMap(Some(name))))
    case MarkMachine(name) => s.(machines := s.machines[name := Effect(Mark(to), s.machines[name])])
    case Unlock => s.(lock := None)
    case OwnerInProgress => s.(owner := s.owner.(ann := MarkedInProgress(s.owner.ann, to)))
    case OwnerDone(_) => s.(owner := s.owner.(ann := MarkedDone(s.owner.ann, to)))
    case OwnerFailed => s.(owner := s.owner.(ann := MarkedFailed(s.owner.ann)))
    case OnMachine(name, a) => s.(machines := s.machines[name := Effect(a, s.machines[name])])
    case Join(name, running) =>
      s.(machines := s.machines[name := Machine(NO_ANNOTATIONS, false, Node(running, []))], born := s.born + {name})
    case Gone(name) => s.(machines := s.machines - {name})
    case OwnerStatus(deleting, replicas, readyReplicas) =>
      s.(owner := s.owner.(deleting := deleting, replicas := replicas, readyReplicas := readyReplicas))
  }

  function Run(to: string, start: Cluster, moves: seq<Move>): Option<Cluster> {
    if moves == [] then Some(start)
    else
      var last := |moves| - 1;
      match Run(to, start, moves[..last])
      case None => None
      case Some(s) => if CanMove(to, moves[last], s) then Some(Moved(to, moves[last], s)) else None
  }

  ghost predicate InLine(to: string, lock: Option<LockMap>, name: Name, m: Machine) {
    && Consistent(m)
    && (m.ann.upgradeTo.Some? ==> m.ann.upgradeTo.value == to && HeldBy(lock, name))
  }

  ghost predicate AllInLine(to: string, s: Cluster) {
    && to != ""
    && s.machines.Keys <= s.born
    && (s.lock.Some? && s.lock.value.holder.Some? ==> s.lock.value.holder.value in s.born)
    && forall n :: n in s.machines ==> InLine(to, s.lock, n, s.machines[n])
  }

  ghost predicate Inv(to: string, s: Cluster) {
    AllInLine(to, s) && GetUpgradeInstructions(s.owner.ann) in {to, ""}
  }

  /** Where a run may start: no machine carries upgrade-to, every annotation is truthful. */
  ghost predicate Init(to: string, s: Cluster) {
    Inv(to, s) && forall n :: n in s.machines ==> s.machines[n].ann.upgradeTo.None?
  }

  /** A run may start from machines whose nodes were never refreshed and run what their release says, if
      they have one, with the lock free and the owner asking for the target, or for nothing. */
  lemma FreshStart(to: string, s: Cluster)
    requires to != "" && s.machines.Keys <= s.born && s.lock.None?
    requires s.owner.ann.upgradeTo == Some(to) || (s.owner.ann.upgradeTo.None? && s.owner.ann.release in {None, Some(""), Some(to)})
    requires forall n :: n in s.machines ==>
      && s.machines[n].ann.upgradeTo.None? && s.machines[n].ann.changeId.None? && s.machines[n].ann.status != Some(InProgress)
      && s.machines[n].node.changes == [] && s.machines[n].ann.release in {None, Some(s.machines[n].node.running)}
    ensures Init(to, s)
  {
    forall n | n in s.machines
      ensures InLine(to, s.lock, n, s.machines[n])
    {
      assert s.machines[n].node.changes == [];
    }
  }

  lemma MoveKeepsInv(to: string, mv: Move, s: Cluster)
    requires Inv(to, s) && CanMove(to, mv, s)
    ensures Inv(to, Moved(to, mv, s))
  {
    var s' := Moved(to, mv, s);
    forall n | n in s'.machines
      ensures InLine(to, s'.lock, n, s'.machines[n])
    {
      if n in s.machines {
        assert InLine(to, s.lock, n, s.machines[n]);
        match mv {
          case MarkMachine(name) =>
            EffectKeepsConsistent(Mark(to), s.machines[name]);
          case OnMachine(name, a) =>
            EffectKeepsConsistent(a, s.machines[name]);
          case _ =>
        }
      }
    }
  }

  lemma {:induction false} RunKeepsInv(to: string, start: Cluster, moves: seq<Move>)
    requires Inv(to, start) && Run(to, start, moves).Some?
    ensures Inv(to, Run(to, start, moves).value)
  {
    if moves != [] {
      var last := |moves| - 1;
      RunKeepsInv(to, start, moves[..last]);
      MoveKeepsInv(to, moves[last], Run(to, start, moves[..last]).value);
    }
  }

  lemma {:induction false} RunSnoc(to: string, start: Cluster, moves: seq<Move>, mv: Move)
    requires Run(to, start, moves).Some? && CanMove(to, mv, Run(to, start, moves).value)
    ensures Run(to, start, moves + [mv]) == Some(Moved(to, mv, Run(to, start, moves).value))
  {
  }

  /** Upgrade exclusion: in every reachable state, crashes after any write included, at most
      one machine carries upgrade-to; it carries the target, holds the lock, and does not
      also carry release. */
  lemma UpgradeExclusion(to: string, start: Cluster, moves: seq<Move>, a: Name, b: Name)
    requires Init(to, start) && Run(to, start, moves).Some?
    ensures var s := Run(to, start, moves).value;
      a in s.machines && s.machines[a].ann.upgradeTo.Some? ==>
        && s.machines[a].ann.upgradeTo == Some(to) && s.machines[a].ann.release.None?
        && HeldBy(s.lock, a)
        && (b in s.machines && s.machines[b].ann.upgradeTo.Some? ==> a == b)
  {
    RunKeepsInv(to, start, moves);
    var s := Run(to, start, moves).value;
    assert a in s.machines ==> InLine(to, s.lock, a, s.machines[a]);
    assert b in s.machines ==> InLine(to, s.lock, b, s.machines[b]);
  }

  /** Every release annotation in the control plane is true. */
  lemma EveryReleaseIsTrue(to: string, start: Cluster, moves: seq<Move>, n: Name)
    requires Init(to, start) && Run(to, start, moves).Some?
    requires n in Run(to, start, moves).value.machines
    ensures var m := Run(to, start, moves).value.machines[n];
      m.ann.release.Some? ==> m.node.running == m.ann.release.value && NothingPending(m.node)
  {
    RunKeepsInv(to, start, moves);
    var s := Run(to, start, moves).value;
    assert InLine(to, s.lock, n, s.machines[n]);
  }

  /** A machine leaves upgrade-to only by being upgraded or by going away. */
  predicate Settles(to: string, s: Cluster, n: Name) {
    n in s.machines ==> IsUpgraded(s.machines[n].ann, to)
  }

  lemma {:induction false} CarriesUntilSettled(to: string, start: Cluster, moves: seq<Move>, i: nat, j: nat, n: Name)
    requires Inv(to, start) && i <= j <= |moves|
    requires Run(to, start, moves[..j]).Some?
    requires Run(to, start, moves[..i]).Some?
    requires n in Run(to, start, moves[..i]).value.machines
    requires Run(to, start, moves[..i]).value.machines[n].ann.upgradeTo.Some?
    requires forall k :: i < k <= j && Run(to, start, moves[..k]).Some? ==> !Settles(to, Run(to, start, moves[..k]).value, n)
    ensures n in Run(to, start, moves[..j]).value.machines
    ensures Run(to, start, moves[..j]).value.machines[n].ann.upgradeTo.Some?
  {
    if i < j {
      assert moves[..j][..j-1] == moves[..j-1];
      CarriesUntilSettled(to, start, moves, i, j - 1, n);
      RunKeepsInv(to, start, moves[..j-1]);
      var s := Run(to, start, moves[..j-1]).value;
      assert InLine(to, s.lock, n, s.machines[n]);
      StillCarries(to, moves[j-1], s, n);
    }
  }

  lemma StillCarries(to: string, mv: Move, s: Cluster, n: Name)
    requires CanMove(to, mv, s)
    requires n in s.machines && n in s.born && s.machines[n].ann.upgradeTo == Some(to)
    requires !Settles(to, Moved(to, mv, s), n)
    ensures n in Moved(to, mv, s).machines && Moved(to, mv, s).machines[n].ann.upgradeTo.Some?
  {
  }

  /** After a failure no other machine is marked until the failed one is upgraded or gone:
      if n carries upgrade-to (failed or not) at point i of a run and another machine does at
      point j, then n settled somewhere in between. */
  lemma NobodyOvertakes(to: string, start: Cluster, moves: seq<Move>, i: nat, j: nat, n: Name, other: Name)
    requires Init(to, start) && i <= j <= |moves|
    requires Run(to, start, moves[..i]).Some? && Run(to, start, moves[..j]).Some?
    requires n in Run(to, start, moves[..i]).value.machines
    requires Run(to, start, moves[..i]).value.machines[n].ann.upgradeTo.Some?
    requires other in Run(to, start, moves[..j]).value.machines && other != n
    requires Run(to, start, moves[..j]).value.machines[other].ann.upgradeTo.Some?
    ensures exists k :: i < k <= j && Run(to, start, moves[..k]).Some? && Settles(to, Run(to, start, moves[..k]).value, n)
  {
    if forall k :: i < k <= j && Run(to, start, moves[..k]).Some? ==> !Settles(to, Run(to, start, moves[..k]).value, n) {
      CarriesUntilSettled(to, start, moves, i, j, n);
      UpgradeExclusion(to, start, moves[..j], n, other);
      assert false;
    }
  }
}
