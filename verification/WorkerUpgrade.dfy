/** The machines of one MachineDeployment under an orchestrated in-place upgrade to one fixed
    target. There is no lock: the order of the machine UIDs alone keeps the upgrade serial.
    UIDs are compared only, so they stand here for their rank. The guards are about the state at the
    time of the write, and machines join when it is safe; WorkerRefinement shows that passes, which go
    by what they read earlier, keep to them, and WorkerChanges when it is safe to join. */
module WorkerUpgrade {
  import opened Prelude
  import opened InPlace
  import opened MachineUpgrade

  type Uid = nat

  datatype Fleet = Fleet(
    machines: map<Uid, Machine>,
    born: set<Uid>,       // every UID ever used
    owner: Annotations,
    ownerDeleting: bool)

  datatype Move =
    | MarkMachine(uid: Uid)
    | OwnerInProgress
    | OwnerDone(listed: set<Uid>)
    | OwnerFailed
    | OnMachine(uid: Uid, action: Action)
    | Join(uid: Uid, running: string)
    | Gone(uid: Uid)
    | DeleteOwner

  predicate UpgradedBelow(to: string, machines: map<Uid, Machine>, uid: Uid) {
    forall v :: v in machines && v < uid ==> IsUpgraded(machines[v].ann, to)
  }

  predicate CarriesAbove(machines: map<Uid, Machine>, u: Uid) {
    exists v :: v in machines && v > u && machines[v].ann.upgradeTo.Some?
  }

  predicate CanMove(to: string, mv: Move, s: Fleet) {
    match mv
    case MarkMachine(u) =>
      && u in s.machines && Enabled(Mark(to), s.machines[u])
      && !IsUpgraded(s.machines[u].ann, to) && UpgradedBelow(to, s.machines, u)
    case OwnerInProgress => GetUpgradeInstructions(s.owner) == to
    case OwnerDone(listed) =>
      && GetUpgradeInstructions(s.owner) == to
      && forall u :: u in listed && u in s.machines ==> IsUpgraded(s.machines[u].ann, to)
    case OwnerFailed => GetUpgradeInstructions(s.owner) == to
    case OnMachine(u, a) => u in s.machines && !a.Mark? && Enabled(a, s.machines[u])
    case Join(u, _) => u !in s.born && !CarriesAbove(s.machines, u)
    case Gone(u) => u in s.machines
    case DeleteOwner => true
  }

  function Moved(to: string, mv: Move, s: Fleet): Fleet
    requires CanMove(to, mv, s)
  {
    match mv
    case MarkMachine(u) => s.(machines := s.machines[u := Effect(Mark(to), s.machines[u])])
    case OwnerInProgress => s.(owner := MarkedInProgress(s.owner, to))
    case OwnerDone(_) => s.(owner := MarkedDone(s.owner, to))
    case OwnerFailed => s.(owner := MarkedFailed(s.owner))
    case OnMachine(u, a) => s.(machines := s.machines[u := Effect(a, s.machines[u])])
    case Join(u, running) =>
      s.(machines := s.machines[u := Machine(NO_ANNOTATIONS, false, Node(running, []))], born := s.born + {u})
    case Gone(u) => s.(machines := s.machines - {u})
    case DeleteOwner => s.(ownerDeleting := true)
  }

  function Run(to: string, start: Fleet, moves: seq<Move>): Option<Fleet> {
    if moves == [] then Some(start)
    else
      var last := |moves| - 1;
      match Run(to, start, moves[..last])
      case None => None
      case Some(s) => if CanMove(to, moves[last], s) then Some(Moved(to, moves[last], s)) else None
  }

  ghost predicate InOrder(to: string, machines: map<Uid, Machine>, uid: Uid)
    requires uid in machines
  {
    && Consistent(machines[uid])
    && (machines[uid].ann.upgradeTo.Some? ==>
          machines[uid].ann.upgradeTo.value == to && UpgradedBelow(to, machines, uid))
  }

  ghost predicate Inv(to: string, s: Fleet) {
    && to != ""
    && s.machines.Keys <= s.born
    && GetUpgradeInstructions(s.owner) in {to, ""}
    && forall u :: u in s.machines ==> InOrder(to, s.machines, u)
  }

  ghost predicate Init(to: string, s: Fleet) {
    Inv(to, s) && forall u :: u in s.machines ==> s.machines[u].ann.upgradeTo.None?
  }

  /** A run may start from machines whose nodes were never refreshed and run what their release says, if
      they have one, with the owner asking for the target, or for nothing. */
  lemma FreshStart(to: string, s: Fleet)
    requires to != "" && s.machines.Keys <= s.born
    requires s.owner.upgradeTo == Some(to) || (s.owner.upgradeTo.None? && s.owner.release in {None, Some(""), Some(to)})
    requires forall u: Uid :: u in s.machines ==>
      && s.machines[u].ann.upgradeTo.None? && s.machines[u].ann.changeId.None? && s.machines[u].ann.status != Some(InProgress)
      && s.machines[u].node.changes == [] && s.machines[u].ann.release in {None, Some(s.machines[u].node.running)}
    ensures Init(to, s)
  {
    forall u: Uid | u in s.machines
      ensures InOrder(to, s.machines, u)
    {
      assert s.machines[u].node.changes == [];
    }
  }

  /** An upgraded machine stays upgraded, or goes away. */
  predicate UpgradedIfThere(to: string, machines: map<Uid, Machine>, u: Uid) {
    u in machines ==> IsUpgraded(machines[u].ann, to)
  }

  lemma StaysUpgraded(to: string, mv: Move, s: Fleet, u: Uid)
    requires Inv(to, s) && CanMove(to, mv, s) && u in s.born && UpgradedIfThere(to, s.machines, u)
    ensures UpgradedIfThere(to, Moved(to, mv, s).machines, u)
  {
    assert u in s.machines ==> InOrder(to, s.machines, u);
  }

  lemma MoveKeepsInv(to: string, mv: Move, s: Fleet)
    requires Inv(to, s) && CanMove(to, mv, s)
    ensures Inv(to, Moved(to, mv, s))
  {
    var s' := Moved(to, mv, s);
    forall u | u in s'.machines
      ensures InOrder(to, s'.machines, u)
    {
      if u in s.machines {
        assert InOrder(to, s.machines, u);
        if s.machines[u] != s'.machines[u] {
          EffectKeepsConsistent(if mv.MarkMachine? then Mark(to) else mv.action, s.machines[u]);
        }
        forall v | v in s'.machines && v < u && s'.machines[u].ann.upgradeTo.Some?
          ensures IsUpgraded(s'.machines[v].ann, to)
        {
          BelowStaysUpgraded(to, mv, s, u, v);
        }
      }
    }
  }

  /** Nothing not upgraded gets below a machine that is upgrading. */
  lemma BelowStaysUpgraded(to: string, mv: Move, s: Fleet, u: Uid, v: Uid)
    requires Inv(to, s) && CanMove(to, mv, s)
    requires u in s.machines && u in Moved(to, mv, s).machines && Moved(to, mv, s).machines[u].ann.upgradeTo.Some?
    requires v in Moved(to, mv, s).machines && v < u
    ensures IsUpgraded(Moved(to, mv, s).machines[v].ann, to)
  {
    assert InOrder(to, s.machines, u);
    if v in s.machines {
      StaysUpgraded(to, mv, s, v);
    }
  }

  lemma {:induction false} RunKeepsInv(to: string, start: Fleet, moves: seq<Move>)
    requires Inv(to, start) && Run(to, start, moves).Some?
    ensures Inv(to, Run(to, start, moves).value)
  {
    if moves != [] {
      var last := |moves| - 1;
      RunKeepsInv(to, start, moves[..last]);
      MoveKeepsInv(to, moves[last], Run(to, start, moves[..last]).value);
    }
  }

  lemma {:induction false} RunSnoc(to: string, start: Fleet, moves: seq<Move>, mv: Move)
    requires Run(to, start, moves).Some? && CanMove(to, mv, Run(to, start, moves).value)
    ensures Run(to, start, moves + [mv]) == Some(Moved(to, mv, Run(to, start, moves).value))
  {
  }

  /** Ordered without a lock: in every reachable state a machine that carries upgrade-to is the
      one with the least UID among those not yet upgraded. So at most one is upgrading, and one
      that fails blocks all later ones. */
  lemma UpgradesInOrder(to: string, start: Fleet, moves: seq<Move>, u: Uid, v: Uid)
    requires Init(to, start) && Run(to, start, moves).Some?
    ensures var ms := Run(to, start, moves).value.machines;
      u in ms && ms[u].ann.upgradeTo.Some? ==>
        && ms[u].ann.upgradeTo == Some(to) && !IsUpgraded(ms[u].ann, to)
        && (v in ms && !IsUpgraded(ms[v].ann, to) ==> u <= v)
        && (v in ms && ms[v].ann.upgradeTo.Some? ==> u == v)
  {
    RunKeepsInv(to, start, moves);
    var ms := Run(to, start, moves).value.machines;
    assert u in ms ==> InOrder(to, ms, u);
    assert v in ms ==> InOrder(to, ms, v);
  }

  lemma {:induction false} UpgradedStep(to: string, start: Fleet, moves: seq<Move>, u: Uid)
    requires Inv(to, start) && moves != [] && Run(to, start, moves).Some?
    requires Run(to, start, moves[..|moves|-1]).Some?
    requires u in Run(to, start, moves[..|moves|-1]).value.born
    requires UpgradedIfThere(to, Run(to, start, moves[..|moves|-1]).value.machines, u)
    ensures u in Run(to, start, moves).value.born && UpgradedIfThere(to, Run(to, start, moves).value.machines, u)
  {
    var last := |moves| - 1;
    RunKeepsInv(to, start, moves[..last]);
    StaysUpgraded(to, moves[last], Run(to, start, moves[..last]).value, u);
  }

  /** Upgraded machines stay upgraded for as long as they exist. */
  lemma {:induction false} UpgradedForGood(to: string, start: Fleet, moves: seq<Move>, i: nat, j: nat, u: Uid)
    requires Inv(to, start) && i <= j <= |moves|
    requires Run(to, start, moves[..i]).Some? && Run(to, start, moves[..j]).Some?
    requires u in Run(to, start, moves[..i]).value.machines
    requires IsUpgraded(Run(to, start, moves[..i]).value.machines[u].ann, to)
    ensures u in Run(to, start, moves[..j]).value.born
    ensures UpgradedIfThere(to, Run(to, start, moves[..j]).value.machines, u)
  {
    if i < j {
      assert moves[..j][..j-1] == moves[..j-1];
      UpgradedForGood(to, start, moves, i, j - 1, u);
      UpgradedStep(to, start, moves[..j], u);
    } else {
      RunKeepsInv(to, start, moves[..i]);
    }
  }

  // ----- One undisturbed pass of the orchestrator -----

  predicate AllUpgraded(s: Fleet, to: string) {
    forall u :: u in s.machines ==> IsUpgraded(s.machines[u].ann, to)
  }

  /** The machine the pass stops at: the least one not upgraded, if there is any. */
  predicate StopFits(s: Fleet, to: string, stop: Option<Uid>) {
    match stop
    case None => AllUpgraded(s, to)
    case Some(u) => u in s.machines && !IsUpgraded(s.machines[u].ann, to) && UpgradedBelow(to, s.machines, u)
  }

  function WorkerPass(s: Fleet, stop: Option<Uid>): Fleet
    requires stop.Some? ==> stop.value in s.machines
  {
    var to := GetUpgradeInstructions(s.owner);
    if to == "" || s.ownerDeleting then s
    else match stop
      case None => s.(owner := MarkedDone(s.owner, to))
      case Some(u) =>
        var m := s.machines[u];
        if m.deleting then s
        else if IsMachineUpgradeFailed(m.ann) then s.(owner := MarkedFailed(s.owner))
        else if IsMachineUpgrading(m.ann) then s
        else s.(machines := s.machines[u := m.(ann := MarkedToUpgrade(to))], owner := MarkedInProgress(s.owner, to))
  }

  // ----- In plain terms -----

  lemma IdleInPlainTerms(s: Fleet, stop: Option<Uid>)
    requires stop.Some? ==> stop.value in s.machines
    ensures s.ownerDeleting || (if s.owner.upgradeTo.Some? then s.owner.upgradeTo.value == "" else s.owner.release in {None, Some("")}) ==>
      WorkerPass(s, stop) == s
  {
  }

  /** The machine a pass stops at is the least that does not carry the target as release; it waits if that
      one is being deleted or upgraded, reports it if it failed, and otherwise marks it and then the
      owner. With all machines upgraded it marks the owner done. */
  lemma PassInPlainTerms(s: Fleet, to: string, stop: Option<Uid>)
    requires to != "" && !s.ownerDeleting && (stop.Some? ==> stop.value in s.machines)
    requires if s.owner.upgradeTo.Some? then s.owner.upgradeTo.value == to else s.owner.release == Some(to)
    ensures StopFits(s, to, stop) <==>
      if stop.Some? then
        && s.machines[stop.value].ann.release != Some(to)
        && forall v :: v in s.machines && v < stop.value ==> s.machines[v].ann.release == Some(to)
      else forall v :: v in s.machines ==> s.machines[v].ann.release == Some(to)
    ensures stop.None? ==>
      WorkerPass(s, stop) == s.(owner := Annotations(None, Some(Done), Some(to), s.owner.changeId, s.owner.lastFailed))
    ensures stop.Some? ==>
      var m := s.machines[stop.value];
      WorkerPass(s, stop) ==
        if m.deleting then s
        else if m.ann.lastFailed !in {None, Some("")} then s.(owner := s.owner.(status := Some(UpgradeFailed), release := None))
        else if m.ann.status == Some(InProgress) || m.ann.upgradeTo !in {None, Some("")} then s
        else s.(
          machines := s.machines[stop.value := m.(ann := Annotations(Some(to), None, None, None, None))],
          owner := Annotations(Some(to), Some(InProgress), None, s.owner.changeId, s.owner.lastFailed))
  {
  }
}
