/** What one undisturbed pass of the control-plane orchestrator does, as a function. */
module ControlPlanePass {
  import opened Prelude
  import opened InPlace
  import opened MachineUpgrade
  import opened ControlPlaneUpgrade

  predicate MachinesAreReady(owner: Owner) {
    owner.replicas.Some? && owner.readyReplicas == owner.replicas.value
  }

  predicate AllUpgraded(s: Cluster, to: string) {
    forall n :: n in s.machines ==> IsUpgraded(s.machines[n].ann, to)
  }

  predicate Acts(owner: Owner) {
    GetUpgradeInstructions(owner.ann) != "" && !owner.deleting && MachinesAreReady(owner)
  }

  /** The lock does not stop the pass from looking for the next machine. */
  predicate Scans(s: Cluster) {
    && Acts(s.owner)
    && (s.lock.Some? ==> s.lock.value.holder.Some? && s.lock.value.holder.value !in s.machines)
  }

  /** The machine a scan settles on: machines come in no particular order, and the first one
      that is not upgraded ends the scan, without a pick if it is being deleted. */
  predicate PickFits(s: Cluster, to: string, pick: Option<Name>) {
    match pick
    case Some(n) => n in s.machines && !IsUpgraded(s.machines[n].ann, to) && !s.machines[n].deleting
    case None => AllUpgraded(s, to) || exists n :: n in s.machines && !IsUpgraded(s.machines[n].ann, to) && s.machines[n].deleting
  }

  function Scan(s: Cluster, to: string, pick: Option<Name>): Cluster
    requires PickFits(s, to, pick)
  {
    match pick
    case Some(n) =>
      s.(lock := Some(LockMap(Some(n))),
         machines := s.machines[n := s.machines[n].(ann := MarkedToUpgrade(to))],
         owner := s.owner.(ann := MarkedInProgress(s.owner.ann, to)))
    case None =>
      if AllUpgraded(s, to) then s.(owner := s.owner.(ann := MarkedDone(s.owner.ann, to))) else s
  }

  /** The pass while the lock names an existing machine. */
  function Watch(s: Cluster, to: string, m: Machine): Cluster {
    if GetUpgradeInstructions(m.ann) != to || IsUpgraded(m.ann, to) then s.(lock := None)
    else if IsMachineUpgradeFailed(m.ann) then s.(owner := s.owner.(ann := MarkedFailed(s.owner.ann)))
    else s
  }

  function OrchestratorPass(s: Cluster, pick: Option<Name>): Cluster
    requires Scans(s) ==> PickFits(s, GetUpgradeInstructions(s.owner.ann), pick)
  {
    var to := GetUpgradeInstructions(s.owner.ann);
    if !Acts(s.owner) then s
    else if Scans(s) then Scan(s.(lock := None), to, pick)
    else if s.lock.value.holder.None? then s
    else Watch(s, to, s.machines[s.lock.value.holder.value])
  }

  /** Nothing to do, or nothing left to do, is the end; an unreadable lock is an error. */
  function PassOutcome(s: Cluster, pick: Option<Name>): Outcome {
    var to := GetUpgradeInstructions(s.owner.ann);
    if to == "" || s.owner.deleting then Finished
    else if Scans(s) then if pick.None? && AllUpgraded(s, to) then Finished else Requeue
    else if Acts(s.owner) && s.lock.value.holder.None? then Error
    else Requeue
  }

  // ----- In plain terms -----

  /** A pass does nothing unless the owner asks for a target, is not being deleted, and has as many
      ready replicas as it should. */
  lemma IdleInPlainTerms(s: Cluster, pick: Option<Name>)
    requires Scans(s) ==> PickFits(s, GetUpgradeInstructions(s.owner.ann), pick)
    ensures var a := s.owner.ann;
      var to := if a.upgradeTo.Some? then a.upgradeTo.value else if a.release.Some? then a.release.value else "";
      && (to == "" || s.owner.deleting ==> OrchestratorPass(s, pick) == s && PassOutcome(s, pick) == Finished)
      && (to != "" && !s.owner.deleting && s.owner.replicas != Some(s.owner.readyReplicas) ==>
            OrchestratorPass(s, pick) == s && PassOutcome(s, pick) == Requeue)
  {
  }

  /** The owner asks for to and is ready, so the pass goes on to the lock. */
  predicate GoesOn(s: Cluster, to: string) {
    && to != "" && !s.owner.deleting && s.owner.replicas == Some(s.owner.readyReplicas)
    && if s.owner.ann.upgradeTo.Some? then s.owner.ann.upgradeTo.value == to else s.owner.ann.release == Some(to)
  }

  /** With the lock held for a machine that is there: it is given up if that machine asks for something
      else, or for nothing, or is upgraded; a failure is reported on the owner; otherwise the pass waits. */
  lemma WatchInPlainTerms(s: Cluster, to: string, holder: Name, pick: Option<Name>)
    requires GoesOn(s, to) && s.lock == Some(LockMap(Some(holder))) && holder in s.machines
    ensures var m, s' := s.machines[holder].ann, OrchestratorPass(s, pick);
      && PassOutcome(s, pick) == Requeue
      && s' == if m.upgradeTo != Some(to) then s.(lock := None)
               else if m.release == Some(to) then s.(lock := None)
               else if m.lastFailed !in {None, Some("")} then
                 s.(owner := s.owner.(ann := s.owner.ann.(status := Some(UpgradeFailed), release := None)))
               else s
  {
  }

  lemma UnreadableLockInPlainTerms(s: Cluster, to: string, pick: Option<Name>)
    requires GoesOn(s, to) && s.lock == Some(LockMap(None))
    ensures OrchestratorPass(s, pick) == s && PassOutcome(s, pick) == Error
  {
  }

  /** With the lock free, or left by a machine that is gone: the machine picked is one that does not carry
      the target as release and is not being deleted; it is locked and marked, and the owner is marked
      in progress. Nothing is picked if all machines carry the target, and then the owner is marked done;
      or if one that does not is being deleted, and then the pass comes back. */
  lemma ScanInPlainTerms(s: Cluster, to: string, pick: Option<Name>)
    requires GoesOn(s, to) && (s.lock.Some? ==> s.lock.value.holder.Some? && s.lock.value.holder.value !in s.machines)
    ensures PickFits(s, to, pick) <==>
      if pick.Some? then
        pick.value in s.machines && s.machines[pick.value].ann.release != Some(to) && !s.machines[pick.value].deleting
      else
        || (forall n :: n in s.machines ==> s.machines[n].ann.release == Some(to))
        || exists n :: n in s.machines && s.machines[n].ann.release != Some(to) && s.machines[n].deleting
    ensures GetUpgradeInstructions(s.owner.ann) == to
    ensures PickFits(s, to, pick) ==>
      var s' := OrchestratorPass(s, pick);
      if pick.Some? then
        && PassOutcome(s, pick) == Requeue
        && s' == s.(
             lock := Some(LockMap(pick)),
             machines := s.machines[pick.value := s.machines[pick.value].(ann := Annotations(Some(to), None, None, None, None))],
             owner := s.owner.(ann := Annotations(Some(to), Some(InProgress), None, s.owner.ann.changeId, s.owner.ann.lastFailed)))
      else if forall n :: n in s.machines ==> s.machines[n].ann.release == Some(to) then
        && PassOutcome(s, pick) == Finished
        && s' == s.(
             lock := None,
             owner := s.owner.(ann := Annotations(None, Some(Done), Some(to), s.owner.ann.changeId, s.owner.ann.lastFailed)))
      else PassOutcome(s, pick) == Requeue && s' == s.(lock := None)
  {
    assert AllUpgraded(s, to) <==> forall n :: n in s.machines ==> s.machines[n].ann.release == Some(to);
  }

  /** When a pass changes anything at all. */
  lemma ChangesExactlyWhen(s: Cluster, pick: Option<Name>)
    requires Scans(s) ==> PickFits(s, GetUpgradeInstructions(s.owner.ann), pick)
    ensures var a := s.owner.ann;
      var to := if a.upgradeTo.Some? then a.upgradeTo.value else if a.release.Some? then a.release.value else "";
      OrchestratorPass(s, pick) != s <==>
        && to != "" && !s.owner.deleting && s.owner.replicas == Some(s.owner.readyReplicas)
        && if s.lock.Some? && s.lock.value.holder.None? then false
           else if s.lock.Some? && s.lock.value.holder.value in s.machines then
             var m := s.machines[s.lock.value.holder.value].ann;
             || m.upgradeTo != Some(to) || m.release == Some(to)
             || (m.lastFailed !in {None, Some("")} && (a.status != Some(UpgradeFailed) || a.release.Some?))
           else
             || s.lock.Some? || pick.Some?
             || ((forall n :: n in s.machines ==> s.machines[n].ann.release == Some(to))
                 && (a.upgradeTo.Some? || a.status != Some(Done) || a.release != Some(to)))
  {
    var a := s.owner.ann;
    var to := if a.upgradeTo.Some? then a.upgradeTo.value else if a.release.Some? then a.release.value else "";
    IdleInPlainTerms(s, pick);
    if GoesOn(s, to) {
      if s.lock.Some? && s.lock.value.holder.None? {
        UnreadableLockInPlainTerms(s, to, pick);
      } else if s.lock.Some? && s.lock.value.holder.value in s.machines {
        WatchInPlainTerms(s, to, s.lock.value.holder.value, pick);
      } else {
        ScanInPlainTerms(s, to, pick);
      }
    }
  }
}
