/** The control-plane orchestrator and its lock, call by call, against an API server that the
    per-machine controllers, users and the rest of the world use at the same time. */
module ControlPlaneUpgradeController {
  import opened Prelude
  import opened InPlace
  import opened MachineUpgrade
  import opened ControlPlaneUpgrade
  import opened ControlPlanePass
  import opened ControlPlaneTimeline

  class CpApi {
    var st: Cluster
    var script: seq<Event<Step>>
    var down: bool
    ghost const start: World
    ghost var stage: Stage
    ghost var steps: seq<Step>   // every read and write so far, by anyone
    ghost var failures: nat      // calls so far that did not land

    constructor (s: Cluster, script: seq<Event<Step>>)
      ensures Valid() && World(st, stage) == start && st == s && stage == Idle && steps == []
      ensures this.script == script && !down
    {
      st, this.script, down := s, script, false;
      start, stage, steps, failures := World(s, Idle), Idle, [], 0;
    }

    /** The history of the cluster and the pass is a run, so all that holds of runs holds here. */
    ghost predicate Valid()
      reads this
    {
      Trace(start, steps) == Some(World(st, stage))
    }

    predicate Quiet()
      reads this
    {
      script == [] && !down
    }

    method Take(next: Cluster, ghost step: Step)
      requires Valid() && CanStep(step, World(st, stage)) && next == Stepped(step, World(st, stage)).cluster
      modifies this`st, this`stage, this`steps
      ensures Valid() && steps == old(steps) + [step] && World(st, stage) == Stepped(step, old(World(st, stage)))
    {
      TraceSnoc(start, steps, step);
      stage := Stepped(step, World(st, stage)).stage;
      st, steps := next, steps + [step];
    }

    /** A step that writes nothing. */
    ghost method Pause(step: Option<Step>)
      requires Valid()
      requires step.Some? ==>
        CanStep(step.value, World(st, stage)) && Stepped(step.value, World(st, stage)).cluster == st
      modifies this`stage, this`steps
      ensures Valid() && old(steps) <= steps
      ensures stage == if step.Some? then Stepped(step.value, old(World(st, stage))).stage else old(stage)
    {
      if step.Some? {
        TraceSnoc(start, steps, step.value);
        stage, steps := Stepped(step.value, World(st, stage)).stage, steps + [step.value];
      }
    }

    /** Everybody else, users who retarget the owner included, at any time and in any number. */
    method Interfere()
      requires Valid()
      modifies this`st, this`stage, this`script, this`steps
      ensures Valid() && old(steps) <= steps && stage == old(stage)
      ensures old(script) == [] ==> st == old(st) && script == []
    {
      while script != [] && script[0].Other?
        invariant Valid() && old(steps) <= steps && stage == old(stage)
        invariant old(script) == [] ==> st == old(st) && script == []
        decreases |script|
      {
        match script[0].action {
          case Others(mv) =>
            if Foreign(mv) && CanMove("", mv, st) {
              Take(Moved("", mv, st), Others(mv));
            }
          case Retarget(ann) => Take(st.(owner := st.owner.(ann := ann)), Retarget(ann));
          case _ =>
        }
        script := script[1..];
      }
    }

    method Answer() returns (fate: Fate)
      modifies this`script, this`down, this`failures
      ensures failures == old(failures) + if fate == Landed then 0 else 1
      ensures old(Quiet()) ==> fate == Landed && Quiet()
    {
      fate := if down then Halted else Landed;
      if !down && script != [] && script[0].Meet? {
        fate := script[0].fate;
        script := script[1..];
      }
      down := fate.Halted?;
      failures := failures + if fate == Landed then 0 else 1;
    }

    /** Read everything at one instant, the step if there is one; the callers project what they ask for. */
    method Read(ghost step: Option<Step>) returns (ok: bool, seen: Cluster)
      requires Valid()
      requires step.Some? ==>
        CanStep(step.value, World(st, stage)) && Stepped(step.value, World(st, stage)).cluster == st
      modifies this
      ensures Valid() && old(steps) <= steps && seen == old(st)
      ensures stage == if ok && step.Some? then Stepped(step.value, old(World(st, stage))).stage else old(stage)
      ensures old(Quiet()) ==> ok && Quiet() && st == old(st)
      ensures ok ==> failures == old(failures)
    {
      var fate := Answer();
      ok, seen := fate == Landed, st;
      if ok {
        Pause(step);
      }
      Interfere();
    }

    method CreateLock(name: Name) returns (ok: bool)
      requires Valid() && stage.Scanning? && name in stage.owned
      requires Startable(GetUpgradeInstructions(stage.oa), stage.owned[name])
      modifies this
      ensures Valid() && old(steps) <= steps
      ensures ok ==> stage == Locked(old(stage).oa, name, old(stage).owned[name].ann)
      ensures old(Quiet()) ==>
        && Quiet() && ok == old(st).lock.None?
        && st == if ok then old(st).(lock := Some(LockMap(Some(name)))) else old(st)
      ensures ok ==> failures == old(failures)
    {
      var fate := Answer();
      ok := fate == Landed && st.lock.None?;
      if st.lock.None? && (fate == Landed || fate == ReplyLost) {
        Take(st.(lock := Some(LockMap(Some(name)))), TakeLock(name));
      }
      Interfere();
    }

    /** Deleting a lock that is already gone is not an error for the caller. */
    method DeleteLock(ghost step: Step) returns (ok: bool)
      requires Valid() && step in {ClearLock, Release} && CanStep(step, World(st, stage))
      modifies this
      ensures Valid() && old(steps) <= steps
      ensures ok ==> stage == Stepped(step, old(World(st, stage))).stage
      ensures old(Quiet()) ==> Quiet() && ok && st == old(st).(lock := None)
      ensures ok ==> failures == old(failures)
    {
      var fate := Answer();
      ok := fate == Landed;
      if fate == Landed || fate == ReplyLost {
        Take(st.(lock := None), step);
      }
      Interfere();
    }

    method PatchMachine(name: Name, before: Annotations, after: Annotations) returns (ok: bool)
      requires Valid() && stage.Locked? && name == stage.name && before == stage.ann
      requires after == MarkedToUpgrade(GetUpgradeInstructions(stage.oa))
      modifies this
      ensures Valid() && old(steps) <= steps
      ensures ok ==> stage == Marked(old(stage).oa)
      ensures old(Quiet()) ==>
        && Quiet() && ok == (name in old(st).machines)
        && st == if ok then Stepped(MarkListed, old(World(st, stage))).cluster else old(st)
      ensures ok ==> failures == old(failures)
    {
      var fate := Answer();
      ok := fate == Landed && name in st.machines;
      if name in st.machines && (fate == Landed || fate == ReplyLost) {
        var m := st.machines[name].(ann := MergePatch(st.machines[name].ann, before, after));
        Take(st.(machines := st.machines[name := m]), MarkListed);
      }
      Interfere();
    }

    method PatchOwner(before: Annotations, after: Annotations, ghost step: Step) returns (ok: bool)
      requires Valid() && CanStep(step, World(st, stage))
      requires Stepped(step, World(st, stage)) == World(Patched(st, before, after), Idle)
      modifies this
      ensures Valid() && old(steps) <= steps
      ensures old(Quiet()) ==> Quiet() && ok && st == Patched(old(st), before, after)
      ensures ok ==> failures == old(failures)
    {
      var fate := Answer();
      ok := fate == Landed;
      if fate == Landed || fate == ReplyLost {
        Take(Patched(st, before, after), step);
      }
      Interfere();
    }
  }

  /** The upgrade lock: a ConfigMap that names the machine being upgraded. */
  class UpgradeLock {
    const api: CpApi
    var semaphore: LockMap

    constructor (api: CpApi)
      ensures this.api == api
    {
      this.api, semaphore := api, LockMap(None);
    }

    /** The machine the lock is held for, or NotFound if the process is not locked. A lock left
        by a machine that no longer exists is removed on the way. */
    method IsLocked() returns (r: Reply<Machine>, holder: Name)
      requires api.Valid() && api.stage.Listed?
      modifies this, api
      ensures api.Valid() && old(api.steps) <= api.steps
      ensures r.Found? ==> api.stage == Watching(old(api.stage).oa, holder, r.value)
      ensures r.NotFound? ==> api.stage == Scanning(old(api.stage).oa, old(api.stage).owned)
      ensures old(api.Quiet()) ==>
        && api.Quiet()
        && var s := old(api.st);
        if s.lock.None? then r.NotFound? && api.st == s
        else if s.lock.value.holder.None? then r.Failed? && api.st == s
        else if s.lock.value.holder.value !in s.machines then r.NotFound? && api.st == s.(lock := None)
        else HeldBy(s.lock, holder) && r == Found(s.machines[holder]) && api.st == s
      ensures !r.Failed? ==> api.failures == old(api.failures)
    {
      holder := "";
      semaphore := LockMap(None);
      var ok, seen := api.Read(Some(SeeLock));
      if !ok {
        return Failed, holder;
      }
      if seen.lock.None? {
        return NotFound, holder;
      }
      semaphore := seen.lock.value;
      if semaphore.holder.None? {
        return Failed, holder;
      }
      holder := semaphore.holder.value;

      ok, seen := api.Read(Some(SeeHolder));
      if !ok {
        return Failed, holder;
      }
      if holder !in seen.machines {
        // a stale lock from a deleted machine
        ok := this.Unlock(ClearLock);
        r := if ok then NotFound else Failed;
        return;
      }
      r := Found(seen.machines[holder]);
    }

    method Unlock(ghost step: Step) returns (ok: bool)
      requires api.Valid() && step in {ClearLock, Release} && CanStep(step, World(api.st, api.stage))
      modifies this, api
      ensures api.Valid() && old(api.steps) <= api.steps
      ensures ok ==> api.stage == Stepped(step, old(World(api.st, api.stage))).stage
      ensures old(api.Quiet()) ==> api.Quiet() && ok && api.st == old(api.st).(lock := None)
      ensures ok ==> api.failures == old(api.failures)
    {
      ghost var gone := if api.st.lock.None? then Some(step) else None;
      var seen;
      ok, seen := api.Read(gone);
      if !ok {
        return;
      }
      if seen.lock.None? {
        return true;
      }
      ok := api.DeleteLock(step);
    }

    method Lock(name: Name) returns (ok: bool)
      requires api.Valid() && api.stage.Scanning? && name in api.stage.owned
      requires Startable(GetUpgradeInstructions(api.stage.oa), api.stage.owned[name])
      modifies this, api
      ensures api.Valid() && old(api.steps) <= api.steps
      ensures semaphore == LockMap(Some(name))
      ensures ok ==> api.stage == Locked(old(api.stage).oa, name, old(api.stage).owned[name].ann)
      ensures old(api.Quiet()) ==>
        && api.Quiet() && ok == old(api.st).lock.None?
        && api.st == if ok then old(api.st).(lock := Some(LockMap(Some(name)))) else old(api.st)
      ensures ok ==> api.failures == old(api.failures)
    {
      semaphore := LockMap(Some(name));
      ok := api.CreateLock(name);
    }
  }

  class OrchestratedInPlaceUpgradeController {
    const api: CpApi
    const lock: UpgradeLock

    constructor (api: CpApi, lock: UpgradeLock)
      requires lock.api == api
      ensures this.api == api && this.lock == lock
    {
      this.api, this.lock := api, lock;
    }

    /** One pass. Every read and write it makes, up to wherever it is cut short, is one of the steps of
        ControlPlaneTimeline, whoever retargets the owner meanwhile, and it ends in an error if any of its
        calls failed; undisturbed, it computes OrchestratorPass. The pick is the machine it marked, if any. */
    method Reconcile() returns (outcome: Outcome, pick: Option<Name>)
      requires api.Valid() && api.stage.Idle? && lock.api == api
      modifies api, lock
      ensures api.Valid() && api.stage.Idle? && old(api.steps) <= api.steps && Trace(api.start, api.steps) == Some(World(api.st, Idle))
      ensures outcome != Error ==> api.failures == old(api.failures)
      ensures old(api.Quiet()) ==>
        && api.Quiet()
        && var s := old(api.st);
        && (Scans(s) ==> PickFits(s, GetUpgradeInstructions(s.owner.ann), pick))
        && api.st == OrchestratorPass(s, pick) && outcome == ControlPlanePass.PassOutcome(s, pick)
      ensures old(api.script == [] && !api.down) ==>
        var owner := old(api.st).owner;
        var to := if owner.ann.upgradeTo.Some? then owner.ann.upgradeTo.value else if owner.ann.release.Some? then owner.ann.release.value else "";
        && (to == "" || owner.deleting ==> api.st == old(api.st) && outcome == Finished)
        && (to != "" && !owner.deleting && (owner.replicas.None? || owner.readyReplicas != owner.replicas.value) ==>
              api.st == old(api.st) && outcome == Requeue)
        && (api.st.machines != old(api.st).machines ==>
              && to != "" && !owner.deleting && owner.replicas == Some(owner.readyReplicas)
              && pick.Some? && pick.value in old(api.st).machines
              && old(api.st).machines[pick.value].ann.release != Some(to) && !old(api.st).machines[pick.value].deleting
              && api.st.lock == Some(LockMap(pick))
              && api.st.machines == old(api.st).machines[
                   pick.value := old(api.st).machines[pick.value].(ann := Annotations(Some(to), None, None, None, None))])
      ensures old(api.script == [] && !api.down) ==>
        var s, a := old(api.st), old(api.st).owner.ann;
        var to := if a.upgradeTo.Some? then a.upgradeTo.value else if a.release.Some? then a.release.value else "";
        (api.st != s <==>
           && to != "" && !s.owner.deleting && s.owner.replicas == Some(s.owner.readyReplicas)
           && if s.lock.Some? && s.lock.value.holder.None? then false
              else if s.lock.Some? && s.lock.value.holder.value in s.machines then
                var m := s.machines[s.lock.value.holder.value].ann;
                || m.upgradeTo != Some(to) || m.release == Some(to)
                || (m.lastFailed !in {None, Some("")} && (a.status != Some(UpgradeFailed) || a.release.Some?))
              else
                || s.lock.Some? || pick.Some?
                || ((forall n :: n in s.machines ==> s.machines[n].ann.release == Some(to))
                    && (a.upgradeTo.Some? || a.status != Some(Done) || a.release != Some(to))))
    {
      ghost var s := api.st;
      outcome, pick := Pass();
      if old(api.Quiet()) {
        IdleInPlainTerms(s, pick);
        ChangesExactlyWhen(s, pick);
      }
      api.Pause(Some(Stop));
    }

    method Pass() returns (outcome: Outcome, pick: Option<Name>)
      requires api.Valid() && api.stage.Idle? && lock.api == api
      modifies api, lock
      ensures api.Valid() && old(api.steps) <= api.steps
      ensures old(api.Quiet()) ==>
        && api.Quiet()
        && var s := old(api.st);
        && (Scans(s) ==> PickFits(s, GetUpgradeInstructions(s.owner.ann), pick))
        && api.st == OrchestratorPass(s, pick) && outcome == ControlPlanePass.PassOutcome(s, pick)
      ensures outcome != Error ==> api.failures == old(api.failures)
    {
      var ok, seen := api.Read(Some(ReadOwner));  // the control plane object
      if !ok {
        return Error, None;
      }
      var owner := seen.owner;
      if GetUpgradeInstructions(owner.ann) == "" {
        return Finished, None;
      }
      if owner.deleting {
        return Finished, None;
      }
      if !MachinesAreReady(owner) {
        return Requeue, None;
      }
      var upgradeTo := GetUpgradeInstructions(owner.ann);

      ok, seen := api.Read(None);                 // the owner cluster
      if !ok {
        return Error, None;
      }
      ok, seen := api.Read(Some(ListMachines));   // its control plane machines
      if !ok {
        return Error, None;
      }
      var owned := seen.machines;

      var locked, holder := lock.IsLocked();
      if locked.Failed? {
        return Error, None;
      }
      if locked.Found? {
        outcome := Watching(upgradeTo, owner.ann, holder, locked.value);
        return outcome, None;
      }
      outcome, pick := Scanning(upgradeTo, owner.ann, owned);
    }

    /** The lock names an existing machine. */
    method Watching(upgradeTo: string, ownerAnn: Annotations, holder: Name, m: Machine) returns (outcome: Outcome)
      requires api.Valid() && lock.api == api
      requires upgradeTo == GetUpgradeInstructions(ownerAnn) && api.stage == ControlPlaneTimeline.Watching(ownerAnn, holder, m)
      modifies api, lock
      ensures api.Valid() && old(api.steps) <= api.steps
      ensures old(api.Quiet()) && ownerAnn == old(api.st).owner.ann ==>
        api.Quiet() && api.st == Watch(old(api.st), upgradeTo, m) && outcome == Requeue
      ensures outcome != Error ==> api.failures == old(api.failures)
    {
      var ok;
      if GetUpgradeInstructions(m.ann) != upgradeTo {
        // a stale lock: the machine will never be upgraded by it
        ok := lock.Unlock(Release);
        return if ok then Requeue else Error;
      }
      if IsUpgraded(m.ann, upgradeTo) {
        ok := lock.Unlock(Release);
        return if ok then Requeue else Error;
      }
      if IsMachineUpgradeFailed(m.ann) {
        var ann := ownerAnn.(release := None);
        ann := ann.(status := Some(UpgradeFailed));
        ok := api.PatchOwner(ownerAnn, ann, ReportFailure);
        return if ok then Requeue else Error;
      }
      return Requeue;
    }

    /** The lock is free: walk the listed machines, in whatever order, up to the first one that
        is not upgraded. */
    method Scanning(upgradeTo: string, ownerAnn: Annotations, owned: map<Name, Machine>)
      returns (outcome: Outcome, pick: Option<Name>)
      requires api.Valid() && lock.api == api
      requires upgradeTo == GetUpgradeInstructions(ownerAnn) && api.stage == ControlPlaneTimeline.Scanning(ownerAnn, owned)
      modifies api, lock
      ensures api.Valid() && old(api.steps) <= api.steps
      ensures old(api.Quiet()) && Undisturbed(old(api.st), ownerAnn, owned) ==>
        && api.Quiet() && PickFits(old(api.st), upgradeTo, pick) && api.st == Scan(old(api.st), upgradeTo, pick)
        && outcome == if pick.None? && AllUpgraded(old(api.st), upgradeTo) then Finished else Requeue
      ensures outcome != Error ==> api.failures == old(api.failures)
    {
      var next, upgradedMachines := FirstToUpgrade(owned, upgradeTo);
      if next.Some? {
        if owned[next.value].deleting {
          return Requeue, None;
        }
        outcome := Start(upgradeTo, ownerAnn, owned, next.value);
        return outcome, next;
      }
      if upgradedMachines == |owned| {
        outcome := Conclude(upgradeTo, ownerAnn, owned);
        return outcome, None;
      }
      return Requeue, None;
    }

    /** The first machine met that is not upgraded, and how many upgraded ones came before it. */
    method FirstToUpgrade(owned: map<Name, Machine>, upgradeTo: string) returns (next: Option<Name>, upgradedMachines: nat)
      ensures next.Some? ==> next.value in owned && !IsUpgraded(owned[next.value].ann, upgradeTo)
      ensures next.None? ==> upgradedMachines == |owned| && forall n :: n in owned ==> IsUpgraded(owned[n].ann, upgradeTo)
    {
      upgradedMachines := 0;
      var rest := owned.Keys;
      while rest != {}
        invariant rest <= owned.Keys && upgradedMachines == |owned.Keys - rest|
        invariant forall n :: n in owned.Keys - rest ==> IsUpgraded(owned[n].ann, upgradeTo)
        decreases rest
      {
        var name :| name in rest;
        if !IsUpgraded(owned[name].ann, upgradeTo) {
          return Some(name), upgradedMachines;
        }
        assert owned.Keys - (rest - {name}) == (owned.Keys - rest) + {name};
        rest := rest - {name};
        upgradedMachines := upgradedMachines + 1;
      }
      assert owned.Keys - rest == owned.Keys;
      next := None;
    }

    /** Every listed machine is upgraded: mark the owner done. */
    method Conclude(upgradeTo: string, ownerAnn: Annotations, owned: map<Name, Machine>) returns (outcome: Outcome)
      requires api.Valid() && upgradeTo == GetUpgradeInstructions(ownerAnn)
      requires api.stage == ControlPlaneTimeline.Scanning(ownerAnn, owned)
      requires forall n :: n in owned ==> IsUpgraded(owned[n].ann, upgradeTo)
      modifies api
      ensures api.Valid() && old(api.steps) <= api.steps
      ensures old(api.Quiet()) && ownerAnn == old(api.st).owner.ann ==>
        && api.Quiet() && outcome == Finished
        && api.st == old(api.st).(owner := old(api.st).owner.(ann := MarkedDone(ownerAnn, upgradeTo)))
      ensures outcome != Error ==> api.failures == old(api.failures)
    {
      var ann := ownerAnn.(upgradeTo := None);
      ann := ann.(status := Some(Done));
      ann := ann.(release := Some(upgradeTo));
      var ok := api.PatchOwner(ownerAnn, ann, ControlPlaneTimeline.Conclude);
      outcome := if ok then Finished else Error;
    }

    /** Take the lock for the machine, mark it, and mark the owner. */
    method Start(upgradeTo: string, ownerAnn: Annotations, owned: map<Name, Machine>, name: Name) returns (outcome: Outcome)
      requires api.Valid() && lock.api == api && upgradeTo == GetUpgradeInstructions(ownerAnn)
      requires api.stage == ControlPlaneTimeline.Scanning(ownerAnn, owned)
      requires name in owned && Startable(upgradeTo, owned[name])
      modifies api, lock
      ensures api.Valid() && old(api.steps) <= api.steps
      ensures old(api.Quiet()) && Undisturbed(old(api.st), ownerAnn, owned) ==>
        && api.Quiet() && outcome == Requeue
        && var s := old(api.st);
        api.st == s.(
          lock := Some(LockMap(Some(name))),
          machines := s.machines[name := s.machines[name].(ann := MarkedToUpgrade(upgradeTo))],
          owner := s.owner.(ann := MarkedInProgress(s.owner.ann, upgradeTo)))
      ensures outcome != Error ==> api.failures == old(api.failures)
    {
      var ok := lock.Lock(name);
      if !ok {
        return Error;
      }

      var ann := owned[name].ann.(release := None);
      ann := ann.(status := None);
      ann := ann.(changeId := None);
      ann := ann.(lastFailed := None);
      ann := ann.(upgradeTo := Some(upgradeTo));
      ok := api.PatchMachine(name, owned[name].ann, ann);
      if !ok {
        return Error;
      }

      ann := ownerAnn.(release := None);
      ann := ann.(status := Some(InProgress));
      ann := ann.(upgradeTo := Some(upgradeTo));
      ok := api.PatchOwner(ownerAnn, ann, MarkOwner);
      outcome := if ok then Requeue else Error;
    }
  }

  /** The lock is free, and what was read of the owner and the machines is still so. */
  ghost predicate Undisturbed(s: Cluster, ownerAnn: Annotations, owned: map<Name, Machine>) {
    s.lock.None? && s.owner.ann == ownerAnn && s.machines == owned
  }
}
