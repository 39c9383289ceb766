/** The per-machine in-place upgrade controller, call by call, against an API server and a
    node that others use at the same time and that can fail or lose any call. */
module MachineUpgradeController {
  import opened Prelude
  import opened InPlace
  import opened MachineUpgrade
  import SnapOption

  /** What others do to the machine: one of their writes, or its removal. */
  datatype Disturbance = Act(action: Action) | Remove

  predicate Foreign(a: Action) {
    a.Mark? || a.Complete? || a.BeginDelete?
  }

  ghost predicate Progressed(n: Node, n': Node) {
    && |n'.changes| == |n.changes|
    && forall i :: 0 <= i < |n.changes| ==>
         && n'.changes[i].option == n.changes[i].option
         && (!n.changes[i].result.Pending? ==> n'.changes[i] == n.changes[i])
  }

  /** What the controller can rely on between two of its calls. */
  ghost predicate Undisturbed(m: Option<Machine>, m': Option<Machine>) {
    m'.Some? ==>
      && m.Some?
      && (m.value.ann.upgradeTo.Some? ==>
            m'.value.ann == m.value.ann && Progressed(m.value.node, m'.value.node))
  }

  class MachineApi {
    var machine: Option<Machine>
    var script: seq<Event<Disturbance>>
    var down: bool
    ghost const start: Machine
    ghost var acts: seq<Action>   // every write so far, by anyone
    ghost var latest: Machine     // the machine, or what it was when it was removed
    ghost var failures: nat       // calls so far that did not land

    constructor (m: Machine, script: seq<Event<Disturbance>>)
      requires Consistent(m)
      ensures Valid() && machine == Some(m) && start == m && acts == [] && this.script == script && !down
    {
      machine, this.script, down := Some(m), script, false;
      start, acts, latest, failures := m, [], m, 0;
    }

    /** The history of the machine is a run of the single writes, so all that holds of runs
        holds here, whatever the script. */
    ghost predicate Valid()
      reads this
    {
      && Consistent(start)
      && Exec(start, acts) == Some(latest)
      && Consistent(latest)
      && (machine.Some? ==> machine.value == latest)
    }

    predicate Quiet()
      reads this
    {
      script == [] && !down
    }

    method Write(next: Machine, ghost a: Action)
      requires Valid() && machine.Some? && Enabled(a, machine.value) && Effect(a, machine.value) == next
      modifies this`machine, this`acts, this`latest
      ensures Valid() && acts == old(acts) + [a] && machine == Some(next)
    {
      ExecSnoc(start, acts, a);
      EffectKeepsConsistent(a, machine.value);
      acts, latest, machine := acts + [a], next, Some(next);
    }

    method Interfere()
      requires Valid()
      modifies this`machine, this`script, this`acts, this`latest
      ensures Valid() && old(acts) <= acts
      ensures Undisturbed(old(machine), machine)
      ensures old(script) == [] ==> machine == old(machine) && script == [] && acts == old(acts)
    {
      while script != [] && script[0].Other?
        invariant Valid() && old(acts) <= acts
        invariant Undisturbed(old(machine), machine)
        invariant old(script) == [] ==> machine == old(machine) && script == [] && acts == old(acts)
        decreases |script|
      {
        match script[0].action {
          case Remove =>
            machine := None;
          case Act(a) =>
            if machine.Some? && Foreign(a) && Enabled(a, machine.value) {
              Write(Effect(a, machine.value), a);
            }
        }
        script := script[1..];
      }
    }

    method Answer() returns (fate: Fate)
      modifies this`script, this`down, this`failures
      ensures failures == old(failures) + if fate == Landed then 0 else 1
      ensures old(Quiet()) ==> fate == Landed && Quiet()
    {
      fate := if down then Halted else Landed;
      if !down && script != [] && script[0].Meet? {
        fate := script[0].fate;
        script := script[1..];
      }
      down := fate.Halted?;
      failures := failures + if fate == Landed then 0 else 1;
    }

    method Get() returns (r: Reply<Machine>)
      requires Valid()
      modifies this
      ensures Valid() && old(acts) <= acts && Undisturbed(old(machine), machine)
      ensures r.Found? ==> old(machine) == Some(r.value)
      ensures !r.Failed? ==> failures == old(failures)
      ensures old(Quiet()) ==>
        && Quiet() && machine == old(machine)
        && r == if machine.Some? then Found(machine.value) else NotFound
    {
      var fate := Answer();
      r := if fate != Landed then Failed else if machine.Some? then Found(machine.value) else NotFound;
      Interfere();
    }

    /** A call whose answer matters only for being an error or not: looking up the cluster,
        the workload cluster or the node token. */
    method Lookup() returns (ok: bool)
      requires Valid()
      modifies this
      ensures Valid() && old(acts) <= acts && Undisturbed(old(machine), machine)
      ensures ok ==> failures == old(failures)
      ensures old(Quiet()) ==> Quiet() && machine == old(machine) && ok
    {
      var fate := Answer();
      ok := fate == Landed;
      Interfere();
    }

    /** Patch the annotations. The caller names the single write that this is. */
    method Patch(before: Annotations, after: Annotations, ghost a: Action) returns (ok: bool)
      requires Valid()
      requires machine.Some? ==>
        && Enabled(a, machine.value)
        && Effect(a, machine.value) == machine.value.(ann := MergePatch(machine.value.ann, before, after))
      modifies this
      ensures Valid() && old(acts) <= acts
      ensures ok ==>
        && old(machine).Some?
        && Undisturbed(Some(old(machine).value.(ann := MergePatch(old(machine).value.ann, before, after))), machine)
      ensures old(Quiet()) ==>
        && Quiet() && ok == machine.Some? == old(machine).Some?
        && (ok ==> machine.value == old(machine).value.(ann := MergePatch(old(machine).value.ann, before, after)))
      ensures ok ==> failures == old(failures)
    {
      var fate := Answer();
      ok := fate == Landed && machine.Some?;
      if machine.Some? && (fate == Landed || fate == ReplyLost) {
        Write(machine.value.(ann := MergePatch(machine.value.ann, before, after)), a);
      }
      Interfere();
    }

    /** Ask the node to refresh its snap; the id of the new change, or an error. */
    method Refresh(option: string) returns (id: Option<nat>)
      requires Valid()
      requires machine.Some? ==> machine.value.ann.upgradeTo == Some(option) && Enabled(IssueRefresh, machine.value)
      modifies this
      ensures Valid() && old(acts) <= acts
      ensures id.Some? ==> failures == old(failures)
      ensures id.Some? ==>
        && old(machine).Some? && id.value == |old(machine).value.node.changes|
        && Undisturbed(Some(Effect(IssueRefresh, old(machine).value)), machine)
      ensures old(Quiet()) ==>
        && Quiet() && id.Some? == machine.Some? == old(machine).Some?
        && (id.Some? ==> machine.value == Effect(IssueRefresh, old(machine).value))
    {
      var fate := Answer();
      id := None;
      if machine.Some? && (fate == Landed || fate == ReplyLost) {
        if fate == Landed {
          id := Some(|machine.value.node.changes|);
        }
        Write(Effect(IssueRefresh, machine.value), IssueRefresh);
      }
      Interfere();
    }

    method RefreshStatus(id: nat) returns (r: Reply<ChangeResult>)
      requires Valid()
      modifies this
      ensures Valid() && old(acts) <= acts && Undisturbed(old(machine), machine)
      ensures r.Found? ==> failures == old(failures)
      ensures r.Found? ==>
        old(machine).Some? && id < |old(machine).value.node.changes| && r.value == old(machine).value.node.changes[id].result
      ensures old(Quiet()) ==>
        && Quiet() && machine == old(machine)
        && (r.Found? <==> machine.Some? && id < |machine.value.node.changes|)
    {
      var fate := Answer();
      r := if fate != Landed then Failed
           else if machine.Some? && id < |machine.value.node.changes| then Found(machine.value.node.changes[id].result)
           else NotFound;
      Interfere();
    }
  }

  /** The annotations the pass read are still the ones stored, while the machine exists. */
  ghost predicate Holds(api: MachineApi, ann: Annotations)
    reads api
  {
    api.Valid() && ann.upgradeTo.Some? && (api.machine.Some? ==> api.machine.value.ann == ann)
  }

  class InPlaceUpgradeReconciler {
    const api: MachineApi

    constructor (api: MachineApi)
      ensures this.api == api
    {
      this.api := api;
    }

    /** One pass. Every write it makes, up to wherever it is cut short, is one of the single writes of
        MachineUpgrade, and it ends in an error if any of its calls failed; undisturbed, it computes Pass. */
    method Reconcile(now: string) returns (outcome: Outcome)
      requires api.Valid() && now != ""
      modifies api
      ensures api.Valid() && old(api.acts) <= api.acts
      ensures outcome != Error ==> api.failures == old(api.failures)
      ensures old(api.Quiet()) ==>
        && api.Quiet() && api.machine.Some? == old(api.machine).Some?
        && (api.machine.Some? ==> api.machine.value == Pass(old(api.machine).value, now))
        && outcome == if api.machine.Some? then PassOutcome(old(api.machine).value) else Finished
      ensures Exec(api.start, api.acts) == Some(api.latest) && (api.machine.Some? ==> api.machine.value == api.latest)
      ensures old(api.script == [] && !api.down) && old(api.machine).Some? ==>
        var m := old(api.machine).value;
        m.ann.upgradeTo.Some? && m.ann.changeId.Some? && m.ann.status == Some(InProgress) && m.ann.changeId.value < |m.node.changes| ==>
          match m.node.changes[m.ann.changeId.value].result
          case Pending => outcome == Requeue && api.machine == Some(m)
          case Succeeded => outcome == Finished && api.machine == Some(m.(ann := m.ann.(status := Some(Done))))
          case _ => outcome == Finished && api.machine == Some(m.(ann := m.ann.(status := Some(UpgradeFailed), lastFailed := Some(now))))
    {
      var got := api.Get();
      if !got.Found? {
        return if got.NotFound? then Finished else Error;
      }
      var ann := got.value.ann;
      if ann.upgradeTo.None? {
        return Finished;
      }
      var ok := api.Lookup();  // the cluster
      if !ok {
        return Error;
      }
      ok := api.Lookup();      // the workload cluster
      if !ok {
        return Error;
      }

      if ann.changeId.Some? {
        var status := ann.status;
        if status.None? {
          ok := MarkUpgradeFailed(ann, now);
          if !ok {
            return Error;
          }
        }
        match status {
          case Some(InProgress) =>
            outcome := HandleUpgradeInProgress(ann, now);
          case Some(Done) =>
            outcome := HandleUpgradeDone(ann);
          case Some(UpgradeFailed) =>
            outcome := HandleUpgradeFailed(ann);
          case _ =>
            ok := MarkUpgradeFailed(ann, now);
            outcome := if ok then Finished else Error;
        }
        return;
      }
      outcome := HandleUpgradeRequest(ann);
    }

    /** The patch is computed against the annotations read at the start of the pass. */
    method MarkUpgradeFailed(before: Annotations, now: string) returns (ok: bool)
      requires api.Valid() && now != "" && before.upgradeTo.Some? && before.changeId.Some?
      requires before.status != Some(UpgradeFailed) && before.status != Some(Done)
      requires api.machine.Some? && before.status == Some(InProgress) ==>
        && before.changeId.value < |api.machine.value.node.changes|
        && !api.machine.value.node.changes[before.changeId.value].result.Pending?
        && !api.machine.value.node.changes[before.changeId.value].result.Succeeded?
      requires api.machine.Some? ==>
        && (api.machine.value.ann.status == before.status || api.machine.value.ann.status == Some(UpgradeFailed))
        && api.machine.value.ann.(status := None, lastFailed := None) == before.(status := None, lastFailed := None)
        && (before.lastFailed == Some(now) ==> api.machine.value.ann.lastFailed == Some(now))
      modifies api
      ensures api.Valid() && old(api.acts) <= api.acts
      ensures ok ==> api.failures == old(api.failures)
      ensures ok && api.machine.Some? ==>
        api.machine.value.ann == before.(status := Some(UpgradeFailed), lastFailed := Some(now))
      ensures old(api.Quiet()) ==>
        && api.Quiet() && ok == api.machine.Some? == old(api.machine).Some?
        && (ok ==> api.machine.value == FailedAt(old(api.machine).value, now))
    {
      var after := before.(status := Some(UpgradeFailed));
      after := after.(lastFailed := Some(now));
      ok := api.Patch(before, after, RecordFailed(now));
    }

    method HandleUpgradeRequest(before: Annotations) returns (outcome: Outcome)
      requires Holds(api, before) && before.changeId.None?
      modifies api
      ensures api.Valid() && old(api.acts) <= api.acts
      ensures outcome != Error ==> api.failures == old(api.failures)
      ensures old(api.Quiet()) ==>
        && api.Quiet() && api.machine.Some? == old(api.machine).Some?
        && (api.machine.Some? ==>
              api.machine.value == Requested(old(api.machine).value) && outcome == PassOutcome(old(api.machine).value))
    {
      var ok := api.Lookup();  // the node token
      if !ok {
        return Error;
      }
      var ann := before.(status := None);
      ann := ann.(changeId := None);
      ann := ann.(release := None);
      ok := api.Patch(before, ann, ClearForRequest);
      if !ok {
        return Error;
      }

      var request := SnapOption.BuildRefreshRequest(before.upgradeTo.value);
      if request.None? {
        return Error;
      }
      var id := api.Refresh(before.upgradeTo.value);
      if id.None? {
        return Error;
      }

      ann := ann.(status := Some(InProgress));
      ann := ann.(changeId := id);
      ok := api.Patch(before, ann, RecordChange(id.value));
      outcome := if ok then Finished else Error;
    }

    method HandleUpgradeInProgress(before: Annotations, now: string) returns (outcome: Outcome)
      requires Holds(api, before) && before.changeId.Some? && before.status == Some(InProgress) && now != ""
      modifies api
      ensures api.Valid() && old(api.acts) <= api.acts
      ensures outcome != Error ==> api.failures == old(api.failures)
      ensures old(api.Quiet()) ==>
        && api.Quiet() && api.machine.Some? == old(api.machine).Some?
        && (api.machine.Some? ==>
              && api.machine.value == Settled(old(api.machine).value, before.changeId.value, now)
              && outcome == PassOutcome(old(api.machine).value))
    {
      var ok := api.Lookup();  // the node token
      if !ok {
        return Error;
      }
      var status := api.RefreshStatus(before.changeId.value);
      if !status.Found? {
        return Error;
      }
      match status.value {
        case Pending =>
          return Requeue;
        case Succeeded =>
          ok := api.Patch(before, before.(status := Some(Done)), RecordDone);
        case _ =>
          ok := MarkUpgradeFailed(before, now);
      }
      outcome := if ok then Finished else Error;
    }

    method HandleUpgradeDone(before: Annotations) returns (outcome: Outcome)
      requires Holds(api, before) && before.changeId.Some? && before.status == Some(Done)
      modifies api
      ensures api.Valid() && old(api.acts) <= api.acts
      ensures outcome != Error ==> api.failures == old(api.failures)
      ensures old(api.Quiet()) ==>
        && api.Quiet() && api.machine.Some? == old(api.machine).Some?
        && (api.machine.Some? ==> api.machine.value == Pass(old(api.machine).value, "") && outcome == Finished)
    {
      var ann := before.(upgradeTo := None);
      ann := ann.(changeId := None);
      ann := ann.(lastFailed := None);
      ann := ann.(release := before.upgradeTo);
      var ok := api.Patch(before, ann, Finish);
      outcome := if ok then Finished else Error;
    }

    /** Dropping the status and the change id is what triggers the retry. */
    method HandleUpgradeFailed(before: Annotations) returns (outcome: Outcome)
      requires Holds(api, before) && before.changeId.Some? && before.status == Some(UpgradeFailed)
      modifies api
      ensures api.Valid() && old(api.acts) <= api.acts
      ensures outcome != Error ==> api.failures == old(api.failures)
      ensures old(api.Quiet()) ==>
        && api.Quiet() && api.machine.Some? == old(api.machine).Some?
        && (api.machine.Some? ==> api.machine.value == Pass(old(api.machine).value, "") && outcome == Finished)
    {
      var ann := before.(status := None);
      ann := ann.(changeId := None);
      var ok := api.Patch(before, ann, ResetFailed);
      outcome := if ok then Finished else Error;
    }
  }
}
