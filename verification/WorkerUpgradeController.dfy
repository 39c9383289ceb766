/** The MachineDeployment orchestrator, call by call, against an API server that the per-machine
    controllers, users and the rest of the world use at the same time. */
module WorkerUpgradeController {
  import opened Prelude
  import opened InPlace
  import opened MachineUpgrade
  import opened WorkerUpgrade
  import opened WorkerTimeline

  class MdApi {
    var st: Fleet
    var script: seq<Event<Step>>
    var down: bool
    ghost const start: World
    ghost var stage: Stage
    ghost var steps: seq<Step>   // every read and write so far, by anyone
    ghost var failures: nat      // calls so far that did not land

    constructor (s: Fleet, script: seq<Event<Step>>)
      ensures Valid() && World(st, stage) == start && st == s && stage == Idle && steps == []
      ensures this.script == script && !down
    {
      st, this.script, down := s, script, false;
      start, stage, steps, failures := World(s, Idle), Idle, [], 0;
    }

    /** The history of the machines and the pass is a run, so all that holds of runs holds here. */
    ghost predicate Valid()
      reads this
    {
      Trace(start, steps) == Some(World(st, stage))
    }

    predicate Quiet()
      reads this
    {
      script == [] && !down
    }

    method Take(next: Fleet, ghost step: Step)
      requires Valid() && CanStep(step, World(st, stage)) && next == Stepped(step, World(st, stage)).fleet
      modifies this`st, this`stage, this`steps
      ensures Valid() && steps == old(steps) + [step] && World(st, stage) == Stepped(step, old(World(st, stage)))
    {
      TraceSnoc(start, steps, step);
      stage := Stepped(step, World(st, stage)).stage;
      st, steps := next, steps + [step];
    }

    /** A step that writes nothing. */
    ghost method Pause(step: Option<Step>)
      requires Valid()
      requires step.Some? ==>
        CanStep(step.value, World(st, stage)) && Stepped(step.value, World(st, stage)).fleet == st
      modifies this`stage, this`steps
      ensures Valid() && old(steps) <= steps
      ensures stage == if step.Some? then Stepped(step.value, old(World(st, stage))).stage else old(stage)
    {
      if step.Some? {
        TraceSnoc(start, steps, step.value);
        stage, steps := Stepped(step.value, World(st, stage)).stage, steps + [step.value];
      }
    }

    /** Everybody else, machines that join and users who retarget the owner included, at any time. */
    method Interfere()
      requires Valid()
      modifies this`st, this`stage, this`script, this`steps
      ensures Valid() && old(steps) <= steps && stage == old(stage)
      ensures old(script) == [] ==> st == old(st) && script == []
    {
      while script != [] && script[0].Other?
        invariant Valid() && old(steps) <= steps && stage == old(stage)
        invariant old(script) == [] ==> st == old(st) && script == []
        decreases |script|
      {
        match script[0].action {
          case Others(mv) =>
            if Foreign(mv) && CanMove("", mv, st) {
              Take(Moved("", mv, st), Others(mv));
            }
          case Joins(u, running) =>
            if u !in st.born {
              Take(Joined(st, u, running), Joins(u, running));
            }
          case Retarget(ann) => Take(st.(owner := ann), Retarget(ann));
          case _ =>
        }
        script := script[1..];
      }
    }

    method Answer() returns (fate: Fate)
      modifies this`script, this`down, this`failures
      ensures failures == old(failures) + if fate == Landed then 0 else 1
      ensures old(Quiet()) ==> fate == Landed && Quiet()
    {
      fate := if down then Halted else Landed;
      if !down && script != [] && script[0].Meet? {
        fate := script[0].fate;
        script := script[1..];
      }
      down := fate.Halted?;
      failures := failures + if fate == Landed then 0 else 1;
    }

    /** Read everything at one instant, the step if there is one; the callers project what they ask for. */
    method Read(ghost step: Option<Step>) returns (ok: bool, seen: Fleet)
      requires Valid()
      requires step.Some? ==>
        CanStep(step.value, World(st, stage)) && Stepped(step.value, World(st, stage)).fleet == st
      modifies this
      ensures Valid() && old(steps) <= steps && seen == old(st)
      ensures stage == if ok && step.Some? then Stepped(step.value, old(World(st, stage))).stage else old(stage)
      ensures old(Quiet()) ==> ok && Quiet() && st == old(st)
      ensures ok ==> failures == old(failures)
    {
      var fate := Answer();
      ok, seen := fate == Landed, st;
      if ok {
        Pause(step);
      }
      Interfere();
    }

    method PatchMachine(u: Uid, before: Annotations, after: Annotations) returns (ok: bool)
      requires Valid() && stage.Listed? && First(GetUpgradeInstructions(stage.oa), stage.owned, u)
      requires Markable(stage.owned[u]) && before == stage.owned[u].ann
      requires after == MarkedToUpgrade(GetUpgradeInstructions(stage.oa))
      modifies this
      ensures Valid() && old(steps) <= steps
      ensures ok ==> stage == Marked(old(stage).oa)
      ensures old(Quiet()) ==>
        && Quiet() && ok == (u in old(st).machines)
        && st == if ok then Stepped(MarkListed(u), old(World(st, stage))).fleet else old(st)
      ensures ok ==> failures == old(failures)
    {
      var fate := Answer();
      ok := fate == Landed && u in st.machines;
      if u in st.machines && (fate == Landed || fate == ReplyLost) {
        var m := st.machines[u].(ann := MergePatch(st.machines[u].ann, before, after));
        Take(st.(machines := st.machines[u := m]), MarkListed(u));
      }
      Interfere();
    }

    method PatchOwner(before: Annotations, after: Annotations, ghost step: Step) returns (ok: bool)
      requires Valid() && CanStep(step, World(st, stage))
      requires Stepped(step, World(st, stage)) == World(Patched(st, before, after), Idle)
      modifies this
      ensures Valid() && old(steps) <= steps
      ensures old(Quiet()) ==> Quiet() && ok && st == Patched(old(st), before, after)
      ensures ok ==> failures == old(failures)
    {
      var fate := Answer();
      ok := fate == Landed;
      if fate == Landed || fate == ReplyLost {
        Take(Patched(st, before, after), step);
      }
      Interfere();
    }
  }

  // ----- The UID sort -----

  predicate Ascending(s: seq<Uid>) {
    forall i, j :: 0 <= i < j < |s| ==> s[i] < s[j]
  }

  predicate NoDuplicates(s: seq<Uid>) {
    forall i, j :: 0 <= i < j < |s| ==> s[i] != s[j]
  }

  /** The listed machines' UIDs in ascending order: filled in the order the collection happens
      to come in, then sorted. */
  method GetOwnedMachines(listed: map<Uid, Machine>) returns (owned: seq<Uid>)
    ensures Ascending(owned)
    ensures forall u :: u in owned <==> u in listed
  {
    owned := [];
    var rest := listed.Keys;
    while rest != {}
      invariant rest <= listed.Keys
      invariant forall u :: u in owned <==> u in listed.Keys - rest
      invariant NoDuplicates(owned)
      decreases rest
    {
      var u :| u in rest;
      assert u !in owned;
      owned, rest := owned + [u], rest - {u};
    }
    owned := SortByUid(owned);
  }

  method SortByUid(s: seq<Uid>) returns (r: seq<Uid>)
    requires NoDuplicates(s)
    ensures Ascending(r) && forall u :: u in r <==> u in s
  {
    r := [];
    for i := 0 to |s|
      invariant Ascending(r) && forall u :: u in r <==> u in s[..i]
    {
      r := InsertSorted(r, s[i]);
    }
    assert s[..|s|] == s;
  }

  method InsertSorted(s: seq<Uid>, u: Uid) returns (r: seq<Uid>)
    requires Ascending(s) && u !in s
    ensures Ascending(r) && |r| == |s| + 1
    ensures forall v :: v in r <==> v in s || v == u
  {
    var i := 0;
    while i < |s| && s[i] < u
      invariant 0 <= i <= |s|
      invariant forall j :: 0 <= j < i ==> s[j] < u
    {
      i := i + 1;
    }
    r := s[..i] + [u] + s[i..];
    assert forall v :: v in s <==> v in s[..i] || v in s[i..];
  }

  class OrchestratedInPlaceUpgradeController {
    const api: MdApi

    constructor (api: MdApi)
      ensures this.api == api
    {
      this.api := api;
    }

    /** One pass. Every read and write it makes, up to wherever it is cut short, is one of the steps of
        WorkerTimeline, whoever joins and whoever retargets the owner meanwhile, and it ends in an error
        if any of its calls failed; undisturbed, it computes WorkerPass. */
    method Reconcile() returns (outcome: Outcome, stop: Option<Uid>)
      requires api.Valid() && api.stage.Idle?
      modifies api
      ensures api.Valid() && api.stage.Idle? && old(api.steps) <= api.steps && Trace(api.start, api.steps) == Some(World(api.st, Idle))
      ensures outcome != Error ==> api.failures == old(api.failures)
      ensures old(api.Quiet()) ==>
        && api.Quiet()
        && var s, to := old(api.st), GetUpgradeInstructions(old(api.st).owner);
        && (to != "" && !s.ownerDeleting ==> StopFits(s, to, stop))
        && (stop.Some? ==> stop.value in s.machines)
        && api.st == WorkerPass(s, stop)
        && outcome == if to == "" || s.ownerDeleting || stop.None? then Finished else Requeue
      ensures old(api.script == [] && !api.down) && api.st.machines != old(api.st).machines ==>
        var s := old(api.st);
        var to := if s.owner.upgradeTo.Some? then s.owner.upgradeTo.value else if s.owner.release.Some? then s.owner.release.value else "";
        && to != "" && !s.ownerDeleting && stop.Some? && stop.value in s.machines
        && !s.machines[stop.value].deleting && s.machines[stop.value].ann.release != Some(to)
        && s.machines[stop.value].ann.lastFailed in {None, Some("")} && s.machines[stop.value].ann.upgradeTo in {None, Some("")}
        && (forall v :: v in s.machines && v < stop.value ==> s.machines[v].ann.release == Some(to))
        && api.st.machines == s.machines[stop.value := s.machines[stop.value].(ann := Annotations(Some(to), None, None, None, None))]
    {
      ghost var s := api.st;
      outcome, stop := Pass();
      if old(api.Quiet()) && GetUpgradeInstructions(s.owner) != "" && !s.ownerDeleting {
        PassInPlainTerms(s, GetUpgradeInstructions(s.owner), stop);
      }
      api.Pause(Some(Stop));
    }

    method Pass() returns (outcome: Outcome, stop: Option<Uid>)
      requires api.Valid() && api.stage.Idle?
      modifies api
      ensures api.Valid() && old(api.steps) <= api.steps
      ensures old(api.Quiet()) ==>
        && api.Quiet()
        && var s, to := old(api.st), GetUpgradeInstructions(old(api.st).owner);
        && (to != "" && !s.ownerDeleting ==> StopFits(s, to, stop))
        && (stop.Some? ==> stop.value in s.machines)
        && api.st == WorkerPass(s, stop)
        && outcome == if to == "" || s.ownerDeleting || stop.None? then Finished else Requeue
      ensures outcome != Error ==> api.failures == old(api.failures)
    {
      stop := None;
      var ok, seen := api.Read(Some(ReadOwner));     // the MachineDeployment
      if !ok {
        return Error, None;
      }
      var owner := seen.owner;
      if GetUpgradeInstructions(owner) == "" {
        return Finished, None;
      }
      if seen.ownerDeleting {
        return Finished, None;
      }
      ok, seen := api.Read(None);                    // its cluster
      if !ok {
        return Error, None;
      }
      ok, seen := api.Read(Some(ListMachines));      // its machines
      if !ok {
        return Error, None;
      }
      var owned := GetOwnedMachines(seen.machines);
      var upgradeTo := GetUpgradeInstructions(owner);

      var upgradedMachines;
      stop, upgradedMachines := FirstToUpgrade(owned, seen.machines, upgradeTo);
      if stop.Some? {
        outcome := Handle(upgradeTo, owner, seen.machines, stop.value);
        return;
      }
      if upgradedMachines == |owned| {
        outcome := Conclude(upgradeTo, owner, seen.machines);
        return;
      }
      return Requeue, None;
    }

    /** The first machine in UID order that is not upgraded, and how many come before it. */
    method FirstToUpgrade(owned: seq<Uid>, machines: map<Uid, Machine>, upgradeTo: string)
      returns (stop: Option<Uid>, upgradedMachines: nat)
      requires Ascending(owned) && forall u :: u in owned <==> u in machines
      ensures stop.Some? ==> First(upgradeTo, machines, stop.value)
      ensures stop.None? ==> upgradedMachines == |owned| && AllUp(upgradeTo, machines)
    {
      upgradedMachines := 0;
      for i := 0 to |owned|
        invariant upgradedMachines == i
        invariant forall j :: 0 <= j < i ==> IsUpgraded(machines[owned[j]].ann, upgradeTo)
      {
        if !IsUpgraded(machines[owned[i]].ann, upgradeTo) {
          return Some(owned[i]), upgradedMachines;
        }
        upgradedMachines := upgradedMachines + 1;
      }
      stop := None;
    }

    /** What the pass does with the machine it stops at. */
    method Handle(upgradeTo: string, owner: Annotations, owned: map<Uid, Machine>, u: Uid) returns (outcome: Outcome)
      requires api.Valid() && upgradeTo == GetUpgradeInstructions(owner) && upgradeTo != ""
      requires api.stage == Listed(owner, owned) && First(upgradeTo, owned, u)
      modifies api
      ensures api.Valid() && old(api.steps) <= api.steps
      ensures old(api.Quiet()) && Undisturbed(old(api.st), owner, owned) ==>
        api.Quiet() && api.st == WorkerPass(old(api.st), Some(u)) && outcome == Requeue
      ensures outcome != Error ==> api.failures == old(api.failures)
    {
      var m := owned[u];
      if m.deleting {
        return Requeue;
      }
      if IsMachineUpgradeFailed(m.ann) {
        var ann := owner.(release := None);
        ann := ann.(status := Some(UpgradeFailed));
        var ok := api.PatchOwner(owner, ann, ReportFailure(u));
        return if ok then Requeue else Error;
      }
      if IsMachineUpgrading(m.ann) {
        return Requeue;
      }
      outcome := Start(upgradeTo, owner, owned, u);
    }

    /** Mark the machine, then the owner. */
    method Start(upgradeTo: string, owner: Annotations, owned: map<Uid, Machine>, u: Uid) returns (outcome: Outcome)
      requires api.Valid() && upgradeTo == GetUpgradeInstructions(owner)
      requires api.stage == Listed(owner, owned) && First(upgradeTo, owned, u) && Markable(owned[u])
      modifies api
      ensures api.Valid() && old(api.steps) <= api.steps
      ensures old(api.Quiet()) && Undisturbed(old(api.st), owner, owned) ==>
        && api.Quiet() && outcome == Requeue
        && api.st == old(api.st).(
             machines := owned[u := owned[u].(ann := MarkedToUpgrade(upgradeTo))],
             owner := MarkedInProgress(owner, upgradeTo))
      ensures outcome != Error ==> api.failures == old(api.failures)
    {
      var before := owned[u].ann;
      var ann := before.(release := None);
      ann := ann.(status := None);
      ann := ann.(changeId := None);
      ann := ann.(lastFailed := None);
      ann := ann.(upgradeTo := Some(upgradeTo));
      var ok := api.PatchMachine(u, before, ann);
      if !ok {
        return Error;
      }
      ann := owner.(release := None);
      ann := ann.(status := Some(InProgress));
      ann := ann.(upgradeTo := Some(upgradeTo));
      ok := api.PatchOwner(owner, ann, MarkOwner);
      outcome := if ok then Requeue else Error;
    }

    method Conclude(upgradeTo: string, owner: Annotations, owned: map<Uid, Machine>) returns (outcome: Outcome)
      requires api.Valid() && upgradeTo == GetUpgradeInstructions(owner)
      requires api.stage == Listed(owner, owned) && AllUp(upgradeTo, owned)
      modifies api
      ensures api.Valid() && old(api.steps) <= api.steps
      ensures old(api.Quiet()) && owner == old(api.st).owner ==>
        api.Quiet() && outcome == Finished && api.st == old(api.st).(owner := MarkedDone(owner, upgradeTo))
      ensures outcome != Error ==> api.failures == old(api.failures)
    {
      var ann := owner.(upgradeTo := None);
      ann := ann.(status := Some(Done));
      ann := ann.(release := Some(upgradeTo));
      var ok := api.PatchOwner(owner, ann, WorkerTimeline.Conclude);
      outcome := if ok then Finished else Error;
    }
  }

  /** What was read of the owner and the machines is still so. */
  ghost predicate Undisturbed(s: Fleet, owner: Annotations, owned: map<Uid, Machine>) {
    s.owner == owner && s.machines == owned && !s.ownerDeleting
  }
}
