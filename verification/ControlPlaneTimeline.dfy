/** The control-plane upgrade with the orchestrator's pass in the state: where the pass stands, what
    it has read so far, and every single read and write it makes, between the writes of everybody
    else. The pass reads the owner once and goes by that until it ends; the owner may be given
    another target at any time. */
module ControlPlaneTimeline {
  import opened Prelude
  import opened InPlace
  import opened MachineUpgrade
  import opened ControlPlaneUpgrade
  import opened ControlPlanePass

  /** Where the pass stands; oa is the owner's annotations as it read them. */
  datatype Stage =
    | Idle
    | Started(oa: Annotations)
    | Listed(oa: Annotations, owned: map<Name, Machine>)
    | LockSeen(oa: Annotations, owned: map<Name, Machine>, holder: Name)
    | Clearing(oa: Annotations, owned: map<Name, Machine>, holder: Name)
    | Scanning(oa: Annotations, owned: map<Name, Machine>)
    | Locked(oa: Annotations, name: Name, ann: Annotations)
    | Marked(oa: Annotations)
    | Watching(oa: Annotations, holder: Name, m: Machine)

  datatype World = World(cluster: Cluster, stage: Stage)

  datatype Step =
    | ReadOwner
    | ListMachines
    | SeeLock
    | SeeHolder
    | ClearLock
    | Release
    | ReportFailure
    | TakeLock(name: Name)
    | Conclude
    | MarkListed
    | MarkOwner
    | Stop                        // the pass ends, by an error, a crash, or having nothing to do
    | Others(mv: Move)
    | Retarget(ann: Annotations)

  /** The moves of everybody but the orchestrator. */
  predicate Foreign(mv: Move) {
    mv.OnMachine? || mv.Join? || mv.Gone? || mv.OwnerStatus?
  }

  /** The pass may take the lock for this machine of its list. */
  predicate Startable(to: string, m: Machine) {
    !IsUpgraded(m.ann, to) && !m.deleting
  }

  predicate CanStep(step: Step, w: World) {
    var s, stage := w.cluster, w.stage;
    match step
    case ReadOwner => stage.Idle?
    case ListMachines => stage.Started?
    case SeeLock => stage.Listed?
    case SeeHolder => stage.LockSeen?
    case ClearLock => stage.Clearing?
    case Release => stage.Watching? && Releasable(GetUpgradeInstructions(stage.oa), stage.m.ann)
    case ReportFailure =>
      && stage.Watching? && !Releasable(GetUpgradeInstructions(stage.oa), stage.m.ann)
      && IsMachineUpgradeFailed(stage.m.ann)
    case TakeLock(name) =>
      && stage.Scanning? && s.lock.None?
      && name in stage.owned && Startable(GetUpgradeInstructions(stage.oa), stage.owned[name])
    case Conclude =>
      stage.Scanning? && forall n :: n in stage.owned ==> IsUpgraded(stage.owned[n].ann, GetUpgradeInstructions(stage.oa))
    case MarkListed => stage.Locked? && stage.name in s.machines
    case MarkOwner => stage.Marked?
    case Stop => true
    case Others(mv) => Foreign(mv) && CanMove("", mv, s)
    case Retarget(_) => true
  }

  function Patched(s: Cluster, before: Annotations, after: Annotations): Cluster {
    s.(owner := s.owner.(ann := MergePatch(s.owner.ann, before, after)))
  }

  function Stepped(step: Step, w: World): World
    requires CanStep(step, w)
  {
    var s, stage := w.cluster, w.stage;
    match step
    case ReadOwner => w.(stage := if Acts(s.owner) then Started(s.owner.ann) else Idle)
    case ListMachines => w.(stage := Listed(stage.oa, s.machines))
    case SeeLock =>
      w.(stage := if s.lock.None? then Scanning(stage.oa, stage.owned)
                  else if s.lock.value.holder.None? then Idle
                  else LockSeen(stage.oa, stage.owned, s.lock.value.holder.value))
    case SeeHolder =>
      w.(stage := if stage.holder in s.machines then Watching(stage.oa, stage.holder, s.machines[stage.holder])
                  else Clearing(stage.oa, stage.owned, stage.holder))
    case ClearLock => World(s.(lock := None), Scanning(stage.oa, stage.owned))
    case Release => World(s.(lock := None), Idle)
    case ReportFailure => World(Patched(s, stage.oa, MarkedFailed(stage.oa)), Idle)
    case TakeLock(name) => World(s.(lock := Some(LockMap(Some(name)))), Locked(stage.oa, name, stage.owned[name].ann))
    case Conclude => World(Patched(s, stage.oa, MarkedDone(stage.oa, GetUpgradeInstructions(stage.oa))), Idle)
    case MarkListed =>
      var m := s.machines[stage.name];
      var ann := MergePatch(m.ann, stage.ann, MarkedToUpgrade(GetUpgradeInstructions(stage.oa)));
      World(s.(machines := s.machines[stage.name := m.(ann := ann)]), Marked(stage.oa))
    case MarkOwner => World(Patched(s, stage.oa, MarkedInProgress(stage.oa, GetUpgradeInstructions(stage.oa))), Idle)
    case Stop => w.(stage := Idle)
    case Others(mv) => w.(cluster := Moved("", mv, s))
    case Retarget(ann) => w.(cluster := s.(owner := s.owner.(ann := ann)))
  }

  function Trace(start: World, steps: seq<Step>): Option<World> {
    if steps == [] then Some(start)
    else
      var last := |steps| - 1;
      match Trace(start, steps[..last])
      case None => None
      case Some(w) => if CanStep(steps[last], w) then Some(Stepped(steps[last], w)) else None
  }

  lemma {:induction false} TraceSnoc(start: World, steps: seq<Step>, step: Step)
    requires Trace(start, steps).Some? && CanStep(step, Trace(start, steps).value)
    ensures Trace(start, steps + [step]) == Some(Stepped(step, Trace(start, steps).value))
  {
  }

  /** One more step at the end of a run. */
  lemma Then(start: World, steps: seq<Step>, w: World, step: Step) returns (steps': seq<Step>, w': World)
    requires Trace(start, steps) == Some(w) && CanStep(step, w)
    ensures Trace(start, steps') == Some(w') && w' == Stepped(step, w) && steps' == steps + [step]
  {
    TraceSnoc(start, steps, step);
    steps', w' := steps + [step], Stepped(step, w);
  }

  predicate Carries(s: Cluster, n: Name) {
    n in s.machines && s.machines[n].ann.upgradeTo.Some?
  }

  /** Never are two machines on their way at once. */
  ghost predicate Exclusive(s: Cluster) {
    forall a, b :: Carries(s, a) && Carries(s, b) ==> a == b
  }

  // ----- What the pass under way may still do -----

  predicate Readable(lock: Option<LockMap>) {
    lock.Some? ==> lock.value.holder.Some?
  }

  predicate Candidate(oa: Annotations, owned: map<Name, Machine>, machines: map<Name, Machine>, n: Name) {
    n in owned && n in machines && Startable(GetUpgradeInstructions(oa), owned[n])
  }

  /** The pass under way may still mark a machine, with the target it read. */
  ghost predicate MayStillMark(w: World) {
    var s := w.cluster;
    match w.stage
    case Started(_) => Readable(s.lock)
    case Listed(oa, owned) => Readable(s.lock) && exists n :: Candidate(oa, owned, s.machines, n) && !HeldBy(s.lock, n)
    case LockSeen(oa, owned, holder) => exists n :: Candidate(oa, owned, s.machines, n) && n != holder
    case Clearing(oa, owned, _) => exists n :: Candidate(oa, owned, s.machines, n)
    case Scanning(oa, owned) => exists n :: Candidate(oa, owned, s.machines, n)
    case Locked(_, name, _) => name in s.machines
    case _ => false
  }

  /** No machine is on its way to another target. */
  predicate NobodyElsewhere(to: string, s: Cluster) {
    forall n :: n in s.machines && s.machines[n].ann.upgradeTo.Some? ==> s.machines[n].ann.upgradeTo.value == to
  }

  /** The owner may be given these annotations now: they ask for nothing, or the owner is going away, or
      nobody is on its way to another target and no pass that read another target may still mark a machine. */
  ghost predicate SafeMoment(w: World, ann: Annotations) {
    var to := GetUpgradeInstructions(ann);
    || w.cluster.owner.deleting
    || to == ""
    || (NobodyElsewhere(to, w.cluster) && (MayStillMark(w) ==> GetUpgradeInstructions(w.stage.oa) == to))
  }

  // ----- Invariants -----

  /** What was listed of the machines that are still there, unless it was upgrading then. */
  ghost predicate Known(owned: map<Name, Machine>, s: Cluster) {
    && owned.Keys <= s.born
    && forall n :: n in owned && n in s.machines ==>
         if owned[n].ann.upgradeTo.None? then s.machines[n].ann == owned[n].ann else HeldBy(s.lock, n)
  }

  ghost predicate StageFits(to: string, s: Cluster, stage: Stage) {
    && (!stage.Idle? ==> GetUpgradeInstructions(stage.oa) == to)
    && match stage
       case Listed(_, owned) => Known(owned, s)
       case LockSeen(_, owned, holder) => Known(owned, s) && HeldBy(s.lock, holder)
       case Clearing(_, owned, holder) => Known(owned, s) && HeldBy(s.lock, holder) && holder !in s.machines
       case Scanning(_, owned) => Known(owned, s) && s.lock.None?
       case Locked(_, name, ann) =>
         && HeldBy(s.lock, name)
         && (name in s.machines ==> ann.upgradeTo.None? && s.machines[name].ann == ann)
       case Watching(_, holder, m) =>
         && HeldBy(s.lock, holder) && Consistent(m)
         && (m.ann.upgradeTo.Some? ==> m.ann.upgradeTo.value == to)
         && (m.ann.upgradeTo.None? && holder in s.machines ==> s.machines[holder].ann == m.ann)
       case _ => true
  }

  /** Machines, lock and pass are all about one target. */
  ghost predicate Aligned(to: string, w: World) {
    && AllInLine(to, w.cluster) && StageFits(to, w.cluster, w.stage)
    && (w.cluster.owner.deleting || GetUpgradeInstructions(w.cluster.owner.ann) in {to, ""})
  }

  ghost predicate OwnedWasBorn(w: World) {
    match w.stage
    case Listed(_, owned) => owned.Keys <= w.cluster.born
    case LockSeen(_, owned, _) => owned.Keys <= w.cluster.born
    case Clearing(_, owned, _) => owned.Keys <= w.cluster.born
    case Scanning(_, owned) => owned.Keys <= w.cluster.born
    case Locked(_, name, _) => name in w.cluster.born
    case _ => true
  }

  ghost predicate Untouched(s: Cluster) {
    forall n :: n in s.machines ==> Consistent(s.machines[n]) && s.machines[n].ann.upgradeTo.None?
  }

  /** Nobody is on its way, and the pass under way, whatever target it read, marks nobody. */
  ghost predicate Quiescent(w: World) {
    var s := w.cluster;
    && s.machines.Keys <= s.born
    && (s.lock.Some? && s.lock.value.holder.Some? ==> s.lock.value.holder.value in s.born)
    && Untouched(s) && OwnedWasBorn(w) && !MayStillMark(w)
  }

  ghost predicate Orderly(w: World) {
    Quiescent(w) || exists to :: Aligned(to, w)
  }

  lemma OrderlyIsExclusive(w: World)
    requires Orderly(w)
    ensures Exclusive(w.cluster)
  {
    if !Quiescent(w) {
      var to :| Aligned(to, w);
      forall n | Carries(w.cluster, n)
        ensures HeldBy(w.cluster.lock, n)
      {
        assert InLine(to, w.cluster.lock, n, w.cluster.machines[n]);
      }
    }
  }

  // ----- Each step keeps them -----

  /** The owner's annotations after a pass that read oa has marked it: still about the target, unless
      the mark is that everything is done. */
  lemma MarksKeepTarget(to: string, oa: Annotations, now: Annotations)
    requires GetUpgradeInstructions(oa) == to && GetUpgradeInstructions(now) in {to, ""}
    ensures GetUpgradeInstructions(MergePatch(now, oa, MarkedInProgress(oa, to))) in {to, ""}
    ensures GetUpgradeInstructions(MergePatch(now, oa, MarkedFailed(oa))) in {to, ""}
  {
  }

  lemma OthersKeepInLine(to: string, mv: Move, w: World)
    requires AllInLine(to, w.cluster) && CanStep(Others(mv), w)
    ensures AllInLine(to, Moved("", mv, w.cluster))
  {
    var s, s' := w.cluster, Moved("", mv, w.cluster);
    forall n | n in s'.machines
      ensures InLine(to, s'.lock, n, s'.machines[n])
    {
      if n in s.machines {
        assert InLine(to, s.lock, n, s.machines[n]);
        if mv.OnMachine? && mv.name == n {
          EffectKeepsConsistent(mv.action, s.machines[n]);
        }
      }
    }
  }

  /** A machine that is not upgrading is left alone by everybody else. */
  lemma OthersLeaveAlone(mv: Move, s: Cluster, n: Name)
    requires Foreign(mv) && CanMove("", mv, s) && s.machines.Keys <= s.born
    requires n in s.born && n in Moved("", mv, s).machines
    requires n in s.machines ==> Consistent(s.machines[n])
    ensures n in s.machines
    ensures s.machines[n].ann.upgradeTo.None? ==> Moved("", mv, s).machines[n].ann == s.machines[n].ann
  {
  }

  lemma OthersKeepKnown(to: string, mv: Move, w: World, owned: map<Name, Machine>)
    requires AllInLine(to, w.cluster) && CanStep(Others(mv), w) && Known(owned, w.cluster)
    ensures Known(owned, Moved("", mv, w.cluster))
  {
    var s, s' := w.cluster, Moved("", mv, w.cluster);
    forall n | n in owned && n in s'.machines
      ensures if owned[n].ann.upgradeTo.None? then s'.machines[n].ann == owned[n].ann else HeldBy(s'.lock, n)
    {
      assert n in s.machines ==> InLine(to, s.lock, n, s.machines[n]);
      OthersLeaveAlone(mv, s, n);
    }
  }

  lemma OthersKeepAligned(to: string, mv: Move, w: World)
    requires Aligned(to, w) && CanStep(Others(mv), w)
    ensures Aligned(to, Stepped(Others(mv), w))
  {
    var s, s' := w.cluster, Moved("", mv, w.cluster);
    OthersKeepInLine(to, mv, w);
    match w.stage {
      case Listed(_, owned) => OthersKeepKnown(to, mv, w, owned);
      case LockSeen(_, owned, _) => OthersKeepKnown(to, mv, w, owned);
      case Clearing(_, owned, _) => OthersKeepKnown(to, mv, w, owned);
      case Scanning(_, owned) => OthersKeepKnown(to, mv, w, owned);
      case Locked(_, name, _) =>
        if name in s'.machines {
          assert name in s.machines ==> InLine(to, s.lock, name, s.machines[name]);
          OthersLeaveAlone(mv, s, name);
        }
      case Watching(_, holder, _) =>
        if holder in s'.machines {
          assert holder in s.machines ==> InLine(to, s.lock, holder, s.machines[holder]);
          OthersLeaveAlone(mv, s, holder);
        }
      case _ =>
    }
  }

  /** A pass that has seen the lock free, or left by a machine that is gone, finds nobody on its way. */
  lemma NobodyCarries(to: string, w: World, n: Name)
    requires Aligned(to, w) && n in w.cluster.machines
    requires w.stage.Clearing? || w.stage.Scanning? || (w.stage.Locked? && n != w.stage.name)
    ensures w.cluster.machines[n].ann.upgradeTo.None?
  {
    assert InLine(to, w.cluster.lock, n, w.cluster.machines[n]);
  }

  lemma ReadsKeepAligned(to: string, step: Step, w: World)
    requires Aligned(to, w) && CanStep(step, w)
    requires step.ReadOwner? || step.ListMachines? || step.SeeLock? || step.SeeHolder? || step.Stop?
    ensures Aligned(to, Stepped(step, w))
  {
    var s := w.cluster;
    forall n | n in s.machines
      ensures InLine(to, s.lock, n, s.machines[n])
    {
    }
  }

  lemma LockStepsKeepAligned(to: string, step: Step, w: World)
    requires Aligned(to, w) && CanStep(step, w)
    requires step.ClearLock? || step.Release? || step.TakeLock?
    ensures Aligned(to, Stepped(step, w))
  {
    var s, s' := w.cluster, Stepped(step, w).cluster;
    forall n | n in s'.machines
      ensures InLine(to, s'.lock, n, s'.machines[n])
    {
      assert InLine(to, s.lock, n, s.machines[n]);
    }
  }

  /** The listed machine has not changed, so the mark is the whole mark. */
  lemma MarkIsComplete(to: string, w: World)
    requires Aligned(to, w) && CanStep(MarkListed, w)
    ensures var name := w.stage.name;
      && Enabled(Mark(to), w.cluster.machines[name])
      && Stepped(MarkListed, w).cluster == w.cluster.(machines := w.cluster.machines[name := Effect(Mark(to), w.cluster.machines[name])])
  {
  }

  lemma MarkKeepsAligned(to: string, w: World)
    requires Aligned(to, w) && CanStep(MarkListed, w)
    ensures Aligned(to, Stepped(MarkListed, w))
  {
    var s, s' := w.cluster, Stepped(MarkListed, w).cluster;
    MarkIsComplete(to, w);
    forall n | n in s'.machines
      ensures InLine(to, s'.lock, n, s'.machines[n])
    {
      assert InLine(to, s.lock, n, s.machines[n]);
      if n == w.stage.name {
        EffectKeepsConsistent(Mark(to), s.machines[n]);
      }
    }
  }

  /** After the mark that everything is done nobody is on its way, whatever the owner asks for then. */
  lemma ConcludeIsQuiescent(to: string, w: World)
    requires Aligned(to, w) && CanStep(Conclude, w)
    ensures Quiescent(Stepped(Conclude, w))
  {
    forall n | n in w.cluster.machines
      ensures Consistent(w.cluster.machines[n]) && w.cluster.machines[n].ann.upgradeTo.None?
    {
      NobodyCarries(to, w, n);
    }
  }

  /** The owner is retargeted, if at all, to the same target or to nothing. */
  predicate SameTarget(to: string, step: Step, w: World) {
    step.Retarget? ==> w.cluster.owner.deleting || GetUpgradeInstructions(step.ann) in {to, ""}
  }

  lemma StepKeepsAligned(to: string, step: Step, w: World)
    requires Aligned(to, w) && CanStep(step, w) && SameTarget(to, step, w)
    ensures if step.Conclude? then Quiescent(Stepped(step, w)) else Aligned(to, Stepped(step, w))
  {
    match step {
      case Others(mv) => OthersKeepAligned(to, mv, w);
      case ClearLock => LockStepsKeepAligned(to, step, w);
      case Release => LockStepsKeepAligned(to, step, w);
      case TakeLock(_) => LockStepsKeepAligned(to, step, w);
      case MarkListed => MarkKeepsAligned(to, w);
      case Conclude => ConcludeIsQuiescent(to, w);
      case ReportFailure => OwnerMarkKeepsAligned(to, step, w);
      case MarkOwner => OwnerMarkKeepsAligned(to, step, w);
      case Retarget(_) =>
      case _ => ReadsKeepAligned(to, step, w);
    }
  }

  lemma OwnerMarkKeepsAligned(to: string, step: Step, w: World)
    requires Aligned(to, w) && CanStep(step, w) && (step.ReportFailure? || step.MarkOwner?)
    ensures Aligned(to, Stepped(step, w))
  {
    if !w.cluster.owner.deleting {
      MarksKeepTarget(to, w.stage.oa, w.cluster.owner.ann);
    }
  }

  predicate Lists(stage: Stage) {
    stage.Listed? || stage.LockSeen? || stage.Clearing? || stage.Scanning?
  }

  /** What may be marked after a step might have been marked before. */
  lemma MarkWasPossible(step: Step, w: World)
    requires OwnedWasBorn(w) && CanStep(step, w) && !step.ReadOwner?
    ensures MayStillMark(Stepped(step, w)) ==> MayStillMark(w)
  {
    var w' := Stepped(step, w);
    if MayStillMark(w') && Lists(w'.stage) && Lists(w.stage) {
      var n :| Candidate(w'.stage.oa, w'.stage.owned, w'.cluster.machines, n)
        && (w'.stage.Listed? ==> !HeldBy(w'.cluster.lock, n)) && (w'.stage.LockSeen? ==> n != w'.stage.holder);
      assert n in w.cluster.born && n in w.cluster.machines;
      assert Candidate(w.stage.oa, w.stage.owned, w.cluster.machines, n);
    }
    if MayStillMark(w') && step.TakeLock? {
      assert Candidate(w.stage.oa, w.stage.owned, w.cluster.machines, step.name);
    }
  }

  lemma OthersKeepUntouched(mv: Move, s: Cluster)
    requires Foreign(mv) && CanMove("", mv, s) && s.machines.Keys <= s.born && Untouched(s)
    ensures Untouched(Moved("", mv, s))
  {
    var s' := Moved("", mv, s);
    forall n | n in s'.machines
      ensures Consistent(s'.machines[n]) && s'.machines[n].ann.upgradeTo.None?
    {
      if n in s.machines {
        OthersLeaveAlone(mv, s, n);
        if mv.OnMachine? && mv.name == n {
          EffectKeepsConsistent(mv.action, s.machines[n]);
        }
      }
    }
  }

  lemma StepKeepsQuiescent(step: Step, w: World)
    requires Quiescent(w) && CanStep(step, w) && !(step.ReadOwner? && Acts(w.cluster.owner))
    ensures Quiescent(Stepped(step, w))
  {
    if step.Others? {
      OthersKeepUntouched(step.mv, w.cluster);
    }
    if !step.ReadOwner? {
      MarkWasPossible(step, w);
    }
  }

  /** A new pass starts out aligned with whatever the owner asks for. */
  lemma QuiescentStartsAligned(w: World)
    requires Quiescent(w) && CanStep(ReadOwner, w) && Acts(w.cluster.owner)
    ensures Aligned(GetUpgradeInstructions(w.cluster.owner.ann), Stepped(ReadOwner, w))
  {
  }

  lemma RetargetKeepsOrderly(w: World, ann: Annotations)
    requires Orderly(w) && SafeMoment(w, ann)
    ensures Orderly(Stepped(Retarget(ann), w))
  {
    if !Quiescent(w) {
      var from :| Aligned(from, w);
      if SameTarget(from, Retarget(ann), w) {
        StepKeepsAligned(from, Retarget(ann), w);
      } else {
        forall n | n in w.cluster.machines
          ensures Consistent(w.cluster.machines[n]) && w.cluster.machines[n].ann.upgradeTo.None?
        {
          assert InLine(from, w.cluster.lock, n, w.cluster.machines[n]);
        }
        assert Quiescent(w);
        assert false;
      }
    } else {
      StepKeepsQuiescent(Retarget(ann), w);
    }
  }

  lemma StepKeepsOrderly(step: Step, w: World)
    requires Orderly(w) && CanStep(step, w) && (step.Retarget? ==> SafeMoment(w, step.ann))
    ensures Orderly(Stepped(step, w))
  {
    if step.Retarget? {
      RetargetKeepsOrderly(w, step.ann);
    } else if !Quiescent(w) {
      var to :| Aligned(to, w);
      StepKeepsAligned(to, step, w);
    } else if step.ReadOwner? && Acts(w.cluster.owner) {
      QuiescentStartsAligned(w);
    } else {
      StepKeepsQuiescent(step, w);
    }
  }

  // ----- Whole runs -----

  /** Every target change of the run comes at a safe moment. */
  ghost predicate Careful(start: World, steps: seq<Step>) {
    forall i :: 0 <= i < |steps| && steps[i].Retarget? && Trace(start, steps[..i]).Some? ==>
      SafeMoment(Trace(start, steps[..i]).value, steps[i].ann)
  }

  lemma {:induction false} TraceKeepsOrderly(start: World, steps: seq<Step>)
    requires Orderly(start) && Careful(start, steps) && Trace(start, steps).Some?
    ensures Orderly(Trace(start, steps).value)
  {
    if steps != [] {
      var last := |steps| - 1;
      assert Careful(start, steps[..last]) by {
        forall i | 0 <= i < last
          ensures steps[..last][..i] == steps[..i]
        {
        }
      }
      TraceKeepsOrderly(start, steps[..last]);
      StepKeepsOrderly(steps[last], Trace(start, steps[..last]).value);
    }
  }

  /** Upgrade exclusion, with targets that change: whatever the passes, the machines and their
      controllers do, and wherever a pass is cut short, at most one machine is on its way at any
      time, as long as targets only change at safe moments. */
  lemma CarefulRunsAreExclusive(to: string, start: World, steps: seq<Step>)
    requires Init(to, start.cluster) && start.stage.Idle?
    requires Careful(start, steps) && Trace(start, steps).Some?
    ensures Orderly(Trace(start, steps).value) && Exclusive(Trace(start, steps).value.cluster)
  {
    assert Aligned(to, start);
    TraceKeepsOrderly(start, steps);
    OrderlyIsExclusive(Trace(start, steps).value);
  }

  /** What everybody else can do at any point of a pass: machines join, under new names, and go; the owner
      is given other annotations, and its status changes; and each machine's own upgrade goes on. */
  lemma WorldInPlainTerms(w: World, n: Name, running: string, ann: Annotations, a: Action, replicas: Option<int>, ready: int)
    ensures n !in w.cluster.born ==>
      && CanStep(Others(Join(n, running)), w)
      && Stepped(Others(Join(n, running)), w) == w.(cluster := w.cluster.(
           machines := w.cluster.machines[n := Machine(Annotations(None, None, None, None, None), false, Node(running, []))],
           born := w.cluster.born + {n}))
    ensures n in w.cluster.machines ==>
      CanStep(Others(Gone(n)), w) && Stepped(Others(Gone(n)), w) == w.(cluster := w.cluster.(machines := w.cluster.machines - {n}))
    ensures n in w.cluster.machines && !a.Mark? && Enabled(a, w.cluster.machines[n]) ==>
      && CanStep(Others(OnMachine(n, a)), w)
      && Stepped(Others(OnMachine(n, a)), w) == w.(cluster := w.cluster.(machines := w.cluster.machines[n := Effect(a, w.cluster.machines[n])]))
    ensures CanStep(Retarget(ann), w) && Stepped(Retarget(ann), w) == w.(cluster := w.cluster.(owner := w.cluster.owner.(ann := ann)))
    ensures CanStep(Others(OwnerStatus(true, replicas, ready)), w)
      && Stepped(Others(OwnerStatus(true, replicas, ready)), w) == w.(cluster := w.cluster.(owner := Owner(w.cluster.owner.ann, true, replicas, ready)))
    ensures CanStep(Stop, w) && Stepped(Stop, w) == w.(stage := Idle)
  {
  }
}
