/** Giving the owner another target: when that is safe, and what goes wrong when it is not. */
module ControlPlaneRetarget {
  import opened Prelude
  import opened InPlace
  import opened MachineUpgrade
  import opened ControlPlaneUpgrade
  import opened ControlPlanePass
  import opened ControlPlaneTimeline

  function Retargeted(w: World, ann: Annotations): World {
    Stepped(Retarget(ann), w)
  }

  /** Whatever happens from here on, as long as later target changes come at safe moments, at most
      one machine is on its way. */
  ghost predicate StaysExclusive(w: World) {
    forall steps :: Careful(w, steps) && Trace(w, steps).Some? ==> Exclusive(Trace(w, steps).value.cluster)
  }

  /** The owner may be given other annotations exactly at a safe moment: at any point of a run, between
      any two calls of a pass, exclusion holds on every run that follows if and only if they ask for
      nothing, or the owner is going away, or nobody is on its way to another target and no pass that
      read another target may still mark a machine. */
  lemma RetargetIsSafeExactlyWhen(w: World, ann: Annotations)
    requires Orderly(w)
    ensures StaysExclusive(Retargeted(w, ann)) <==> SafeMoment(w, ann)
  {
    var w' := Retargeted(w, ann);
    if SafeMoment(w, ann) {
      RetargetKeepsOrderly(w, ann);
      forall steps | Careful(w', steps) && Trace(w', steps).Some?
        ensures Exclusive(Trace(w', steps).value.cluster)
      {
        TraceKeepsOrderly(w', steps);
        OrderlyIsExclusive(Trace(w', steps).value);
      }
    } else {
      var steps := SomeRunBreaks(w, ann);
    }
  }

  // ----- The runs that break it -----

  predicate Plain(steps: seq<Step>) {
    forall i :: 0 <= i < |steps| ==> !steps[i].Retarget?
  }

  /** A run without further target changes has come to w, where the owner asks for to. */
  ghost predicate At(start: World, steps: seq<Step>, w: World, to: string) {
    && Trace(start, steps) == Some(w) && Plain(steps)
    && to != "" && GetUpgradeInstructions(w.cluster.owner.ann) == to && !w.cluster.owner.deleting
    && w.cluster.machines.Keys <= w.cluster.born
    && (w.cluster.lock.Some? && w.cluster.lock.value.holder.Some? ==> w.cluster.lock.value.holder.value in w.cluster.born)
  }

  ghost predicate Breaks(start: World, steps: seq<Step>) {
    Plain(steps) && Trace(start, steps).Some? && !Exclusive(Trace(start, steps).value.cluster)
  }

  lemma SomeRunBreaks(w: World, ann: Annotations) returns (steps: seq<Step>)
    requires Orderly(w) && !SafeMoment(w, ann)
    ensures Breaks(Retargeted(w, ann), steps)
  {
    var from :| Aligned(from, w);
    var to, w' := GetUpgradeInstructions(ann), Retargeted(w, ann);
    assert At(w', [], w', to);
    if n :| n in w.cluster.machines && w.cluster.machines[n].ann.upgradeTo.Some? && w.cluster.machines[n].ann.upgradeTo.value != to {
      assert InLine(from, w.cluster.lock, n, w.cluster.machines[n]);
      steps := CarrierBreaks(w', [], w', to, n);
    } else {
      assert StageFits(from, w'.cluster, w'.stage) && MayStillMark(w');
      match w.stage {
        case Started(_) => steps := StartedBreaks(w', w', to);
        case Locked(_, name, _) => steps := LockedBreaks(w', [], w', to);
        case _ => steps := ListBreaks(w', w', from, to);
      }
    }
  }

  /** A machine is on its way elsewhere: the pass that sees it gives its lock up, and the next one
      starts a machine that has just joined. */
  lemma CarrierBreaks(start: World, steps: seq<Step>, w: World, to: string, n: Name) returns (more: seq<Step>)
    requires At(start, steps, w, to)
    requires Carries(w.cluster, n) && w.cluster.machines[n].ann.upgradeTo.value != to && HeldBy(w.cluster.lock, n)
    ensures Breaks(start, more)
  {
    var w';
    more, w' := PassIsOver(start, steps, w, to);
    more, w' := LockGivenUp(start, more, w', to, n);
    more := JoinedIsStarted(start, more, w', to, n);
  }

  /** The pass ends, and the machines of the owner become ready. */
  lemma PassIsOver(start: World, steps: seq<Step>, w: World, to: string) returns (more: seq<Step>, w': World)
    requires At(start, steps, w, to)
    ensures At(start, more, w', to) && w'.stage.Idle? && Acts(w'.cluster.owner)
    ensures w'.cluster.machines == w.cluster.machines && w'.cluster.lock == w.cluster.lock
  {
    more, w' := Then(start, steps, w, Stop);
    more, w' := Then(start, more, w', Others(OwnerStatus(false, Some(0), 0)));
  }

  lemma JoinedIsStarted(start: World, steps: seq<Step>, w: World, to: string, n: Name) returns (more: seq<Step>)
    requires At(start, steps, w, to) && w.stage.Idle? && Acts(w.cluster.owner) && w.cluster.lock.None?
    requires Carries(w.cluster, n)
    ensures Breaks(start, more)
  {
    var w';
    var joined := SomeNewName(w.cluster.born);
    assert joined != n;
    more, w' := Then(start, steps, w, Others(Join(joined, "")));
    more := FreshPassStarts(start, more, w', to, joined, n);
  }

  lemma LockGivenUp(start: World, steps: seq<Step>, w: World, to: string, n: Name) returns (more: seq<Step>, w': World)
    requires At(start, steps, w, to) && w.stage.Idle? && Acts(w.cluster.owner)
    requires Carries(w.cluster, n) && w.cluster.machines[n].ann.upgradeTo.value != to && HeldBy(w.cluster.lock, n)
    ensures At(start, more, w', to) && w' == World(w.cluster.(lock := None), Idle)
  {
    more, w' := Then(start, steps, w, ReadOwner);
    more, w' := Then(start, more, w', ListMachines);
    more, w' := Then(start, more, w', SeeLock);
    more, w' := Then(start, more, w', SeeHolder);
    more, w' := Then(start, more, w', Release);
  }

  lemma FreshPassStarts(start: World, steps: seq<Step>, w: World, to: string, c: Name, n: Name) returns (more: seq<Step>)
    requires At(start, steps, w, to) && w.stage.Idle? && Acts(w.cluster.owner) && w.cluster.lock.None?
    requires c in w.cluster.machines && w.cluster.machines[c].ann == NO_ANNOTATIONS && !w.cluster.machines[c].deleting
    requires Carries(w.cluster, n) && n != c
    ensures Breaks(start, more)
  {
    var w' := w;
    more := steps;
    more, w' := Then(start, more, w', ReadOwner);
    more, w' := Then(start, more, w', ListMachines);
    more, w' := Then(start, more, w', SeeLock);
    more, w' := Then(start, more, w', TakeLock(c));
    more, w' := Then(start, more, w', MarkListed);
    assert Carries(w'.cluster, n) && Carries(w'.cluster, c);
  }

  /** The pass under way holds the lock for a machine that is there: it marks it. */
  lemma LockedBreaks(start: World, steps: seq<Step>, w: World, to: string) returns (more: seq<Step>)
    requires At(start, steps, w, to)
    requires w.stage.Locked? && w.stage.name in w.cluster.machines && HeldBy(w.cluster.lock, w.stage.name)
    requires w.stage.ann.upgradeTo.None? && GetUpgradeInstructions(w.stage.oa) != to
    ensures Breaks(start, more)
  {
    var w', name := w, w.stage.name;
    more, w' := Then(start, steps, w', MarkListed);
    more := CarrierBreaks(start, more, w', to, name);
  }

  /** c can be marked as it was listed. */
  predicate Ripe(w: World, c: Name) {
    Lists(w.stage) && Candidate(w.stage.oa, w.stage.owned, w.cluster.machines, c) && w.stage.owned[c].ann.upgradeTo.None?
  }

  lemma ScanningBreaks(start: World, steps: seq<Step>, w: World, to: string, c: Name) returns (more: seq<Step>)
    requires At(start, steps, w, to) && c in w.cluster.born
    requires w.stage.Scanning? && w.cluster.lock.None? && Ripe(w, c) && GetUpgradeInstructions(w.stage.oa) != to
    ensures Breaks(start, more)
  {
    var w' := w;
    more, w' := Then(start, steps, w', TakeLock(c));
    more := LockedBreaks(start, more, w', to);
  }

  lemma ClearingBreaks(start: World, steps: seq<Step>, w: World, to: string, c: Name) returns (more: seq<Step>)
    requires At(start, steps, w, to) && c in w.cluster.born
    requires w.stage.Clearing? && Ripe(w, c) && GetUpgradeInstructions(w.stage.oa) != to
    ensures Breaks(start, more)
  {
    var w';
    more, w' := Then(start, steps, w, ClearLock);
    more := ScanningBreaks(start, more, w', to, c);
  }

  /** The machine that holds the lock goes away. */
  lemma HolderLeaves(start: World, steps: seq<Step>, w: World, to: string, c: Name) returns (more: seq<Step>, w': World)
    requires At(start, steps, w, to) && w.stage.LockSeen? && c != w.stage.holder && Ripe(w, c)
    ensures At(start, more, w', to) && w'.stage == w.stage && Ripe(w', c)
    ensures w'.cluster.born == w.cluster.born && w'.stage.holder !in w'.cluster.machines
  {
    more, w' := steps, w;
    if w.stage.holder in w.cluster.machines {
      more, w' := Then(start, more, w', Others(Gone(w.stage.holder)));
    }
  }

  lemma SeenBreaks(start: World, steps: seq<Step>, w: World, to: string, c: Name) returns (more: seq<Step>)
    requires At(start, steps, w, to) && c in w.cluster.born
    requires w.stage.LockSeen? && c != w.stage.holder && Ripe(w, c) && GetUpgradeInstructions(w.stage.oa) != to
    ensures Breaks(start, more)
  {
    var w';
    more, w' := HolderLeaves(start, steps, w, to, c);
    more, w' := Then(start, more, w', SeeHolder);
    more := ClearingBreaks(start, more, w', to, c);
  }

  lemma ListedBreaks(start: World, steps: seq<Step>, w: World, to: string, c: Name) returns (more: seq<Step>)
    requires At(start, steps, w, to) && c in w.cluster.born
    requires w.stage.Listed? && Readable(w.cluster.lock) && !HeldBy(w.cluster.lock, c)
    requires Ripe(w, c) && GetUpgradeInstructions(w.stage.oa) != to
    ensures Breaks(start, more)
  {
    var w' := w;
    more, w' := Then(start, steps, w', SeeLock);
    if w'.stage.Scanning? {
      more := ScanningBreaks(start, more, w', to, c);
    } else {
      more := SeenBreaks(start, more, w', to, c);
    }
  }

  /** The pass has read the owner and nothing else: it marks a machine that joins before it lists them. */
  lemma StartedBreaks(start: World, w: World, to: string) returns (more: seq<Step>)
    requires At(start, [], w, to)
    requires w.stage.Started? && Readable(w.cluster.lock)
    requires GetUpgradeInstructions(w.stage.oa) != to && GetUpgradeInstructions(w.stage.oa) != ""
    ensures Breaks(start, more)
  {
    var w' := w;
    var c := SomeNewName(w.cluster.born);
    more, w' := Then(start, [], w', Others(Join(c, "")));
    more, w' := Then(start, more, w', ListMachines);
    more := ListedBreaks(start, more, w', to, c);
  }

  lemma ListBreaks(start: World, w: World, from: string, to: string) returns (more: seq<Step>)
    requires At(start, [], w, to) && MayStillMark(w) && Lists(w.stage)
    requires StageFits(from, w.cluster, w.stage) && from != to
    ensures Breaks(start, more)
  {
    var c :| Candidate(w.stage.oa, w.stage.owned, w.cluster.machines, c)
      && (w.stage.Listed? ==> !HeldBy(w.cluster.lock, c)) && (w.stage.LockSeen? ==> c != w.stage.holder);
    assert Ripe(w, c) && c in w.cluster.born;
    match w.stage {
      case Listed(_, _) => more := ListedBreaks(start, [], w, to, c);
      case LockSeen(_, _, _) => more := SeenBreaks(start, [], w, to, c);
      case Clearing(_, _, _) => more := ClearingBreaks(start, [], w, to, c);
      case Scanning(_, _) => more := ScanningBreaks(start, [], w, to, c);
    }
  }

  /** No machine has to join for that: once the owner is retargeted, two undisturbed passes are such a
      run, and start any machine that is not upgraded to the new target. */
  lemma TwoPassesBreakExclusion(from: string, w: World, ann: Annotations, a: Name, b: Name) returns (steps: seq<Step>)
    requires Aligned(from, w) && w.stage.Idle? && Acts(Retargeted(w, ann).cluster.owner)
    requires Carries(w.cluster, a) && w.cluster.machines[a].ann.upgradeTo.value != GetUpgradeInstructions(ann)
    requires b in w.cluster.machines && b != a && !w.cluster.machines[b].deleting
    requires !IsUpgraded(w.cluster.machines[b].ann, GetUpgradeInstructions(ann))
    ensures var freed := OrchestratorPass(Retargeted(w, ann).cluster, None);
      && Scans(freed) && PickFits(freed, GetUpgradeInstructions(freed.owner.ann), Some(b))
      && Trace(Retargeted(w, ann), steps) == Some(World(OrchestratorPass(freed, Some(b)), Idle))
      && !Exclusive(OrchestratorPass(freed, Some(b)))
  {
    var start, to := Retargeted(w, ann), GetUpgradeInstructions(ann);
    assert InLine(from, w.cluster.lock, a, w.cluster.machines[a]) && InLine(from, w.cluster.lock, b, w.cluster.machines[b]);
    var w';
    steps, w' := LockGivenUp(start, [], start, to, a);
    assert w'.cluster == OrchestratorPass(start.cluster, None);
    steps, w' := WholePassStarts(start, steps, w', to, b);
    assert Carries(w'.cluster, a) && Carries(w'.cluster, b);
  }

  lemma WholePassStarts(start: World, steps: seq<Step>, w: World, to: string, b: Name) returns (more: seq<Step>, w': World)
    requires At(start, steps, w, to) && w.stage.Idle? && Acts(w.cluster.owner) && w.cluster.lock.None?
    requires b in w.cluster.machines && Startable(to, w.cluster.machines[b]) && w.cluster.machines[b].ann.upgradeTo.None?
    ensures Scans(w.cluster) && PickFits(w.cluster, to, Some(b))
    ensures Trace(start, more) == Some(w') && w' == World(OrchestratorPass(w.cluster, Some(b)), Idle)
  {
    more, w' := Then(start, steps, w, ReadOwner);
    more, w' := Then(start, more, w', ListMachines);
    more, w' := Then(start, more, w', SeeLock);
    more, w' := Then(start, more, w', TakeLock(b));
    more, w' := Then(start, more, w', MarkListed);
    more, w' := Then(start, more, w', MarkOwner);
  }

  // ----- Such moments are reached -----

  /** Two machines, an idle orchestrator, a ready owner: then the pass takes the lock for the first. */
  lemma PassTakesLock(from: string, owner: Owner, a: Name, b: Name) returns (start: World, steps: seq<Step>, w: World)
    requires from != "" && GetUpgradeInstructions(owner.ann) == from && Acts(owner) && a != b
    ensures Init(from, start.cluster) && start.stage.Idle? && start.cluster.owner == owner
    ensures Plain(steps) && Trace(start, steps) == Some(w)
    ensures w.stage == Locked(owner.ann, a, NO_ANNOTATIONS) && HeldBy(w.cluster.lock, a) && w.cluster.owner == owner
    ensures var idle := Machine(NO_ANNOTATIONS, false, Node("", []));
      w.cluster.machines == map[a := idle, b := idle]
  {
    start := World(Cluster(None, map[], {}, owner), Idle);
    steps, w := Then(start, [], start, Others(Join(a, "")));
    steps, w := Then(start, steps, w, Others(Join(b, "")));
    steps, w := Then(start, steps, w, ReadOwner);
    steps, w := Then(start, steps, w, ListMachines);
    steps, w := Then(start, steps, w, SeeLock);
    steps, w := Then(start, steps, w, TakeLock(a));
  }

  /** Nobody is on its way yet, and still the moment is not safe: the pass has read the old target,
      holds the lock, and is about to mark. */
  lemma MidPassIsReachable(from: string, owner: Owner, a: Name, b: Name, ann: Annotations)
    returns (start: World, steps: seq<Step>, w: World)
    requires from != "" && GetUpgradeInstructions(owner.ann) == from && Acts(owner) && a != b
    requires GetUpgradeInstructions(ann) !in {"", from}
    ensures Init(from, start.cluster) && start.stage.Idle? && Plain(steps) && Trace(start, steps) == Some(w)
    ensures (forall n :: !Carries(w.cluster, n)) && MayStillMark(w) && !SafeMoment(w, ann)
  {
    start, steps, w := PassTakesLock(from, owner, a, b);
  }

  /** And between passes, as soon as the first of two machines is marked. */
  lemma MidFlightIsReachable(from: string, owner: Owner, a: Name, b: Name, ann: Annotations)
    returns (start: World, steps: seq<Step>, w: World)
    requires from != "" && GetUpgradeInstructions(owner.ann) == from && Acts(owner) && a != b
    requires GetUpgradeInstructions(ann) !in {"", from}
    ensures Init(from, start.cluster) && start.stage.Idle? && Plain(steps) && Trace(start, steps) == Some(w)
    ensures w.stage.Idle? && Carries(w.cluster, a) && w.cluster.machines[a].ann.upgradeTo == Some(from)
    ensures b in w.cluster.machines && !Carries(w.cluster, b) && !SafeMoment(w, ann)
  {
    start, steps, w := PassTakesLock(from, owner, a, b);
    steps, w := Then(start, steps, w, MarkListed);
    steps, w := Then(start, steps, w, MarkOwner);
  }

  // ----- What a pass that read the old target does to the owner -----

  /** The three marks of a pass that read oa, on an owner that has been retargeted since. Exclusion
      aside, the new target survives them exactly if the patch does not touch the key that holds it:
      done drops upgrade-to and may overwrite release; in-progress drops release and may overwrite
      upgrade-to; failed drops release. */
  lemma StaleMarkKeepsNewTarget(oa: Annotations, now: Annotations)
    requires var from, to := GetUpgradeInstructions(oa), GetUpgradeInstructions(now); from != to && from != "" && to != ""
    ensures var from, to := GetUpgradeInstructions(oa), GetUpgradeInstructions(now);
      && (GetUpgradeInstructions(MergePatch(now, oa, MarkedDone(oa, from))) == to
          <==> (oa.upgradeTo.None? && now.upgradeTo.Some?) || (oa.release == Some(from) && now.release == Some(to)))
      && (GetUpgradeInstructions(MergePatch(now, oa, MarkedInProgress(oa, from))) == to
          <==> oa.upgradeTo.Some? && (now.upgradeTo.Some? || oa.release.None?))
      && (GetUpgradeInstructions(MergePatch(now, oa, MarkedFailed(oa))) == to
          <==> now.upgradeTo.Some? || oa.release.None?)
  {
  }

  /** It happens: an owner that holds the old target as release alone is retargeted while a pass holds
      the lock. The pass marks its machine and then the owner, which asks for the old target again. */
  lemma RetargetIsUndone(from: string, owner: Owner, a: Name, b: Name, ann: Annotations)
    returns (start: World, steps: seq<Step>, w: World)
    requires owner.ann == MarkedDone(NO_ANNOTATIONS, from) && from != "" && Acts(owner) && a != b
    requires GetUpgradeInstructions(ann) !in {"", from}
    ensures Init(from, start.cluster) && start.stage.Idle? && start.cluster.owner == owner
    ensures Trace(start, steps) == Some(w) && w.stage.Idle? && Retarget(ann) in steps
    ensures GetUpgradeInstructions(w.cluster.owner.ann) == from
  {
    start, steps, w := PassTakesLock(from, owner, a, b);
    steps, w := Then(start, steps, w, Retarget(ann));
    steps, w := Then(start, steps, w, MarkListed);
    steps, w := Then(start, steps, w, MarkOwner);
  }
}
