/** While the owner keeps its target, the passes of the orchestrator, call by call, make no other
    moves than those of ControlPlaneUpgrade; so what holds of its runs holds of them. */
module ControlPlaneRefinement {
  import opened Prelude
  import opened InPlace
  import opened MachineUpgrade
  import opened ControlPlaneUpgrade
  import opened ControlPlaneTimeline

  /** The write of a step, if it makes one, as a move. */
  function Projection(step: Step, w: World): (r: seq<Move>)
    requires CanStep(step, w)
    ensures |r| <= 1
  {
    match step
    case ClearLock => [Unlock]
    case Release => [Unlock]
    case ReportFailure => [OwnerFailed]
    case TakeLock(name) => [Acquire(name)]
    case Conclude => [OwnerDone(w.stage.owned.Keys)]
    case MarkListed => [MarkMachine(w.stage.name)]
    case MarkOwner => [OwnerInProgress]
    case Others(mv) => [mv]
    case _ => []
  }

  function Projected(start: World, steps: seq<Step>): seq<Move>
    requires Trace(start, steps).Some?
  {
    if steps == [] then []
    else
      var last := |steps| - 1;
      Projected(start, steps[..last]) + Projection(steps[last], Trace(start, steps[..last]).value)
  }

  /** The pass goes by what the owner says now. */
  ghost predicate OneTarget(to: string, w: World) {
    && Aligned(to, w) && Inv(to, w.cluster)
    && (!w.stage.Idle? ==> w.stage.oa == w.cluster.owner.ann)
  }

  /** What a pass has listed as upgraded is upgraded, or gone; it gives up the lock only for a machine
      that no longer needs it; and its marks on the owner are whole. */
  lemma StepRefines(to: string, step: Step, w: World)
    requires OneTarget(to, w) && CanStep(step, w) && !step.Retarget?
    ensures var moves := Projection(step, w);
      if moves == [] then Stepped(step, w).cluster == w.cluster
      else CanMove(to, moves[0], w.cluster) && Stepped(step, w).cluster == Moved(to, moves[0], w.cluster)
  {
    if step.MarkListed? {
      MarkIsComplete(to, w);
    }
  }

  lemma StepKeepsOneTarget(to: string, step: Step, w: World)
    requires OneTarget(to, w) && CanStep(step, w) && !step.Retarget?
    ensures OneTarget(to, Stepped(step, w))
  {
    StepRefines(to, step, w);
    var moves := Projection(step, w);
    if moves != [] {
      MoveKeepsInv(to, moves[0], w.cluster);
    }
    StepKeepsAligned(to, step, w);
  }

  /** Every run of passes under one target is, write by write, a run of ControlPlaneUpgrade. */
  lemma {:induction false} OneTargetRefines(to: string, start: World, steps: seq<Step>)
    requires Inv(to, start.cluster) && start.stage.Idle?
    requires Trace(start, steps).Some? && forall i :: 0 <= i < |steps| ==> !steps[i].Retarget?
    ensures OneTarget(to, Trace(start, steps).value)
    ensures Run(to, start.cluster, Projected(start, steps)) == Some(Trace(start, steps).value.cluster)
  {
    if steps != [] {
      var last := |steps| - 1;
      OneTargetRefines(to, start, steps[..last]);
      var w := Trace(start, steps[..last]).value;
      StepRefines(to, steps[last], w);
      StepKeepsOneTarget(to, steps[last], w);
      var before, moves := Projected(start, steps[..last]), Projection(steps[last], w);
      if moves == [] {
        assert before + moves == before;
      } else {
        RunSnoc(to, start.cluster, before, moves[0]);
        assert before + moves == before + [moves[0]];
      }
    }
  }

  /** Earlier points of the one are earlier points of the other. */
  lemma {:induction false} EarlierPoints(start: World, steps: seq<Step>, i: nat)
    requires Trace(start, steps).Some? && i <= |steps|
    ensures Trace(start, steps[..i]).Some? && Projected(start, steps[..i]) <= Projected(start, steps)
  {
    if i == |steps| {
      assert steps[..i] == steps;
    } else {
      var last := |steps| - 1;
      EarlierPoints(start, steps[..last], i);
      assert steps[..last][..i] == steps[..i];
    }
  }
}
