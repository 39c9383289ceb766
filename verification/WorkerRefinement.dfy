/** While the owner keeps its target and machines join at safe moments, the passes of the orchestrator,
    call by call, make no other moves than those of WorkerUpgrade; so what holds of its runs holds of
    them. */
module WorkerRefinement {
  import opened Prelude
  import opened InPlace
  import opened MachineUpgrade
  import opened WorkerUpgrade
  import opened WorkerTimeline

  /** The write of a step, if it makes one, as a move. */
  function Projection(step: Step, w: World): (r: seq<Move>)
    requires CanStep(step, w)
    ensures |r| <= 1
  {
    match step
    case MarkListed(u) => [MarkMachine(u)]
    case ReportFailure(_) => [OwnerFailed]
    case Conclude => [OwnerDone(w.stage.owned.Keys)]
    case MarkOwner => [OwnerInProgress]
    case Others(mv) => [mv]
    case Joins(u, running) => [Join(u, running)]
    case _ => []
  }

  function Projected(start: World, steps: seq<Step>): seq<Move>
    requires Trace(start, steps).Some?
  {
    if steps == [] then []
    else
      var last := |steps| - 1;
      Projected(start, steps[..last]) + Projection(steps[last], Trace(start, steps[..last]).value)
  }

  /** The pass goes by what the owner says now. */
  ghost predicate OneTarget(to: string, w: World) {
    && Aligned(to, w) && Inv(to, w.fleet)
    && (!w.stage.Idle? ==> w.stage.oa == w.fleet.owner)
  }

  lemma StepRefines(to: string, step: Step, w: World)
    requires OneTarget(to, w) && CanStep(step, w) && SafeMoment(step, w) && !step.Retarget?
    ensures var moves := Projection(step, w);
      if moves == [] then Stepped(step, w).fleet == w.fleet
      else CanMove(to, moves[0], w.fleet) && Stepped(step, w).fleet == Moved(to, moves[0], w.fleet)
  {
    if step.MarkListed? {
      MarkIsComplete(w, step.uid);
    }
  }

  lemma StepStaysAligned(to: string, step: Step, w: World)
    requires OneTarget(to, w) && CanStep(step, w) && SafeMoment(step, w) && !step.Retarget?
    requires Inv(to, Stepped(step, w).fleet)
    ensures Aligned(to, Stepped(step, w))
  {
    match step {
      case ListMachines => ListKeepsSound(w);
      case MarkListed(u) => MarkKeepsSound(w, u);
      case Others(mv) => OthersKeepAligned(to, mv, w);
      case Joins(u, running) => JoinKeepsSound(w, u, running);
      case _ =>
    }
    var machines := Stepped(step, w).fleet.machines;
    forall c | Carries(machines, c)
      ensures machines[c].ann.upgradeTo.value == to
    {
      assert InOrder(to, machines, c);
    }
  }

  lemma StepKeepsOneTarget(to: string, step: Step, w: World)
    requires OneTarget(to, w) && CanStep(step, w) && SafeMoment(step, w) && !step.Retarget?
    ensures OneTarget(to, Stepped(step, w))
  {
    StepRefines(to, step, w);
    var moves := Projection(step, w);
    if moves != [] {
      MoveKeepsInv(to, moves[0], w.fleet);
    }
    StepStaysAligned(to, step, w);
  }

  /** Every run of passes under one target, with machines that join at safe moments, is, write by
      write, a run of WorkerUpgrade. */
  lemma {:induction false} OneTargetRefines(to: string, start: World, steps: seq<Step>)
    requires Inv(to, start.fleet) && start.stage.Idle?
    requires Trace(start, steps).Some? && Careful(start, steps) && forall i :: 0 <= i < |steps| ==> !steps[i].Retarget?
    ensures OneTarget(to, Trace(start, steps).value)
    ensures Run(to, start.fleet, Projected(start, steps)) == Some(Trace(start, steps).value.fleet)
  {
    if steps == [] {
      StartsAligned(to, start);
    } else {
      var last := |steps| - 1;
      CarefulBefore(start, steps);
      OneTargetRefines(to, start, steps[..last]);
      var w := Trace(start, steps[..last]).value;
      StepRefines(to, steps[last], w);
      StepKeepsOneTarget(to, steps[last], w);
      var before, moves := Projected(start, steps[..last]), Projection(steps[last], w);
      if moves == [] {
        assert before + moves == before;
      } else {
        RunSnoc(to, start.fleet, before, moves[0]);
        assert before + moves == before + [moves[0]];
      }
    }
  }

  /** Earlier points of the one are earlier points of the other. */
  lemma {:induction false} EarlierPoints(start: World, steps: seq<Step>, i: nat)
    requires Trace(start, steps).Some? && i <= |steps|
    ensures Trace(start, steps[..i]).Some? && Projected(start, steps[..i]) <= Projected(start, steps)
  {
    if i == |steps| {
      assert steps[..i] == steps;
    } else {
      var last := |steps| - 1;
      EarlierPoints(start, steps[..last], i);
      assert steps[..last][..i] == steps[..i];
    }
  }
}
