/** Machines that join the workers and targets that change: exactly when they are safe. */
module WorkerChanges {
  import opened Prelude
  import opened InPlace
  import opened MachineUpgrade
  import opened WorkerUpgrade
  import opened WorkerTimeline
  import MachineProgress
  import SnapOption

  /** Whatever happens from here on, as long as machines join and targets change at safe moments, the
      order is kept. */
  ghost predicate StaysSerial(w: World) {
    forall steps :: Careful(w, steps) && Trace(w, steps).Some? ==> Serial(Trace(w, steps).value.fleet.machines)
  }

  lemma OrderlyStaysSerial(w: World)
    requires Orderly(w)
    ensures StaysSerial(w)
  {
    forall steps | Careful(w, steps) && Trace(w, steps).Some?
      ensures Serial(Trace(w, steps).value.fleet.machines)
    {
      TraceKeepsOrderly(w, steps);
      OrderlyIsSerial(Trace(w, steps).value);
    }
  }

  ghost predicate Breaks(start: World, steps: seq<Step>) {
    Careful(start, steps) && Trace(start, steps).Some? && !Serial(Trace(start, steps).value.fleet.machines)
  }

  /** One more step, at a safe moment, at the end of a careful run. */
  lemma Then(start: World, steps: seq<Step>, w: World, step: Step) returns (steps': seq<Step>, w': World)
    requires Trace(start, steps) == Some(w) && Careful(start, steps) && CanStep(step, w) && SafeMoment(step, w)
    ensures Trace(start, steps') == Some(w') && Careful(start, steps') && w' == Stepped(step, w)
  {
    TraceSnoc(start, steps, step);
    steps', w' := steps + [step], Stepped(step, w);
    forall i | 0 <= i < |steps'| && Trace(start, steps'[..i]).Some?
      ensures SafeMoment(steps'[i], Trace(start, steps'[..i]).value)
    {
      assert steps'[..i] == steps[..i];
      assert i == |steps| ==> steps[..i] == steps;
    }
  }

  // ----- Joining -----

  /** A machine may join exactly at a safe moment: at any point of a run, between any two calls of a
      pass, the order is kept on every run that follows if and only if nobody with a greater UID is on
      its way, and no pass that has listed the machines is still to mark one with a greater UID. */
  lemma JoinIsSafeExactlyWhen(w: World, u: Uid, running: string)
    requires Orderly(w) && u !in w.fleet.born
    ensures StaysSerial(Stepped(Joins(u, running), w)) <==> SafeToJoin(w, u)
  {
    if SafeToJoin(w, u) {
      JoinKeepsOrderly(w, u, running);
      OrderlyStaysSerial(Stepped(Joins(u, running), w));
    } else {
      var steps := JoinBreaks(w, u, running);
    }
  }

  lemma JoinBreaks(w: World, u: Uid, running: string) returns (steps: seq<Step>)
    requires Orderly(w) && u !in w.fleet.born && !SafeToJoin(w, u)
    ensures Breaks(Stepped(Joins(u, running), w), steps)
  {
    var w' := Stepped(Joins(u, running), w);
    assert Careful(w', []);
    if CarriesAbove(w.fleet.machines, u) {
      var v :| v in w.fleet.machines && v > u && w.fleet.machines[v].ann.upgradeTo.Some?;
      assert InTurn(w.fleet.machines, v);
      steps := [];
      assert Carries(w'.fleet.machines, v) && !IsUpgraded(w'.fleet.machines[u].ann, w'.fleet.machines[v].ann.upgradeTo.value);
    } else {
      var p: Uid :| AboutToMark(w.stage, w.fleet.machines, p) && p > u;
      var w'';
      steps, w'' := Then(w', [], w', MarkListed(p));
      assert Carries(w''.fleet.machines, p) && !IsUpgraded(w''.fleet.machines[u].ann, w''.fleet.machines[p].ann.upgradeTo.value);
    }
  }

  // ----- Retargeting -----

  /** The owner may be given other annotations exactly at a safe moment: at any point of a run, between
      any two calls of a pass. */
  lemma RetargetIsSafeExactlyWhen(w: World, ann: Annotations)
    requires Orderly(w)
    ensures StaysSerial(Stepped(Retarget(ann), w)) <==> SafeToRetarget(w, ann)
  {
    if SafeToRetarget(w, ann) {
      RetargetKeepsOrderly(w, ann);
      OrderlyStaysSerial(Stepped(Retarget(ann), w));
    } else {
      var steps := RetargetBreaks(w, ann);
    }
  }

  /** A careful run has come to w, where the owner asks for to and goes on existing. */
  ghost predicate At(start: World, steps: seq<Step>, w: World, to: string) {
    && Trace(start, steps) == Some(w) && Careful(start, steps)
    && to != "" && GetUpgradeInstructions(w.fleet.owner) == to && !w.fleet.ownerDeleting
  }

  /** v can be marked, and is upgraded to x. */
  ghost predicate ReadyAgain(m: Machine, x: string) {
    Markable(m) && Consistent(m) && IsUpgraded(m.ann, x) && x != ""
  }

  lemma RetargetBreaks(w: World, ann: Annotations) returns (steps: seq<Step>)
    requires Orderly(w) && !SafeToRetarget(w, ann)
    ensures Breaks(Stepped(Retarget(ann), w), steps)
  {
    var from :| Aligned(from, w);
    var to, w' := GetUpgradeInstructions(ann), Stepped(Retarget(ann), w);
    assert At(w', [], w', to);
    if p, v :| SentElsewhere(w, to, p) && v in w.fleet.machines && v < p && Markable(w.fleet.machines[v]) {
      assert InTurn(w.fleet.machines, v) && InTurn(w.fleet.machines, p);
      if Carries(w.fleet.machines, p) && w.fleet.machines[p].ann.upgradeTo.value != to {
        steps := CarrierBreaks(w', [], w', to, p, v);
      } else {
        steps := AboutToMarkBreaks(w', [], w', to, p, v);
      }
    } else {
      var v :| v in w.fleet.machines && Comeback(GetUpgradeInstructions(w.stage.oa), w.fleet.machines[v]);
      assert InTurn(w.fleet.machines, v);
      steps := StartedBreaks(w', w', to, v);
    }
  }

  lemma {:induction false} Remove(start: World, steps: seq<Step>, w: World, gone: set<Uid>) returns (more: seq<Step>, w': World)
    requires Trace(start, steps) == Some(w) && Careful(start, steps) && gone <= w.fleet.machines.Keys
    ensures Trace(start, more) == Some(w') && Careful(start, more)
    ensures w' == w.(fleet := w.fleet.(machines := w.fleet.machines - gone))
    decreases gone
  {
    more, w' := steps, w;
    if gone != {} {
      var u :| u in gone;
      more, w' := Then(start, steps, w, Others(Gone(u)));
      more, w' := Remove(start, more, w', gone - {u});
      assert (w.fleet.machines - {u}) - (gone - {u}) == w.fleet.machines - gone;
    } else {
      assert w.fleet.machines - gone == w.fleet.machines;
    }
  }

  /** A machine p is on its way elsewhere; once those below v are gone, the next pass starts v ahead of it. */
  lemma CarrierBreaks(start: World, steps: seq<Step>, w: World, to: string, p: Uid, v: Uid) returns (more: seq<Step>)
    requires At(start, steps, w, to)
    requires Carries(w.fleet.machines, p) && w.fleet.machines[p].ann.upgradeTo.value != to
    requires v in w.fleet.machines && v < p && ReadyAgain(w.fleet.machines[v], w.fleet.machines[p].ann.upgradeTo.value)
    ensures Breaks(start, more)
  {
    var w';
    more, w' := Then(start, steps, w, Stop);
    more, w' := Remove(start, more, w', set u | u in w'.fleet.machines && u < v);
    more, w' := Then(start, more, w', ReadOwner);
    more, w' := Then(start, more, w', ListMachines);
    assert AboutToMark(w'.stage, w'.fleet.machines, v);
    more, w' := Then(start, more, w', MarkListed(v));
    assert Carries(w'.fleet.machines, p) && !IsUpgraded(w'.fleet.machines[v].ann, w'.fleet.machines[p].ann.upgradeTo.value);
  }

  lemma AboutToMarkBreaks(start: World, steps: seq<Step>, w: World, to: string, p: Uid, v: Uid) returns (more: seq<Step>)
    requires At(start, steps, w, to)
    requires AboutToMark(w.stage, w.fleet.machines, p) && w.stage.owned[p].ann.upgradeTo.None?
    requires GetUpgradeInstructions(w.stage.oa) != to
    requires v in w.fleet.machines && v < p && ReadyAgain(w.fleet.machines[v], GetUpgradeInstructions(w.stage.oa))
    ensures Breaks(start, more)
  {
    var w';
    more, w' := Then(start, steps, w, MarkListed(p));
    more := CarrierBreaks(start, more, w', to, p, v);
  }

  /** A whole run of writes on one machine. */
  lemma {:induction false} OnOne(start: World, steps: seq<Step>, w: World, v: Uid, acts: seq<Action>) returns (more: seq<Step>, w': World)
    requires Trace(start, steps) == Some(w) && Careful(start, steps) && v in w.fleet.machines
    requires MachineProgress.Unaided(acts) && Exec(w.fleet.machines[v], acts).Some?
    ensures Trace(start, more) == Some(w') && Careful(start, more)
    ensures w' == w.(fleet := w.fleet.(machines := w.fleet.machines[v := Exec(w.fleet.machines[v], acts).value]))
  {
    if acts == [] {
      more, w' := steps, w;
    } else {
      var last := |acts| - 1;
      more, w' := OnOne(start, steps, w, v, acts[..last]);
      more, w' := Then(start, more, w', Others(OnMachine(v, acts[last])));
    }
  }

  /** The pass has read the old target and nothing else. If a machine v is upgraded to it, or can come
      to be, the pass marks one that joins above it, and the next pass starts v ahead of that one. */
  lemma StartedBreaks(start: World, w: World, to: string, v: Uid) returns (more: seq<Step>)
    requires At(start, [], w, to) && w.stage.Started?
    requires GetUpgradeInstructions(w.stage.oa) !in {to, ""}
    requires v in w.fleet.machines && Consistent(w.fleet.machines[v]) && Comeback(GetUpgradeInstructions(w.stage.oa), w.fleet.machines[v])
    requires w.fleet.machines.Keys <= w.fleet.born
    ensures Breaks(start, more)
  {
    var w', m := w, w.fleet.machines[v];
    more := [];
    if !(IsUpgraded(m.ann, GetUpgradeInstructions(w.stage.oa)) && Markable(m)) {
      var acts, m' := MachineProgress.CanStillFinish(m);
      more, w' := OnOne(start, more, w', v, acts);
    }
    more := UpgradedBreaks(start, more, w', to, v);
  }

  lemma UpgradedBreaks(start: World, steps: seq<Step>, w: World, to: string, v: Uid) returns (more: seq<Step>)
    requires At(start, steps, w, to) && w.stage.Started?
    requires GetUpgradeInstructions(w.stage.oa) !in {to, ""}
    requires v in w.fleet.machines && ReadyAgain(w.fleet.machines[v], GetUpgradeInstructions(w.stage.oa))
    requires w.fleet.machines.Keys <= w.fleet.born
    ensures Breaks(start, more)
  {
    var w';
    more, w' := Remove(start, steps, w, w.fleet.machines.Keys - {v});
    assert w'.fleet.machines.Keys == {v};
    var u := SomeAbove(w.fleet.born);
    more, w' := Then(start, more, w', Joins(u, ""));
    more, w' := Then(start, more, w', ListMachines);
    assert AboutToMark(w'.stage, w'.fleet.machines, u);
    more := AboutToMarkBreaks(start, more, w', to, u, v);
  }

  // ----- Such moments are reached -----

  /** Nobody is on its way yet, and still no machine may join below v: the pass has listed the machines
      and is about to mark v. */
  lemma MidPassIsReachable(to: string, owner: Annotations, v: Uid) returns (start: World, steps: seq<Step>, w: World)
    requires to != "" && GetUpgradeInstructions(owner) == to
    ensures Init(to, start.fleet) && start.stage.Idle? && start.fleet.owner == owner
    ensures Trace(start, steps) == Some(w) && Careful(start, steps)
    ensures Nobody(w.fleet.machines) && w.fleet.machines.Keys == w.fleet.born == {v}
    ensures forall u: Uid :: u < v ==> !SafeToJoin(w, u)
  {
    start := World(Fleet(map[], {}, owner, false), Idle);
    assert Careful(start, []);
    steps, w := Then(start, [], start, Joins(v, ""));
    steps, w := Then(start, steps, w, ReadOwner);
    steps, w := Then(start, steps, w, ListMachines);
    assert AboutToMark(w.stage, w.fleet.machines, v);
  }

  /** A whole pass that marks the machine it stops at. */
  lemma WholePassMarks(start: World, to: string, v: Uid) returns (steps: seq<Step>, w: World)
    requires start.stage.Idle? && GetUpgradeInstructions(start.fleet.owner) == to != "" && !start.fleet.ownerDeleting
    requires First(to, start.fleet.machines, v) && Markable(start.fleet.machines[v])
    requires start.fleet.machines[v].ann.upgradeTo.None?
    ensures Trace(start, steps) == Some(w) && Careful(start, steps) && w.stage.Idle?
    ensures w.fleet.machines == start.fleet.machines[v := Effect(Mark(to), start.fleet.machines[v])]
    ensures !w.fleet.ownerDeleting
  {
    assert Careful(start, []);
    steps, w := Then(start, [], start, ReadOwner);
    steps, w := Then(start, steps, w, ListMachines);
    steps, w := Then(start, steps, w, MarkListed(v));
    steps, w := Then(start, steps, w, MarkOwner);
  }

  /** A machine already upgraded to the old target, and one above it still on its way there: the owner
      may not be retargeted. */
  lemma MidFlightIsReachable(from: string, owner: Annotations, u: Uid, v: Uid, ann: Annotations)
    returns (start: World, steps: seq<Step>, w: World)
    requires from != "" && GetUpgradeInstructions(owner) == from && u < v
    requires GetUpgradeInstructions(ann) !in {"", from}
    ensures Init(from, start.fleet) && start.stage.Idle? && start.fleet.owner == owner
    ensures Trace(start, steps) == Some(w) && Careful(start, steps) && w.stage.Idle?
    ensures Carries(w.fleet.machines, v) && u in w.fleet.machines && IsUpgraded(w.fleet.machines[u].ann, from)
    ensures !SafeToRetarget(w, ann)
  {
    var upgraded := Machine(MarkedDone(NO_ANNOTATIONS, from), false, Node(from, []));
    start := World(Fleet(map[u := upgraded, v := Machine(NO_ANNOTATIONS, false, Node("", []))], {u, v}, owner, false), Idle);
    steps, w := WholePassMarks(start, from, v);
    assert SentElsewhere(w, GetUpgradeInstructions(ann), v) && Markable(w.fleet.machines[u]);
  }
}
