/** The upgrade of the workers with the orchestrator's pass in the state: the owner's annotations and
    the list of machines as the pass read them, and every read and write it makes, between the writes
    of everybody else. Machines may join, and the owner may be given another target, at any time. */
module WorkerTimeline {
  import opened Prelude
  import opened InPlace
  import opened MachineUpgrade
  import opened WorkerUpgrade
  import SnapOption

  /** Where the pass stands; oa is the owner's annotations as it read them. */
  datatype Stage =
    | Idle
    | Started(oa: Annotations)
    | Listed(oa: Annotations, owned: map<Uid, Machine>)
    | Marked(oa: Annotations)

  datatype World = World(fleet: Fleet, stage: Stage)

  datatype Step =
    | ReadOwner
    | ListMachines
    | MarkListed(uid: Uid)
    | ReportFailure(uid: Uid)
    | Conclude
    | MarkOwner
    | Stop                        // the pass ends, by an error, a crash, or having nothing to do
    | Others(mv: Move)
    | Joins(uid: Uid, running: string)
    | Retarget(ann: Annotations)

  predicate Foreign(mv: Move) {
    mv.OnMachine? || mv.Gone? || mv.DeleteOwner?
  }

  /** The machine a pass stops at: the least of its list that is not upgraded. */
  predicate First(to: string, owned: map<Uid, Machine>, u: Uid) {
    u in owned && !IsUpgraded(owned[u].ann, to) && UpgradedBelow(to, owned, u)
  }

  predicate AllUp(to: string, owned: map<Uid, Machine>) {
    forall u :: u in owned ==> IsUpgraded(owned[u].ann, to)
  }

  /** A pass that stops at this machine marks it. */
  predicate Markable(m: Machine) {
    !m.deleting && !IsMachineUpgradeFailed(m.ann) && !IsMachineUpgrading(m.ann)
  }

  /** The pass has listed the machines and is going to mark p. */
  predicate AboutToMark(stage: Stage, machines: map<Uid, Machine>, p: Uid) {
    && stage.Listed? && p in machines
    && First(GetUpgradeInstructions(stage.oa), stage.owned, p) && Markable(stage.owned[p])
  }

  predicate CanStep(step: Step, w: World) {
    var s, stage := w.fleet, w.stage;
    match step
    case ReadOwner => stage.Idle?
    case ListMachines => stage.Started?
    case MarkListed(u) => AboutToMark(stage, s.machines, u)
    case ReportFailure(u) =>
      && stage.Listed? && First(GetUpgradeInstructions(stage.oa), stage.owned, u)
      && !stage.owned[u].deleting && IsMachineUpgradeFailed(stage.owned[u].ann)
    case Conclude => stage.Listed? && AllUp(GetUpgradeInstructions(stage.oa), stage.owned)
    case MarkOwner => stage.Marked?
    case Stop => true
    case Others(mv) => Foreign(mv) && CanMove("", mv, s)
    case Joins(u, _) => u !in s.born
    case Retarget(_) => true
  }

  function Patched(s: Fleet, before: Annotations, after: Annotations): Fleet {
    s.(owner := MergePatch(s.owner, before, after))
  }

  function Joined(s: Fleet, u: Uid, running: string): Fleet {
    s.(machines := s.machines[u := Machine(NO_ANNOTATIONS, false, Node(running, []))], born := s.born + {u})
  }

  function Stepped(step: Step, w: World): World
    requires CanStep(step, w)
  {
    var s, stage := w.fleet, w.stage;
    match step
    case ReadOwner =>
      w.(stage := if GetUpgradeInstructions(s.owner) == "" || s.ownerDeleting then Idle else Started(s.owner))
    case ListMachines => w.(stage := Listed(stage.oa, s.machines))
    case MarkListed(u) =>
      var m := s.machines[u];
      var ann := MergePatch(m.ann, stage.owned[u].ann, MarkedToUpgrade(GetUpgradeInstructions(stage.oa)));
      World(s.(machines := s.machines[u := m.(ann := ann)]), Marked(stage.oa))
    case ReportFailure(_) => World(Patched(s, stage.oa, MarkedFailed(stage.oa)), Idle)
    case Conclude => World(Patched(s, stage.oa, MarkedDone(stage.oa, GetUpgradeInstructions(stage.oa))), Idle)
    case MarkOwner => World(Patched(s, stage.oa, MarkedInProgress(stage.oa, GetUpgradeInstructions(stage.oa))), Idle)
    case Stop => w.(stage := Idle)
    case Others(mv) => w.(fleet := Moved("", mv, s))
    case Joins(u, running) => w.(fleet := Joined(s, u, running))
    case Retarget(ann) => w.(fleet := s.(owner := ann))
  }

  function Trace(start: World, steps: seq<Step>): Option<World> {
    if steps == [] then Some(start)
    else
      var last := |steps| - 1;
      match Trace(start, steps[..last])
      case None => None
      case Some(w) => if CanStep(steps[last], w) then Some(Stepped(steps[last], w)) else None
  }

  lemma {:induction false} TraceSnoc(start: World, steps: seq<Step>, step: Step)
    requires Trace(start, steps).Some? && CanStep(step, Trace(start, steps).value)
    ensures Trace(start, steps + [step]) == Some(Stepped(step, Trace(start, steps).value))
  {
  }

  // ----- When it is safe to join, and to retarget -----

  predicate Carries(machines: map<Uid, Machine>, u: Uid) {
    u in machines && machines[u].ann.upgradeTo.Some?
  }

  /** Whoever is on its way has everything below it upgraded to where it is going. */
  ghost predicate Serial(machines: map<Uid, Machine>) {
    forall u :: Carries(machines, u) ==> UpgradedBelow(machines[u].ann.upgradeTo.value, machines, u)
  }

  /** A machine may join now: nobody above it is on its way or about to be marked. */
  ghost predicate SafeToJoin(w: World, u: Uid) {
    !CarriesAbove(w.fleet.machines, u) && forall p: Uid :: AboutToMark(w.stage, w.fleet.machines, p) ==> p <= u
  }

  /** The machine is on its way elsewhere than to, or about to be sent there by a pass under way. */
  predicate SentElsewhere(w: World, to: string, p: Uid) {
    || (Carries(w.fleet.machines, p) && w.fleet.machines[p].ann.upgradeTo.value != to)
    || (AboutToMark(w.stage, w.fleet.machines, p) && GetUpgradeInstructions(w.stage.oa) != to)
  }

  predicate NothingMarkableBelow(machines: map<Uid, Machine>, u: Uid) {
    forall v :: v in machines && v < u ==> !Markable(machines[v])
  }

  /** The machine is upgraded to the target or can come to be, and can be marked for another one then. */
  predicate Comeback(to: string, m: Machine) {
    && !m.deleting
    && ((IsUpgraded(m.ann, to) && Markable(m)) || (m.ann.upgradeTo == Some(to) && SnapOption.Decodable(to)))
  }

  /** The owner may be given these annotations now: they ask for nothing, or the owner is going away, or
      no machine sent elsewhere has one below it that can be marked for the new target; nor will one,
      should a pass that has read another target only list the machines now. */
  ghost predicate SafeToRetarget(w: World, ann: Annotations) {
    var to, machines := GetUpgradeInstructions(ann), w.fleet.machines;
    || w.fleet.ownerDeleting
    || to == ""
    || ((forall p: Uid :: SentElsewhere(w, to, p) ==> NothingMarkableBelow(machines, p))
        && (w.stage.Started? && GetUpgradeInstructions(w.stage.oa) != to ==>
              forall v :: v in machines ==> !Comeback(GetUpgradeInstructions(w.stage.oa), machines[v])))
  }

  ghost predicate SafeMoment(step: Step, w: World) {
    match step
    case Joins(u, _) => SafeToJoin(w, u)
    case Retarget(ann) => SafeToRetarget(w, ann)
    case _ => true
  }

  // ----- Invariants -----

  predicate Nobody(machines: map<Uid, Machine>) {
    forall u :: u in machines ==> machines[u].ann.upgradeTo.None?
  }

  /** The listed machine has not changed, and it is still its turn. */
  predicate StillItsTurn(to: string, owned: map<Uid, Machine>, machines: map<Uid, Machine>, p: Uid)
    requires p in machines && p in owned
  {
    && Nobody(machines) && machines[p].ann == owned[p].ann
    && !IsUpgraded(machines[p].ann, to) && UpgradedBelow(to, machines, p)
  }

  /** What was listed as upgraded is upgraded, or gone. */
  predicate StillUpgraded(to: string, owned: map<Uid, Machine>, machines: map<Uid, Machine>) {
    forall u :: u in owned && u in machines && IsUpgraded(owned[u].ann, to) ==> IsUpgraded(machines[u].ann, to)
  }

  ghost predicate ListFits(w: World) {
    w.stage.Listed? ==>
      && w.stage.owned.Keys <= w.fleet.born
      && StillUpgraded(GetUpgradeInstructions(w.stage.oa), w.stage.owned, w.fleet.machines)
      && (AllUp(GetUpgradeInstructions(w.stage.oa), w.stage.owned) ==> Nobody(w.fleet.machines))
      && forall p: Uid :: AboutToMark(w.stage, w.fleet.machines, p) ==>
           StillItsTurn(GetUpgradeInstructions(w.stage.oa), w.stage.owned, w.fleet.machines, p)
  }

  ghost predicate InTurn(machines: map<Uid, Machine>, u: Uid)
    requires u in machines
  {
    && Consistent(machines[u])
    && (machines[u].ann.upgradeTo.Some? ==>
          machines[u].ann.upgradeTo.value != "" && UpgradedBelow(machines[u].ann.upgradeTo.value, machines, u))
  }

  ghost predicate Sound(w: World) {
    && w.fleet.machines.Keys <= w.fleet.born
    && (forall u :: u in w.fleet.machines ==> InTurn(w.fleet.machines, u))
    && (!w.stage.Idle? ==> GetUpgradeInstructions(w.stage.oa) != "")
    && ListFits(w)
  }

  /** Pass and owner are about one target; whoever is on its way elsewhere is not overtaken. */
  ghost predicate Aligned(to: string, w: World) {
    && Sound(w) && to != ""
    && (!w.stage.Idle? ==> GetUpgradeInstructions(w.stage.oa) == to)
    && (w.fleet.ownerDeleting || GetUpgradeInstructions(w.fleet.owner) in {to, ""})
    && forall c :: Carries(w.fleet.machines, c) && w.fleet.machines[c].ann.upgradeTo.value != to ==>
         NothingMarkableBelow(w.fleet.machines, c)
  }

  /** The owner may ask for anything, and still the pass under way does no harm. */
  ghost predicate Harmless(w: World) {
    && Sound(w) && !w.stage.Idle?
    && (forall c :: Carries(w.fleet.machines, c) ==> NothingMarkableBelow(w.fleet.machines, c))
    && (forall p: Uid :: AboutToMark(w.stage, w.fleet.machines, p) ==> NothingMarkableBelow(w.fleet.machines, p))
    && (w.stage.Started? ==>
          forall v :: v in w.fleet.machines ==> !Comeback(GetUpgradeInstructions(w.stage.oa), w.fleet.machines[v]))
  }

  ghost predicate Orderly(w: World) {
    Harmless(w) || exists to :: Aligned(to, w)
  }

  lemma OrderlyIsSerial(w: World)
    requires Orderly(w)
    ensures Serial(w.fleet.machines)
  {
    forall u | Carries(w.fleet.machines, u)
      ensures UpgradedBelow(w.fleet.machines[u].ann.upgradeTo.value, w.fleet.machines, u)
    {
      assert InTurn(w.fleet.machines, u);
    }
  }

  /** So at most one machine is on its way. */
  lemma OrderlyIsExclusive(w: World, a: Uid, b: Uid)
    requires Orderly(w) && Carries(w.fleet.machines, a) && Carries(w.fleet.machines, b)
    ensures a == b
  {
    assert InTurn(w.fleet.machines, a) && InTurn(w.fleet.machines, b);
  }

  // ----- Each step keeps them -----

  /** A machine that is not upgrading is left alone by everybody else. */
  lemma OthersLeaveAlone(mv: Move, s: Fleet, u: Uid)
    requires Foreign(mv) && CanMove("", mv, s) && u in Moved("", mv, s).machines
    ensures u in s.machines
    ensures Consistent(s.machines[u]) && s.machines[u].ann.upgradeTo.None? ==>
      Moved("", mv, s).machines[u].ann == s.machines[u].ann && (s.machines[u].deleting ==> Moved("", mv, s).machines[u].deleting)
  {
  }

  lemma OthersKeepInTurn(mv: Move, s: Fleet, u: Uid)
    requires forall v :: v in s.machines ==> InTurn(s.machines, v)
    requires Foreign(mv) && CanMove("", mv, s) && u in Moved("", mv, s).machines
    ensures InTurn(Moved("", mv, s).machines, u)
  {
    var machines := Moved("", mv, s).machines;
    OthersLeaveAlone(mv, s, u);
    assert InTurn(s.machines, u);
    if mv.OnMachine? && mv.uid == u {
      EffectKeepsConsistent(mv.action, s.machines[u]);
    }
    if machines[u].ann.upgradeTo.Some? {
      forall v | v in machines && v < u
        ensures IsUpgraded(machines[v].ann, machines[u].ann.upgradeTo.value)
      {
        OthersLeaveAlone(mv, s, v);
        assert InTurn(s.machines, v);
      }
    }
  }

  lemma OthersKeepBelow(mv: Move, s: Fleet, u: Uid)
    requires forall v :: v in s.machines ==> InTurn(s.machines, v)
    requires Foreign(mv) && CanMove("", mv, s) && NothingMarkableBelow(s.machines, u)
    requires forall v :: v in s.machines && v < u ==> s.machines[v].ann.upgradeTo.None?
    ensures NothingMarkableBelow(Moved("", mv, s).machines, u)
  {
    forall v | v in Moved("", mv, s).machines && v < u
      ensures !Markable(Moved("", mv, s).machines[v])
    {
      OthersLeaveAlone(mv, s, v);
      assert InTurn(s.machines, v);
    }
  }

  lemma OthersKeepListFits(mv: Move, w: World)
    requires Sound(w) && CanStep(Others(mv), w)
    ensures ListFits(Stepped(Others(mv), w))
  {
    var w' := Stepped(Others(mv), w);
    if w.stage.Listed? {
      forall u | u in w'.fleet.machines
        ensures u in w.fleet.machines
        ensures w.fleet.machines[u].ann.upgradeTo.None? ==> w'.fleet.machines[u].ann == w.fleet.machines[u].ann
      {
        OthersLeaveAlone(mv, w.fleet, u);
        assert InTurn(w.fleet.machines, u);
      }
      forall p: Uid | AboutToMark(w'.stage, w'.fleet.machines, p)
        ensures StillItsTurn(GetUpgradeInstructions(w.stage.oa), w.stage.owned, w'.fleet.machines, p)
      {
        assert AboutToMark(w.stage, w.fleet.machines, p);
      }
    }
  }

  lemma OthersKeepSound(mv: Move, w: World)
    requires Sound(w) && CanStep(Others(mv), w)
    ensures Sound(Stepped(Others(mv), w))
  {
    forall u | u in Moved("", mv, w.fleet).machines
      ensures InTurn(Moved("", mv, w.fleet).machines, u)
    {
      OthersKeepInTurn(mv, w.fleet, u);
    }
    OthersKeepListFits(mv, w);
  }

  /** What is below a carrier is upgraded, so not on its way. */
  lemma NobodyBelow(w: World, c: Uid, v: Uid)
    requires Sound(w) && Carries(w.fleet.machines, c) && v in w.fleet.machines && v < c
    ensures w.fleet.machines[v].ann.upgradeTo.None?
  {
    assert InTurn(w.fleet.machines, c) && InTurn(w.fleet.machines, v);
  }

  lemma CarriedBefore(mv: Move, w: World, c: Uid)
    requires Sound(w) && CanStep(Others(mv), w) && Carries(Moved("", mv, w.fleet).machines, c)
    ensures Carries(w.fleet.machines, c) && Moved("", mv, w.fleet).machines[c].ann.upgradeTo == w.fleet.machines[c].ann.upgradeTo
  {
    assert c in w.fleet.machines ==> InTurn(w.fleet.machines, c);
    OthersLeaveAlone(mv, w.fleet, c);
  }

  lemma OthersKeepCarrier(mv: Move, w: World, c: Uid)
    requires Sound(w) && CanStep(Others(mv), w) && Carries(Moved("", mv, w.fleet).machines, c)
    ensures Carries(w.fleet.machines, c) && Moved("", mv, w.fleet).machines[c].ann.upgradeTo == w.fleet.machines[c].ann.upgradeTo
    ensures NothingMarkableBelow(w.fleet.machines, c) ==> NothingMarkableBelow(Moved("", mv, w.fleet).machines, c)
  {
    CarriedBefore(mv, w, c);
    if NothingMarkableBelow(w.fleet.machines, c) {
      forall v | v in w.fleet.machines && v < c
        ensures w.fleet.machines[v].ann.upgradeTo.None?
      {
        NobodyBelow(w, c, v);
      }
      OthersKeepBelow(mv, w.fleet, c);
    }
  }

  lemma OthersKeepAligned(to: string, mv: Move, w: World)
    requires Aligned(to, w) && CanStep(Others(mv), w)
    ensures Aligned(to, Stepped(Others(mv), w))
  {
    OthersKeepSound(mv, w);
    forall c | Carries(Moved("", mv, w.fleet).machines, c) && Moved("", mv, w.fleet).machines[c].ann.upgradeTo.value != to
      ensures NothingMarkableBelow(Moved("", mv, w.fleet).machines, c)
    {
      OthersKeepCarrier(mv, w, c);
    }
  }

  lemma OthersBringNothingBack(mv: Move, s: Fleet, to: string, v: Uid)
    requires Foreign(mv) && CanMove("", mv, s) && v in Moved("", mv, s).machines && to != ""
    requires v in s.machines ==> Consistent(s.machines[v]) && !Comeback(to, s.machines[v])
    ensures !Comeback(to, Moved("", mv, s).machines[v])
  {
  }

  lemma OthersKeepHarmless(mv: Move, w: World)
    requires Harmless(w) && CanStep(Others(mv), w)
    ensures Harmless(Stepped(Others(mv), w))
  {
    var machines := Moved("", mv, w.fleet).machines;
    OthersKeepSound(mv, w);
    forall c | Carries(machines, c)
      ensures NothingMarkableBelow(machines, c)
    {
      OthersKeepCarrier(mv, w, c);
    }
    forall p: Uid | AboutToMark(w.stage, machines, p)
      ensures NothingMarkableBelow(machines, p)
    {
      assert AboutToMark(w.stage, w.fleet.machines, p);
      OthersKeepBelow(mv, w.fleet, p);
    }
    if w.stage.Started? {
      forall v | v in machines
        ensures !Comeback(GetUpgradeInstructions(w.stage.oa), machines[v])
      {
        assert v in w.fleet.machines ==> InTurn(w.fleet.machines, v);
        OthersBringNothingBack(mv, w.fleet, GetUpgradeInstructions(w.stage.oa), v);
      }
    }
  }

  lemma JoinKeepsSound(w: World, u: Uid, running: string)
    requires Sound(w) && u !in w.fleet.born && SafeToJoin(w, u)
    ensures Sound(Stepped(Joins(u, running), w))
  {
    var w' := Stepped(Joins(u, running), w);
    forall v | v in w'.fleet.machines
      ensures InTurn(w'.fleet.machines, v)
    {
      assert v != u ==> InTurn(w.fleet.machines, v);
    }
    forall p: Uid | AboutToMark(w'.stage, w'.fleet.machines, p)
      ensures StillItsTurn(GetUpgradeInstructions(w.stage.oa), w.stage.owned, w'.fleet.machines, p)
    {
      assert AboutToMark(w.stage, w.fleet.machines, p);
    }
  }

  lemma JoinKeepsOrderly(w: World, u: Uid, running: string)
    requires Orderly(w) && u !in w.fleet.born && SafeToJoin(w, u)
    ensures Orderly(Stepped(Joins(u, running), w))
  {
    var w' := Stepped(Joins(u, running), w);
    JoinKeepsSound(w, u, running);
    forall c | Carries(w'.fleet.machines, c)
      ensures Carries(w.fleet.machines, c)
      ensures NothingMarkableBelow(w.fleet.machines, c) ==> NothingMarkableBelow(w'.fleet.machines, c)
    {
    }
    if Harmless(w) {
      forall p: Uid | AboutToMark(w'.stage, w'.fleet.machines, p)
        ensures NothingMarkableBelow(w'.fleet.machines, p)
      {
        assert AboutToMark(w.stage, w.fleet.machines, p);
      }
      assert Harmless(w');
    } else {
      var to :| Aligned(to, w);
      assert Aligned(to, w');
    }
  }

  /** Whoever is on its way is going where the pass would send it, or has nothing below it to mark. */
  ghost predicate PassRespects(w: World) {
    !w.stage.Idle? && forall c :: Carries(w.fleet.machines, c) ==>
      || w.fleet.machines[c].ann.upgradeTo.value == GetUpgradeInstructions(w.stage.oa)
      || NothingMarkableBelow(w.fleet.machines, c)
  }

  /** A pass that is about to mark a machine of the list it has just read finds nobody on its way. */
  lemma ListedMeansFree(w: World, p: Uid)
    requires Sound(w) && w.stage.Started? && PassRespects(w)
    requires AboutToMark(Stepped(ListMachines, w).stage, w.fleet.machines, p)
    ensures StillItsTurn(GetUpgradeInstructions(w.stage.oa), w.fleet.machines, w.fleet.machines, p)
  {
    var to, machines := GetUpgradeInstructions(w.stage.oa), w.fleet.machines;
    assert InTurn(machines, p);
    forall c | c in machines
      ensures machines[c].ann.upgradeTo.None?
    {
      assert InTurn(machines, c);
      assert c < p ==> IsUpgraded(machines[c].ann, to);
      assert Carries(machines, c) && p < c ==> !NothingMarkableBelow(machines, c);
    }
  }

  lemma ListKeepsSound(w: World)
    requires Sound(w) && w.stage.Started? && PassRespects(w)
    ensures Sound(Stepped(ListMachines, w))
  {
    var w' := Stepped(ListMachines, w);
    var to := GetUpgradeInstructions(w.stage.oa);
    if AllUp(to, w'.stage.owned) {
      forall u | u in w.fleet.machines
        ensures w.fleet.machines[u].ann.upgradeTo.None?
      {
        assert InTurn(w.fleet.machines, u);
      }
    }
    forall p: Uid | AboutToMark(w'.stage, w'.fleet.machines, p)
      ensures StillItsTurn(to, w'.stage.owned, w'.fleet.machines, p)
    {
      ListedMeansFree(w, p);
    }
  }

  lemma ListKeepsOrderly(w: World)
    requires Orderly(w) && w.stage.Started?
    ensures Orderly(Stepped(ListMachines, w))
  {
    var w' := Stepped(ListMachines, w);
    ListKeepsSound(w);
    if Harmless(w) {
      forall p: Uid | AboutToMark(w'.stage, w'.fleet.machines, p)
        ensures NothingMarkableBelow(w'.fleet.machines, p)
      {
        forall v | v in w.fleet.machines && v < p
          ensures !Markable(w.fleet.machines[v])
        {
          assert IsUpgraded(w.fleet.machines[v].ann, GetUpgradeInstructions(w.stage.oa));
        }
      }
      assert Harmless(w');
    } else {
      var to :| Aligned(to, w);
      assert Aligned(to, w');
    }
  }

  /** The listed machine has not changed, so the mark is the whole mark. */
  lemma MarkIsComplete(w: World, u: Uid)
    requires Sound(w) && CanStep(MarkListed(u), w)
    ensures var to := GetUpgradeInstructions(w.stage.oa);
      && Enabled(Mark(to), w.fleet.machines[u])
      && StillItsTurn(to, w.stage.owned, w.fleet.machines, u)
      && Stepped(MarkListed(u), w).fleet == w.fleet.(machines := w.fleet.machines[u := Effect(Mark(to), w.fleet.machines[u])])
  {
  }

  lemma MarkKeepsSound(w: World, u: Uid)
    requires Sound(w) && CanStep(MarkListed(u), w)
    ensures Sound(Stepped(MarkListed(u), w))
    ensures forall c :: Carries(Stepped(MarkListed(u), w).fleet.machines, c) ==> c == u
  {
    var w' := Stepped(MarkListed(u), w);
    MarkIsComplete(w, u);
    forall v | v in w'.fleet.machines
      ensures InTurn(w'.fleet.machines, v)
    {
      assert InTurn(w.fleet.machines, v);
      if v == u {
        EffectKeepsConsistent(Mark(GetUpgradeInstructions(w.stage.oa)), w.fleet.machines[u]);
      }
    }
  }

  lemma MarkKeepsOrderly(w: World, u: Uid)
    requires Orderly(w) && CanStep(MarkListed(u), w)
    ensures Orderly(Stepped(MarkListed(u), w))
  {
    var w' := Stepped(MarkListed(u), w);
    MarkKeepsSound(w, u);
    MarkIsComplete(w, u);
    if Harmless(w) {
      assert Harmless(w');
    } else {
      var to :| Aligned(to, w);
      assert Aligned(to, w');
    }
  }

  /** Once a harmless pass is over, the next one may go by whatever the owner asks for then. */
  lemma HarmlessEndsAligned(w: World, owner: Annotations)
    requires Harmless(w)
    ensures Orderly(World(w.fleet.(owner := owner), Idle))
  {
    var to := if GetUpgradeInstructions(owner) == "" then "anything" else GetUpgradeInstructions(owner);
    assert Aligned(to, World(w.fleet.(owner := owner), Idle));
  }

  lemma ConcludeKeepsOrderly(w: World)
    requires Orderly(w) && CanStep(Conclude, w)
    ensures Orderly(Stepped(Conclude, w))
  {
    var w' := Stepped(Conclude, w);
    var to := if GetUpgradeInstructions(w'.fleet.owner) == "" then "anything" else GetUpgradeInstructions(w'.fleet.owner);
    assert Aligned(to, w');
  }

  /** The marks in-progress and failed keep the owner's target, or leave it without one. */
  lemma MarksKeepTarget(to: string, oa: Annotations, now: Annotations)
    requires GetUpgradeInstructions(oa) == to && GetUpgradeInstructions(now) in {to, ""}
    ensures GetUpgradeInstructions(MergePatch(now, oa, MarkedInProgress(oa, to))) in {to, ""}
    ensures GetUpgradeInstructions(MergePatch(now, oa, MarkedFailed(oa))) in {to, ""}
  {
  }

  lemma EndKeepsOrderly(step: Step, w: World)
    requires Orderly(w) && CanStep(step, w) && (step.ReportFailure? || step.MarkOwner? || step.Stop?)
    ensures Orderly(Stepped(step, w))
  {
    if Harmless(w) {
      HarmlessEndsAligned(w, Stepped(step, w).fleet.owner);
    } else {
      var to :| Aligned(to, w);
      if !w.fleet.ownerDeleting && !step.Stop? {
        MarksKeepTarget(to, w.stage.oa, w.fleet.owner);
      }
      assert Aligned(to, Stepped(step, w));
    }
  }

  lemma RetargetKeepsOrderly(w: World, ann: Annotations)
    requires Orderly(w) && SafeToRetarget(w, ann)
    ensures Orderly(Stepped(Retarget(ann), w))
  {
    var w', to := Stepped(Retarget(ann), w), GetUpgradeInstructions(ann);
    if Harmless(w) {
      assert Harmless(w');
    } else {
      var from :| Aligned(from, w);
      if w.fleet.ownerDeleting || to in {from, ""} {
        assert Aligned(from, w');
      } else {
        forall p | SentElsewhere(w, to, p)
          ensures NothingMarkableBelow(w'.fleet.machines, p)
        {
        }
        RetargetElsewhere(from, w, ann);
      }
    }
  }

  lemma RetargetElsewhere(from: string, w: World, ann: Annotations)
    requires Aligned(from, w) && SafeToRetarget(w, ann) && !w.fleet.ownerDeleting
    requires GetUpgradeInstructions(ann) !in {from, ""}
    ensures Orderly(Stepped(Retarget(ann), w))
  {
    var w', to := Stepped(Retarget(ann), w), GetUpgradeInstructions(ann);
    forall c | Carries(w.fleet.machines, c)
      ensures NothingMarkableBelow(w.fleet.machines, c)
    {
      assert w.fleet.machines[c].ann.upgradeTo.value != to ==> SentElsewhere(w, to, c);
    }
    if w.stage.Idle? {
      assert Aligned(to, w');
    } else {
      forall p: Uid | AboutToMark(w.stage, w.fleet.machines, p)
        ensures NothingMarkableBelow(w.fleet.machines, p)
      {
        assert SentElsewhere(w, to, p);
      }
      assert Harmless(w');
    }
  }

  lemma StepKeepsOrderly(step: Step, w: World)
    requires Orderly(w) && CanStep(step, w) && SafeMoment(step, w)
    ensures Orderly(Stepped(step, w))
  {
    match step {
      case ReadOwner =>
        var to :| Aligned(to, w);
        assert Aligned(to, Stepped(step, w));
      case ListMachines => ListKeepsOrderly(w);
      case MarkListed(u) => MarkKeepsOrderly(w, u);
      case Conclude => ConcludeKeepsOrderly(w);
      case Others(mv) =>
        if Harmless(w) {
          OthersKeepHarmless(mv, w);
        } else {
          var to :| Aligned(to, w);
          OthersKeepAligned(to, mv, w);
        }
      case Joins(u, running) => JoinKeepsOrderly(w, u, running);
      case Retarget(ann) => RetargetKeepsOrderly(w, ann);
      case _ => EndKeepsOrderly(step, w);
    }
  }

  // ----- Whole runs -----

  /** Machines join, and targets change, only at safe moments. */
  ghost predicate Careful(start: World, steps: seq<Step>) {
    forall i :: 0 <= i < |steps| && Trace(start, steps[..i]).Some? ==> SafeMoment(steps[i], Trace(start, steps[..i]).value)
  }

  lemma CarefulBefore(start: World, steps: seq<Step>)
    requires Careful(start, steps) && steps != [] && Trace(start, steps).Some?
    ensures var last := |steps| - 1;
      Careful(start, steps[..last]) && SafeMoment(steps[last], Trace(start, steps[..last]).value)
  {
    var last := |steps| - 1;
    forall i | 0 <= i < last
      ensures steps[..last][..i] == steps[..i]
    {
    }
  }

  lemma StartsAligned(to: string, start: World)
    requires Inv(to, start.fleet) && start.stage.Idle?
    ensures Aligned(to, start)
  {
    forall u | u in start.fleet.machines
      ensures InTurn(start.fleet.machines, u)
      ensures Carries(start.fleet.machines, u) ==> start.fleet.machines[u].ann.upgradeTo.value == to
    {
      assert InOrder(to, start.fleet.machines, u);
    }
  }

  lemma {:induction false} TraceKeepsOrderly(start: World, steps: seq<Step>)
    requires Orderly(start) && Careful(start, steps) && Trace(start, steps).Some?
    ensures Orderly(Trace(start, steps).value)
  {
    if steps != [] {
      var last := |steps| - 1;
      CarefulBefore(start, steps);
      TraceKeepsOrderly(start, steps[..last]);
      StepKeepsOrderly(steps[last], Trace(start, steps[..last]).value);
    }
  }

  /** Ordered without a lock, while machines join and targets change: whatever the passes, the machines
      and their controllers do, and wherever a pass is cut short, everything below a machine on its way
      is upgraded to where it is going, as long as machines join and targets change at safe moments. */
  lemma CarefulRunsAreSerial(to: string, start: World, steps: seq<Step>)
    requires Init(to, start.fleet) && start.stage.Idle?
    requires Careful(start, steps) && Trace(start, steps).Some?
    ensures var w := Trace(start, steps).value;
      Orderly(w) && Serial(w.fleet.machines)
      && forall a, b :: Carries(w.fleet.machines, a) && Carries(w.fleet.machines, b) ==> a == b
  {
    StartsAligned(to, start);
    TraceKeepsOrderly(start, steps);
    var w := Trace(start, steps).value;
    OrderlyIsSerial(w);
    forall a, b | Carries(w.fleet.machines, a) && Carries(w.fleet.machines, b)
      ensures a == b
    {
      OrderlyIsExclusive(w, a, b);
    }
  }

  /** What everybody else can do at any point of a pass: machines join, anywhere in the order, and go; the
      owner is given other annotations, or deleted; and each machine's own upgrade goes on. */
  lemma WorldInPlainTerms(w: World, u: Uid, running: string, ann: Annotations, a: Action)
    ensures u !in w.fleet.born ==>
      && CanStep(Joins(u, running), w)
      && Stepped(Joins(u, running), w) == w.(fleet := w.fleet.(
           machines := w.fleet.machines[u := Machine(Annotations(None, None, None, None, None), false, Node(running, []))],
           born := w.fleet.born + {u}))
    ensures u in w.fleet.machines ==>
      CanStep(Others(Gone(u)), w) && Stepped(Others(Gone(u)), w) == w.(fleet := w.fleet.(machines := w.fleet.machines - {u}))
    ensures u in w.fleet.machines && !a.Mark? && Enabled(a, w.fleet.machines[u]) ==>
      && CanStep(Others(OnMachine(u, a)), w)
      && Stepped(Others(OnMachine(u, a)), w) == w.(fleet := w.fleet.(machines := w.fleet.machines[u := Effect(a, w.fleet.machines[u])]))
    ensures CanStep(Retarget(ann), w) && Stepped(Retarget(ann), w) == w.(fleet := w.fleet.(owner := ann))
    ensures CanStep(Others(DeleteOwner), w) && Stepped(Others(DeleteOwner), w) == w.(fleet := w.fleet.(ownerDeleting := true))
    ensures CanStep(Stop, w) && Stepped(Stop, w) == w.(stage := Idle)
  {
  }
}
