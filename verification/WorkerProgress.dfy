/** Once crashes and refresh failures stop, the orchestrated upgrade of the workers completes. */
module WorkerProgress {
  import opened Prelude
  import opened InPlace
  import opened MachineUpgrade
  import opened WorkerUpgrade
  import P = ControlPlaneProgress
  import SnapOption

  /** One undisturbed pass of a controller, or a node finishing a refresh successfully. */
  datatype Turn = Orchestrator(stop: Option<Uid>) | Controller(uid: Uid, now: string) | NodeFinishes(uid: Uid)

  predicate CanTurn(to: string, t: Turn, s: Fleet) {
    match t
    case Orchestrator(stop) => StopFits(s, to, stop)
    case Controller(u, now) => u in s.machines && now != ""
    case NodeFinishes(u) => u in s.machines && Enabled(Complete(Succeeded), s.machines[u])
  }

  function Turned(to: string, t: Turn, s: Fleet): Fleet
    requires CanTurn(to, t, s)
  {
    match t
    case Orchestrator(stop) => WorkerPass(s, stop)
    case Controller(u, now) => s.(machines := s.machines[u := Pass(s.machines[u], now)])
    case NodeFinishes(u) => s.(machines := s.machines[u := Effect(Complete(Succeeded), s.machines[u])])
  }

  /** A machine that is not being upgraded carries no mark of a failure. */
  predicate Clean(m: Machine) {
    m.ann.upgradeTo.None? ==> !IsMachineUpgradeFailed(m.ann)
  }

  predicate OwnerFollows(owner: Annotations, m: Machine) {
    owner.upgradeTo.None? && m.ann.upgradeTo.Some? ==> P.OnCourse(m)
  }

  /** The owner still asks for the target and, unless it holds it as upgrade-to, no machine being
      upgraded has failed, whatever the crashes between the writes; nobody is being deleted. */
  ghost predicate OnTarget(to: string, s: Fleet) {
    && Inv(to, s) && SnapOption.Decodable(to)
    && GetUpgradeInstructions(s.owner) == to && !s.ownerDeleting
    && forall u :: u in s.machines ==> Clean(s.machines[u]) && OwnerFollows(s.owner, s.machines[u]) && !s.machines[u].deleting
  }

  predicate AllDone(to: string, s: Fleet) {
    AllUpgraded(s, to) && P.OwnerIsDone(to, s.owner)
  }

  function Measure(to: string, s: Fleet, uids: seq<Uid>): nat {
    P.Total(to, s.machines, uids) + P.OwnerWeight(to, s.owner)
  }

  /** uids lists every machine, once. */
  ghost predicate Lists(uids: seq<Uid>, s: Fleet) {
    && (forall i, j :: 0 <= i < j < |uids| ==> uids[i] != uids[j])
    && forall u :: u in s.machines ==> u in uids
  }

  // ----- Each turn keeps the invariants and makes the measure smaller -----

  /** What a turn may make of one machine. */
  predicate Advances(m: Machine, m': Machine) {
    && m'.deleting == m.deleting
    && if m.ann.upgradeTo.None? then m'.ann == m.ann
       else if m'.ann.upgradeTo.None? then m'.ann.release == m.ann.upgradeTo && m'.ann.lastFailed.None?
       else m'.ann.upgradeTo == m.ann.upgradeTo
  }

  lemma PassAdvances(m: Machine, now: string)
    requires Consistent(m) && now != ""
    ensures Consistent(Pass(m, now)) && Advances(m, Pass(m, now))
  {
    P.PassKeepsConsistent(m, now);
  }

  lemma OneMachineKeepsOnTarget(to: string, s: Fleet, u: Uid, m': Machine)
    requires OnTarget(to, s) && u in s.machines && Consistent(m') && Advances(s.machines[u], m')
    requires OwnerFollows(s.owner, m')
    ensures OnTarget(to, s.(machines := s.machines[u := m']))
  {
    var s' := s.(machines := s.machines[u := m']);
    assert InOrder(to, s.machines, u) && Clean(s.machines[u]) && OwnerFollows(s.owner, s.machines[u]);
    OneMachineKeepsOrder(to, s.machines, u, m');
    assert Clean(m') && OwnerFollows(s.owner, m');
    forall v | v in s'.machines
      ensures Clean(s'.machines[v]) && OwnerFollows(s'.owner, s'.machines[v]) && !s'.machines[v].deleting
    {
      assert v != u ==> Clean(s.machines[v]) && OwnerFollows(s.owner, s.machines[v]);
    }
  }

  lemma OneMachineKeepsOrder(to: string, machines: map<Uid, Machine>, u: Uid, m': Machine)
    requires u in machines && Consistent(m') && Advances(machines[u], m')
    requires forall v :: v in machines ==> InOrder(to, machines, v)
    ensures forall v :: v in machines ==> InOrder(to, machines[u := m'], v)
  {
    assert InOrder(to, machines, u);
    forall v | v in machines
      ensures InOrder(to, machines[u := m'], v)
    {
      assert InOrder(to, machines, v);
      assert UpgradedBelow(to, machines, v) ==> UpgradedBelow(to, machines[u := m'], v);
    }
  }

  lemma OrchestratorKeepsOrder(to: string, s: Fleet, stop: Option<Uid>, u: Uid)
    requires OnTarget(to, s) && StopFits(s, to, stop) && u in s.machines
    ensures InOrder(to, WorkerPass(s, stop).machines, u)
  {
    var s' := WorkerPass(s, stop);
    assert InOrder(to, s.machines, u);
    if stop == Some(u) && s'.machines[u] != s.machines[u] {
      EffectKeepsConsistent(Mark(to), s.machines[u]);
    } else if stop.Some? && u != stop.value {
      assert InOrder(to, s.machines, stop.value);
    }
  }

  lemma OrchestratorKeepsOnTarget(to: string, s: Fleet, stop: Option<Uid>)
    requires OnTarget(to, s) && StopFits(s, to, stop)
    ensures OnTarget(to, WorkerPass(s, stop))
  {
    var s' := WorkerPass(s, stop);
    if stop.Some? {
      assert InOrder(to, s.machines, stop.value) && OwnerFollows(s.owner, s.machines[stop.value]) && Clean(s.machines[stop.value]);
    }
    forall u | u in s'.machines
      ensures InOrder(to, s'.machines, u)
      ensures Clean(s'.machines[u]) && OwnerFollows(s'.owner, s'.machines[u])
    {
      OrchestratorKeepsOrder(to, s, stop, u);
      assert Clean(s.machines[u]) && OwnerFollows(s.owner, s.machines[u]);
    }
  }

  lemma TurnKeepsOnTarget(to: string, t: Turn, s: Fleet)
    requires OnTarget(to, s) && CanTurn(to, t, s)
    ensures OnTarget(to, Turned(to, t, s))
  {
    match t {
      case Orchestrator(stop) => OrchestratorKeepsOnTarget(to, s, stop);
      case Controller(u, now) =>
        assert InOrder(to, s.machines, u);
        PassAdvances(s.machines[u], now);
        assert OwnerFollows(s.owner, s.machines[u]);
        if s.owner.upgradeTo.None? {
          P.PassStaysOnCourse(s.machines[u], now);
        }
        OneMachineKeepsOnTarget(to, s, u, Pass(s.machines[u], now));
      case NodeFinishes(u) =>
        assert InOrder(to, s.machines, u);
        EffectKeepsConsistent(Complete(Succeeded), s.machines[u]);
        assert OwnerFollows(s.owner, s.machines[u]);
        if s.owner.upgradeTo.None? {
          P.FinishStaysOnCourse(s.machines[u]);
        }
        OneMachineKeepsOnTarget(to, s, u, Effect(Complete(Succeeded), s.machines[u]));
    }
  }

  lemma OneMachineShrinks(to: string, s: Fleet, u: Uid, m': Machine, uids: seq<Uid>)
    requires Lists(uids, s) && u in s.machines && P.Weight(to, m') < P.Weight(to, s.machines[u])
    ensures Measure(to, s.(machines := s.machines[u := m']), uids) < Measure(to, s, uids)
  {
    P.TotalUpdate(to, s.machines, u, m', uids);
  }

  lemma OrchestratorShrinks(to: string, s: Fleet, stop: Option<Uid>, uids: seq<Uid>)
    requires OnTarget(to, s) && StopFits(s, to, stop) && Lists(uids, s)
    requires WorkerPass(s, stop) != s
    ensures Measure(to, WorkerPass(s, stop), uids) < Measure(to, s, uids)
  {
    if stop.Some? {
      var u := stop.value;
      assert InOrder(to, s.machines, u) && OwnerFollows(s.owner, s.machines[u]) && Clean(s.machines[u]);
      if s.machines[u].ann.upgradeTo.None? {
        P.MarkShrinks(to, s.machines[u]);
        P.TotalUpdate(to, s.machines, u, s.machines[u].(ann := MarkedToUpgrade(to)), uids);
      }
    }
  }

  lemma TurnShrinks(to: string, t: Turn, s: Fleet, uids: seq<Uid>)
    requires OnTarget(to, s) && CanTurn(to, t, s) && Lists(uids, s)
    ensures Turned(to, t, s) != s ==> Measure(to, Turned(to, t, s), uids) < Measure(to, s, uids)
  {
    if Turned(to, t, s) != s {
      match t {
        case Orchestrator(stop) => OrchestratorShrinks(to, s, stop, uids);
        case Controller(u, now) =>
          assert s.machines[u := s.machines[u]] == s.machines;
          ControllerShrinks(to, s, u, now, uids);
        case NodeFinishes(u) => NodeShrinks(to, s, u, uids);
      }
    }
  }

  lemma ControllerShrinks(to: string, s: Fleet, u: Uid, now: string, uids: seq<Uid>)
    requires OnTarget(to, s) && Lists(uids, s) && u in s.machines && now != ""
    requires Pass(s.machines[u], now) != s.machines[u]
    ensures Measure(to, s.(machines := s.machines[u := Pass(s.machines[u], now)]), uids) < Measure(to, s, uids)
  {
    assert InOrder(to, s.machines, u);
    P.PassShrinks(to, s.machines[u], now);
    OneMachineShrinks(to, s, u, Pass(s.machines[u], now), uids);
  }

  lemma NodeShrinks(to: string, s: Fleet, u: Uid, uids: seq<Uid>)
    requires OnTarget(to, s) && CanTurn(to, NodeFinishes(u), s) && Lists(uids, s)
    ensures Measure(to, Turned(to, NodeFinishes(u), s), uids) < Measure(to, s, uids)
  {
    assert InOrder(to, s.machines, u);
    P.FinishShrinks(to, s.machines[u]);
    OneMachineShrinks(to, s, u, Effect(Complete(Succeeded), s.machines[u]), uids);
  }

  // ----- Whole runs -----

  function TurnsRun(to: string, start: Fleet, turns: seq<Turn>): Option<Fleet>
    decreases |turns|
  {
    if turns == [] then Some(start)
    else if CanTurn(to, turns[0], start) && Turned(to, turns[0], start) != start
    then TurnsRun(to, Turned(to, turns[0], start), turns[1..])
    else None
  }

  ghost predicate AtRest(to: string, s: Fleet) {
    forall t :: CanTurn(to, t, s) ==> Turned(to, t, s) == s
  }

  lemma FinishingChanges(to: string, s: Fleet, u: Uid)
    requires u in s.machines && Enabled(Complete(Succeeded), s.machines[u])
    ensures CanTurn(to, NodeFinishes(u), s) && Turned(to, NodeFinishes(u), s) != s
  {
    assert Turned(to, NodeFinishes(u), s).machines[u] != s.machines[u];
  }

  lemma NothingToFinish(to: string, s: Fleet, u: Uid)
    requires AtRest(to, s) && u in s.machines
    ensures OldestPending(s.machines[u].node.changes) == |s.machines[u].node.changes|
  {
    if Enabled(Complete(Succeeded), s.machines[u]) {
      FinishingChanges(to, s, u);
    }
  }

  lemma PassRests(to: string, s: Fleet, u: Uid)
    requires AtRest(to, s) && u in s.machines
    ensures Pass(s.machines[u], "now") == s.machines[u]
  {
    assert CanTurn(to, Controller(u, "now"), s);
    assert Turned(to, Controller(u, "now"), s).machines[u] == Pass(s.machines[u], "now");
  }

  lemma NobodyUpgradingAtRest(to: string, s: Fleet, u: Uid)
    requires OnTarget(to, s) && AtRest(to, s) && u in s.machines
    ensures s.machines[u].ann.upgradeTo.None?
  {
    assert InOrder(to, s.machines, u);
    NothingToFinish(to, s, u);
    PassRests(to, s, u);
  }

  lemma {:induction false} LeastNotUpgraded(to: string, machines: map<Uid, Machine>, u: Uid) returns (v: Uid)
    requires u in machines && !IsUpgraded(machines[u].ann, to)
    ensures v in machines && !IsUpgraded(machines[v].ann, to) && UpgradedBelow(to, machines, v)
    decreases u
  {
    if UpgradedBelow(to, machines, u) {
      v := u;
    } else {
      var w :| w in machines && w < u && !IsUpgraded(machines[w].ann, to);
      v := LeastNotUpgraded(to, machines, w);
    }
  }

  lemma SomeStop(to: string, s: Fleet) returns (stop: Option<Uid>)
    ensures StopFits(s, to, stop)
  {
    stop := None;
    if !AllUpgraded(s, to) {
      var u :| u in s.machines && !IsUpgraded(s.machines[u].ann, to);
      var v := LeastNotUpgraded(to, s.machines, u);
      stop := Some(v);
    }
  }

  /** A machine that is stopped at and is not being upgraded yet is started. */
  lemma StopsStart(to: string, s: Fleet, u: Uid)
    requires OnTarget(to, s) && StopFits(s, to, Some(u)) && s.machines[u].ann.upgradeTo.None?
    ensures WorkerPass(s, Some(u)) != s
  {
    assert Clean(s.machines[u]) && InOrder(to, s.machines, u);
    assert WorkerPass(s, Some(u)).machines[u].ann == MarkedToUpgrade(to);
  }

  /** Nothing is left to do exactly when every machine is upgraded and the owner is marked done. */
  lemma RestIsComplete(to: string, s: Fleet)
    requires OnTarget(to, s)
    ensures AtRest(to, s) <==> AllDone(to, s)
  {
    if AtRest(to, s) {
      var stop := SomeStop(to, s);
      assert CanTurn(to, Orchestrator(stop), s);
      assert Turned(to, Orchestrator(stop), s) == s;
      if stop.Some? {
        NobodyUpgradingAtRest(to, s, stop.value);
        StopsStart(to, s, stop.value);
      }
    }
    if AllDone(to, s) {
      forall t | CanTurn(to, t, s)
        ensures Turned(to, t, s) == s
      {
        if !t.Orchestrator? {
          assert InOrder(to, s.machines, t.uid);
          assert s.machines[t.uid := s.machines[t.uid]] == s.machines;
        }
      }
    }
  }

  /** The upgrade of the workers completes: a run of turns that each change something is no longer
      than the measure of its start, and one that cannot be continued has every machine upgraded
      and the owner marked done with the target kept. */
  lemma {:induction false} UpgradeCompletes(to: string, start: Fleet, turns: seq<Turn>, uids: seq<Uid>)
    requires OnTarget(to, start) && Lists(uids, start) && TurnsRun(to, start, turns).Some?
    ensures |turns| <= Measure(to, start, uids)
    ensures AtRest(to, TurnsRun(to, start, turns).value) <==> AllDone(to, TurnsRun(to, start, turns).value)
    decreases |turns|
  {
    if turns == [] {
      RestIsComplete(to, start);
    } else {
      TurnKeepsOnTarget(to, turns[0], start);
      TurnShrinks(to, turns[0], start, uids);
      UpgradeCompletes(to, Turned(to, turns[0], start), turns[1..], uids);
    }
  }

  // ----- The owner's target -----

  /** The pass stops at a machine that failed, and reports it. */
  predicate ReportsFailure(s: Fleet, stop: Option<Uid>) {
    && GetUpgradeInstructions(s.owner) != "" && !s.ownerDeleting
    && stop.Some? && stop.value in s.machines && !s.machines[stop.value].deleting
    && IsMachineUpgradeFailed(s.machines[stop.value].ann)
  }

  /** A pass keeps what the owner asks for, except exactly when it reports a failure on an owner
      that holds its target as release alone. */
  lemma PassKeepsTarget(s: Fleet, stop: Option<Uid>)
    requires stop.Some? ==> stop.value in s.machines
    ensures GetUpgradeInstructions(WorkerPass(s, stop).owner) == GetUpgradeInstructions(s.owner)
       <==> !(ReportsFailure(s, stop) && s.owner.upgradeTo.None?)
  {
  }

  /** A lost target stays lost. */
  lemma LostTargetStops(s: Fleet, stop: Option<Uid>, later: Option<Uid>)
    requires ReportsFailure(s, stop) && s.owner.upgradeTo.None? && (later.Some? ==> later.value in s.machines)
    ensures var s' := WorkerPass(s, stop); WorkerPass(s', later) == s'
  {
  }

  /** That state is reached if the orchestrator dies between marking a machine and marking an owner
      that holds the target as release, and the refresh of that machine then fails. */
  lemma LostTargetIsReachable(to: string, u: Uid) returns (start: Fleet, moves: seq<Move>, s: Fleet)
    requires SnapOption.Decodable(to) && to != ""
    ensures Init(to, start) && Run(to, start, moves) == Some(s)
    ensures StopFits(s, to, Some(u)) && ReportsFailure(s, Some(u)) && s.owner.upgradeTo.None?
  {
    start := Fleet(map[u := Machine(NO_ANNOTATIONS, false, Node("", []))], {u}, MarkedDone(NO_ANNOTATIONS, to), false);
    moves, s := [], start;
    moves, s := Then(to, start, moves, s, MarkMachine(u));
    moves, s := FailingRefresh(to, start, moves, s, u);
  }

  lemma FailingRefresh(to: string, start: Fleet, moves: seq<Move>, s: Fleet, u: Uid) returns (moves': seq<Move>, s': Fleet)
    requires SnapOption.Decodable(to) && Run(to, start, moves) == Some(s)
    requires u in s.machines && s.machines[u] == Machine(MarkedToUpgrade(to), false, Node("", []))
    ensures Run(to, start, moves') == Some(s') && u in s'.machines && s' == s.(machines := s.machines[u := s'.machines[u]])
    ensures var m := s'.machines[u]; IsMachineUpgradeFailed(m.ann) && m.ann.release.None? && !m.deleting
  {
    var m := s.machines[u];
    moves', s' := OnOne(to, start, moves, s, u, IssueRefresh);
    m := m.(node := Node("", [Change(to, Pending)]));
    moves', s' := OnOne(to, start, moves', s', u, RecordChange(0));
    m := m.(ann := m.ann.(status := Some(InProgress), changeId := Some(0)));
    moves', s' := OnOne(to, start, moves', s', u, Complete(Errored));
    m := m.(node := Node("", [Change(to, Errored)]));
    moves', s' := OnOne(to, start, moves', s', u, RecordFailed("then"));
    m := m.(ann := m.ann.(status := Some(UpgradeFailed), lastFailed := Some("then")));
    assert s'.machines[u] == m;
  }

  lemma OnOne(to: string, start: Fleet, moves: seq<Move>, s: Fleet, u: Uid, a: Action) returns (moves': seq<Move>, s': Fleet)
    requires Run(to, start, moves) == Some(s)
    requires u in s.machines && !a.Mark? && Enabled(a, s.machines[u])
    ensures Run(to, start, moves') == Some(s') && s' == s.(machines := s.machines[u := Effect(a, s.machines[u])])
  {
    moves', s' := Then(to, start, moves, s, OnMachine(u, a));
  }

  lemma Then(to: string, start: Fleet, moves: seq<Move>, s: Fleet, mv: Move) returns (moves': seq<Move>, s': Fleet)
    requires Run(to, start, moves) == Some(s) && CanMove(to, mv, s)
    ensures Run(to, start, moves') == Some(s') && s' == Moved(to, mv, s)
  {
    RunSnoc(to, start, moves, mv);
    moves', s' := moves + [mv], Moved(to, mv, s);
  }
}
