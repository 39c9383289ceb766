/** Once crashes and refresh failures stop, the orchestrated upgrade completes: every pass and
    every finished refresh that changes anything makes a measure smaller, and the only states
    in which nothing is left to do are the finished ones. */
module ControlPlaneProgress {
  import opened Prelude
  import opened InPlace
  import opened MachineUpgrade
  import opened ControlPlaneUpgrade
  import opened ControlPlanePass
  import SnapOption

  /** One undisturbed pass of a controller, or a node finishing a refresh successfully. */
  datatype Turn = Orchestrator(pick: Option<Name>) | Controller(name: Name, now: string) | NodeFinishes(name: Name)

  ghost predicate CanTurn(t: Turn, s: Cluster) {
    match t
    case Orchestrator(pick) => Scans(s) ==> PickFits(s, GetUpgradeInstructions(s.owner.ann), pick)
    case Controller(n, now) => n in s.machines && now != ""
    case NodeFinishes(n) => n in s.machines && Enabled(Complete(Succeeded), s.machines[n])
  }

  ghost function Turned(t: Turn, s: Cluster): Cluster
    requires CanTurn(t, s)
  {
    match t
    case Orchestrator(pick) => OrchestratorPass(s, pick)
    case Controller(n, now) => s.(machines := s.machines[n := Pass(s.machines[n], now)])
    case NodeFinishes(n) => s.(machines := s.machines[n := Effect(Complete(Succeeded), s.machines[n])])
  }

  /** No refresh of the machine has failed so far: nothing is recorded yet, or the recorded change is
      pending or succeeded. */
  predicate OnCourse(m: Machine) {
    && !IsMachineUpgradeFailed(m.ann)
    && (m.ann.changeId.Some? ==>
          && m.node.changes != [] && LastChange(m.node).result in {ChangeResult.Pending, Succeeded}
          && m.ann.status in {Some(InProgress), Some(Done)})
  }

  /** Every reachable state in which the owner still asks for the target and, unless it holds it as
      upgrade-to, no machine being upgraded has failed: whatever the crashes between the writes. */
  ghost predicate OnTarget(to: string, s: Cluster) {
    && Inv(to, s)
    && SnapOption.Decodable(to)
    && GetUpgradeInstructions(s.owner.ann) == to
    && (s.owner.ann.upgradeTo.None? ==>
          forall n :: n in s.machines && s.machines[n].ann.upgradeTo.Some? ==> OnCourse(s.machines[n]))
  }

  predicate OwnerIsDone(to: string, ann: Annotations) {
    ann == MarkedDone(ann, to)
  }

  ghost predicate AllDone(to: string, s: Cluster) {
    AllUpgraded(s, to) && s.lock.None? && OwnerIsDone(to, s.owner.ann)
  }

  // ----- The measure -----

  function CountPending(changes: seq<Change>): nat {
    if changes == [] then 0 else (if changes[0].result.Pending? then 1 else 0) + CountPending(changes[1..])
  }

  lemma {:induction false} CountAppend(changes: seq<Change>, c: Change)
    ensures CountPending(changes + [c]) == CountPending(changes) + (if c.result.Pending? then 1 else 0)
  {
    if changes == [] {
      assert changes + [c] == [c];
    } else {
      assert (changes + [c])[1..] == changes[1..] + [c];
      CountAppend(changes[1..], c);
    }
  }

  lemma {:induction false} CountSettle(changes: seq<Change>, i: nat, c: Change)
    requires i < |changes| && changes[i].result.Pending? && !c.result.Pending?
    ensures CountPending(changes[i := c]) == CountPending(changes) - 1
  {
    if i == 0 {
      assert changes[i := c][1..] == changes[1..];
    } else {
      assert changes[i := c][1..] == changes[1..][i - 1 := c];
      CountSettle(changes[1..], i - 1, c);
    }
  }

  lemma {:induction false} CountZero(changes: seq<Change>)
    requires forall i :: 0 <= i < |changes| ==> !changes[i].result.Pending?
    ensures CountPending(changes) == 0
  {
    if changes != [] {
      CountZero(changes[1..]);
    }
  }

  /** How far a machine is from being upgraded. */
  function Weight(to: string, m: Machine): nat {
    var pending := CountPending(m.node.changes);
    if IsUpgraded(m.ann, to) then 0
    else if m.ann.upgradeTo.None? then 10
    else if m.ann.changeId.None? then 6 + pending
    else match m.ann.status
      case Some(InProgress) =>
        if m.node.changes != [] && (LastChange(m.node).result.Pending? || LastChange(m.node).result.Succeeded?)
        then 3 + pending else 9 + pending
      case Some(Done) => 2
      case Some(UpgradeFailed) => 7 + pending
      case _ => 8 + pending
  }

  function Total<K(==)>(to: string, machines: map<K, Machine>, names: seq<K>): nat {
    if names == [] then 0
    else (if names[0] in machines then Weight(to, machines[names[0]]) else 0) + Total(to, machines, names[1..])
  }

  function OwnerWeight(to: string, ann: Annotations): nat {
    if OwnerIsDone(to, ann) then 0 else if ann == MarkedFailed(ann) then 1 else 2
  }

  function Measure(to: string, s: Cluster, names: seq<Name>): nat {
    Total(to, s.machines, names) + (if s.lock.Some? then 1 else 0) + OwnerWeight(to, s.owner.ann)
  }

  /** names lists every machine, once. */
  ghost predicate Lists(names: seq<Name>, s: Cluster) {
    && (forall i, j :: 0 <= i < j < |names| ==> names[i] != names[j])
    && forall n :: n in s.machines ==> n in names
  }

  lemma {:induction false} TotalSame<K>(to: string, machines: map<K, Machine>, n: K, m: Machine, names: seq<K>)
    requires n !in names
    ensures Total(to, machines[n := m], names) == Total(to, machines, names)
  {
    if names != [] {
      assert n !in names[1..];
      TotalSame(to, machines, n, m, names[1..]);
    }
  }

  lemma {:induction false} TotalUpdate<K>(to: string, machines: map<K, Machine>, n: K, m: Machine, names: seq<K>)
    requires forall i, j :: 0 <= i < j < |names| ==> names[i] != names[j]
    requires n in names && n in machines
    ensures Total(to, machines[n := m], names) == Total(to, machines, names) - Weight(to, machines[n]) + Weight(to, m)
  {
    if names[0] == n {
      TotalSame(to, machines, n, m, names[1..]);
    } else {
      TotalUpdate(to, machines, n, m, names[1..]);
    }
  }

  // ----- Each turn keeps the invariants and makes the measure smaller -----

  lemma RequestKeepsConsistent(m: Machine)
    requires Consistent(m) && m.ann.upgradeTo.Some? && m.ann.changeId.None?
    ensures Consistent(Requested(m)) && Requested(m).ann.upgradeTo == m.ann.upgradeTo
  {
    var cleared := Effect(ClearForRequest, m);
    EffectKeepsConsistent(ClearForRequest, m);
    if SnapOption.Decodable(m.ann.upgradeTo.value) {
      var issued := Effect(IssueRefresh, cleared);
      EffectKeepsConsistent(IssueRefresh, cleared);
      EffectKeepsConsistent(RecordChange(|m.node.changes|), issued);
    }
  }

  lemma RecordedPassKeepsConsistent(m: Machine, now: string)
    requires Consistent(m) && now != "" && m.ann.upgradeTo.Some? && m.ann.changeId.Some?
    ensures Consistent(Pass(m, now))
    ensures Pass(m, now).ann.upgradeTo in {m.ann.upgradeTo, None}
  {
    if m.ann.status == Some(Done) {
      EffectKeepsConsistent(Finish, m);
    } else if m.ann.status == Some(UpgradeFailed) {
      EffectKeepsConsistent(ResetFailed, m);
    } else if Enabled(RecordFailed(now), m) {
      EffectKeepsConsistent(RecordFailed(now), m);
    } else if Enabled(RecordDone, m) {
      EffectKeepsConsistent(RecordDone, m);
    }
  }

  lemma PassKeepsConsistent(m: Machine, now: string)
    requires Consistent(m) && now != ""
    ensures Consistent(Pass(m, now))
    ensures Pass(m, now).ann.upgradeTo in {m.ann.upgradeTo, None}
  {
    if m.ann.upgradeTo.None? {
    } else if m.ann.changeId.None? {
      RequestKeepsConsistent(m);
    } else {
      RecordedPassKeepsConsistent(m, now);
    }
  }

  lemma PassShrinks(to: string, m: Machine, now: string)
    requires Consistent(m) && now != "" && to != "" && SnapOption.Decodable(to)
    requires m.ann.upgradeTo in {Some(to), None}
    requires Pass(m, now) != m
    ensures Weight(to, Pass(m, now)) < Weight(to, m)
  {
    if m.ann.changeId.None? {
      CountAppend(m.node.changes, Change(to, Pending));
    }
  }

  lemma FinishShrinks(to: string, m: Machine)
    requires Consistent(m) && to != "" && Enabled(Complete(Succeeded), m)
    requires m.ann.upgradeTo in {Some(to), None}
    ensures Weight(to, Effect(Complete(Succeeded), m)) < Weight(to, m)
  {
    var i := OldestPending(m.node.changes);
    CountSettle(m.node.changes, i, m.node.changes[i].(result := Succeeded));
  }

  lemma MarkShrinks(to: string, m: Machine)
    requires Consistent(m) && m.ann.upgradeTo.None? && !IsUpgraded(m.ann, to)
    ensures to != "" ==> Weight(to, m) == 10 && Weight(to, m.(ann := MarkedToUpgrade(to))) == 6
  {
    CountZero(m.node.changes);
  }

  /** A machine other than the lock's holder is not being upgraded. */
  lemma IdleUnlessHeld(to: string, s: Cluster, n: Name)
    requires Inv(to, s) && n in s.machines && !HeldBy(s.lock, n)
    ensures Consistent(s.machines[n]) && s.machines[n].ann.upgradeTo.None?
  {
  }

  /** Undisturbed, a machine on course stays on course. */
  lemma PassStaysOnCourse(m: Machine, now: string)
    requires Consistent(m) && now != "" && (m.ann.upgradeTo.Some? ==> SnapOption.Decodable(m.ann.upgradeTo.value) && OnCourse(m))
    ensures Pass(m, now).ann.upgradeTo.Some? ==> OnCourse(Pass(m, now))
  {
  }

  lemma FinishStaysOnCourse(m: Machine)
    requires Consistent(m) && Enabled(Complete(Succeeded), m) && (m.ann.upgradeTo.Some? ==> OnCourse(m))
    ensures m.ann.upgradeTo.Some? ==> OnCourse(Effect(Complete(Succeeded), m))
  {
  }

  lemma OrchestratorKeepsLine(to: string, s: Cluster, pick: Option<Name>, n: Name)
    requires OnTarget(to, s) && CanTurn(Orchestrator(pick), s) && n in s.machines
    ensures InLine(to, OrchestratorPass(s, pick).lock, n, OrchestratorPass(s, pick).machines[n])
  {
    assert InLine(to, s.lock, n, s.machines[n]);
    if pick == Some(n) && Scans(s) {
      EffectKeepsConsistent(Mark(to), s.machines[n]);
    }
  }

  lemma OrchestratorKeepsTarget(to: string, s: Cluster, pick: Option<Name>)
    requires OnTarget(to, s) && CanTurn(Orchestrator(pick), s)
    ensures GetUpgradeInstructions(OrchestratorPass(s, pick).owner.ann) == to
  {
    if !Scans(s) && s.lock.Some? && s.lock.value.holder.Some? && s.lock.value.holder.value in s.machines {
      assert InLine(to, s.lock, s.lock.value.holder.value, s.machines[s.lock.value.holder.value]);
    }
  }

  lemma OrchestratorKeepsCourse(to: string, s: Cluster, pick: Option<Name>, n: Name)
    requires OnTarget(to, s) && CanTurn(Orchestrator(pick), s) && n in s.machines
    ensures var s' := OrchestratorPass(s, pick);
      s'.owner.ann.upgradeTo.None? && s'.machines[n].ann.upgradeTo.Some? ==> OnCourse(s'.machines[n])
  {
    assert InLine(to, s.lock, n, s.machines[n]);
  }

  lemma OrchestratorKeepsInv(to: string, s: Cluster, pick: Option<Name>)
    requires OnTarget(to, s) && CanTurn(Orchestrator(pick), s)
    ensures OnTarget(to, OrchestratorPass(s, pick))
  {
    var s' := OrchestratorPass(s, pick);
    OrchestratorKeepsTarget(to, s, pick);
    forall n | n in s'.machines
      ensures InLine(to, s'.lock, n, s'.machines[n])
      ensures s'.owner.ann.upgradeTo.None? && s'.machines[n].ann.upgradeTo.Some? ==> OnCourse(s'.machines[n])
    {
      OrchestratorKeepsLine(to, s, pick, n);
      OrchestratorKeepsCourse(to, s, pick, n);
    }
  }

  lemma OrchestratorShrinks(to: string, s: Cluster, pick: Option<Name>, names: seq<Name>)
    requires OnTarget(to, s) && CanTurn(Orchestrator(pick), s) && Lists(names, s)
    requires OrchestratorPass(s, pick) != s
    ensures Measure(to, OrchestratorPass(s, pick), names) < Measure(to, s, names)
  {
    if Scans(s) && pick.Some? {
      var n := pick.value;
      IdleUnlessHeld(to, s, n);
      MarkShrinks(to, s.machines[n]);
      TotalUpdate(to, s.machines, n, s.machines[n].(ann := MarkedToUpgrade(to)), names);
    } else if !Scans(s) && s.lock.Some? && s.lock.value.holder.Some? {
      assert InLine(to, s.lock, s.lock.value.holder.value, s.machines[s.lock.value.holder.value]);
    }
  }

  lemma TurnKeepsOnTarget(to: string, t: Turn, s: Cluster)
    requires OnTarget(to, s) && CanTurn(t, s)
    ensures OnTarget(to, Turned(t, s))
  {
    match t {
      case Orchestrator(pick) =>
        OrchestratorKeepsInv(to, s, pick);
      case Controller(n, now) =>
        assert InLine(to, s.lock, n, s.machines[n]);
        PassKeepsConsistent(s.machines[n], now);
        if s.owner.ann.upgradeTo.None? {
          PassStaysOnCourse(s.machines[n], now);
        }
        OneMachineKeepsOnTarget(to, s, n, Pass(s.machines[n], now));
      case NodeFinishes(n) =>
        assert InLine(to, s.lock, n, s.machines[n]);
        EffectKeepsConsistent(Complete(Succeeded), s.machines[n]);
        if s.owner.ann.upgradeTo.None? {
          FinishStaysOnCourse(s.machines[n]);
        }
        OneMachineKeepsOnTarget(to, s, n, Effect(Complete(Succeeded), s.machines[n]));
    }
  }

  lemma OneMachineKeepsOnTarget(to: string, s: Cluster, n: Name, m': Machine)
    requires OnTarget(to, s) && n in s.machines
    requires Consistent(s.machines[n]) ==> Consistent(m') && m'.ann.upgradeTo in {s.machines[n].ann.upgradeTo, None}
    requires s.owner.ann.upgradeTo.None? && m'.ann.upgradeTo.Some? ==> OnCourse(m')
    ensures OnTarget(to, s.(machines := s.machines[n := m']))
  {
  }

  lemma TurnShrinks(to: string, t: Turn, s: Cluster, names: seq<Name>)
    requires OnTarget(to, s) && CanTurn(t, s) && Lists(names, s)
    ensures Turned(t, s) != s ==> Measure(to, Turned(t, s), names) < Measure(to, s, names)
  {
    if Turned(t, s) != s {
      match t {
        case Orchestrator(pick) => OrchestratorShrinks(to, s, pick, names);
        case Controller(n, now) =>
          assert s.machines[n := s.machines[n]] == s.machines;
          ControllerShrinks(to, s, n, now, names);
        case NodeFinishes(n) => NodeShrinks(to, s, n, names);
      }
    }
  }

  lemma NodeShrinks(to: string, s: Cluster, n: Name, names: seq<Name>)
    requires OnTarget(to, s) && Lists(names, s) && n in s.machines && Enabled(Complete(Succeeded), s.machines[n])
    ensures Measure(to, s.(machines := s.machines[n := Effect(Complete(Succeeded), s.machines[n])]), names) < Measure(to, s, names)
  {
    assert InLine(to, s.lock, n, s.machines[n]);
    FinishShrinks(to, s.machines[n]);
    OneMachineShrinks(to, s, n, Effect(Complete(Succeeded), s.machines[n]), names);
  }

  lemma ControllerShrinks(to: string, s: Cluster, n: Name, now: string, names: seq<Name>)
    requires OnTarget(to, s) && Lists(names, s) && n in s.machines && now != ""
    requires Pass(s.machines[n], now) != s.machines[n]
    ensures Measure(to, s.(machines := s.machines[n := Pass(s.machines[n], now)]), names) < Measure(to, s, names)
  {
    assert InLine(to, s.lock, n, s.machines[n]);
    PassShrinks(to, s.machines[n], now);
    OneMachineShrinks(to, s, n, Pass(s.machines[n], now), names);
  }

  lemma OneMachineShrinks(to: string, s: Cluster, n: Name, m': Machine, names: seq<Name>)
    requires Lists(names, s) && n in s.machines && Weight(to, m') < Weight(to, s.machines[n])
    ensures Measure(to, s.(machines := s.machines[n := m']), names) < Measure(to, s, names)
  {
    TotalUpdate(to, s.machines, n, m', names);
  }

  // ----- Whole runs -----

  ghost function TurnsRun(start: Cluster, turns: seq<Turn>): Option<Cluster>
    decreases |turns|
  {
    if turns == [] then Some(start)
    else if CanTurn(turns[0], start) && Turned(turns[0], start) != start
    then TurnsRun(Turned(turns[0], start), turns[1..])
    else None
  }

  /** A run of turns that each change something is no longer than the measure of its start,
      never loses the target, and so reaches a state in which no turn changes anything. */
  lemma {:induction false} UpgradeTerminates(to: string, start: Cluster, turns: seq<Turn>, names: seq<Name>)
    requires OnTarget(to, start) && Lists(names, start) && TurnsRun(start, turns).Some?
    ensures |turns| <= Measure(to, start, names)
    ensures OnTarget(to, TurnsRun(start, turns).value)
    decreases |turns|
  {
    if turns != [] {
      var next := Turned(turns[0], start);
      TurnKeepsOnTarget(to, turns[0], start);
      TurnShrinks(to, turns[0], start, names);
      UpgradeTerminates(to, next, turns[1..], names);
    }
  }

  ghost predicate AtRest(s: Cluster) {
    forall t :: CanTurn(t, s) ==> Turned(t, s) == s
  }

  lemma FinishingChanges(s: Cluster, n: Name)
    requires n in s.machines && Enabled(Complete(Succeeded), s.machines[n])
    ensures CanTurn(NodeFinishes(n), s) && Turned(NodeFinishes(n), s) != s
  {
    assert Turned(NodeFinishes(n), s).machines[n] != s.machines[n];
  }

  lemma NothingToFinish(s: Cluster, n: Name)
    requires AtRest(s) && n in s.machines
    ensures OldestPending(s.machines[n].node.changes) == |s.machines[n].node.changes|
  {
    if Enabled(Complete(Succeeded), s.machines[n]) {
      FinishingChanges(s, n);
    }
  }

  lemma NobodyUpgradingAtRest(to: string, s: Cluster, n: Name)
    requires OnTarget(to, s) && AtRest(s) && n in s.machines
    ensures s.machines[n].ann.upgradeTo.None?
  {
    assert InLine(to, s.lock, n, s.machines[n]);
    NothingToFinish(s, n);
    assert CanTurn(Controller(n, "now"), s);
    assert Turned(Controller(n, "now"), s).machines[n] == Pass(s.machines[n], "now");
  }

  lemma SomePick(s: Cluster, to: string) returns (pick: Option<Name>)
    ensures PickFits(s, to, pick)
  {
    if AllUpgraded(s, to) {
      pick := None;
    } else {
      var n :| n in s.machines && !IsUpgraded(s.machines[n].ann, to);
      pick := if s.machines[n].deleting then None else Some(n);
    }
  }

  lemma UnlockedAtRest(to: string, s: Cluster)
    requires OnTarget(to, s) && AtRest(s) && Acts(s.owner)
    requires s.lock.Some? ==> s.lock.value.holder.Some?
    ensures s.lock.None?
  {
    if s.lock.Some? && s.lock.value.holder.value in s.machines {
      NobodyUpgradingAtRest(to, s, s.lock.value.holder.value);
    }
    var pick := SomePick(s, to);
    assert CanTurn(Orchestrator(pick), s);
  }

  /** The only rest: with a ready owner, a readable lock and no machine being deleted, nothing
      is left to do exactly when every machine is upgraded, the lock is free and the owner is
      marked done. */
  lemma RestIsComplete(to: string, s: Cluster)
    requires OnTarget(to, s) && Acts(s.owner)
    requires s.lock.Some? ==> s.lock.value.holder.Some?
    requires forall n :: n in s.machines ==> !s.machines[n].deleting
    ensures AtRest(s) <==> AllDone(to, s)
  {
    if AtRest(s) {
      UnlockedAtRest(to, s);
      var pick := SomePick(s, to);
      assert CanTurn(Orchestrator(pick), s);
      assert Turned(Orchestrator(pick), s) == Scan(s, to, pick);
    }
    if AllDone(to, s) {
      forall t | CanTurn(t, s)
        ensures Turned(t, s) == s
      {
        if !t.Orchestrator? {
          IdleUnlessHeld(to, s, t.name);
          assert s.machines[t.name := s.machines[t.name]] == s.machines;
        }
      }
    }
  }

  /** Nothing outside the upgrade stands in its way. */
  ghost predicate Unobstructed(s: Cluster) {
    && !s.owner.deleting && MachinesAreReady(s.owner)
    && (s.lock.Some? ==> s.lock.value.holder.Some?)
    && forall n :: n in s.machines ==> !s.machines[n].deleting
  }

  lemma TurnKeepsUnobstructed(t: Turn, s: Cluster)
    requires Unobstructed(s) && CanTurn(t, s)
    ensures Unobstructed(Turned(t, s))
  {
  }

  /** The orchestrated upgrade completes: a run that cannot be continued has every machine
      upgraded to the target, the lock free and the owner marked done with the target kept. */
  lemma {:induction false} UpgradeCompletes(to: string, start: Cluster, turns: seq<Turn>)
    requires OnTarget(to, start) && Unobstructed(start) && TurnsRun(start, turns).Some?
    ensures AtRest(TurnsRun(start, turns).value) <==> AllDone(to, TurnsRun(start, turns).value)
    decreases |turns|
  {
    if turns == [] {
      RestIsComplete(to, start);
    } else {
      TurnKeepsOnTarget(to, turns[0], start);
      TurnKeepsUnobstructed(turns[0], start);
      UpgradeCompletes(to, Turned(turns[0], start), turns[1..]);
    }
  }
}
