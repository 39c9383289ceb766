/** How often the replacements of an unhealthy machine may be remediated in turn, told from the writes of
    a run alone: which remediation deleted a machine that another one had made. */
module LifecycleRetries {
  import opened Prelude
  import opened MachineFilters
  import opened Remediation
  import opened ControlPlaneMachines
  import opened WorkloadCluster
  import opened Lifecycle

  // ----- The states of a run -----

  ghost predicate Step(moves: seq<Move>, states: seq<ControlPlane>, i: nat)
    requires i < |moves| && |states| == |moves| + 1
  {
    CanMove(moves[i], states[i]) && states[i+1] == Moved(moves[i], states[i])
  }

  ghost predicate History(moves: seq<Move>, states: seq<ControlPlane>) {
    |states| == |moves| + 1 && forall i :: 0 <= i < |moves| ==> Step(moves, states, i)
  }

  lemma LongerHistory(moves: seq<Move>, states: seq<ControlPlane>, mv: Move, s: ControlPlane)
    requires History(moves, states) && CanMove(mv, states[|moves|]) && s == Moved(mv, states[|moves|])
    ensures History(moves + [mv], states + [s])
  {
    forall i | 0 <= i < |moves + [mv]|
      ensures Step(moves + [mv], states + [s], i)
    {
      assert i < |moves| ==> Step(moves, states, i);
    }
  }

  lemma {:induction false} LastMove(start: ControlPlane, moves: seq<Move>)
    requires moves != [] && Run(start, moves).Some?
    ensures var before := Run(start, moves[..|moves|-1]);
      && before.Some? && CanMove(moves[|moves|-1], before.value)
      && Run(start, moves).value == Moved(moves[|moves|-1], before.value)
  {
  }

  lemma {:induction false} HistoryOf(start: ControlPlane, moves: seq<Move>) returns (states: seq<ControlPlane>)
    requires Run(start, moves).Some?
    ensures History(moves, states) && states[0] == start && states[|moves|] == Run(start, moves).value
  {
    if moves == [] {
      states := [start];
    } else {
      var earlier, mv := moves[..|moves|-1], moves[|moves|-1];
      LastMove(start, moves);
      states := HistoryOf(start, earlier);
      LongerHistory(earlier, states, mv, Run(start, moves).value);
      states := states + [Run(start, moves).value];
      assert moves == earlier + [mv];
    }
  }

  // ----- Who replaced whom -----

  /** Move s saves the annotation of the remediation that move i is. */
  predicate SavedAt(moves: seq<Move>, i: nat, s: nat) {
    && i < s < |moves| && moves[i].DeleteUnhealthy? && moves[s].SaveRemediation?
    && forall t :: i < t < s ==> !moves[t].DeleteUnhealthy? && !moves[t].SaveRemediation?
  }

  /** Move k makes a machine in place of the one that move i remediates: while that annotation is there. */
  ghost predicate Replaces(moves: seq<Move>, k: nat, i: nat) {
    && k < |moves| && moves[k].Create?
    && exists s: nat :: SavedAt(moves, i, s) && s < k && forall t :: s < t < k ==> !moves[t].ClearRemediation? && !moves[t].SaveRemediation?
  }

  /** Move j remediates the machine that was made in place of the one that move i remediates. */
  ghost predicate Retries(moves: seq<Move>, i: nat, j: nat) {
    && j < |moves| && moves[j].DeleteUnhealthy?
    && exists k: nat :: Replaces(moves, k, i) && k < j && moves[k].name == moves[j].name
  }

  // ----- What the machines carry -----

  lemma AnnotationsKept(mv: Move, s: ControlPlane)
    requires CanMove(mv, s)
    ensures !mv.DeleteUnhealthy? && !mv.SaveRemediation? ==> Moved(mv, s).pending == s.pending
    ensures !mv.ClearRemediation? && !mv.SaveRemediation? ==> Moved(mv, s).remediation == s.remediation
    ensures mv.SaveRemediation? ==> Moved(mv, s).remediation == s.pending
  {
  }

  lemma {:induction false} PendingStays(moves: seq<Move>, states: seq<ControlPlane>, a: nat, b: nat)
    requires History(moves, states) && a <= b <= |moves|
    requires forall t :: a <= t < b ==> !moves[t].DeleteUnhealthy? && !moves[t].SaveRemediation?
    ensures states[b].pending == states[a].pending
  {
    if a < b {
      PendingStays(moves, states, a, b - 1);
      assert Step(moves, states, b - 1);
      AnnotationsKept(moves[b-1], states[b-1]);
    }
  }

  lemma {:induction false} AnnotationStays(moves: seq<Move>, states: seq<ControlPlane>, a: nat, b: nat)
    requires History(moves, states) && a <= b <= |moves|
    requires forall t :: a <= t < b ==> !moves[t].ClearRemediation? && !moves[t].SaveRemediation?
    ensures states[b].remediation == states[a].remediation
  {
    if a < b {
      AnnotationStays(moves, states, a, b - 1);
      assert Step(moves, states, b - 1);
      AnnotationsKept(moves[b-1], states[b-1]);
    }
  }

  lemma ChainKept(mv: Move, s: ControlPlane, n: Name)
    requires CanMove(mv, s) && n in s.born
    ensures n in Moved(mv, s).born
    ensures n in Moved(mv, s).machines ==> n in s.machines && Moved(mv, s).machines[n].chain == s.machines[n].chain
  {
  }

  lemma {:induction false} ChainStays(moves: seq<Move>, states: seq<ControlPlane>, a: nat, b: nat, n: Name)
    requires History(moves, states) && a <= b <= |moves| && n in states[a].born
    ensures n in states[b].born
    ensures n in states[b].machines ==> n in states[a].machines && states[b].machines[n].chain == states[a].machines[n].chain
  {
    if a < b {
      ChainStays(moves, states, a, b - 1, n);
      assert Step(moves, states, b - 1);
      ChainKept(moves[b-1], states[b-1], n);
    }
  }

  /** What a remediation records. */
  function Record(mv: Move, s: ControlPlane): RemediationData
    requires mv.DeleteUnhealthy? && CanMove(mv, s)
  {
    RemediationData(mv.name, Some(Stored(mv.now)), Verdict(LastOf(s.machines[mv.name].chain), mv.strategy, mv.now).value)
  }

  lemma RecordIsPending(mv: Move, s: ControlPlane)
    requires mv.DeleteUnhealthy? && CanMove(mv, s)
    ensures LastOf(Moved(mv, s).pending) == Some(Record(mv, s))
  {
  }

  lemma MadeWithAnnotation(mv: Move, s: ControlPlane)
    requires mv.Create? && CanMove(mv, s)
    ensures mv.name in Moved(mv, s).machines && mv.name in Moved(mv, s).born
    ensures Moved(mv, s).machines[mv.name].chain == s.remediation
  {
  }

  /** The machine made in its place carries it. */
  lemma ReplacementCarriesRecord(moves: seq<Move>, states: seq<ControlPlane>, i: nat, k: nat)
    requires History(moves, states) && i < |moves| && Step(moves, states, i) && moves[i].DeleteUnhealthy? && Replaces(moves, k, i)
    ensures var s := states[k+1];
      moves[k].name in s.machines && moves[k].name in s.born && LastOf(s.machines[moves[k].name].chain) == Some(Record(moves[i], states[i]))
  {
    var s: nat :| SavedAt(moves, i, s) && s < k && forall t :: s < t < k ==> !moves[t].ClearRemediation? && !moves[t].SaveRemediation?;
    RecordIsPending(moves[i], states[i]);
    PendingStays(moves, states, i + 1, s);
    assert Step(moves, states, s);
    AnnotationsKept(moves[s], states[s]);
    AnnotationStays(moves, states, s + 1, k);
    assert Step(moves, states, k);
    MadeWithAnnotation(moves[k], states[k]);
  }

  lemma RetryIsLink(strategy: Option<Strategy>, moves: seq<Move>, states: seq<ControlPlane>, i: nat, j: nat)
    requires History(moves, states) && i < |moves| && Step(moves, states, i) && moves[i].DeleteUnhealthy?
    requires Retries(moves, i, j) && Step(moves, states, j) && moves[j].strategy == strategy
    ensures Link(strategy, Record(moves[i], states[i]), Record(moves[j], states[j]))
  {
    var k: nat :| Replaces(moves, k, i) && k < j && moves[k].name == moves[j].name;
    ReplacementCarriesRecord(moves, states, i, k);
    ChainStays(moves, states, k + 1, j, moves[k].name);
    FollowsRecord(strategy, Record(moves[i], states[i]), moves[j], states[j]);
  }

  lemma FollowsRecord(strategy: Option<Strategy>, a: RemediationData, mv: Move, s: ControlPlane)
    requires mv.DeleteUnhealthy? && CanMove(mv, s) && mv.strategy == strategy && LastOf(s.machines[mv.name].chain) == Some(a)
    ensures Link(strategy, a, Record(mv, s))
  {
    assert Follows(strategy, a, Record(mv, s), mv.now);
  }

  lemma {:induction false} ChainsHoldAt(strategy: Option<Strategy>, moves: seq<Move>, states: seq<ControlPlane>, i: nat)
    requires History(moves, states) && i <= |moves| && ChainsHold(strategy, states[0])
    requires forall k :: 0 <= k < |moves| && moves[k].DeleteUnhealthy? ==> moves[k].strategy == strategy
    ensures ChainsHold(strategy, states[i])
  {
    if i > 0 {
      ChainsHoldAt(strategy, moves, states, i - 1);
      assert Step(moves, states, i - 1);
      MoveKeepsChains(strategy, moves[i-1], states[i-1]);
    }
  }

  lemma RecordIsSound(strategy: Option<Strategy>, mv: Move, s: ControlPlane)
    requires mv.DeleteUnhealthy? && CanMove(mv, s) && ChainsHold(strategy, s)
    ensures Sound(Record(mv, s))
  {
    var chain := s.machines[mv.name].chain;
    assert chain != [] ==> Sound(chain[|chain| - 1]);
  }

  /** The time a remediation is made, in whole seconds. */
  function Seconds(now: int): int {
    now / 1_000_000_000
  }

  /** Retries are bounded: of remediations that each delete the machine made in place of the one before,
      no more than maxRetry + 1 in a row follow each other within the whole seconds of minHealthyPeriod (an
      hour, if it is not given); and no two, if retryPeriod is not below it. */
  lemma RetriesAreBounded(strategy: Strategy, start: ControlPlane, moves: seq<Move>, remediations: seq<nat>, period: int)
    requires start.machines == map[] && start.remediation == [] && start.pending == [] && Run(start, moves).Some?
    requires forall k :: 0 <= k < |moves| && moves[k].DeleteUnhealthy? ==> moves[k].strategy == Some(strategy)
    requires period == if strategy.minHealthyPeriod.Some? then strategy.minHealthyPeriod.value else 3_600_000_000_000
    requires forall p :: 0 <= p < |remediations| ==> remediations[p] < |moves| && moves[remediations[p]].DeleteUnhealthy?
    requires forall p :: 0 <= p < |remediations| - 1 ==> Retries(moves, remediations[p], remediations[p+1])
    requires forall p :: 0 <= p < |remediations| - 1 ==>
      Seconds(moves[remediations[p+1]].now) - Seconds(moves[remediations[p]].now) < Seconds(period)
    ensures strategy.maxRetry.Some? && strategy.maxRetry.value >= 0 ==> |remediations| <= strategy.maxRetry.value + 1
    ensures strategy.retryPeriod >= period ==> |remediations| <= 1
  {
    var states := HistoryOf(start, moves);
    var chain := RecordsOf(strategy, moves, states, remediations, period);
    RetryBound(Some(strategy), chain);
  }

  lemma LongerChain(s: Option<Strategy>, chain: seq<RemediationData>, r: RemediationData)
    requires Chain(s, chain) && Close(s, chain) && Sound(r)
    requires chain != [] ==> Link(s, chain[|chain|-1], r) && SoonAfter(s, chain[|chain|-1], r)
    ensures Chain(s, chain + [r]) && Close(s, chain + [r])
  {
    forall i | 0 <= i < |chain|
      ensures Link(s, (chain + [r])[i], (chain + [r])[i+1]) && SoonAfter(s, (chain + [r])[i], (chain + [r])[i+1])
    {
      if i < |chain| - 1 {
        assert Link(s, chain[i], chain[i+1]) && SoonAfter(s, chain[i], chain[i+1]);
      }
    }
  }

  /** The remediations of a run, with the machines made in place of each other, form a chain. */
  lemma {:induction false} RecordsOf(strategy: Strategy, moves: seq<Move>, states: seq<ControlPlane>, remediations: seq<nat>, period: int)
    returns (chain: seq<RemediationData>)
    requires History(moves, states) && ChainsHold(Some(strategy), states[0])
    requires forall k :: 0 <= k < |moves| && moves[k].DeleteUnhealthy? ==> moves[k].strategy == Some(strategy)
    requires period == if strategy.minHealthyPeriod.Some? then strategy.minHealthyPeriod.value else 3_600_000_000_000
    requires forall p :: 0 <= p < |remediations| ==> remediations[p] < |moves| && moves[remediations[p]].DeleteUnhealthy?
    requires forall p :: 0 <= p < |remediations| - 1 ==> Retries(moves, remediations[p], remediations[p+1])
    requires forall p :: 0 <= p < |remediations| - 1 ==>
      Seconds(moves[remediations[p+1]].now) - Seconds(moves[remediations[p]].now) < Seconds(period)
    ensures |chain| == |remediations| && Chain(Some(strategy), chain) && Close(Some(strategy), chain)
    ensures remediations != [] ==>
      var i := remediations[|remediations|-1];
      Step(moves, states, i) && chain[|chain|-1] == Record(moves[i], states[i])
  {
    if remediations == [] {
      chain := [];
    } else {
      var last := |remediations| - 1;
      var i := remediations[last];
      chain := RecordsOf(strategy, moves, states, remediations[..last], period);
      assert Step(moves, states, i);
      ChainsHoldAt(Some(strategy), moves, states, i);
      RecordIsSound(Some(strategy), moves[i], states[i]);
      if last > 0 {
        assert remediations[..last][last-1] == remediations[last-1] && Retries(moves, remediations[last-1], remediations[last-1+1]);
        NextRetry(strategy, moves, states, remediations[last-1], i, period);
      }
      LongerChain(Some(strategy), chain, Record(moves[i], states[i]));
      chain := chain + [Record(moves[i], states[i])];
    }
  }

  lemma NextRetry(strategy: Strategy, moves: seq<Move>, states: seq<ControlPlane>, i: nat, j: nat, period: int)
    requires History(moves, states) && i < |moves| && Step(moves, states, i) && moves[i].DeleteUnhealthy?
    requires Retries(moves, i, j) && Step(moves, states, j) && moves[j].strategy == Some(strategy)
    requires period == if strategy.minHealthyPeriod.Some? then strategy.minHealthyPeriod.value else 3_600_000_000_000
    requires Seconds(moves[j].now) - Seconds(moves[i].now) < Seconds(period)
    ensures Link(Some(strategy), Record(moves[i], states[i]), Record(moves[j], states[j]))
    ensures SoonAfter(Some(strategy), Record(moves[i], states[i]), Record(moves[j], states[j]))
  {
    RetryIsLink(Some(strategy), moves, states, i, j);
    StoredIsSeconds(moves[i].now, moves[j].now, period);
  }

  lemma StoredIsSeconds(a: int, b: int, period: int)
    ensures Seconds(b) - Seconds(a) < Seconds(period) ==> Stored(b) - Stored(a) < Stored(period)
  {
    assert Stored(a) == Seconds(a) * 1_000_000_000 && Stored(b) == Seconds(b) * 1_000_000_000;
    assert Stored(period) == Seconds(period) * 1_000_000_000;
  }

  // ----- It happens -----

  function Alone(n: Name, m: Machine, born: set<Name>): ControlPlane {
    ControlPlane(map[n := m], born, {}, [], [], false, false, false, [], 0)
  }

  function Ordered(chain: seq<RemediationData>, born: set<Name>): ControlPlane {
    ControlPlane(map[], born, {}, [], chain, false, false, false, [], 0)
  }

  function Made(spec: KcpSpec, chain: seq<RemediationData>): Machine {
    NewMachine(Clone(spec.wanted), 0, None, chain)
  }

  lemma Then(start: ControlPlane, moves: seq<Move>, s: ControlPlane, mv: Move) returns (moves': seq<Move>, s': ControlPlane)
    requires Run(start, moves) == Some(s) && CanMove(mv, s)
    ensures Run(start, moves') == Some(s') && s' == Moved(mv, s) && moves' == moves + [mv]
  {
    RunSnoc(start, moves, mv);
    moves', s' := moves + [mv], Moved(mv, s);
  }

  lemma MakeFirst(start: ControlPlane, moves: seq<Move>, s: ControlPlane, spec: KcpSpec, n: Name) returns (moves': seq<Move>, s': ControlPlane)
    requires Run(start, moves) == Some(s) && s == Ordered([], s.born) && n !in s.born
    requires spec.replicas > 0 && spec.deadline.None?
    ensures Run(start, moves') == Some(s') && s' == Alone(n, Made(spec, []), s.born + {n})
    ensures moves' == moves + [Create(n, spec, Clone(spec.wanted), 0, None)]
  {
    moves', s' := Then(start, moves, s, Create(n, spec, Clone(spec.wanted), 0, None));
  }

  lemma TakeDown(start: ControlPlane, moves: seq<Move>, s: ControlPlane, spec: KcpSpec, n: Name, now: int)
    returns (moves': seq<Move>, s': ControlPlane)
    requires Run(start, moves) == Some(s) && s == Alone(n, Made(spec, []), s.born)
    ensures Run(start, moves') == Some(s') && s' == Ordered([RemediationData(n, Some(Stored(now)), 0)], s.born)
    ensures moves' == moves + [DeleteUnhealthy(n, spec.remediation, now), SaveRemediation, Vanish(n)]
  {
    moves', s' := Then(start, moves, s, DeleteUnhealthy(n, spec.remediation, now));
    moves', s' := Then(start, moves', s', SaveRemediation);
    moves', s' := Then(start, moves', s', Vanish(n));
    assert s'.machines == map[];
  }

  lemma MakeAnother(start: ControlPlane, moves: seq<Move>, s: ControlPlane, spec: KcpSpec, n: Name, chain: seq<RemediationData>)
    returns (moves': seq<Move>, s': ControlPlane)
    requires Run(start, moves) == Some(s) && s == Ordered(chain, s.born) && chain != [] && n !in s.born
    requires spec.replicas > 0 && spec.deadline.None?
    ensures Run(start, moves') == Some(s') && s' == Alone(n, Made(spec, chain), s.born + {n})
    ensures moves' == moves + [Create(n, spec, Clone(spec.wanted), 0, None), ClearRemediation]
  {
    moves', s' := Then(start, moves, s, Create(n, spec, Clone(spec.wanted), 0, None));
    moves', s' := Then(start, moves', s', ClearRemediation);
  }

  lemma TakeDownAgain(start: ControlPlane, moves: seq<Move>, s: ControlPlane, spec: KcpSpec, n: Name, first: RemediationData, later: int)
    returns (moves': seq<Move>, s': ControlPlane)
    requires Run(start, moves) == Some(s) && s == Alone(n, Made(spec, [first]), s.born)
    requires Verdict(Some(first), spec.remediation, later) == Some(first.retryCount + 1)
    ensures Run(start, moves') == Some(s') && moves' == moves + [DeleteUnhealthy(n, spec.remediation, later)]
    ensures s'.pending == [first, RemediationData(n, Some(Stored(later)), first.retryCount + 1)]
  {
    moves', s' := Then(start, moves, s, DeleteUnhealthy(n, spec.remediation, later));
  }

  /** Replacements are retried: the only machine of a control plane that has not been initialized is
      remediated, and then, within the hour, the one made in its place, if the strategy allows that. */
  lemma RetryIsReached(spec: KcpSpec, now: int, later: int) returns (moves: seq<Move>, s: ControlPlane)
    requires spec.replicas > 0 && spec.deadline.None? && spec.remediation == Some(Strategy(Some(1), 0, None))
    requires now % 1_000_000_000 == 0 && now <= later < now + 3_600_000_000_000
    ensures Run(Ordered([], {}), moves) == Some(s)
    ensures |moves| == 7 && Retries(moves, 1, 6) && moves[1].DeleteUnhealthy? && moves[1].now == now && moves[6].now == later
    ensures s.pending == [RemediationData(1, Some(now), 0), RemediationData(2, Some(Stored(later)), 1)]
  {
    var start := Ordered([], {});
    MayRetry(spec.remediation, now, later);
    moves, s := MakeFirst(start, [], start, spec, 1);
    moves, s := TakeDown(start, moves, s, spec, 1, now);
    moves, s := MakeAnother(start, moves, s, spec, 2, [RemediationData(1, Some(now), 0)]);
    moves, s := TakeDownAgain(start, moves, s, spec, 2, RemediationData(1, Some(now), 0), later);
    IsRetry(moves);
  }

  lemma MayRetry(strategy: Option<Strategy>, now: int, later: int)
    requires strategy == Some(Strategy(Some(1), 0, None))
    requires now % 1_000_000_000 == 0 && now <= later < now + 3_600_000_000_000
    ensures Verdict(Some(RemediationData(1, Some(now), 0)), strategy, later) == Some(1) && Stored(now) == now
  {
  }

  lemma IsRetry(moves: seq<Move>)
    requires |moves| == 7 && moves[1].DeleteUnhealthy? && moves[2].SaveRemediation? && moves[3].Vanish?
    requires moves[4].Create? && moves[5].ClearRemediation? && moves[6].DeleteUnhealthy? && moves[4].name == moves[6].name
    ensures Retries(moves, 1, 6)
  {
    assert SavedAt(moves, 1, 2);
    assert Replaces(moves, 4, 1);
  }
}
