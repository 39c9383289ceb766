/** How often and how soon an unhealthy machine may be remediated. Times and periods are in
    nanoseconds; a stored timestamp has whole seconds. */
module Remediation {
  import opened Prelude

  type Name = nat

  const SECOND := 1_000_000_000
  const DEFAULT_MIN_HEALTHY_PERIOD := 3600 * SECOND

  datatype Strategy = Strategy(maxRetry: Option<int>, retryPeriod: int, minHealthyPeriod: Option<int>)

  /** The value of the remediation-in-progress and remediation-for annotations. */
  datatype RemediationData = RemediationData(machine: Name, timestamp: Option<int>, retryCount: int)

  function MinHealthyPeriod(s: Option<Strategy>): int {
    if s.Some? && s.value.minHealthyPeriod.Some? then s.value.minHealthyPeriod.value else DEFAULT_MIN_HEALTHY_PERIOD
  }

  function RetryPeriod(s: Option<Strategy>): int {
    if s.Some? then s.value.retryPeriod else 0
  }

  function MaxRetry(s: Option<Strategy>): Option<int> {
    if s.Some? then s.value.maxRetry else None
  }

  function MaxDuration(x: int, y: int): (m: int)
    ensures m >= x && m >= y && m in {x, y}
  {
    if x < y then y else x
  }

  /** What a timestamp becomes when it is stored. */
  function Stored(now: int): int {
    now - now % SECOND
  }

  /** The time since the last remediation; long enough for every period if it is not known. */
  function Gap(last: RemediationData, s: Option<Strategy>, now: int): int {
    match last.timestamp
    case Some(t) => now - t
    case None => 2 * MaxDuration(MinHealthyPeriod(s), RetryPeriod(s))
  }

  /** The retry count of a remediation that is allowed, given the remediation that made the
      machine, if any; None if it is not allowed now. */
  function Verdict(last: Option<RemediationData>, s: Option<Strategy>, now: int): Option<int> {
    match last
    case None => Some(0)
    case Some(l) =>
      if Gap(l, s, now) >= MinHealthyPeriod(s) then Some(0)
      else if Gap(l, s, now) < RetryPeriod(s) then None
      else if MaxRetry(s).Some? && l.retryCount >= MaxRetry(s).value then None
      else Some(l.retryCount + 1)
  }

  method CheckRetryLimits(last: Option<RemediationData>, machine: Name, s: Option<Strategy>, now: int)
    returns (data: RemediationData, canRemediate: bool)
    ensures canRemediate <==> Verdict(last, s, now).Some?
    ensures canRemediate ==> data == RemediationData(machine, Some(now), Verdict(last, s, now).value)
  {
    data := RemediationData(machine, Some(now), 0);
    if last.None? {
      return data, true;
    }
    var minHealthyPeriod := MinHealthyPeriod(s);
    var retryPeriod := RetryPeriod(s);
    var lastRemediationTime := now - 2 * MaxDuration(minHealthyPeriod, retryPeriod);
    if last.value.timestamp.Some? {
      lastRemediationTime := last.value.timestamp.value;
    }
    var retryForSameMachineInProgress := lastRemediationTime + minHealthyPeriod > now;
    if !retryForSameMachineInProgress {
      return data, true;
    }
    data := data.(retryCount := last.value.retryCount);
    if lastRemediationTime + retryPeriod > now {
      return data, false;
    }
    if s.Some? && s.value.maxRetry.Some? {
      if data.retryCount >= s.value.maxRetry.value {
        return data, false;
      }
    }
    data := data.(retryCount := data.retryCount + 1);
    canRemediate := true;
  }

  // ----- Chains of remediations -----

  /** b remediates the machine that remediation a made. */
  ghost predicate Link(s: Option<Strategy>, a: RemediationData, b: RemediationData) {
    exists now :: Follows(s, a, b, now)
  }

  predicate Follows(s: Option<Strategy>, a: RemediationData, b: RemediationData, now: int) {
    b.timestamp == Some(Stored(now)) && Verdict(Some(a), s, now) == Some(b.retryCount)
  }

  predicate Sound(d: RemediationData) {
    d.retryCount >= 0 && d.timestamp.Some? && d.timestamp.value % SECOND == 0
  }

  ghost predicate Chain(s: Option<Strategy>, chain: seq<RemediationData>) {
    && (forall i :: 0 <= i < |chain| ==> Sound(chain[i]))
    && forall i :: 0 <= i < |chain| - 1 ==> Link(s, chain[i], chain[i+1])
  }

  function LastOf(chain: seq<RemediationData>): Option<RemediationData> {
    if chain == [] then None else Some(chain[|chain| - 1])
  }

  /** What a remediation at this time adds to the chain of the machine it deletes. */
  function Extended(chain: seq<RemediationData>, machine: Name, s: Option<Strategy>, now: int): seq<RemediationData>
    requires Verdict(LastOf(chain), s, now).Some?
  {
    chain + [RemediationData(machine, Some(Stored(now)), Verdict(LastOf(chain), s, now).value)]
  }

  lemma ExtendedIsChain(chain: seq<RemediationData>, machine: Name, s: Option<Strategy>, now: int)
    requires Chain(s, chain) && Verdict(LastOf(chain), s, now).Some?
    ensures Chain(s, Extended(chain, machine, s, now))
  {
    var e := Extended(chain, machine, s, now);
    if chain != [] {
      assert Follows(s, chain[|chain| - 1], e[|chain|], now);
    }
    forall i | 0 <= i < |e| - 1
      ensures Link(s, e[i], e[i+1])
    {
      if i < |chain| - 1 {
        assert Link(s, chain[i], chain[i+1]);
      }
    }
  }

  /** Every link of a chain either starts over at least minHealthyPeriod later, or counts one
      more, at least retryPeriod and less than minHealthyPeriod later, below maxRetry. Gaps are
      between stored timestamps, so of a period only the whole seconds are sure to have passed. */
  lemma LinkIsResetOrRetry(s: Option<Strategy>, a: RemediationData, b: RemediationData)
    requires Link(s, a, b) && Sound(a)
    ensures var gap := b.timestamp.value - a.timestamp.value;
      || (b.retryCount == 0 && gap >= Stored(MinHealthyPeriod(s)))
      || (b.retryCount == a.retryCount + 1 && Stored(RetryPeriod(s)) <= gap < MinHealthyPeriod(s)
           && RetryPeriod(s) < MinHealthyPeriod(s)
           && (MaxRetry(s).Some? ==> a.retryCount < MaxRetry(s).value))
  {
    var now :| Follows(s, a, b, now);
    StoredGap(now, a.timestamp.value, MinHealthyPeriod(s));
    StoredGap(now, a.timestamp.value, RetryPeriod(s));
  }

  lemma StoredGap(now: int, earlier: int, period: int)
    requires earlier % SECOND == 0
    ensures now - earlier >= period ==> Stored(now) - earlier >= Stored(period)
  {
  }

  predicate SoonAfter(s: Option<Strategy>, a: RemediationData, b: RemediationData) {
    && a.timestamp.Some? && b.timestamp.Some?
    && b.timestamp.value - a.timestamp.value < Stored(MinHealthyPeriod(s))
  }

  /** Every remediation follows the one before within the whole seconds of minHealthyPeriod. */
  predicate Close(s: Option<Strategy>, chain: seq<RemediationData>) {
    forall i :: 0 <= i < |chain| - 1 ==> SoonAfter(s, chain[i], chain[i+1])
  }

  lemma {:induction false} CloseChainCounts(s: Option<Strategy>, chain: seq<RemediationData>, i: nat)
    requires Chain(s, chain) && Close(s, chain) && i < |chain|
    ensures chain[i].retryCount == chain[0].retryCount + i
    ensures i > 0 && MaxRetry(s).Some? ==> chain[i].retryCount <= MaxRetry(s).value
  {
    if i > 0 {
      CloseChainCounts(s, chain, i - 1);
      LinkIsResetOrRetry(s, chain[i-1], chain[i-1+1]);
    }
  }

  /** Remediations that follow each other closer than minHealthyPeriod are at most maxRetry + 1
      in a row, and none follows at all if retryPeriod is not below minHealthyPeriod. */
  lemma RetryBound(s: Option<Strategy>, chain: seq<RemediationData>)
    requires Chain(s, chain) && Close(s, chain)
    ensures s.Some? && s.value.maxRetry.Some? && s.value.maxRetry.value >= 0 ==> |chain| <= s.value.maxRetry.value + 1
    ensures RetryPeriod(s) >= MinHealthyPeriod(s) ==> |chain| <= 1
  {
    if |chain| > 1 {
      CloseChainCounts(s, chain, |chain| - 1);
      LinkIsResetOrRetry(s, chain[0], chain[0+1]);
    }
  }

  /** A machine that no remediation made may be remediated; one whose remediation has no timestamp, too. */
  lemma VerdictWithoutHistory(retryCount: int, machine: Name, s: Option<Strategy>, now: int)
    ensures Verdict(None, s, now) == Some(0)
    ensures s.None? || (s.value.retryPeriod >= 0 && (s.value.minHealthyPeriod.Some? ==> s.value.minHealthyPeriod.value >= 0)) ==>
      Verdict(Some(RemediationData(machine, None, retryCount)), s, now) == Some(0)
  {
  }

  /** The verdict on a machine that a remediation made, by the strategy's own fields: an hour counts as
      healthy if nothing else is said. */
  lemma VerdictInPlainTerms(last: RemediationData, s: Option<Strategy>, now: int, hour: int)
    requires last.timestamp.Some? && hour == 3_600_000_000_000
    ensures var gap := now - last.timestamp.value;
      var healthyAfter := if s.Some? && s.value.minHealthyPeriod.Some? then s.value.minHealthyPeriod.value else hour;
      && (gap >= healthyAfter ==> Verdict(Some(last), s, now) == Some(0))
      && (gap < healthyAfter ==>
            (Verdict(Some(last), s, now).None? <==>
              || (s.Some? && gap < s.value.retryPeriod) || (s.None? && gap < 0)
              || (s.Some? && s.value.maxRetry.Some? && last.retryCount >= s.value.maxRetry.value)))
      && (gap < healthyAfter && Verdict(Some(last), s, now).Some? ==> Verdict(Some(last), s, now) == Some(last.retryCount + 1))
  {
  }
}
