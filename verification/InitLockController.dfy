/** The init mutex and the bootstrap config controller, call by call, against an API server that
    the rest of the world uses at the same time. The controller has one worker, so no other pass
    of it runs in between. */
module InitLockController {
  import opened Prelude
  import opened InitLock

  datatype CreateResult = Created | AlreadyExists | CreateFailed

  predicate Releases(step: Step) {
    step.ClearLock? || step.ReleaseOnError? || step == ReleaseToJoin(true)
  }

  /** What a pass has read is still so. */
  predicate Current(s: Cluster, n: Name, ready: bool, owner: Machine, infrastructureReady: bool, clusterInitialized: bool) {
    && n in s.machines && owner == s.machines[n] && ready == owner.ready
    && infrastructureReady == s.infrastructureReady && clusterInitialized == s.initialized
  }

  /** At some point since then the config of n was ready, or n was gone. */
  ghost predicate WasSettled(start: World, steps: seq<Step>, since: nat, n: Name) {
    exists i :: since <= i <= |steps| && SettledAt(start, steps, i, n)
  }

  ghost predicate SettledAt(start: World, steps: seq<Step>, i: nat, n: Name)
    requires i <= |steps|
  {
    && Trace(start, steps[..i]).Some?
    && var machines := Trace(start, steps[..i]).value.cluster.machines;
    n in machines ==> machines[n].ready
  }

  lemma StaysSettled(start: World, steps: seq<Step>, steps': seq<Step>, since: nat, earlier: nat, n: Name)
    requires steps <= steps' && earlier <= since && WasSettled(start, steps, since, n)
    ensures WasSettled(start, steps', earlier, n)
  {
    var i :| since <= i <= |steps| && SettledAt(start, steps, i, n);
    assert steps'[..i] == steps[..i];
    assert SettledAt(start, steps', i, n);
  }

  /** At some point since then the lock was free. */
  ghost predicate WasFree(start: World, steps: seq<Step>, since: nat) {
    exists i :: since <= i <= |steps| && FreeAt(start, steps, i)
  }

  ghost predicate FreeAt(start: World, steps: seq<Step>, i: nat)
    requires i <= |steps|
  {
    Trace(start, steps[..i]).Some? && Trace(start, steps[..i]).value.cluster.lock.None?
  }

  lemma StaysFree(start: World, steps: seq<Step>, steps': seq<Step>, since: nat, earlier: nat)
    requires steps <= steps' && earlier <= since && WasFree(start, steps, since)
    ensures WasFree(start, steps', earlier)
  {
    var i :| since <= i <= |steps| && FreeAt(start, steps, i);
    assert steps'[..i] == steps[..i];
    assert FreeAt(start, steps', i);
  }

  class ConfigApi {
    var st: Cluster
    var script: seq<Event<Step>>
    var down: bool
    ghost const start: World
    ghost var stage: Stage
    ghost var steps: seq<Step>   // every read and write so far, by anyone
    ghost var failures: nat      // calls so far that did not land

    constructor (s: Cluster, script: seq<Event<Step>>)
      ensures Valid() && World(st, stage) == start && st == s && stage == Idle && steps == []
      ensures this.script == script && !down
    {
      st, this.script, down := s, script, false;
      start, stage, steps, failures := World(s, Idle), Idle, [], 0;
    }

    /** The history of the cluster and the pass is a run, so all that holds of runs holds here. */
    ghost predicate Valid()
      reads this
    {
      Trace(start, steps) == Some(World(st, stage))
    }

    predicate Quiet()
      reads this
    {
      script == [] && !down
    }

    method Take(next: Cluster, ghost step: Step)
      requires Valid() && CanStep(step, World(st, stage)) && next == Stepped(step, World(st, stage)).cluster
      modifies this`st, this`stage, this`steps
      ensures Valid() && steps == old(steps) + [step] && World(st, stage) == Stepped(step, old(World(st, stage)))
    {
      TraceSnoc(start, steps, step);
      stage := Stepped(step, World(st, stage)).stage;
      st, steps := next, steps + [step];
    }

    /** A step that writes nothing. */
    ghost method Pause(step: Option<Step>)
      requires Valid()
      requires step.Some? ==>
        CanStep(step.value, World(st, stage)) && Stepped(step.value, World(st, stage)).cluster == st
      modifies this`stage, this`steps
      ensures Valid() && old(steps) <= steps
      ensures stage == if step.Some? then Stepped(step.value, old(World(st, stage))).stage else old(stage)
    {
      if step.Some? {
        TraceSnoc(start, steps, step.value);
        stage, steps := Stepped(step.value, World(st, stage)).stage, steps + [step.value];
      }
    }

    /** Everybody else, somebody who deletes the lock included, at any time. */
    method Interfere()
      requires Valid()
      modifies this`st, this`stage, this`script, this`steps
      ensures Valid() && old(steps) <= steps && stage == old(stage)
      ensures old(script) == [] ==> st == old(st) && script == []
    {
      while script != [] && script[0].Other?
        invariant Valid() && old(steps) <= steps && stage == old(stage)
        invariant old(script) == [] ==> st == old(st) && script == []
        decreases |script|
      {
        var step := script[0].action;
        var w := World(st, Idle);
        if Foreign(step) && CanStep(step, w) {
          Take(Stepped(step, w).cluster, step);
        }
        script := script[1..];
      }
    }

    method Answer() returns (fate: Fate)
      modifies this`script, this`down, this`failures
      ensures failures == old(failures) + if fate == Landed then 0 else 1
      ensures old(Quiet()) ==> fate == Landed && Quiet()
    {
      fate := if down then Halted else Landed;
      if !down && script != [] && script[0].Meet? {
        fate := script[0].fate;
        script := script[1..];
      }
      down := fate.Halted?;
      failures := failures + if fate == Landed then 0 else 1;
    }

    /** Read at one instant, the step if there is one; the callers project the one object they ask for. */
    method Read(ghost step: Option<Step>) returns (ok: bool, seen: Cluster)
      requires Valid()
      requires step.Some? ==>
        CanStep(step.value, World(st, stage)) && Stepped(step.value, World(st, stage)).cluster == st
      modifies this
      ensures Valid() && old(steps) <= steps && seen == old(st)
      ensures stage == if ok && step.Some? then Stepped(step.value, old(World(st, stage))).stage else old(stage)
      ensures old(Quiet()) ==> ok && Quiet() && st == old(st)
      ensures failures == old(failures) + if ok then 0 else 1
    {
      var fate := Answer();
      ok, seen := fate == Landed, st;
      if ok {
        Pause(step);
      }
      Interfere();
    }

    method CreateLock(n: Name) returns (ok: bool)
      requires Valid() && stage == LockFree(n)
      modifies this
      ensures Valid() && old(steps) <= steps
      ensures ok ==> stage == Holding(n)
      ensures old(Quiet()) ==>
        && Quiet() && ok == old(st).lock.None?
        && st == if ok then old(st).(lock := Some(LockMap(Some(n)))) else old(st)
      ensures ok ==> failures == old(failures)
    {
      var fate := Answer();
      ok := fate == Landed && st.lock.None?;
      if st.lock.None? && (fate == Landed || fate == ReplyLost) {
        Take(st.(lock := Some(LockMap(Some(n)))), TakeLock);
      }
      Interfere();
    }

    /** Deleting a lock that is already gone is not an error for the caller. */
    method DeleteLock(ghost step: Step) returns (ok: bool)
      requires Valid() && CanStep(step, World(st, stage)) && Releases(step)
      modifies this
      ensures Valid() && old(steps) <= steps
      ensures stage == Stepped(step, old(World(st, stage))).stage || (!ok && stage == old(stage))
      ensures old(Quiet()) ==> Quiet() && ok && st == old(st).(lock := None)
      ensures failures == old(failures) + if ok then 0 else 1
      ensures ok ==> WasFree(start, steps, |old(steps)|)
    {
      var fate := Answer();
      ok := fate == Landed;
      if fate == Landed || fate == ReplyLost {
        Take(st.(lock := None), step);
        NowFree();
      }
      ghost var released := steps;
      Interfere();
      if ok {
        StaysFree(start, released, steps, |released|, |old(steps)|);
      }
    }

    lemma NowFree()
      requires Valid() && st.lock.None?
      ensures WasFree(start, steps, |steps|)
    {
      assert steps[..|steps|] == steps;
      assert FreeAt(start, steps, |steps|);
    }

    /** Create the secret, or overwrite it; a secret of a removed machine does not matter. */
    method WriteSecret(n: Name, data: BootstrapData, overwrite: bool) returns (r: CreateResult)
      requires Valid() && CanStep(Store(data), World(st, stage)) && n == stage.n
      modifies this
      ensures Valid() && old(steps) <= steps
      ensures stage == (if data.InitData? then InitStored(n) else JoinStored(n)) || (!r.Created? && stage == old(stage))
      ensures old(Quiet()) ==>
        && Quiet()
        && r == (if overwrite || n !in old(st).machines || old(st).machines[n].secret.None? then Created else AlreadyExists)
        && st == if r.Created? then WithSecret(old(st), n, data) else old(st)
      ensures failures == old(failures) + if r.CreateFailed? then 1 else 0
      ensures overwrite ==> !r.AlreadyExists?
    {
      var fate := Answer();
      var already := !overwrite && n in st.machines && st.machines[n].secret.Some?;
      r := if fate != Landed then CreateFailed else if already then AlreadyExists else Created;
      if !already && (fate == Landed || fate == ReplyLost) {
        Take(WithSecret(st, n, data), Store(data));
      }
      Interfere();
    }

    /** The patch that closes a pass, when it makes the config ready. */
    method PatchReady(n: Name, ghost step: Step) returns (ok: bool)
      requires Valid() && (step.Heal? || step.Publish?) && !stage.Idle? && n == stage.n
      requires n in st.machines ==> CanStep(step, World(st, stage))
      modifies this
      ensures Valid() && old(steps) <= steps
      ensures ok ==> WasSettled(start, steps, |old(steps)|, n)
      ensures old(Quiet()) ==>
        && Quiet() && ok == (n in old(st).machines)
        && st == if ok then MadeReady(old(st), n) else old(st)
      ensures ok ==> failures == old(failures)
    {
      var fate := Answer();
      ok := fate == Landed && n in st.machines;
      if n in st.machines && (fate == Landed || fate == ReplyLost) {
        Take(MadeReady(st, n), step);
        NowSettled(n);
      }
      ghost var patched := steps;
      Interfere();
      if ok {
        StaysSettled(start, patched, steps, |patched|, |old(steps)|, n);
      }
    }

    lemma NowSettled(n: Name)
      requires Valid() && (n in st.machines ==> st.machines[n].ready)
      ensures WasSettled(start, steps, |steps|, n)
    {
      assert steps[..|steps|] == steps;
      assert SettledAt(start, steps, |steps|, n);
    }
  }

  class ControlPlaneInitMutex {
    const api: ConfigApi

    constructor (api: ConfigApi)
      ensures this.api == api
    {
      this.api := api;
    }

    method Lock(n: Name) returns (acquired: bool)
      requires api.Valid() && api.stage == Locking(n)
      modifies api
      ensures api.Valid() && old(api.steps) <= api.steps
      ensures acquired ==> api.stage == Holding(n)
      ensures old(api.Quiet()) ==>
        && api.Quiet()
        && var s := old(api.st);
        && (acquired <==> s.lock.None? || HeldBy(s.lock, n))
        && api.st == if s.lock.None? then s.(lock := Some(LockMap(Some(n))))
                     else if s.lock.value.holder.Some? && s.lock.value.holder.value !in s.machines && !acquired then s.(lock := None)
                     else s
      ensures acquired ==> api.failures == old(api.failures)
    {
      var ok, seen := api.Read(Some(SeeLock));
      if !ok {
        return false;
      }
      if seen.lock.Some? {
        if seen.lock.value.holder.None? {
          return false;
        }
        var holder := seen.lock.value.holder.value;
        if holder == n {
          return true;
        }
        // if the machine that created the lock is gone, unlock; the next attempt may succeed
        ok, seen := api.Read(Some(SeeHolder));
        if ok && holder !in seen.machines {
          var _ := this.Unlock(ClearLock);
        }
        return false;
      }
      acquired := api.CreateLock(n);
    }

    method Unlock(ghost step: Step) returns (ok: bool)
      requires api.Valid() && Releases(step)
      requires CanStep(step, World(api.st, api.stage))
      modifies api
      ensures api.Valid() && old(api.steps) <= api.steps
      ensures api.stage == Stepped(step, old(World(api.st, api.stage))).stage || (!ok && api.stage == old(api.stage))
      ensures old(api.Quiet()) ==> api.Quiet() && ok && api.st == old(api.st).(lock := None)
      ensures api.failures >= old(api.failures) && (!ok ==> api.failures > old(api.failures))
      ensures ok ==> WasFree(api.start, api.steps, |old(api.steps)|)
      ensures api.failures <= old(api.failures) + 1
    {
      ghost var gone := if api.st.lock.None? then Some(step) else None;
      if api.st.lock.None? {
        api.NowFree();
      }
      ghost var s0 := api.steps;
      var seen;
      ok, seen := api.Read(gone);
      if !ok {
        return;
      }
      if seen.lock.None? {
        StaysFree(api.start, s0, api.steps, |s0|, |s0|);
        return;
      }
      ghost var s1 := api.steps;
      ok := api.DeleteLock(step);
      if ok {
        StaysFree(api.start, api.steps, api.steps, |s1|, |s0|);
      }
    }
  }

  class CK8sConfigReconciler {
    const api: ConfigApi
    const initLock: ControlPlaneInitMutex

    constructor (api: ConfigApi, initLock: ControlPlaneInitMutex)
      requires initLock.api == api
      ensures this.api == api && this.initLock == initLock
    {
      this.api, this.initLock := api, initLock;
    }

    /** One pass over the config of machine n. Every read and write it makes, up to wherever it is cut
        short, is one of the steps of InitLock; undisturbed, it computes ConfigPass. It ends with nothing
        left to wait for only if the config was ready, or the machine gone, at some point of the pass, and
        no call failed, except that the release of a lock before a join may. */
    method Reconcile(n: Name) returns (outcome: Outcome)
      requires api.Valid() && api.stage.Idle? && initLock.api == api
      modifies api
      ensures api.Valid() && api.stage.Idle? && old(api.steps) <= api.steps
      ensures Trace(api.start, api.steps) == Some(World(api.st, Idle))
      ensures outcome == Finished ==> api.failures <= old(api.failures) + 1
      ensures outcome == Finished ==> WasSettled(api.start, api.steps, |old(api.steps)|, n)
      ensures old(api.Quiet()) ==> api.Quiet() && api.st == ConfigPass(old(api.st), n) && outcome == PassOutcome(old(api.st), n)
      ensures old(api.script == [] && !api.down) && n in old(api.st).machines ==>
        && n in api.st.machines
        && var s, m, m' := old(api.st), old(api.st).machines[n], api.st.machines[n];
        && (outcome == Finished <==> s.infrastructureReady && m'.ready)
        && (s.infrastructureReady && !m.hasDataSecret && !m.ready && s.initialized ==>
              outcome == Finished && m'.ready && m'.secret == Some(JoinData) && api.st.lock.None?)
        && (s.infrastructureReady && !m.hasDataSecret && !m.ready && !s.initialized && m.controlPlane
            && (s.lock.None? || s.lock == Some(LockMap(Some(n)))) ==>
              outcome == Finished && m'.ready && m'.secret == Some(InitData) && api.st.lock == Some(LockMap(Some(n))))
    {
      ghost var s := api.st;
      outcome := PassToEnd(n);
      if n in s.machines && s.infrastructureReady && !s.machines[n].hasDataSecret && !s.machines[n].ready {
        PublishesInPlainTerms(s, n);
      } else {
        RestInPlainTerms(s, n);
      }
    }

    method PassToEnd(n: Name) returns (outcome: Outcome)
      requires api.Valid() && api.stage.Idle? && initLock.api == api
      modifies api
      ensures api.Valid() && api.stage.Idle? && old(api.steps) <= api.steps
      ensures outcome == Finished ==> WasSettled(api.start, api.steps, |old(api.steps)|, n)
      ensures old(api.Quiet()) ==> api.Quiet() && api.st == ConfigPass(old(api.st), n) && outcome == PassOutcome(old(api.st), n)
      ensures outcome == Finished ==> api.failures <= old(api.failures) + 1
    {
      outcome := Pass(n);
      ghost var passed := api.steps;
      api.Pause(Some(Stop));
      if outcome == Finished {
        StaysSettled(api.start, passed, api.steps, |old(api.steps)|, |old(api.steps)|, n);
      }
    }

    method Pass(n: Name) returns (outcome: Outcome)
      requires api.Valid() && api.stage.Idle? && initLock.api == api
      modifies api
      ensures api.Valid() && old(api.steps) <= api.steps
      ensures outcome == Finished ==> WasSettled(api.start, api.steps, |old(api.steps)|, n)
      ensures old(api.Quiet()) ==> api.Quiet() && api.st == ConfigPass(old(api.st), n) && outcome == PassOutcome(old(api.st), n)
      ensures outcome == Finished ==> api.failures <= old(api.failures) + 1
    {
      ghost var s0 := api.steps;
      var ok, ready, owner := Meet(n);
      if !ok {
        return Error;
      }
      if owner.None? {
        return Finished;
      }

      ghost var s1 := api.steps;
      var seen;
      ok, seen := api.Read(Some(SeeCluster));         // the cluster
      if !ok {
        return Error;
      }
      ghost var s2 := api.steps;
      outcome := Proceed(n, ready, owner.value, seen.infrastructureReady, seen.initialized);
      if outcome == Finished {
        if ready {
          StaysSettled(api.start, s1, api.steps, |s0|, |s0|, n);
        } else {
          StaysSettled(api.start, api.steps, api.steps, |s2|, |s0|, n);
        }
      }
    }

    /** Read the config, and the machine that owns it, if both are there. */
    method Meet(n: Name) returns (ok: bool, ready: bool, owner: Option<Machine>)
      requires api.Valid() && api.stage.Idle?
      modifies api
      ensures api.Valid() && old(api.steps) <= api.steps
      ensures ok && owner.Some? ==> api.stage == Met(n, ready, owner.value.controlPlane, owner.value.hasDataSecret)
      ensures ok && (owner.None? || ready) ==> WasSettled(api.start, api.steps, |old(api.steps)|, n)
      ensures old(api.Quiet()) ==>
        && api.Quiet() && api.st == old(api.st) && ok
        && (n !in api.st.machines ==> owner.None?)
        && (n in api.st.machines ==> owner == Some(api.st.machines[n]) && ready == api.st.machines[n].ready)
      ensures ok ==> api.failures == old(api.failures)
    {
      ready, owner := false, None;
      var seen;
      ghost var s0 := api.steps;
      if n !in api.st.machines || api.st.machines[n].ready {
        api.NowSettled(n);
      }
      ok, seen := api.Read(Some(ReadConfig(n)));      // the config
      ghost var s1 := api.steps;
      if !ok {
        return;
      }
      if n !in seen.machines {
        StaysSettled(api.start, s0, s1, |s0|, |s0|, n);
        return;
      }
      ready := seen.machines[n].ready;

      if n !in api.st.machines {
        api.NowSettled(n);
      }
      ok, seen := api.Read(Some(ReadOwner));          // the machine that owns it
      if !ok {
        return;
      }
      if ready {
        StaysSettled(api.start, s0, api.steps, |s0|, |s0|, n);
      }
      if n !in seen.machines {
        StaysSettled(api.start, s1, api.steps, |s1|, |s0|, n);
        return;
      }
      owner := Some(seen.machines[n]);
    }

    /** What the pass does with what it has read. */
    method Proceed(n: Name, ready: bool, owner: Machine, infrastructureReady: bool, clusterInitialized: bool) returns (outcome: Outcome)
      requires api.Valid() && initLock.api == api
      requires api.stage ==
        if !infrastructureReady then Idle
        else if owner.hasDataSecret && !ready then Healing(n)
        else if ready then Idle
        else if clusterInitialized then Joining(n)
        else if owner.controlPlane then Locking(n)
        else Idle
      modifies api
      ensures api.Valid() && old(api.steps) <= api.steps
      ensures outcome == Finished && !ready ==> WasSettled(api.start, api.steps, |old(api.steps)|, n)
      ensures old(api.Quiet() && Current(api.st, n, ready, owner, infrastructureReady, clusterInitialized)) ==>
        api.Quiet() && api.st == ConfigPass(old(api.st), n) && outcome == PassOutcome(old(api.st), n)
      ensures outcome == Finished ==> api.failures <= old(api.failures) + 1
    {
      var ok;
      if !infrastructureReady {
        var _, _ := api.Read(None);                   // the closing patch, of conditions only
        return Requeue;
      }
      if owner.hasDataSecret && !ready {
        // the config's status was lost, but the Machine already has its bootstrap data
        ok := api.PatchReady(n, Heal);
        return if ok then Finished else Error;
      }
      if ready {
        var again, _ := api.Read(None);
        return if again then Finished else Error;
      }
      if !clusterInitialized {
        outcome := HandleClusterNotInitialized(n, owner.controlPlane);
      } else {
        outcome := Join(n);
      }
    }

    /** Everything between the lock and the secret: certificates, tokens, rendering. */
    method Prepare() returns (ok: bool)
      requires api.Valid()
      modifies api
      ensures api.Valid() && old(api.steps) <= api.steps && api.stage == old(api.stage)
      ensures old(api.Quiet()) ==> api.Quiet() && ok && api.st == old(api.st)
      ensures api.failures >= old(api.failures) && (!ok ==> api.failures > old(api.failures))
      ensures ok ==> api.failures == old(api.failures)
    {
      for i := 0 to 4
        invariant api.Valid() && old(api.steps) <= api.steps && api.stage == old(api.stage) && api.failures == old(api.failures)
        invariant old(api.Quiet()) ==> api.Quiet() && api.st == old(api.st)
      {
        var seen;
        ok, seen := api.Read(None);
        if !ok {
          return;
        }
      }
      ok := true;
    }

    method HandleClusterNotInitialized(n: Name, controlPlane: bool) returns (outcome: Outcome)
      requires api.Valid() && initLock.api == api && api.stage == if controlPlane then Locking(n) else Idle
      modifies api
      ensures api.Valid() && old(api.steps) <= api.steps
      ensures outcome == Finished ==> WasSettled(api.start, api.steps, |old(api.steps)|, n)
      ensures old(api.Quiet()) && n in old(api.st).machines ==>
        && api.Quiet()
        && api.st == (if controlPlane then Initializing(old(api.st), n) else old(api.st))
        && outcome == if controlPlane && (old(api.st).lock.None? || HeldBy(old(api.st).lock, n)) then Finished else Requeue
      ensures outcome == Finished ==> api.failures == old(api.failures)
    {
      if !controlPlane {
        var _, _ := api.Read(None);
        return Requeue;
      }
      var acquired := initLock.Lock(n);
      if !acquired {
        var _, _ := api.Read(None);
        return Requeue;
      }
      var ok := PrepareInit(n);
      if !ok {
        return Error;
      }
      ghost var stored := api.steps;
      ok := api.PatchReady(n, Publish);
      if ok {
        StaysSettled(api.start, api.steps, api.steps, |stored|, |old(api.steps)|, n);
      }
      outcome := if ok then Finished else Error;
    }

    /** If anything fails under the lock, the lock is released, unless that fails, too. */
    method PrepareInit(n: Name) returns (ok: bool)
      requires api.Valid() && initLock.api == api && api.stage == Holding(n)
      modifies api
      ensures api.Valid() && old(api.steps) <= api.steps
      ensures ok ==> api.stage == InitStored(n)
      ensures !ok && api.failures <= old(api.failures) + 1 ==> WasFree(api.start, api.steps, |old(api.steps)|)
      ensures old(api.Quiet()) ==> api.Quiet() && ok && api.st == WithSecret(old(api.st), n, InitData)
      ensures ok ==> api.failures == old(api.failures)
    {
      ok := PrepareAndStore(n, InitData);
      if !ok {
        ghost var s := api.steps;
        var released := ReleaseLockOnError();
        if released {
          StaysFree(api.start, api.steps, api.steps, |s|, |old(api.steps)|);
        }
      }
    }

    /** Release the lock, then the closing patch. */
    method ReleaseLockOnError() returns (released: bool)
      requires api.Valid() && initLock.api == api && (api.stage.Holding? || api.stage.InitStored?)
      modifies api
      ensures api.Valid() && old(api.steps) <= api.steps
      ensures api.failures >= old(api.failures) && (!released ==> api.failures > old(api.failures))
      ensures released ==> WasFree(api.start, api.steps, |old(api.steps)|)
    {
      ghost var s0 := api.steps;
      api.Pause(Some(Fail));
      ghost var s1 := api.steps;
      released := initLock.Unlock(ReleaseOnError);
      ghost var s2 := api.steps;
      var _, _ := api.Read(None);
      if released {
        StaysFree(api.start, s2, api.steps, |s1|, |s0|);
      }
    }

    method PrepareAndStore(n: Name, data: BootstrapData) returns (ok: bool)
      requires api.Valid() && api.stage == if data.InitData? then Holding(n) else Released(n)
      modifies api
      ensures api.Valid() && old(api.steps) <= api.steps
      ensures ok ==> api.stage == if data.InitData? then InitStored(n) else JoinStored(n)
      ensures !ok ==> api.stage in {old(api.stage), if data.InitData? then InitStored(n) else JoinStored(n)}
      ensures old(api.Quiet()) ==> api.Quiet() && ok && api.st == WithSecret(old(api.st), n, data)
      ensures api.failures >= old(api.failures) && (!ok ==> api.failures > old(api.failures))
      ensures ok ==> api.failures == old(api.failures)
    {
      ok := Prepare();
      if ok {
        ok := StoreBootstrapData(n, data);
      }
    }

    /** The pass goes on whether that works or not. */
    method ReleaseAnyLock(n: Name)
      requires api.Valid() && initLock.api == api && api.stage == Joining(n)
      modifies api
      ensures api.Valid() && old(api.steps) <= api.steps && api.stage == Released(n)
      ensures old(api.Quiet()) ==> api.Quiet() && api.st == old(api.st).(lock := None)
      ensures api.failures <= old(api.failures) + 1
    {
      var _ := initLock.Unlock(ReleaseToJoin(true));
      if api.stage == Joining(n) {
        api.Pause(Some(ReleaseToJoin(false)));
      }
    }

    method Join(n: Name) returns (outcome: Outcome)
      requires api.Valid() && initLock.api == api && api.stage == Joining(n)
      modifies api
      ensures api.Valid() && old(api.steps) <= api.steps
      ensures outcome == Finished ==> WasSettled(api.start, api.steps, |old(api.steps)|, n)
      ensures old(api.Quiet()) && n in old(api.st).machines ==>
        api.Quiet() && api.st == Published(old(api.st).(lock := None), n, JoinData) && outcome == Finished
      ensures outcome == Finished ==> api.failures <= old(api.failures) + 1
    {
      ReleaseAnyLock(n);
      var ok := PrepareAndStore(n, JoinData);
      if !ok {
        var _, _ := api.Read(None);
        return Error;
      }
      ghost var stored := api.steps;
      ok := api.PatchReady(n, Publish);
      if ok {
        StaysSettled(api.start, api.steps, api.steps, |stored|, |old(api.steps)|, n);
      }
      outcome := if ok then Finished else Error;
    }

    /** Create the bootstrap data secret, or overwrite the one an earlier pass left. */
    method StoreBootstrapData(n: Name, data: BootstrapData) returns (ok: bool)
      requires api.Valid() && api.stage == if data.InitData? then Holding(n) else Released(n)
      modifies api
      ensures api.Valid() && old(api.steps) <= api.steps
      ensures ok ==> api.stage == if data.InitData? then InitStored(n) else JoinStored(n)
      ensures !ok ==> api.stage in {old(api.stage), if data.InitData? then InitStored(n) else JoinStored(n)}
      ensures old(api.Quiet()) ==> api.Quiet() && ok && api.st == WithSecret(old(api.st), n, data)
      ensures api.failures >= old(api.failures) && (!ok ==> api.failures > old(api.failures))
      ensures ok ==> api.failures == old(api.failures)
    {
      var r := api.WriteSecret(n, data, false);
      if r.AlreadyExists? {
        r := api.WriteSecret(n, data, true);
      }
      ok := r.Created?;
    }
  }
}
