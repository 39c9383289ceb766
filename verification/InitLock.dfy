/** Who may initialise the cluster: the init lock, the bootstrap data secret and the ready flag of
    every machine's config, the pass of the config controller that is under way (it has one worker),
    and every single read and write of that pass and of the world around it. */
module InitLock {
  import opened Prelude

  type Name = string

  datatype BootstrapData = InitData | JoinData

  /** The lock ConfigMap. No holder: its lock-information cannot be read. */
  datatype LockMap = LockMap(holder: Option<Name>)

  /** A machine with its config. hasDataSecret: the Machine names its bootstrap data secret;
      ready: the config's status says so, and names the secret with it. */
  datatype Machine = Machine(
    controlPlane: bool,
    hasDataSecret: bool,
    ready: bool,
    secret: Option<BootstrapData>)

  datatype Cluster = Cluster(
    lock: Option<LockMap>,
    machines: map<Name, Machine>,
    born: set<Name>,          // every name ever used: generated names are not reused
    initialized: bool,
    infrastructureReady: bool)

  /** Where the pass over the config of machine n stands. */
  datatype Stage =
    | Idle
    | Begun(n: Name, ready: bool)                                          // has read the config
    | Met(n: Name, ready: bool, controlPlane: bool, hasDataSecret: bool)   // and the machine that owns it
    | Healing(n: Name)                                                     // the config's status was lost
    | Locking(n: Name)                                                     // has seen the cluster not initialized
    | LockFree(n: Name)
    | OtherHolds(n: Name, holder: Name)
    | HolderGone(n: Name, holder: Name)
    | Holding(n: Name)
    | InitStored(n: Name)
    | Failing(n: Name)
    | Joining(n: Name)                                                     // has seen the cluster initialized
    | Released(n: Name)
    | JoinStored(n: Name)

  datatype World = World(cluster: Cluster, stage: Stage)

  datatype Step =
    | ReadConfig(n: Name)
    | ReadOwner
    | SeeCluster
    | Heal
    | SeeLock
    | SeeHolder
    | ClearLock
    | TakeLock
    | Store(data: BootstrapData)
    | Publish
    | Fail
    | ReleaseOnError
    | ReleaseToJoin(landed: bool)
    | Stop                         // the pass ends, by an error, a crash, or having nothing to do
    | CopySecretName(name: Name)   // the Machine takes the secret's name from its ready config
    | WipeStatus(name: Name)       // a pivot or restore drops the config's status
    | Arrive(name: Name, cp: bool)
    | Depart(name: Name)
    | Initialize
    | SetInfrastructure(up: bool)
    | TakeAway                     // somebody else deletes the lock, whoever holds it

  predicate HeldBy(lock: Option<LockMap>, name: Name) {
    lock == Some(LockMap(Some(name)))
  }

  /** The machine boots, or is bound to boot, with init data. */
  predicate CarriesInit(m: Machine) {
    m.secret == Some(InitData) && (m.ready || m.hasDataSecret)
  }

  predicate Foreign(step: Step) {
    || step.CopySecretName? || step.WipeStatus? || step.Arrive? || step.Depart?
    || step.Initialize? || step.SetInfrastructure? || step.TakeAway?
  }

  predicate CanStep(step: Step, w: World) {
    var s, stage := w.cluster, w.stage;
    match step
    case ReadConfig(_) => stage.Idle?
    case ReadOwner => stage.Begun?
    case SeeCluster => stage.Met?
    case Heal => stage.Healing? && stage.n in s.machines
    case SeeLock => stage.Locking?
    case SeeHolder => stage.OtherHolds?
    case ClearLock => stage.HolderGone?
    case TakeLock => stage.LockFree? && s.lock.None?
    case Store(data) => if data.InitData? then stage.Holding? || stage.InitStored? else stage.Released? || stage.JoinStored?
    case Publish => (stage.InitStored? || stage.JoinStored?) && stage.n in s.machines
    case Fail => stage.Holding? || stage.InitStored?
    case ReleaseOnError => stage.Failing?
    case ReleaseToJoin(_) => stage.Joining?
    case Stop => true
    case CopySecretName(n) => n in s.machines && s.machines[n].ready
    case WipeStatus(n) => n in s.machines
    case Arrive(n, _) => n !in s.born
    case Depart(n) => n in s.machines
    case Initialize => true
    case SetInfrastructure(_) => true
    case TakeAway => true
  }

  /** What the pass goes on with once it has read the cluster. */
  function Entered(s: Cluster, stage: Stage): Stage
    requires stage.Met?
  {
    if !s.infrastructureReady then Idle
    else if stage.hasDataSecret && !stage.ready then Healing(stage.n)
    else if stage.ready then Idle
    else if s.initialized then Joining(stage.n)
    else if stage.controlPlane then Locking(stage.n)
    else Idle
  }

  function WithSecret(s: Cluster, n: Name, data: BootstrapData): Cluster {
    if n in s.machines then s.(machines := s.machines[n := s.machines[n].(secret := Some(data))]) else s
  }

  function MadeReady(s: Cluster, n: Name): Cluster
    requires n in s.machines
  {
    s.(machines := s.machines[n := s.machines[n].(ready := true)])
  }

  function Stepped(step: Step, w: World): World
    requires CanStep(step, w)
  {
    var s, stage := w.cluster, w.stage;
    match step
    case ReadConfig(n) => w.(stage := if n in s.machines then Begun(n, s.machines[n].ready) else Idle)
    case ReadOwner =>
      w.(stage := if stage.n in s.machines
                  then Met(stage.n, stage.ready, s.machines[stage.n].controlPlane, s.machines[stage.n].hasDataSecret)
                  else Idle)
    case SeeCluster => w.(stage := Entered(s, stage))
    case Heal => World(MadeReady(s, stage.n), Idle)
    case SeeLock =>
      w.(stage := if s.lock.None? then LockFree(stage.n)
                  else if s.lock.value.holder.None? then Idle
                  else if s.lock.value.holder.value == stage.n then Holding(stage.n)
                  else OtherHolds(stage.n, s.lock.value.holder.value))
    case SeeHolder => w.(stage := if stage.holder in s.machines then Idle else HolderGone(stage.n, stage.holder))
    case ClearLock => World(s.(lock := None), Idle)
    case TakeLock => World(s.(lock := Some(LockMap(Some(stage.n)))), Holding(stage.n))
    case Store(data) =>
      World(WithSecret(s, stage.n, data), if data.InitData? then InitStored(stage.n) else JoinStored(stage.n))
    case Publish => World(MadeReady(s, stage.n), Idle)
    case Fail => w.(stage := Failing(stage.n))
    case ReleaseOnError => World(s.(lock := None), Idle)
    case ReleaseToJoin(landed) => World(if landed then s.(lock := None) else s, Released(stage.n))
    case Stop => w.(stage := Idle)
    case CopySecretName(n) => w.(cluster := s.(machines := s.machines[n := s.machines[n].(hasDataSecret := true)]))
    case WipeStatus(n) => w.(cluster := s.(machines := s.machines[n := s.machines[n].(ready := false)]))
    case Arrive(n, cp) => w.(cluster := s.(machines := s.machines[n := Machine(cp, false, false, None)], born := s.born + {n}))
    case Depart(n) => w.(cluster := s.(machines := s.machines - {n}))
    case Initialize => w.(cluster := s.(initialized := true))
    case SetInfrastructure(up) => w.(cluster := s.(infrastructureReady := up))
    case TakeAway => w.(cluster := s.(lock := None))
  }

  function Trace(start: World, steps: seq<Step>): Option<World> {
    if steps == [] then Some(start)
    else
      var last := |steps| - 1;
      match Trace(start, steps[..last])
      case None => None
      case Some(w) => if CanStep(steps[last], w) then Some(Stepped(steps[last], w)) else None
  }

  lemma {:induction false} TraceSnoc(start: World, steps: seq<Step>, step: Step)
    requires Trace(start, steps).Some? && CanStep(step, Trace(start, steps).value)
    ensures Trace(start, steps + [step]) == Some(Stepped(step, Trace(start, steps).value))
  {
  }

  // ----- What holds at every point of a run -----

  predicate NobodyElseCarries(s: Cluster, name: Name) {
    forall n :: n in s.machines && n != name ==> !CarriesInit(s.machines[n])
  }

  predicate NobodyCarries(s: Cluster) {
    forall n :: n in s.machines ==> !CarriesInit(s.machines[n])
  }

  /** The pass under way is going to publish init data for a machine that is there. */
  predicate AboutToInit(w: World) {
    (w.stage.Holding? || w.stage.InitStored?) && w.stage.n in w.cluster.machines
  }

  /** The lock may be taken away now: nobody carries init data or is about to; or the cluster is
      initialized, and no pass that has seen it not so is still to look at the lock. */
  predicate SafeToTakeAway(w: World) {
    || (NobodyCarries(w.cluster) && !AboutToInit(w))
    || (w.cluster.initialized && !(w.stage.Locking? && w.stage.n in w.cluster.machines))
  }

  ghost predicate Inv(s: Cluster) {
    && s.machines.Keys <= s.born
    && (s.lock.Some? && s.lock.value.holder.Some? ==> s.lock.value.holder.value in s.born)
    && (forall n :: n in s.machines && CarriesInit(s.machines[n]) ==>
          (s.initialized || HeldBy(s.lock, n)) && NobodyElseCarries(s, n))
  }

  /** The config is not ready and the Machine names no secret. */
  predicate Blank(s: Cluster, n: Name) {
    n in s.born && (n in s.machines ==> !s.machines[n].ready && !s.machines[n].hasDataSecret)
  }

  predicate FreeOrOf(lock: Option<LockMap>, n: Name) {
    lock.None? || HeldBy(lock, n)
  }

  ghost predicate StageFits(s: Cluster, stage: Stage) {
    match stage
    case Idle => true
    case Begun(n, ready) => n in s.born && (!ready && n in s.machines ==> !s.machines[n].ready)
    case Met(n, ready, _, has) =>
      && n in s.born
      && (!ready && n in s.machines ==> !s.machines[n].ready && s.machines[n].hasDataSecret == has)
    case Healing(n) => n in s.born && (n in s.machines ==> s.machines[n].hasDataSecret)
    case Locking(n) => Blank(s, n) && (FreeOrOf(s.lock, n) && n in s.machines ==> NobodyElseCarries(s, n))
    case LockFree(n) => Blank(s, n) && s.lock.None? && (n in s.machines ==> NobodyElseCarries(s, n))
    case OtherHolds(_, holder) => holder in s.born && FreeOrOf(s.lock, holder)
    case HolderGone(_, holder) => holder in s.born && holder !in s.machines && FreeOrOf(s.lock, holder)
    case Holding(n) => Blank(s, n) && FreeOrOf(s.lock, n) && (n in s.machines ==> InitFor(s, n))
    case InitStored(n) =>
      && Blank(s, n) && FreeOrOf(s.lock, n)
      && (n in s.machines ==> InitFor(s, n) && s.machines[n].secret == Some(InitData))
    case Failing(n) => Blank(s, n) && FreeOrOf(s.lock, n)
    case Joining(n) => Blank(s, n) && s.initialized
    case Released(n) => Blank(s, n) && s.initialized
    case JoinStored(n) => Blank(s, n) && s.initialized && (n in s.machines ==> s.machines[n].secret == Some(JoinData))
  }

  predicate InitFor(s: Cluster, n: Name) {
    NobodyElseCarries(s, n) && (s.initialized || HeldBy(s.lock, n))
  }

  ghost predicate Orderly(w: World) {
    Inv(w.cluster) && StageFits(w.cluster, w.stage)
  }

  lemma WorldKeepsInv(step: Step, w: World)
    requires Orderly(w) && CanStep(step, w) && Foreign(step) && (step.TakeAway? ==> SafeToTakeAway(w))
    ensures Inv(Stepped(step, w).cluster)
  {
    var s, s' := w.cluster, Stepped(step, w).cluster;
    forall n | n in s'.machines && CarriesInit(s'.machines[n])
      ensures (s'.initialized || HeldBy(s'.lock, n)) && NobodyElseCarries(s', n)
    {
      assert n in s.machines && CarriesInit(s.machines[n]);
    }
  }

  lemma WorldKeepsStage(step: Step, w: World)
    requires Orderly(w) && CanStep(step, w) && Foreign(step) && (step.TakeAway? ==> SafeToTakeAway(w))
    ensures StageFits(Stepped(step, w).cluster, w.stage)
  {
    var s, s' := w.cluster, Stepped(step, w).cluster;
    forall n | n in s'.machines
      ensures CarriesInit(s'.machines[n]) ==> n in s.machines && CarriesInit(s.machines[n])
      ensures n in s.machines && !s.machines[n].ready ==>
        !s'.machines[n].ready && s'.machines[n].hasDataSecret == s.machines[n].hasDataSecret
      ensures n in s.machines ==> s'.machines[n].secret == s.machines[n].secret
    {
    }
  }

  lemma PassKeepsOrderly(step: Step, w: World)
    requires Orderly(w) && CanStep(step, w) && !Foreign(step)
    ensures Orderly(Stepped(step, w))
  {
    var s, w' := w.cluster, Stepped(step, w);
    forall n | n in w'.cluster.machines && CarriesInit(w'.cluster.machines[n])
      ensures (w'.cluster.initialized || HeldBy(w'.cluster.lock, n)) && NobodyElseCarries(w'.cluster, n)
    {
      if CarriesInit(s.machines[n]) {
        assert NobodyElseCarries(s, n);
      }
    }
  }

  lemma StepKeepsOrderly(step: Step, w: World)
    requires Orderly(w) && CanStep(step, w) && (step.TakeAway? ==> SafeToTakeAway(w))
    ensures Orderly(Stepped(step, w))
  {
    if Foreign(step) {
      WorldKeepsInv(step, w);
      WorldKeepsStage(step, w);
    } else {
      PassKeepsOrderly(step, w);
    }
  }

  /** Whenever the lock is taken away, it is at a safe moment. */
  ghost predicate Careful(start: World, steps: seq<Step>) {
    forall i :: 0 <= i < |steps| && steps[i].TakeAway? && Trace(start, steps[..i]).Some? ==>
      SafeToTakeAway(Trace(start, steps[..i]).value)
  }

  lemma {:induction false} TraceKeepsOrderly(start: World, steps: seq<Step>)
    requires Orderly(start) && Careful(start, steps) && Trace(start, steps).Some?
    ensures Orderly(Trace(start, steps).value)
  {
    if steps != [] {
      var last := |steps| - 1;
      assert Careful(start, steps[..last]) by {
        forall i | 0 <= i < last
          ensures steps[..last][..i] == steps[..i]
        {
        }
      }
      TraceKeepsOrderly(start, steps[..last]);
      StepKeepsOrderly(steps[last], Trace(start, steps[..last]).value);
    }
  }

  /** Single initialiser: over every run, with crashes after any call, lost replies, failed
      status patches, unlocks on error and machine deletions, at most one existing machine
      carries init data, and until the cluster is initialised it is the one in the lock. */
  lemma {:induction false} SingleInitialiser(start: World, steps: seq<Step>, a: Name, b: Name)
    requires start.cluster.machines == map[] && start.cluster.lock.None? && start.stage.Idle?
    requires Careful(start, steps) && Trace(start, steps).Some?
    ensures var s := Trace(start, steps).value.cluster;
      a in s.machines && CarriesInit(s.machines[a]) ==>
        && (!s.initialized ==> HeldBy(s.lock, a))
        && (b in s.machines && CarriesInit(s.machines[b]) ==> a == b)
  {
    TraceKeepsOrderly(start, steps);
    var s := Trace(start, steps).value.cluster;
    assert a in s.machines && CarriesInit(s.machines[a]) ==> NobodyElseCarries(s, a);
  }

  // ----- Taking the lock away from its holder -----

  ghost predicate Single(s: Cluster) {
    forall a, b :: a in s.machines && b in s.machines && CarriesInit(s.machines[a]) && CarriesInit(s.machines[b]) ==> a == b
  }

  /** However it goes on, as long as the lock is only taken away at safe moments, nobody else initialises. */
  ghost predicate StaysSingle(w: World) {
    forall steps :: Careful(w, steps) && Trace(w, steps).Some? ==> Single(Trace(w, steps).value.cluster)
  }

  /** The lock may be taken away over its holder's head, as a second worker's get-then-delete could do,
      exactly at a safe moment: at any point of a run, between any two calls of a pass, at most one
      machine carries init data on every run that follows if and only if nobody does or is about to; or
      the cluster is initialized, and no pass that has seen it not so is still to look at the lock. */
  lemma TakeAwayIsSafeExactlyWhen(w: World)
    requires Orderly(w)
    ensures StaysSingle(Stepped(TakeAway, w)) <==> SafeToTakeAway(w)
  {
    var w' := Stepped(TakeAway, w);
    if SafeToTakeAway(w) {
      StepKeepsOrderly(TakeAway, w);
      forall steps | Careful(w', steps) && Trace(w', steps).Some?
        ensures Single(Trace(w', steps).value.cluster)
      {
        TraceKeepsOrderly(w', steps);
      }
    } else {
      var steps := TakeAwayBreaks(w);
    }
  }

  ghost predicate Breaks(start: World, steps: seq<Step>) {
    Careful(start, steps) && Trace(start, steps).Some? && !Single(Trace(start, steps).value.cluster)
  }

  /** A careful run has come to w. */
  ghost predicate At(start: World, steps: seq<Step>, w: World) {
    Trace(start, steps) == Some(w) && Careful(start, steps) && w.cluster.machines.Keys <= w.cluster.born
  }

  /** One more step at the end of a careful run. */
  lemma Then(start: World, steps: seq<Step>, w: World, step: Step) returns (steps': seq<Step>, w': World)
    requires At(start, steps, w) && CanStep(step, w) && !step.TakeAway?
    ensures At(start, steps', w') && w' == Stepped(step, w)
  {
    TraceSnoc(start, steps, step);
    steps', w' := steps + [step], Stepped(step, w);
    forall i | 0 <= i < |steps|
      ensures steps'[..i] == steps[..i]
    {
    }
  }

  lemma TakeAwayBreaks(w: World) returns (steps: seq<Step>)
    requires Orderly(w) && !SafeToTakeAway(w)
    ensures Breaks(Stepped(TakeAway, w), steps)
  {
    var start := Stepped(TakeAway, w);
    var w' := start;
    steps := [];
    assert At(start, steps, w');
    if AboutToInit(w) {
      steps, w' := Then(start, steps, w', Store(InitData));
      steps, w' := Then(start, steps, w', Publish);
      steps := FreshMachineInits(start, steps, w', w.stage.n);
    } else {
      var a :| a in w.cluster.machines && CarriesInit(w.cluster.machines[a]);
      if w.cluster.initialized {
        steps := LockingInits(start, steps, w', a);
      } else {
        steps := FreshMachineInits(start, steps, w', a);
      }
    }
  }

  /** The pass finds the lock free and publishes init data for its machine. */
  lemma LockingInits(start: World, steps: seq<Step>, w: World, a: Name) returns (more: seq<Step>)
    requires At(start, steps, w)
    requires w.stage.Locking? && w.stage.n in w.cluster.machines && w.cluster.lock.None?
    requires a in w.cluster.machines && CarriesInit(w.cluster.machines[a]) && a != w.stage.n
    ensures Breaks(start, more)
  {
    var w';
    var n := w.stage.n;
    more, w' := Then(start, steps, w, SeeLock);
    more, w' := Then(start, more, w', TakeLock);
    more, w' := Then(start, more, w', Store(InitData));
    more, w' := Then(start, more, w', Publish);
    assert CarriesInit(w'.cluster.machines[a]) && CarriesInit(w'.cluster.machines[n]);
  }

  /** Before the cluster is initialized, a machine that arrives takes the free lock. */
  lemma FreshMachineInits(start: World, steps: seq<Step>, w: World, a: Name) returns (more: seq<Step>)
    requires At(start, steps, w) && w.cluster.lock.None? && !w.cluster.initialized
    requires a in w.cluster.machines && CarriesInit(w.cluster.machines[a])
    ensures Breaks(start, more)
  {
    var w';
    var n := SomeNewName(w.cluster.born);
    more, w' := Then(start, steps, w, Stop);
    more, w' := Then(start, more, w', SetInfrastructure(true));
    more, w' := Then(start, more, w', Arrive(n, true));
    more, w' := Then(start, more, w', ReadConfig(n));
    more, w' := Then(start, more, w', ReadOwner);
    more, w' := Then(start, more, w', SeeCluster);
    more := LockingInits(start, more, w', a);
  }

  /** Such moments are reached, before anybody carries init data: a pass that holds the lock is about to
      publish it. */
  lemma MidPassIsReachable(n: Name) returns (start: World, steps: seq<Step>, w: World)
    ensures start.cluster.machines == map[] && start.cluster.lock.None? && start.stage.Idle?
    ensures At(start, steps, w) && NobodyCarries(w.cluster) && HeldBy(w.cluster.lock, n) && !SafeToTakeAway(w)
  {
    start := World(Cluster(None, map[], {}, false, true), Idle);
    assert At(start, [], start);
    steps, w := Then(start, [], start, Arrive(n, true));
    steps, w := Then(start, steps, w, ReadConfig(n));
    steps, w := Then(start, steps, w, ReadOwner);
    steps, w := Then(start, steps, w, SeeCluster);
    steps, w := Then(start, steps, w, SeeLock);
    steps, w := Then(start, steps, w, TakeLock);
  }

  // ----- One undisturbed pass of the config controller -----

  function Published(s: Cluster, n: Name, data: BootstrapData): Cluster
    requires n in s.machines
  {
    s.(machines := s.machines[n := s.machines[n].(secret := Some(data), ready := true)])
  }

  function Initializing(s: Cluster, n: Name): Cluster
    requires n in s.machines
  {
    match s.lock
    case None => Published(s.(lock := Some(LockMap(Some(n)))), n, InitData)
    case Some(LockMap(None)) => s
    case Some(LockMap(Some(holder))) =>
      if holder == n then Published(s, n, InitData)
      else if holder !in s.machines then s.(lock := None)
      else s
  }

  function ConfigPass(s: Cluster, n: Name): Cluster {
    if n !in s.machines || !s.infrastructureReady then s
    else
      var m := s.machines[n];
      if m.hasDataSecret && !m.ready then s.(machines := s.machines[n := m.(ready := true)])
      else if m.ready then s
      else if s.initialized then Published(s.(lock := None), n, JoinData)
      else if m.controlPlane then Initializing(s, n)
      else s
  }

  /** Who neither is done nor can publish comes back. */
  function PassOutcome(s: Cluster, n: Name): Outcome {
    if n !in s.machines then Finished
    else if !s.infrastructureReady then Requeue
    else if s.machines[n].hasDataSecret || s.machines[n].ready || s.initialized then Finished
    else if s.machines[n].controlPlane && (s.lock.None? || HeldBy(s.lock, n)) then Finished
    else Requeue
  }

  // ----- In plain terms -----

  /** A machine that needs bootstrap data, with the infrastructure ready, gets it and becomes ready: init
      data under the lock for a control plane machine before the cluster is initialized, join data and a
      free lock for any machine afterwards. */
  lemma PublishesInPlainTerms(s: Cluster, n: Name)
    requires n in s.machines && s.infrastructureReady && !s.machines[n].hasDataSecret && !s.machines[n].ready
    ensures s.initialized ==>
      && PassOutcome(s, n) == Finished
      && ConfigPass(s, n) == s.(lock := None, machines := s.machines[n := s.machines[n].(secret := Some(JoinData), ready := true)])
    ensures !s.initialized && s.machines[n].controlPlane && (s.lock.None? || s.lock == Some(LockMap(Some(n)))) ==>
      && PassOutcome(s, n) == Finished
      && ConfigPass(s, n) == s.(
           lock := Some(LockMap(Some(n))),
           machines := s.machines[n := s.machines[n].(secret := Some(InitData), ready := true)])
  {
  }

  /** Otherwise it waits, after removing the lock of a machine that is gone. */
  lemma WaitsInPlainTerms(s: Cluster, n: Name)
    requires n in s.machines && s.infrastructureReady && !s.machines[n].hasDataSecret && !s.machines[n].ready
    requires !s.initialized && (s.machines[n].controlPlane ==> s.lock.Some? && s.lock != Some(LockMap(Some(n))))
    ensures PassOutcome(s, n) == Requeue
    ensures ConfigPass(s, n) ==
      if s.machines[n].controlPlane && s.lock.value.holder.Some? && s.lock.value.holder.value !in s.machines
      then s.(lock := None) else s
  {
  }

  /** A machine that has its data already only has its config made ready again; without infrastructure, or
      without the machine, nothing happens. */
  lemma RestInPlainTerms(s: Cluster, n: Name)
    ensures n !in s.machines ==> ConfigPass(s, n) == s && PassOutcome(s, n) == Finished
    ensures n in s.machines && !s.infrastructureReady ==> ConfigPass(s, n) == s && PassOutcome(s, n) == Requeue
    ensures n in s.machines && s.infrastructureReady && s.machines[n].ready ==> ConfigPass(s, n) == s && PassOutcome(s, n) == Finished
    ensures n in s.machines && s.infrastructureReady && s.machines[n].hasDataSecret ==>
      && PassOutcome(s, n) == Finished
      && ConfigPass(s, n) == s.(machines := s.machines[n := s.machines[n].(ready := true)])
  {
    if n in s.machines && s.machines[n].ready {
      assert s.machines[n := s.machines[n].(ready := true)] == s.machines;
    }
  }

  /** What the world around the pass can do at any point: machines come, under new names, and go; a machine
      takes over the name of its secret; a status is wiped; the cluster becomes initialized; somebody
      deletes the lock. */
  lemma WorldInPlainTerms(w: World, n: Name, cp: bool, up: bool)
    ensures n !in w.cluster.born ==>
      && CanStep(Arrive(n, cp), w)
      && Stepped(Arrive(n, cp), w) == w.(cluster := w.cluster.(
           machines := w.cluster.machines[n := Machine(cp, false, false, None)], born := w.cluster.born + {n}))
    ensures n in w.cluster.machines ==>
      && CanStep(Depart(n), w) && Stepped(Depart(n), w) == w.(cluster := w.cluster.(machines := w.cluster.machines - {n}))
      && CanStep(WipeStatus(n), w)
      && Stepped(WipeStatus(n), w).cluster == w.cluster.(machines := w.cluster.machines[n := w.cluster.machines[n].(ready := false)])
    ensures n in w.cluster.machines && w.cluster.machines[n].ready ==>
      && CanStep(CopySecretName(n), w)
      && Stepped(CopySecretName(n), w).cluster == w.cluster.(machines := w.cluster.machines[n := w.cluster.machines[n].(hasDataSecret := true)])
    ensures CanStep(Initialize, w) && Stepped(Initialize, w) == w.(cluster := w.cluster.(initialized := true))
    ensures CanStep(SetInfrastructure(up), w) && Stepped(SetInfrastructure(up), w) == w.(cluster := w.cluster.(infrastructureReady := up))
    ensures CanStep(TakeAway, w) && Stepped(TakeAway, w) == w.(cluster := w.cluster.(lock := None))
    ensures CanStep(Stop, w) && Stepped(Stop, w) == w.(stage := Idle)
  {
  }
}
