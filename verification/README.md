# Verification of the Canonical Kubernetes cluster API providers

This project models the protocols of the bootstrap and control plane providers of Canonical
Kubernetes, and proves what they keep. `dafny verify dfyconfig.toml` checks the whole project
(Dafny 4.11).

The providers are controllers: each runs passes over shared objects in an API server, and each
call of a pass can fail, can take effect although its reply is lost, or can be the last one before
the process dies, while other controllers, nodes and users act in between. So every protocol here
comes in two layers.

* A transition system: the shared state, every single write that anybody makes to it (`CanMove`,
  `Moved`), and runs of such writes (`Run`). Results about runs hold at every point of every
  interleaving, and after a crash at any point. Where a pass goes by what it has read earlier, the
  pass is part of the state: where it stands, what it has read, and every read and write it makes
  (`World`, `CanStep`, `Stepped`, `Trace`), between those of everybody else.
* The controller itself, imperatively: a class whose methods make the calls of the source, in the
  order of the source, against an API object that an arbitrary script disturbs. Its contracts say
  two things. Whatever the script does, the history of the state is a run, so that the results
  about runs apply to the code, and a pass whose writes failed does not end as done. And if nothing
  interferes, a pass computes a given function of the state; what that function does is stated once
  more on the fields of the objects alone, by the lemmas whose names end in `InPlainTerms`.

| files | subject |
|---|---|
| `SnapOption`, `InPlace`, `MachineUpgrade`, `MachineUpgradeController`, `MachineProgress`, `MachineRewrite` | the in-place upgrade of one machine |
| `ControlPlaneUpgrade`, `ControlPlanePass`, `ControlPlaneTimeline`, `ControlPlaneRefinement`, `ControlPlaneUpgradeController`, `ControlPlaneProgress`, `ControlPlaneLimits`, `ControlPlaneRetarget` | the orchestrated upgrade of a control plane under a lock: exclusion, completion, limits, changes of target |
| `WorkerUpgrade`, `WorkerTimeline`, `WorkerRefinement`, `WorkerUpgradeController`, `WorkerProgress`, `WorkerChanges` | the orchestrated upgrade of workers, ordered by UID without a lock |
| `MachineFilters`, `ControlPlaneMachines`, `WorkloadCluster`, `Remediation` | what the control plane controller decides by |
| `Lifecycle`, `LifecycleRetries`, `LifecycleProgress`, `LifecycleLimits`, `LifecyclePass`, `LifecycleApi`, `LifecycleController` | initialization, scaling, rolling update and remediation of a control plane |
| `InitLock`, `InitLockController` | the lock around the first control plane, and bootstrap data |
| `Certificates`, `SecretNames`, `NodeTokens` | secrets shared by several callers |
| `Promotion`, `Duration` | release promotion, and TTL arithmetic |

## What does not hold, and exactly when it does

* The orchestrators' mark of a failure erases the target of an owner that holds it as release
  alone; the upgrade then stops for good. `ControlPlaneLimits.PassKeepsTarget` and
  `WorkerProgress.PassKeepsTarget` give the exact condition, and `LostTargetIsReachable` in each a
  run that gets there.
* If the owner of a control plane is given another target, exclusion goes on to hold exactly if, at
  that moment, no machine is on its way to any other target and no pass under way that has read
  another target may still mark a machine (`ControlPlaneRetarget.RetargetIsSafeExactlyWhen`).
  Otherwise the lock is given up, and a later pass starts a second machine
  (`ControlPlaneRetarget.TwoPassesBreakExclusion`, `ControlPlaneRetarget.MidPassIsReachable`). A pass
  under way can also bring the old target back, or drop the new one
  (`ControlPlaneRetarget.StaleMarkKeepsNewTarget`, `ControlPlaneRetarget.RetargetIsUndone`; the
  worker orchestrator marks its owner in the same way).
* If upgrade-to is rewritten while a change is recorded, the release stamped in the end is true on
  every run exactly if the new value is that of the change, or the change can no longer turn out done
  (`MachineRewrite.RewriteIsTrueExactlyWhen`). The same goes for a rewrite between the refresh request
  and its recording (`MachineRewrite.RewriteDuringRequest`); one that comes during the pass that
  finishes is lost (`MachineRewrite.RewriteDuringFinish`).
* A machine that joins a worker fleet breaks the order exactly if a machine with a greater UID is
  upgrading, or a pass has already listed the machines and is about to mark one with a greater UID
  (`WorkerChanges.JoinIsSafeExactlyWhen`, `WorkerChanges.MidPassIsReachable`).
* A new target for the workers breaks the order exactly if a machine on its way elsewhere, or about to
  be sent there, has one below it that can be marked anew, or a pass that has read another target and
  not yet listed the machines can still bring that about (`WorkerChanges.RetargetIsSafeExactlyWhen`).
* If somebody else deletes the init lock, a second machine can initialize exactly if one carries or is
  about to carry init data, unless the cluster is initialized and no pass that has seen it not so is
  still to look at the lock (`InitLock.TakeAwayIsSafeExactlyWhen`).
* A rolling update can come to rest unfinished: a control plane of one machine without surge is
  never rolled, because its node can only be removed through another one
  (`LifecyclePass.RestsExactlyWhen`, `LifecyclePass.LoneMachineIsNeverRolled`).
* A delete annotation on a machine that is up to date takes precedence over outdated machines
  (`ControlPlaneMachines.OnlyOutdatedRemoved`).
* The comment of the preflight checks asks for all conditions to be true. A node that is reachable
  but not Ready leaves a true condition true, and a failed lookup of one node leaves those of the
  nodes after it as they were (`WorkloadCluster.UpdateAgentConditions`).
* The lower bound on the size of a control plane is missed by up to one for each remediation whose
  closing patch does not land, and no further (`LifecycleLimits.ShortfallIsBounded`,
  `LifecycleLimits.ShortfallIsReached`).
* A promoted version is not always new (`Promotion.PromotedIsFreshExactlyWhen`), a number of months
  or days is not always kept (`Duration.MonthsSurvive`, `Duration.DaysSurvive`).
* A node token that is there survives a call that succeeds exactly if the first read of the call did
  not fail (`NodeTokens.EnsureNodeToken`); reconciling the token panics exactly if its read fails for
  another reason than a missing secret (`NodeTokens.ReconcileToken`).
* A promotion run pushes only tags it creates itself: one whose push fails stays unpushed
  (`Promotion.PromoteReleases`).

## Assumptions

* Reads show the current state, not a stale cache. Passes of one controller do not overlap: one
  worker, one manager.
* Names and UIDs of machines are not reused. A node completes its snap changes in the order they were issued.
* Nobody outside writes the upgrade annotations of machines (`MachineRewrite` is about what happens if
  somebody does) or deletes control plane machines, and the annotations of a machine
  template do not reuse these keys. A deletion timestamp is never taken back.
* The clocks behind creation timestamps and rolloutAfter agree. A control plane's annotations
  hold what this controller wrote. Two machines do not have the same node.
* A merge patch writes exactly the keys that differ between the object as read and as changed; the
  snapshot it compares with is not renewed by an earlier patch.

## Model

| member | source | states |
|---|---|---|
| `SnapOption.BuildRefreshRequest` | pkg/ck8s/workload_cluster.go:361-379 | Accepts exactly the option strings that a later join decodes; the request carries the value under the name of the option (channel, revision or localPath), and nothing in the other two fields |
| `SnapOption.OptionInPlainTerms` | bootstrap/controllers/ck8sconfig_controller.go:477-517 | channel=v, revision=v and localPath=v, for every v without `=`, decode to that kind and v |
| `SnapOption.RequestInPlainTerms` | pkg/ck8s/workload_cluster.go:371-376 | Each field of the request, from the option string itself |
| `SnapOption.SplitInverse` | pkg/ck8s/workload_cluster.go:364-368 | Splitting at `=` loses nothing: a result of two parts comes from exactly one separator |
| `SnapOption.DecodesExactly` | bootstrap/controllers/ck8sconfig_controller.go:477-517 | A release annotation decodes to a kind and value if and only if it is that keyword, one `=`, and that value without `=` |
| `InPlace.MarksKeepInstructions` | pkg/upgrade/inplace/mark.go:41-102 | In-progress and done never change what an owner asks for; failed keeps it if and only if the owner still carries upgrade-to or asked for nothing |
| `MachineUpgrade.EffectKeepsConsistent` | bootstrap/controllers/upgrade_controller.go:163-309 | Every single write of orchestrator, per-machine controller and node keeps the annotations consistent with the journal of snap changes |
| `MachineUpgrade.ReleaseTellsTheTruth` | bootstrap/controllers/upgrade_controller.go:119-149 | Over every run, crashes after any write and retries included: a machine carrying release has a node that runs it and has no refresh outstanding |
| `MachineUpgrade.StampedReleaseIsUsable` | bootstrap/controllers/upgrade_controller.go:276-289 | Over every run: a release annotation the upgrade path writes is never ignored by a join |
| `MachineRewrite.RewriteIsTrueExactlyWhen` | bootstrap/controllers/upgrade_controller.go:276-309 | If upgrade-to is rewritten while a change is recorded, the release is true on every run that finishes if and only if the new value is the option of that change, or the change can no longer turn out done: its status is neither in progress nor done, or it has ended without success |
| `MachineRewrite.StampedAfterRewrite` | bootstrap/controllers/upgrade_controller.go:276-309 | On any such run the new value is stamped, and is true if and only if it is the option of the change, or the change was given up for a refresh to the new value |
| `MachineRewrite.FinishesAsRecorded` | bootstrap/controllers/upgrade_controller.go:237-289 | If the change may still turn out done, some run finishes with the option of the change on the node |
| `MachineRewrite.RewriteBeforeRequest` | bootstrap/controllers/upgrade_controller.go:206-234 | While no change is recorded, the release is true on every run that finishes, whatever the new value |
| `MachineRewrite.WriteInFlight` | bootstrap/controllers/upgrade_controller.go:190-309 | A rewrite between the read and a write of a pass is as good as one just after the write; but the write that finishes drops the new value |
| `MachineRewrite.RewriteDuringFinish` | bootstrap/controllers/upgrade_controller.go:276-289 | Rewritten during the pass that finishes: the new value is lost, and the release stamped is the old one, and true |
| `MachineRewrite.RewriteDuringRequest` | bootstrap/controllers/upgrade_controller.go:206-234 | Rewritten between the request and its recording: the change is recorded under the new value, and the release is true on every run if and only if that is the old one, or the change has already ended without success |
| `MachineProgress.CanStillFinish` | bootstrap/controllers/upgrade_controller.go:119-149 | From every consistent machine that carries a decodable upgrade-to, some run without an orchestrator ends with that value stamped as release |
| `MachineUpgrade.UpgradeToBecomesRelease` | bootstrap/controllers/upgrade_controller.go:276-309 | upgrade-to leaves a machine only by being turned into release when the upgrade finishes |
| `MachineUpgradeController.MachineApi.Refresh` | pkg/ck8s/workload_cluster.go:361-392 | A request for a decodable option adds one pending change to the journal; the reply, with its id, may be lost |
| `MachineUpgradeController.InPlaceUpgradeReconciler.Reconcile` | bootstrap/controllers/upgrade_controller.go:70-150 | Wherever it is cut short, every write is a move of the machine model; a pass in which a call failed ends in an error; undisturbed it computes Pass and ends as PassOutcome says. A recorded change that is pending is looked for again, one that succeeded is marked done, any other end marked failed, stated on the annotations |
| `MachineUpgradeController.InPlaceUpgradeReconciler.HandleUpgradeRequest` | bootstrap/controllers/upgrade_controller.go:206-234 | Clears leftovers, refreshes, records the change: two patches against the same original snapshot around the call |
| `MachineUpgradeController.InPlaceUpgradeReconciler.HandleUpgradeInProgress` | bootstrap/controllers/upgrade_controller.go:237-273 | Done is recorded only for a change that succeeded, failed only for one that ended otherwise |
| `MachineUpgradeController.InPlaceUpgradeReconciler.HandleUpgradeDone` | bootstrap/controllers/upgrade_controller.go:276-289 | Stamps the value of upgrade-to as release and drops the other keys |
| `MachineUpgradeController.InPlaceUpgradeReconciler.HandleUpgradeFailed` | bootstrap/controllers/upgrade_controller.go:291-309 | Drops status and change id, so that the next pass tries again; upgrade-to and the failure mark stay |
| `MachineUpgradeController.InPlaceUpgradeReconciler.MarkUpgradeFailed` | bootstrap/controllers/upgrade_controller.go:190-203 | Records the failure and its time |
| `ControlPlaneUpgrade.UpgradeExclusion` | controlplane/controllers/orchestrated_inplace_upgrade_controller.go:107-176 | Over every run of writes under one target: at most one machine carries upgrade-to; it carries the target, holds the lock, and does not also carry release |
| `ControlPlaneUpgrade.NobodyOvertakes` | controlplane/controllers/orchestrated_inplace_upgrade_controller.go:133-143 | If a machine carries upgrade-to, failed or not, no other machine does until the first is upgraded or gone |
| `ControlPlaneUpgrade.CarriesUntilSettled` | controlplane/controllers/orchestrated_inplace_upgrade_controller.go:112-144 | A machine marked for upgrade stays marked until it is upgraded or gone |
| `ControlPlaneUpgrade.EveryReleaseIsTrue` | bootstrap/controllers/upgrade_controller.go:206-309 | In every reachable state of the whole control plane every release annotation is true |
| `ControlPlaneUpgrade.MoveKeepsInv` | controlplane/controllers/orchestrated_inplace_upgrade_controller.go:107-176 | Every write of every actor keeps the invariant behind these results |
| `ControlPlaneTimeline.CarefulRunsAreExclusive` | controlplane/controllers/orchestrated_inplace_upgrade_controller.go:73-188 | Over every run of passes, call by call, with the owner retargeted at safe moments: at most one machine is on its way at any time |
| `ControlPlaneTimeline.StepKeepsAligned` | controlplane/controllers/orchestrated_inplace_upgrade_controller.go:101-187 | Every read and write of a pass and of everybody else keeps machines, lock and pass about one target, or leaves nobody on its way; what the pass has listed stays current once it finds the lock free |
| `ControlPlaneTimeline.StepKeepsQuiescent` | controlplane/controllers/orchestrated_inplace_upgrade_controller.go:101-187 | While nobody is on its way, a pass that can mark nobody stays so, whatever target it has read |
| `ControlPlaneTimeline.MarkIsComplete` | pkg/upgrade/inplace/mark.go:16-38 | The listed machine has not changed when it is marked, so the patch is the whole mark |
| `ControlPlaneRefinement.OneTargetRefines` | controlplane/controllers/orchestrated_inplace_upgrade_controller.go:73-188 | While the owner keeps its target, every run of passes is, write by write, a run of ControlPlaneUpgrade |
| `ControlPlaneRefinement.EarlierPoints` | controlplane/controllers/orchestrated_inplace_upgrade_controller.go:73-188 | and earlier points of the one are earlier points of the other |
| `ControlPlaneUpgradeController.UpgradeLock.IsLocked` | pkg/upgrade/inplace/lock.go:120-148 | Reports the holder, with its machine, or not locked after removing the lock of a machine that is gone; an unreadable lock is an error |
| `ControlPlaneUpgradeController.UpgradeLock.Unlock` | pkg/upgrade/inplace/lock.go:151-171 | Leaves the lock free; an absent lock is fine |
| `ControlPlaneUpgradeController.UpgradeLock.Lock` | pkg/upgrade/inplace/lock.go:174-192 | Succeeds if and only if the lock was free, and then names the machine |
| `ControlPlaneUpgradeController.OrchestratedInPlaceUpgradeController.Reconcile` | controlplane/controllers/orchestrated_inplace_upgrade_controller.go:73-188 | Wherever it is cut short and whoever retargets the owner meanwhile, every read and write is a step of the model; a pass in which a call failed ends in an error; undisturbed it computes OrchestratorPass. An owner without a target, being deleted, or with other than replicas ready replicas leaves everything as it is (finished, finished, come back); a machine is changed only by the full mark, under its lock, for an owner that is ready |
| `ControlPlanePass.ChangesExactlyWhen` | controlplane/controllers/orchestrated_inplace_upgrade_controller.go:82-187 | A pass changes anything if and only if the owner asks for a target, is not being deleted and has replicas ready replicas, and: the lock is held by a machine that is there and asks for something else, is upgraded, or has failed unreported; or the lock is left over, a machine is to be marked, or all are upgraded and the owner not yet done |
| `ControlPlanePass.ScanInPlainTerms` | controlplane/controllers/orchestrated_inplace_upgrade_controller.go:146-187 | Under a free lock: which machines may be picked, as an iff on their annotations, and every annotation written |
| `ControlPlaneUpgradeController.OrchestratedInPlaceUpgradeController.Watching` | controlplane/controllers/orchestrated_inplace_upgrade_controller.go:113-144 | Releases a stale or settled lock, reports a failure on the owner, or waits |
| `ControlPlaneUpgradeController.OrchestratedInPlaceUpgradeController.Scanning` | controlplane/controllers/orchestrated_inplace_upgrade_controller.go:146-187 | With the lock free: starts the first machine met that is not upgraded, waits for one being deleted, or marks the owner done |
| `ControlPlaneUpgradeController.OrchestratedInPlaceUpgradeController.FirstToUpgrade` | controlplane/controllers/orchestrated_inplace_upgrade_controller.go:147-153 | Finds a machine that is not upgraded, or none if and only if all are |
| `ControlPlaneUpgradeController.OrchestratedInPlaceUpgradeController.Start` | controlplane/controllers/orchestrated_inplace_upgrade_controller.go:160-175 | Lock, machine and owner are written in this order |
| `ControlPlaneUpgradeController.OrchestratedInPlaceUpgradeController.Conclude` | controlplane/controllers/orchestrated_inplace_upgrade_controller.go:178-185 | The owner is marked done, with the target that was read, when every listed machine was upgraded to it |
| `ControlPlaneProgress.UpgradeTerminates` | controlplane/controllers/orchestrated_inplace_upgrade_controller.go:107-187 | Without crashes and refresh failures, a run in which every turn changes something is no longer than the measure of its start |
| `ControlPlaneProgress.TurnShrinks` | controlplane/controllers/orchestrated_inplace_upgrade_controller.go:107-187 | Every undisturbed pass and every finished refresh that changes anything makes the measure smaller |
| `ControlPlaneProgress.RestIsComplete` | controlplane/controllers/orchestrated_inplace_upgrade_controller.go:178-185 | Nothing is left to do if and only if every machine is upgraded, the lock is free and the owner is marked done |
| `ControlPlaneProgress.UpgradeCompletes` | pkg/upgrade/inplace/mark.go:83-102 | At the end of any run of turns: nothing is left to do if and only if the upgrade is complete |
| `ControlPlaneProgress.PassShrinks` | bootstrap/controllers/upgrade_controller.go:119-149 | Every pass over one machine that changes it brings it nearer to being upgraded, through request, in progress, done, failed and retry |
| `ControlPlaneLimits.PassKeepsTarget` | pkg/upgrade/inplace/mark.go:48 | A pass keeps what the owner asks for, except exactly when it reports a failure on an owner that holds its target as release alone |
| `ControlPlaneLimits.LostTargetStops` | controlplane/controllers/orchestrated_inplace_upgrade_controller.go:87-90 | An owner that lost its target is never acted for again |
| `ControlPlaneLimits.LostTargetIsReachable` | controlplane/controllers/orchestrated_inplace_upgrade_controller.go:160-175 | That happens: a run from a finished upgrade, by a join, a crash before the owner is marked, and a failed refresh |
| `ControlPlaneRetarget.RetargetIsSafeExactlyWhen` | controlplane/controllers/orchestrated_inplace_upgrade_controller.go:73-188 | At any point of a run, between any two calls of a pass, the owner can be given other annotations so that exclusion holds on every run that follows if and only if they ask for nothing, or the owner is being deleted, or nobody is on its way to another target and no pass under way that has read another target may still mark a machine |
| `ControlPlaneRetarget.TwoPassesBreakExclusion` | controlplane/controllers/orchestrated_inplace_upgrade_controller.go:117-176 | If somebody is on its way elsewhere, the next two undisturbed passes are a run after which a second machine carries upgrade-to: any that is not upgraded to the new target |
| `ControlPlaneRetarget.MidPassIsReachable` | controlplane/controllers/orchestrated_inplace_upgrade_controller.go:160-168 | Unsafe although nobody is on its way: a pass that has read the old target and taken the lock is about to mark |
| `ControlPlaneRetarget.MidFlightIsReachable` | controlplane/controllers/orchestrated_inplace_upgrade_controller.go:160-175 | Unsafe between passes: reached by every upgrade of two machines as soon as the first is started |
| `ControlPlaneRetarget.StaleMarkKeepsNewTarget` | pkg/upgrade/inplace/mark.go:41-102 | When a mark of a pass that has read the old target meets the new one, for each of the three marks: the new target survives if and only if the patch does not touch the key that holds it |
| `ControlPlaneRetarget.RetargetIsUndone` | controlplane/controllers/orchestrated_inplace_upgrade_controller.go:160-175 | It happens: retargeted while a pass holds the lock, an owner that held the old target as release asks for the old target again |
| `WorkerUpgrade.UpgradesInOrder` | bootstrap/controllers/orchestrated_inplace_upgrade_controller.go:105-158 | Over every run of writes under one target, with machines that join at safe moments: a machine carrying upgrade-to has the least UID among those not upgraded, so at most one does, and a failed one blocks all later ones |
| `WorkerUpgrade.UpgradedForGood` | bootstrap/controllers/orchestrated_inplace_upgrade_controller.go:108-112 | Upgraded machines stay upgraded for as long as they exist |
| `WorkerTimeline.CarefulRunsAreSerial` | bootstrap/controllers/orchestrated_inplace_upgrade_controller.go:76-159 | Over every run of passes, call by call, with machines that join and targets that change at safe moments: everything below a machine on its way is upgraded to where it is going, so at most one is on its way |
| `WorkerTimeline.StepKeepsOrderly` | bootstrap/controllers/orchestrated_inplace_upgrade_controller.go:76-159 | Every read and write of a pass and of everybody else keeps the invariant behind it |
| `WorkerTimeline.ListedMeansFree` | bootstrap/controllers/orchestrated_inplace_upgrade_controller.go:105-142 | A pass about to mark a machine of the list it has just read finds nobody on its way |
| `WorkerChanges.JoinIsSafeExactlyWhen` | bootstrap/controllers/orchestrated_inplace_upgrade_controller.go:283-309 | At any point of a run, between any two calls of a pass, a machine can join so that the order holds on every run that follows if and only if nobody with a greater UID is on its way, and no pass that has listed the machines is still to mark one with a greater UID |
| `WorkerChanges.RetargetIsSafeExactlyWhen` | bootstrap/controllers/orchestrated_inplace_upgrade_controller.go:105-142 | At any point of a run, the owner can be given other annotations so that the order holds on every run that follows if and only if they ask for nothing, or the owner is being deleted, or no machine on its way elsewhere, or about to be sent there by a pass under way, has one below it that can be marked, nor will a pass that has read another target and not yet listed send one |
| `WorkerChanges.MidPassIsReachable` | bootstrap/controllers/orchestrated_inplace_upgrade_controller.go:105-142 | Unsafe to join although nobody is on its way: a pass has listed the machines and is about to mark one above |
| `WorkerChanges.MidFlightIsReachable` | bootstrap/controllers/orchestrated_inplace_upgrade_controller.go:105-142 | Unsafe to retarget: a machine already upgraded to the old target, and one above it still on its way there |
| `WorkerRefinement.OneTargetRefines` | bootstrap/controllers/orchestrated_inplace_upgrade_controller.go:76-159 | While the owner keeps its target and machines join at safe moments, every run of passes is, write by write, a run of WorkerUpgrade |
| `WorkerProgress.UpgradeCompletes` | bootstrap/controllers/orchestrated_inplace_upgrade_controller.go:105-158 | Without crashes and refresh failures a run in which every turn changes something is no longer than the measure of its start, and nothing is left to do if and only if every machine is upgraded and the owner is done |
| `WorkerProgress.TurnShrinks` | bootstrap/controllers/orchestrated_inplace_upgrade_controller.go:105-158 | Every undisturbed pass and every finished refresh that changes anything makes the measure smaller |
| `WorkerProgress.RestIsComplete` | bootstrap/controllers/orchestrated_inplace_upgrade_controller.go:147-155 | Nothing is left to do if and only if every machine is upgraded and the owner is marked done |
| `WorkerProgress.PassKeepsTarget` | bootstrap/controllers/orchestrated_inplace_upgrade_controller.go:119-126 | A pass keeps what the owner asks for, except exactly when it reports a failure on an owner that holds its target as release alone |
| `WorkerProgress.LostTargetStops` | bootstrap/controllers/orchestrated_inplace_upgrade_controller.go:90-93 | An owner that lost its target is never acted for again |
| `WorkerProgress.LostTargetIsReachable` | bootstrap/controllers/orchestrated_inplace_upgrade_controller.go:134-142 | That happens: by a crash before the owner is marked, and a failed refresh |
| `WorkerUpgradeController.GetOwnedMachines` | bootstrap/controllers/orchestrated_inplace_upgrade_controller.go:283-309 | Lists exactly the owned machines, in ascending order of UID |
| `WorkerUpgradeController.OrchestratedInPlaceUpgradeController.Reconcile` | bootstrap/controllers/orchestrated_inplace_upgrade_controller.go:76-159 | Wherever it is cut short, whoever joins and whoever retargets the owner meanwhile, every read and write is a step of the model; a pass in which a call failed ends in an error; undisturbed it computes WorkerPass. A machine is changed only by the full mark, and only the least one that does not carry the target as release, neither being deleted, upgrading nor failed |
| `WorkerUpgradeController.OrchestratedInPlaceUpgradeController.FirstToUpgrade` | bootstrap/controllers/orchestrated_inplace_upgrade_controller.go:106-112 | Stops at the least machine that is not upgraded, or counts them all |
| `MachineFilters.CloneMatches` | pkg/machinefilters/machine_filters.go:35-115 | A machine made from the specification matches it, even if its config and infrastructure object cannot be fetched later |
| `MachineFilters.MismatchInPlainTerms` | pkg/machinefilters/machine_filters.go:35-115 | What does not match, as an iff on fields: no version; another version after one optional leading v; a fetched config that differs in more than its version; a fetched object cloned from another template |
| `MachineFilters.BlankingIsHarmless` | pkg/machinefilters/machine_filters.go:103-111 | Blanking the version of a fetched config in place does not change what the filter says of the machine |
| `ControlPlaneMachines.PreflightChecks` | controlplane/controllers/scale.go:159-221 | Passes if and only if there are no machines, or none is being deleted and all but the excluded one are AgentHealthy |
| `ControlPlaneMachines.OutdatedInPlainTerms` | pkg/ck8s/control_plane.go:261-272 | Which machines are to be rolled out, as an iff on the fields of machine and specification |
| `ControlPlaneMachines.WantsInPlainTerms` | controlplane/controllers/ck8scontrolplane_controller.go:524-563 | Which way the set is to change, as an iff on the number of machines, replicas, surge and whether any machine is outdated |
| `ControlPlaneMachines.SelectMachineForScaleDown` | controlplane/controllers/scale.go:223-234 | Picks a machine if there is any: the oldest candidate outside the current failure domains, else the oldest candidate of a domain that, of those with candidates, holds the most machines |
| `ControlPlaneMachines.CandidatesInPlainTerms` | controlplane/controllers/scale.go:223-234 | Which machines may be picked, as an iff: annotated outdated ones if any, else annotated ones, else outdated ones, else all |
| `ControlPlaneMachines.VictimInPlainTerms` | pkg/ck8s/control_plane.go:128-161 | The one picked was created no later than any other candidate outside the current domains; or no later than any of its domain, which holds as many machines as any domain with candidates |
| `ControlPlaneMachines.FailureDomainWithMostMachines` | pkg/ck8s/control_plane.go:147-161 | The domain holds a candidate, and, of the domains that do, the most machines; with candidates outside the current domains it is that of the oldest of them |
| `ControlPlaneMachines.PickMost` | pkg/ck8s/control_plane.go:147-160 | A domain that holds a candidate and, of those, the most control plane machines |
| `ControlPlaneMachines.OnlyOutdatedRemoved` | controlplane/controllers/scale.go:223-234 | During a rollout only outdated machines can be picked if and only if no machine carries the delete annotation or an outdated one does |
| `ControlPlaneMachines.Oldest` | pkg/ck8s/control_plane.go:132 | Created no later than any other, the first by name of those; none if and only if there are none |
| `ControlPlaneMachines.GetMachineToBeRemediated` | controlplane/controllers/remediation.go:210-216 | The oldest unhealthy machine without a node, or, if all have nodes, the oldest unhealthy machine, by creation |
| `WorkloadCluster.GetK8sdProxyForControlPlane` | pkg/ck8s/workload_cluster.go:156-203 | The first listed node that is not ignored and answers; none if and only if there is none |
| `WorkloadCluster.ProxyFor` | pkg/ck8s/workload_cluster.go:169-202 | A result is a node that answers and is not ignored |
| `WorkloadCluster.ProxyInPlainTerms` | pkg/ck8s/workload_cluster.go:156-203 | It is the first listed one that is not ignored and answers |
| `WorkloadCluster.UpdateAgentConditions` | pkg/ck8s/workload_cluster.go:537-639 | Becomes true only for a machine not being deleted whose node is listed, reachable and Ready. With one node per machine, for every machine that is reached: deleting is false; an unreachable node is unknown; a missing one false, a failed lookup unknown, Ready true, and NotReady leaves it; all unknown if the nodes cannot be listed |
| `WorkloadCluster.StopsInPlainTerms` | pkg/ck8s/workload_cluster.go:603-612 | After a node that is missing or cannot be looked up, the machines of later nodes stay as they were |
| `WorkloadCluster.MissingNodeInPlainTerms` | pkg/ck8s/workload_cluster.go:621-636 | A machine whose node is not listed is false, if every listed node was looked at |
| `WorkloadCluster.UnreachableStopsChanges` | controlplane/controllers/scale.go:159-221 | With a node unreachable or gone, the preflight checks pass only if the machine of that node is the excluded one |
| `WorkloadCluster.InspectMachine` | pkg/ck8s/workload_cluster.go:579-618 | The condition of the machine on one node; a node that is reachable but not Ready leaves it as it was |
| `Lifecycle.OneDisruptionAtATime` | controlplane/controllers/scale.go:159-206 | From no machines on, whatever becomes of the specification: not initialized implies at most one machine; at most one is being deleted; at most one has never been healthy |
| `Lifecycle.MoveKeepsCalm` | controlplane/controllers/ck8scontrolplane_controller.go:656-658 | Every move keeps that, by the Initialized gate, the preflight checks and the remediation guards together |
| `Lifecycle.SizeEnvelope` | controlplane/controllers/ck8scontrolplane_controller.go:760-765 | Under one specification: never more machines than at the start or than replicas plus surge; and once reached, machines and remediations on order, with those whose closing patch has not landed, never fall below replicas plus surge less one (replicas, if the surge is larger than one) |
| `Lifecycle.SizeBetweenPasses` | controlplane/controllers/remediation.go:102-105 | If every closing patch landed: machines not being deleted, plus one if remediation-in-progress is set, never fall below that |
| `LifecycleLimits.ShortfallIsBounded` | controlplane/controllers/remediation.go:183-205 | They fall no further below it than there are remediations whose closing patch did not land |
| `LifecycleLimits.ShortfallIsReached` | controlplane/controllers/ck8scontrolplane_controller.go:155-159 | And they do: from healthy machines, k remediations whose patches are lost leave k machines less and nothing on order, for every k that leaves one machine |
| `LifecycleLimits.TwoLostPatches` | controlplane/controllers/ck8scontrolplane_controller.go:155-159 | Three healthy replicas with a surge of one, two lost patches: one machine, two below the bound |
| `LifecycleLimits.IsPicked` | controlplane/controllers/remediation.go:79-164 | Each of these remediations is one that a pass makes |
| `Lifecycle.RemediationsAreBounded` | controlplane/controllers/remediation.go:223-305 | Over every run with a fixed strategy: of the remediations recorded for a machine, no more than maxRetry + 1 in a row are closer than minHealthyPeriod |
| `LifecycleRetries.RetriesAreBounded` | controlplane/controllers/remediation.go:223-305 | Over every run, told from its writes alone: of remediations that each delete the machine made in place of the one before, no more than maxRetry + 1 in a row follow each other within the whole seconds of minHealthyPeriod (an hour, if not given), and no two if retryPeriod is not below it |
| `LifecycleRetries.ReplacementCarriesRecord` | controlplane/controllers/scale.go:384-396 | The machine made in place of a remediated one carries what that remediation recorded |
| `LifecycleRetries.RetryIsReached` | controlplane/controllers/remediation.go:263-304 | Such a retry happens: a replacement is remediated within the hour, with a count of one |
| `Lifecycle.MembersRemain` | pkg/ck8s/workload_cluster.go:447-471 | Over every run: node removals never empty the membership |
| `LifecycleProgress.RolloutTerminates` | controlplane/controllers/ck8scontrolplane_controller.go:524-561 | Under one specification, without remediation and while no pass sees a delete annotation: the set of machines changes no more often than the measure of the start says |
| `LifecycleProgress.OnlyOutdatedLeave` | controlplane/controllers/scale.go:223-234 | While there are outdated machines, a pass that sees no delete annotation removes no other one |
| `LifecycleProgress.CreateKeepsOutdated` | pkg/machinefilters/machine_filters.go:35-42 | A machine just made is not one to roll out |
| `LifecycleProgress.RestsExactlyAtTarget` | controlplane/controllers/ck8scontrolplane_controller.go:540-563 | With all machines healthy: nothing can change if and only if there are exactly replicas machines, all up to date (or some are outdated and there is no rollout strategy) |
| `LifecycleProgress.NewVersionRollsOut` | pkg/machinefilters/machine_filters.go:75-85 | When the version in the specification changes, leading v aside, every machine of another version is to be rolled out, and the set is to change |
| `LifecycleProgress.NewVersionReplacesAll` | controlplane/controllers/ck8scontrolplane_controller.go:540-563 | On every run after that, at rest: none of those machines is left, and there are replicas machines, all of the new version |
| `LifecyclePass.RestsExactlyWhen` | controlplane/controllers/scale.go:130-137 | When everything is up, a pass changes nothing if and only if that target is reached, a rollout strategy is missing, or the one machine there is would have to go first |
| `LifecyclePass.LoneMachineIsNeverRolled` | pkg/ck8s/workload_cluster.go:458-463 | That last state exists: one outdated machine, one replica and no surge; the pass picks it and ends in an error |
| `LifecyclePass.CanLeaveExactlyIfNotAlone` | pkg/ck8s/workload_cluster.go:458-463 | When everything is up, a node can be removed if and only if it is not the only one |
| `LifecyclePass.InspectionSettles` | pkg/ck8s/workload_cluster.go:555-619 | When everything is up, an inspection calls every machine healthy and changes nothing else |
| `LifecyclePass.ConditionsInPlainTerms` | pkg/ck8s/workload_cluster.go:579-618 | What an inspection leaves of a machine: its condition from the fields of its node, and nothing else changes |
| `LifecyclePass.UnreachableStopsThePass` | controlplane/controllers/scale.go:159-221 | A pass that finds a node unreachable or gone makes no machine and removes none but the one on that node |
| `LifecyclePass.RemediationComesFirst` | controlplane/controllers/ck8scontrolplane_controller.go:519-541 | A pass remediates if and only if the machine to be remediated may be, and then that one |
| `LifecyclePass.RemediationInPlainTerms` | controlplane/controllers/remediation.go:166-205 | Every field that a remediation writes: the member removed, the machine deleted, and the record, with its time in whole seconds and its count |
| `LifecyclePass.CanLeaveInPlainTerms` | pkg/ck8s/workload_cluster.go:156-203 | A node can be removed if and only if there is none, or the first other listed node that answers is a member |
| `LifecyclePass.ChoiceInPlainTerms` | controlplane/controllers/ck8scontrolplane_controller.go:524-563 | When a pass makes a machine, removes one, or does neither, from numbers and fields |
| `LifecyclePass.HeldBackInPlainTerms` | controlplane/controllers/scale.go:96-150 | What keeps a pass from removing a machine it would have to: somebody being deleted, or a machine other than the one to go that is not healthy |
| `LifecyclePass.PassHandsOver` | controlplane/controllers/ck8scontrolplane_controller.go:77-171 | Who is in the set after a pass, who is being deleted, what remediation is in progress, and whether the control plane counts as initialized |
| `LifecycleApi.MirrorsAgree` | controlplane/controllers/ck8scontrolplane_controller.go:492-541 | A stable list of machines, however much later, leads to the same decision as what is there |
| `LifecycleController.CK8sControlPlaneReconciler.Reconcile` | controlplane/controllers/ck8scontrolplane_controller.go:77-171 | Wherever it is cut short, every write is a move of Lifecycle; a pass in which a write failed ends in an error; undisturbed it inspects, remediates, or changes the set by one machine, patches the object at the end, and ends as PassOutcome says. A machine that is made carries the remediation that was in progress, and then none is; a remediation adds itself to the record of the machine it deletes; initialized is latched |
| `LifecycleController.CK8sControlPlaneReconciler.ReconcileMachines` | controlplane/controllers/ck8scontrolplane_controller.go:479-564 | The same without the closing patch; what it leaves in memory can be patched wherever it stopped |
| `LifecycleController.CK8sControlPlaneReconciler.ReconcileControlPlaneConditions` | controlplane/controllers/ck8scontrolplane_controller.go:653-676 | Not initialized: nothing. Otherwise every condition is as the inspection says and is stored, or the pass ends with an error |
| `LifecycleController.CK8sControlPlaneReconciler.PatchMachines` | pkg/ck8s/control_plane.go:336-352 | Patches every changed condition; succeeds only if every patch landed |
| `LifecycleController.CK8sControlPlaneReconciler.ReconcileUnhealthyMachines` | controlplane/controllers/remediation.go:44-208 | Remediates the machine that IsToBeRemediated names if and only if that is safe now; otherwise the pass goes on and nothing has changed |
| `LifecycleController.CK8sControlPlaneReconciler.CheckRemediation` | controlplane/controllers/remediation.go:129-164 | Safe if and only if the retry limits allow it and, once initialized, there is another machine, none still provisioning and none being deleted |
| `LifecycleController.CK8sControlPlaneReconciler.Remediate` | controlplane/controllers/remediation.go:166-205 | Removes the node, deletes the machine and keeps the annotation for the closing patch, in this order |
| `LifecycleController.CK8sControlPlaneReconciler.Scale` | controlplane/controllers/ck8scontrolplane_controller.go:524-563 | Rollout first, then size; makes or removes at most one machine, the one that fits |
| `LifecycleController.CK8sControlPlaneReconciler.UpgradeControlPlane` | controlplane/controllers/ck8scontrolplane_controller.go:755-765 | Up while below replicas plus surge, then down; nothing without a rollout strategy |
| `LifecycleController.CK8sControlPlaneReconciler.InitializeControlPlane` | controlplane/controllers/scale.go:46-73 | Makes the first machine after a second, uncached look found none |
| `LifecycleController.CK8sControlPlaneReconciler.ScaleUpControlPlane` | controlplane/controllers/scale.go:75-94 | Makes a machine if and only if the preflight checks pass |
| `LifecycleController.CK8sControlPlaneReconciler.ScaleDownControlPlane` | controlplane/controllers/scale.go:96-150 | Removes a machine that fits if and only if the preflight checks pass without it |
| `LifecycleController.CK8sControlPlaneReconciler.GenerateMachine` | controlplane/controllers/scale.go:347-398 | The new machine has the version, config and template of the specification and takes over the remediation in progress, field by field; the annotation is dropped in memory |
| `LifecycleController.CK8sControlPlaneReconciler.RemoveMachineFromCluster` | pkg/ck8s/workload_cluster.go:447-471 | Removes the node through another node that answers and is a member, if there is one |
| `LifecycleController.CK8sControlPlaneReconciler.UpdateStatus` | controlplane/controllers/ck8scontrolplane_controller.go:328-401 | Initialized is latched when the config map is seen, and never taken back; a failed call is an error of the pass, except that of connecting to the workload cluster |
| `LifecycleController.CK8sControlPlaneReconciler.PatchObject` | controlplane/controllers/ck8scontrolplane_controller.go:155-159 | Patches the annotation and the status, each only if it changed in memory |
| `Remediation.CheckRetryLimits` | controlplane/controllers/remediation.go:223-305 | Allows a remediation, with its data, if and only if Verdict does: the gap is measured from the stored timestamp, or taken as long enough |
| `Remediation.VerdictInPlainTerms` | controlplane/controllers/remediation.go:263-304 | The verdict from the fields of the strategy: start over after minHealthyPeriod (an hour, if not given); refused before retryPeriod or at maxRetry; otherwise one more |
| `Remediation.LinkIsResetOrRetry` | controlplane/controllers/remediation.go:263-304 | Each remediation in a chain either starts over after minHealthyPeriod, or counts one more, after retryPeriod, before minHealthyPeriod and below maxRetry |
| `Remediation.RetryBound` | controlplane/controllers/remediation.go:291-301 | Close remediations in a row are at most strategy.maxRetry + 1, and only one if retryPeriod is not below minHealthyPeriod |
| `Remediation.ExtendedIsChain` | controlplane/controllers/scale.go:384-396 | What a remediation hands over through the annotations is again such a chain |
| `InitLock.SingleInitialiser` | bootstrap/controllers/ck8sconfig_controller.go:590-758 | Over every run of one worker, call by call, with crashes, lost status patches, unlocks on error, machine deletions and locks taken away at safe moments: at most one existing machine carries init data, and until the cluster is initialized it is the one in the lock |
| `InitLock.TakeAwayIsSafeExactlyWhen` | pkg/locking/control_plane_init_mutex.go:111-137 | At any point of a run, between any two calls of a pass, the lock can be taken away over its holder so that at most one machine carries init data on every run that follows if and only if nobody does or is about to; or the cluster is initialized, and no pass that has seen it not so is still to look at the lock |
| `InitLock.MidPassIsReachable` | pkg/locking/control_plane_init_mutex.go:49-108 | Unsafe although nobody carries init data yet: a pass holds the lock and is about to publish them |
| `InitLock.StepKeepsOrderly` | bootstrap/controllers/ck8sconfig_controller.go:176-212 | Every read and write of the pass and of the world keeps the invariant behind these results |
| `InitLockController.ControlPlaneInitMutex.Lock` | pkg/locking/control_plane_init_mutex.go:49-108 | Taken if and only if it was free or is already held for this machine; the lock of a machine that is gone is released, an unreadable one refuses everybody |
| `InitLockController.ControlPlaneInitMutex.Unlock` | pkg/locking/control_plane_init_mutex.go:111-144 | Releases the lock; an absent one is fine |
| `InitLockController.CK8sConfigReconciler.Reconcile` | bootstrap/controllers/ck8sconfig_controller.go:176-213 | Wherever it is cut short and whoever deletes the lock meanwhile, every read and write is a step of the model, and the pass is finished only if the config was ready, or the machine gone, at some point of it, and no call failed but the release of a lock before a join. Undisturbed: finished if and only if the infrastructure and the config are ready; a machine that needs data gets join data and a free lock once initialized, and before that, if a control plane machine and the lock is free or its own, init data under its lock; and is ready |
| `InitLockController.CK8sConfigReconciler.HandleClusterNotInitialized` | bootstrap/controllers/ck8sconfig_controller.go:590-758 | Takes a free lock, or goes on under its own, and publishes init data; releases the lock of a machine that is gone; otherwise, and for workers, waits; finished only if the config was made ready |
| `InitLockController.CK8sConfigReconciler.PrepareInit` | bootstrap/controllers/ck8sconfig_controller.go:617-623 | If anything fails between taking the lock and storing the data, the lock is released, unless another call fails |
| `InitLockController.CK8sConfigReconciler.Join` | bootstrap/controllers/ck8sconfig_controller.go:200-212 | Once initialized: releases any lock and publishes join data; finished only if the config was made ready |
| `InitLockController.CK8sConfigReconciler.StoreBootstrapData` | bootstrap/controllers/ck8sconfig_controller.go:779-819 | Creates the secret, or overwrites the one that exists; an error may leave either the old or the new data |
| `Certificates.WrittenAtMostOnce` | pkg/secret/certificates.go:157-169 | In any interleaving of callers every secret is written at most once, and an external one never by a caller |
| `Certificates.CallersAgree` | pkg/secret/certificates.go:171-188 | Two callers given a stored pair, at whatever points of a run, were given the same |
| `Certificates.NewCertificatesForInitialControlPlane` | pkg/secret/certificates.go:61-84 | Two generated certificates, and with an external etcd its two, supplied by the user |
| `Certificates.Lookup` | pkg/secret/certificates.go:98-123 | Each certificate is found as stored or is left to generate; fails if and only if a secret is malformed or an external one is missing (undisturbed) |
| `Certificates.GenerateMissing` | pkg/secret/certificates.go:144-154 | Certificates that were found stay as they are; the others are generated |
| `Certificates.SaveGenerated` | pkg/secret/certificates.go:157-169 | On success every certificate is the one stored under its name; undisturbed it succeeds if and only if no generated one was stored already |
| `Certificates.LookupOrGenerate` | pkg/secret/certificates.go:171-188 | On success every pair equals the stored one, data entry by data entry, whoever else generated or supplied certificates meanwhile; undisturbed it succeeds if and only if no stored certificate is malformed, no external one is missing, and the missing ones can be generated, and these are the generated ones |
| `SecretNames.NameThenParse` | pkg/secret/secret.go:54-73 | A name parses back to its cluster, whatever that is, and its purpose if and only if the purpose is listed and has no hyphen |
| `SecretNames.ParseThenName` | pkg/secret/secret.go:60-73 | Whatever parses was built by Name from a listed purpose |
| `SecretNames.NeverParsed` | pkg/secret/secret.go:60-73 | apiserver-etcd-client, though listed, and the unlisted cca never parse |
| `SecretNames.NameIsInjective` | pkg/secret/secret.go:54-56 | Different purposes have different names in one cluster |
| `SecretNames.ParsedInPlainTerms` | pkg/secret/secret.go:54-73 | The names as written, cluster, hyphen and purpose, for kubeconfig, ca, etcd, sa and proxy, and that they parse |
| `NodeTokens.NoLostTokens` | pkg/token/refresh.go:11-64 | Over any run: a token stays what a lookup returns while nobody overwrites it, and the cluster value never changes |
| `NodeTokens.MoveKeepsTokens` | pkg/token/token.go:73-75 | A write keeps a token if and only if it is not an overwriting of that token |
| `NodeTokens.LookupNodeToken` | pkg/token/refresh.go:53-64 | Returns the stored token, not found if there is none, or a failed read |
| `NodeTokens.EnsureNodeToken` | pkg/token/refresh.go:11-51 | A returned token is the stored one; if a token was there and the call succeeds, that token survives if and only if the first read did not fail; a first read that fails, and nothing else, overwrites it |
| `NodeTokens.ReconcileToken` | pkg/token/token.go:32-55 | Creates the secret, or makes the owner its controller; never changes the data; panics if and only if the read fails for another reason than a missing secret |
| `NodeTokens.UpsertControllerRef` | pkg/token/token.go:126-148 | The owner takes the place of every controlling reference, or is appended; every other reference stays where it is |
| `NodeTokens.SoleControllerControls` | pkg/token/token.go:126-148 | After that the ownership check passes |
| `Promotion.GetPromotedRelease` | hack/release_promotion/scripts/promote.py:219-257 | Computes PromotedRelease: a stable release is an error |
| `Promotion.HeadClimbs` | hack/release_promotion/scripts/promote.py:225-257 | The newest prerelease of a minor is promoted to the first version of the next level, which is new and later than everything in its minor |
| `Promotion.PromotedInPlainTerms` | hack/release_promotion/scripts/promote.py:225-257 | Alpha to beta 0, beta to candidate 0, candidate to stable, if there is none of that kind yet; past a stable release to the next micro |
| `Promotion.RepeatedInPlainTerms` | hack/release_promotion/scripts/promote.py:230-247 | If there are betas, or candidates, of the same micro already: one more than the newest |
| `Promotion.MintInPlainTerms` | hack/release_promotion/scripts/promote.py:385-409 | What a run may promote, as an iff on the tags |
| `Promotion.PromotedIsFreshExactlyWhen` | hack/release_promotion/scripts/promote.py:230-247 | For any prerelease: the promoted version exists already if and only if a candidate is promoted past a stable release whose successor exists too |
| `Promotion.Decide` | hack/release_promotion/scripts/promote.py:385-437 | A version is promoted if and only if it is a head, ripe, and not the first to become stable in its minor |
| `Promotion.PromoteRelease` | hack/release_promotion/scripts/promote.py:358-372 | Finds the commit, also in a dry run, then creates the tag, then pushes it; stops at the first failure |
| `Promotion.PromoteReleases` | hack/release_promotion/scripts/promote.py:375-445 | One run mints at most one version per minor, exactly those of the ripe heads if git does not fail, tags stay distinct, and exactly what was tagged is pushed, but for the last tag if something failed |
| `Promotion.PromotionIsFinite` | hack/release_promotion/scripts/promote.py:375-445 | With no other tags added, repeated runs promote exactly as often as the heads climb levels, so no more often than they have levels left |
| `Promotion.StableMinorsStay` | hack/release_promotion/scripts/promote.py:397-409 | The set of minors with a stable release does not change |
| `Promotion.MintedStaysDistinct` | hack/release_promotion/scripts/promote.py:371-372 | Every minted version is new |
| `Promotion.SortNewestFirst` | hack/release_promotion/scripts/promote.py:178-180 | Lists exactly the versions, newest first |
| `Promotion.NextPrereleaseIsNewest` | hack/release_promotion/scripts/promote.py:190-216 | The next prerelease of a branch is later than every version of the branch |
| `Duration.TTLOfDecimal` | pkg/time/duration.go:43-78 | A decimal followed by y, mo or d is that many units in seconds, in 64-bit arithmetic |
| `Duration.TTLInPlainTerms` | pkg/time/duration.go:43-78 | A decimal followed by y, mo or d is 31536000, 2592000 or 86400 seconds each, if that fits into 64 bits |
| `Duration.ShortTTLInPlainTerms` | pkg/time/duration.go:70-77 | h, m and s are 3600, 60 and 1 seconds, refused if the nanoseconds do not fit |
| `Duration.MalformedTTL` | pkg/time/duration.go:43-78 | Too short, something that is no number before the unit, or another unit: an error |
| `Duration.TooLargeTTL` | pkg/time/duration.go:50-69 | A number beyond 64 bits: an error |
| `Duration.ExpirationInPlainTerms` | pkg/time/duration.go:24-41 | A number of seconds is read as the coarsest of 31536000, 2592000 and 86400 that divides it, and as that many of it |
| `Duration.YearsSurvive` | pkg/time/duration.go:24-41 | n years always move the date by n calendar years |
| `Duration.MonthsSurvive` | pkg/time/duration.go:24-41 | n months move the date by n calendar months if and only if 73 does not divide n, otherwise by the equal number of years |
| `Duration.DaysSurvive` | pkg/time/duration.go:24-41 | n days move the date by n days if and only if neither 30 nor 365 divides n, otherwise by the coarser unit |

## Left out

- HTTP, proxies, kubeconfigs, cryptography, JSON and YAML, events, logging, cloud-init, webhooks and API conversion: I/O, foreign code, or field copying.
- The deletion of a whole control plane, pausing, finalizers, adoption of foreign machines, and the external references, kubeconfig and endpoint steps before the machines are listed: they only end a pass early. The copying of template annotations to machines.
- Conditions of the control plane object, and the condition MachineOwnerRemediated with its clean-up on machines that are healthy again: nothing here is decided by them. The severity order of aggregated conditions is not claimed, because the branch for severity info repeats the test for warnings.
- LifecycleController.CK8sControlPlaneReconciler.Reconcile: that a failed call ends the pass in an error is claimed for its writes; reads may fail without (the object itself, the list of nodes, the connection for the status), as in the source. The extra requeue while the status is not ready is not modelled, because readiness decides nothing else; the object is never missing.
- A remediation annotation that cannot be parsed ends a pass with an error in the source; here the annotations hold what was written.
- ControlPlaneMachines.PickMost: what its caller documents; which of several domains with equally many machines is picked is left open. The domain of a new machine (PickFewest) is an input.
- ControlPlaneRetarget.RetargetIsSafeExactlyWhen: after a target change that is not safe, a pass can also mark the machine that is upgrading again. That rewrite of its upgrade-to is a step of ControlPlaneTimeline; what becomes of the machine then is covered by MachineRewrite alone.
- MachineRewrite.RewriteIsTrueExactlyWhen: one rewrite until the upgrade finishes. Rewrites during a pass have their own statements, for one pass at a time.
- ControlPlaneMachines.Oldest: a scan in place of the library's sort, with the same result.
- What can be fetched for a machine (its config and infrastructure object) is fixed when the machine is made.
- Lifecycle.MembersRemain: only members serve a removal, and nothing but these removals takes members away; the loss of a member's machine is not modelled.
- LifecycleProgress.RolloutTerminates: passes that see a delete annotation, and remediation, are excluded, and rolloutAfter has passed or not for the whole run.
- LifecycleController.CK8sControlPlaneReconciler.GenerateMachine: if the reply to the creation of a machine is lost, the clean-up deletes the config and the infrastructure object of a machine that exists. The model leaves them in place; the filters do not count a missing one as a mismatch.
- Several machine sets of one machine deployment: exactly one is assumed.
- NodeTokens.ReconcileToken: how the process recovers from the panic on the missing object is not modelled.
- NodeTokens.EnsureNodeToken: calls for the same machine do not overlap.
- Certificates.Certificate.Generate: the pair, or the failure to make one, is an input; what makes a certificate valid is not modelled. No secret is deleted.
- Promotion.PromoteReleases: whether a git command would work depends on the version alone and does not change during a run; the fetch before it is not modelled; tags that are not plain versions are not modelled, and age, interval and the immediate flag are one predicate; the creation of new prereleases per branch is modelled up to the version it computes.
- Duration.TTLToSeconds: the one-letter units that are left to the standard library (h, m, s) are modelled by what its parser does with an integer; a duration is a `time.Duration` in whole nanoseconds.
- Certificate refresh: in progress with its annotation present it simply returns, so a crash there parks the machine and nothing is claimed.
- The pre-terminate hook controller, a no-op by its own account.
