/** The five in-place upgrade annotations, how they are read, and how patches write them. */
module InPlace {
  import opened Prelude

  datatype Status = InProgress | Done | UpgradeFailed | Unrecognised(text: string)

  datatype Annotations = Annotations(
    upgradeTo: Option<string>,
    status: Option<Status>,
    release: Option<string>,
    changeId: Option<nat>,
    lastFailed: Option<string>)

  const NO_ANNOTATIONS := Annotations(None, None, None, None, None)

  /** A missing annotation reads as the empty string. */
  function Text(a: Option<string>): string {
    a.GetOr("")
  }

  predicate IsUpgraded(a: Annotations, release: string) {
    Text(a.release) == release
  }

  /** upgrade-to, when present, overrides release. */
  function GetUpgradeInstructions(a: Annotations): string {
    if a.upgradeTo.Some? then a.upgradeTo.value else Text(a.release)
  }

  predicate IsMachineUpgradeFailed(a: Annotations) {
    Text(a.lastFailed) != ""
  }

  predicate IsMachineUpgrading(a: Annotations) {
    a.status == Some(InProgress) || Text(a.upgradeTo) != ""
  }

  /** A merge patch writes a key only if the object was changed between the two snapshots. */
  function MergedKey<T(==)>(server: T, before: T, after: T): T {
    if before == after then server else after
  }

  function MergePatch(server: Annotations, before: Annotations, after: Annotations): Annotations {
    Annotations(
      MergedKey(server.upgradeTo, before.upgradeTo, after.upgradeTo),
      MergedKey(server.status, before.status, after.status),
      MergedKey(server.release, before.release, after.release),
      MergedKey(server.changeId, before.changeId, after.changeId),
      MergedKey(server.lastFailed, before.lastFailed, after.lastFailed))
  }

  /** A machine marked by an orchestrator: everything left of an earlier upgrade is dropped. */
  function MarkedToUpgrade(to: string): Annotations {
    Annotations(Some(to), None, None, None, None)
  }

  /** The three marks an orchestrator puts on the owner of the machines. */
  function MarkedFailed(a: Annotations): Annotations {
    a.(release := None, status := Some(UpgradeFailed))
  }

  function MarkedInProgress(a: Annotations, to: string): Annotations {
    a.(release := None, status := Some(InProgress), upgradeTo := Some(to))
  }

  function MarkedDone(a: Annotations, to: string): Annotations {
    a.(upgradeTo := None, status := Some(Done), release := Some(to))
  }

  /** In-progress and done never change what the owner asks for; failed keeps it exactly when
      the owner still carries upgrade-to (or asked for nothing): with release alone the
      target is erased. */
  lemma MarksKeepInstructions(a: Annotations, to: string)
    requires to == GetUpgradeInstructions(a)
    ensures GetUpgradeInstructions(MarkedInProgress(a, to)) == to
    ensures GetUpgradeInstructions(MarkedDone(a, to)) == to
    ensures GetUpgradeInstructions(MarkedFailed(a)) == to <==> (a.upgradeTo.Some? || Text(a.release) == "")
  {
  }
}
