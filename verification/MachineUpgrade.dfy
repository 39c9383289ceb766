/** One machine under in-place upgrade: its annotations, its node's journal of snap changes,
    and every single write that an orchestrator, the per-machine controller or the node can
    make. What holds after every one of these writes holds after a crash at any point. */
module MachineUpgrade {
  import opened Prelude
  import opened InPlace
  import SnapOption

  datatype ChangeResult = Pending | Succeeded | Errored | Ended(status: string)

  /** A snap refresh accepted by the node. Its id is its position in the journal. */
  datatype Change = Change(option: string, result: ChangeResult)

  datatype Node = Node(running: string, changes: seq<Change>)

  datatype Machine = Machine(ann: Annotations, deleting: bool, node: Node)

  datatype Action =
    | Mark(to: string)
    | ClearForRequest
    | IssueRefresh
    | RecordChange(id: nat)
    | RecordDone
    | RecordFailed(at: string)
    | Finish
    | ResetFailed
    | Complete(result: ChangeResult)
    | BeginDelete

  function LastChange(n: Node): Change
    requires n.changes != []
  {
    n.changes[|n.changes| - 1]
  }

  /** The oldest change still pending; the journal's length if there is none. */
  function OldestPending(changes: seq<Change>): (i: nat)
    ensures i <= |changes|
    ensures i < |changes| ==> changes[i].result.Pending?
    ensures forall j :: 0 <= j < i ==> !changes[j].result.Pending?
  {
    if changes == [] then 0
    else if changes[0].result.Pending? then 0
    else 1 + OldestPending(changes[1..])
  }

  predicate NothingPending(n: Node) {
    forall i :: 0 <= i < |n.changes| ==> !n.changes[i].result.Pending?
  }

  /** The node finishes its oldest pending change; a successful one switches what it runs. */
  function Completed(n: Node, result: ChangeResult): Node
    requires OldestPending(n.changes) < |n.changes|
  {
    var i := OldestPending(n.changes);
    Node(if result.Succeeded? then n.changes[i].option else n.running,
         n.changes[i := n.changes[i].(result := result)])
  }

  predicate Enabled(a: Action, m: Machine) {
    match a
    case Mark(_) => m.ann.upgradeTo.None?
    case ClearForRequest => m.ann.upgradeTo.Some? && m.ann.changeId.None?
    case IssueRefresh =>
      && m.ann.upgradeTo.Some? && m.ann.changeId.None? && m.ann.release.None? && m.ann.status.None?
      && SnapOption.Decodable(m.ann.upgradeTo.value)
    case RecordChange(id) =>
      && m.ann.upgradeTo.Some? && m.ann.changeId.None? && m.ann.status.None?
      && id + 1 == |m.node.changes| && m.node.changes[id].option == m.ann.upgradeTo.value
    case RecordDone =>
      && m.ann.upgradeTo.Some? && m.ann.changeId.Some? && m.ann.status == Some(InProgress)
      && m.ann.changeId.value < |m.node.changes| && m.node.changes[m.ann.changeId.value].result.Succeeded?
    case RecordFailed(at) =>
      && m.ann.upgradeTo.Some? && m.ann.changeId.Some? && m.ann.status != Some(Done) && at != ""
      && (m.ann.status == Some(InProgress) ==>
            && m.ann.changeId.value < |m.node.changes|
            && !m.node.changes[m.ann.changeId.value].result.Pending?
            && !m.node.changes[m.ann.changeId.value].result.Succeeded?)
    case Finish => m.ann.upgradeTo.Some? && m.ann.changeId.Some? && m.ann.status == Some(Done)
    case ResetFailed => m.ann.upgradeTo.Some? && m.ann.changeId.Some? && m.ann.status == Some(UpgradeFailed)
    case Complete(result) => !result.Pending? && OldestPending(m.node.changes) < |m.node.changes|
    case BeginDelete => true
  }

  function Effect(a: Action, m: Machine): Machine
    requires Enabled(a, m)
  {
    match a
    case Mark(to) => m.(ann := MarkedToUpgrade(to))
    case ClearForRequest => m.(ann := m.ann.(status := None, changeId := None, release := None))
    case IssueRefresh =>
      m.(node := m.node.(changes := m.node.changes + [Change(m.ann.upgradeTo.value, Pending)]))
    case RecordChange(id) => m.(ann := m.ann.(status := Some(InProgress), changeId := Some(id)))
    case RecordDone => m.(ann := m.ann.(status := Some(Done)))
    case RecordFailed(at) => m.(ann := m.ann.(status := Some(UpgradeFailed), lastFailed := Some(at)))
    case Finish =>
      m.(ann := m.ann.(upgradeTo := None, changeId := None, lastFailed := None, release := m.ann.upgradeTo))
    case ResetFailed => m.(ann := m.ann.(status := None, changeId := None))
    case Complete(result) => m.(node := Completed(m.node, result))
    case BeginDelete => m.(deleting := true)
  }

  /** The machine after a run of writes; None if some write was not possible. */
  function Exec(start: Machine, acts: seq<Action>): Option<Machine> {
    if acts == [] then Some(start)
    else
      var last := |acts| - 1;
      match Exec(start, acts[..last])
      case None => None
      case Some(m) => if Enabled(acts[last], m) then Some(Effect(acts[last], m)) else None
  }

  /** What every run keeps. */
  ghost predicate Consistent(m: Machine) {
    var ann, node := m.ann, m.node;
    && (forall i, j :: 0 <= i < j < |node.changes| && node.changes[i].result.Pending? ==> node.changes[j].result.Pending?)
    && (forall i :: 0 <= i < |node.changes| ==> SnapOption.Decodable(node.changes[i].option))
    && (node.changes != [] && LastChange(node).result.Succeeded? ==> node.running == LastChange(node).option)
    && (ann.upgradeTo.None? ==> ann.changeId.None? && NothingPending(node))
    && (ann.release.Some? ==> ann.upgradeTo.None? && node.running == ann.release.value)
    && (ann.changeId.Some? ==>
          && ann.changeId.value + 1 == |node.changes|
          && ann.upgradeTo == Some(LastChange(node).option)
          && (ann.status == Some(Done) ==> LastChange(node).result.Succeeded?))
    && (ann.status == Some(InProgress) ==> ann.changeId.Some?)
  }

  lemma EffectKeepsConsistent(a: Action, m: Machine)
    requires Consistent(m) && Enabled(a, m)
    ensures Consistent(Effect(a, m))
  {
  }

  lemma {:induction false} ExecKeepsConsistent(start: Machine, acts: seq<Action>)
    requires Consistent(start) && Exec(start, acts).Some?
    ensures Consistent(Exec(start, acts).value)
  {
    if acts != [] {
      var last := |acts| - 1;
      ExecKeepsConsistent(start, acts[..last]);
      EffectKeepsConsistent(acts[last], Exec(start, acts[..last]).value);
    }
  }

  /** The release annotation tells the truth: over every run, with crashes after any write
      and retries after failures, a machine carrying release=r has a node that runs r and
      has no refresh outstanding. */
  lemma ReleaseTellsTheTruth(start: Machine, acts: seq<Action>)
    requires Consistent(start) && Exec(start, acts).Some?
    ensures var m := Exec(start, acts).value;
      m.ann.release.Some? ==> m.node.running == m.ann.release.value && NothingPending(m.node)
  {
    ExecKeepsConsistent(start, acts);
  }

  predicate Usable(release: Option<string>) {
    release.Some? ==> SnapOption.ResolveInPlaceUpgradeRelease(release).Some?
  }

  /** A release annotation written by the upgrade path is never ignored by a joining machine. */
  lemma {:induction false} StampedReleaseIsUsable(start: Machine, acts: seq<Action>)
    requires Consistent(start) && Usable(start.ann.release) && Exec(start, acts).Some?
    ensures Usable(Exec(start, acts).value.ann.release)
  {
    if acts != [] {
      var last := |acts| - 1;
      StampedReleaseIsUsable(start, acts[..last]);
      ExecKeepsConsistent(start, acts[..last]);
      EffectKeepsUsable(acts[last], Exec(start, acts[..last]).value);
    }
  }

  lemma EffectKeepsUsable(a: Action, m: Machine)
    requires Consistent(m) && Usable(m.ann.release) && Enabled(a, m)
    ensures Usable(Effect(a, m).ann.release)
  {
  }

  lemma {:induction false} ExecSnoc(start: Machine, acts: seq<Action>, a: Action)
    requires Exec(start, acts).Some? && Enabled(a, Exec(start, acts).value)
    ensures Exec(start, acts + [a]) == Some(Effect(a, Exec(start, acts).value))
  {
  }

  /** upgrade-to is only ever turned into release, by finishing. */
  lemma UpgradeToBecomesRelease(a: Action, m: Machine)
    requires m.ann.upgradeTo.Some? && Enabled(a, m)
    ensures var m' := Effect(a, m);
      if a.Finish? then m'.ann.upgradeTo.None? && m'.ann.release == m.ann.upgradeTo
      else m'.ann.upgradeTo == m.ann.upgradeTo
  {
  }

  // ----- One undisturbed pass of the per-machine controller -----

  function FailedAt(m: Machine, now: string): Machine {
    m.(ann := m.ann.(status := Some(UpgradeFailed), lastFailed := Some(now)))
  }

  /** No change is recorded: clear the leftovers, refresh the node, record the change. */
  function Requested(m: Machine): Machine
    requires m.ann.upgradeTo.Some?
  {
    var option := m.ann.upgradeTo.value;
    if !SnapOption.Decodable(option) then
      m.(ann := m.ann.(status := None, changeId := None, release := None))
    else
      m.(ann := m.ann.(status := Some(InProgress), changeId := Some(|m.node.changes|), release := None),
         node := m.node.(changes := m.node.changes + [Change(option, Pending)]))
  }

  /** A change is recorded: look it up on the node. */
  function Settled(m: Machine, id: nat, now: string): Machine {
    if id >= |m.node.changes| then m
    else match m.node.changes[id].result
      case Pending => m
      case Succeeded => m.(ann := m.ann.(status := Some(Done)))
      case _ => FailedAt(m, now)
  }

  function Pass(m: Machine, now: string): Machine {
    if m.ann.upgradeTo.None? then m
    else if m.ann.changeId.None? then Requested(m)
    else match m.ann.status
      case Some(InProgress) => Settled(m, m.ann.changeId.value, now)
      case Some(Done) =>
        m.(ann := m.ann.(upgradeTo := None, changeId := None, lastFailed := None, release := m.ann.upgradeTo))
      case Some(UpgradeFailed) => m.(ann := m.ann.(status := None, changeId := None))
      case _ => FailedAt(m, now)
  }

  /** An option that cannot be decoded, and a change the node does not know, are errors. */
  function PassOutcome(m: Machine): Outcome {
    if m.ann.upgradeTo.None? then Finished
    else if m.ann.changeId.None? then
      if SnapOption.Decodable(m.ann.upgradeTo.value) then Finished else Error
    else if m.ann.status == Some(InProgress) then
      if m.ann.changeId.value >= |m.node.changes| then Error
      else if m.node.changes[m.ann.changeId.value].result.Pending? then Requeue
      else Finished
    else Finished
  }

  // ----- In plain terms -----

  /** Without upgrade-to there is nothing to do. With no change recorded, the leftovers are cleared, and
      unless the option cannot be decoded the node is asked and the change recorded as in progress. */
  lemma RequestInPlainTerms(m: Machine, now: string)
    ensures m.ann.upgradeTo.None? ==> Pass(m, now) == m && PassOutcome(m) == Finished
    ensures m.ann.upgradeTo.Some? && m.ann.changeId.None? && !SnapOption.Decodable(m.ann.upgradeTo.value) ==>
      && PassOutcome(m) == Error
      && Pass(m, now) == m.(ann := Annotations(m.ann.upgradeTo, None, None, None, m.ann.lastFailed))
    ensures m.ann.upgradeTo.Some? && m.ann.changeId.None? && SnapOption.Decodable(m.ann.upgradeTo.value) ==>
      && PassOutcome(m) == Finished
      && Pass(m, now) == m.(
           ann := Annotations(m.ann.upgradeTo, Some(InProgress), None, Some(|m.node.changes|), m.ann.lastFailed),
           node := m.node.(changes := m.node.changes + [Change(m.ann.upgradeTo.value, Pending)]))
  {
  }

  /** A change recorded as in progress: looked for again later while it is pending, done when it has
      succeeded, failed when it has ended in any other way, an error if the node does not know it. */
  lemma ProgressInPlainTerms(m: Machine, now: string, id: nat)
    requires m.ann.upgradeTo.Some? && m.ann.changeId == Some(id) && m.ann.status == Some(InProgress)
    ensures id >= |m.node.changes| ==> Pass(m, now) == m && PassOutcome(m) == Error
    ensures id < |m.node.changes| && m.node.changes[id].result == Pending ==> Pass(m, now) == m && PassOutcome(m) == Requeue
    ensures id < |m.node.changes| && m.node.changes[id].result == Succeeded ==>
      Pass(m, now) == m.(ann := m.ann.(status := Some(Done))) && PassOutcome(m) == Finished
    ensures id < |m.node.changes| && m.node.changes[id].result !in {Pending, Succeeded} ==>
      Pass(m, now) == m.(ann := m.ann.(status := Some(UpgradeFailed), lastFailed := Some(now))) && PassOutcome(m) == Finished
  {
  }

  /** A change recorded as done is stamped, one recorded as failed is given up, and with any other status
      the upgrade is marked as failed. */
  lemma EndInPlainTerms(m: Machine, now: string)
    requires m.ann.upgradeTo.Some? && m.ann.changeId.Some? && m.ann.status != Some(InProgress)
    ensures PassOutcome(m) == Finished
    ensures m.ann.status == Some(Done) ==> Pass(m, now) == m.(ann := Annotations(None, Some(Done), m.ann.upgradeTo, None, None))
    ensures m.ann.status == Some(UpgradeFailed) ==>
      Pass(m, now) == m.(ann := Annotations(m.ann.upgradeTo, None, m.ann.release, None, m.ann.lastFailed))
    ensures m.ann.status !in {Some(Done), Some(UpgradeFailed)} ==>
      Pass(m, now) == m.(ann := Annotations(m.ann.upgradeTo, Some(UpgradeFailed), m.ann.release, m.ann.changeId, Some(now)))
  {
  }

  /** What everybody else can do at any point: an orchestrator marks a machine that carries no upgrade-to, the
      machine is deleted, and the node ends its oldest pending change, which, if it succeeds, it then runs. */
  lemma WorldInPlainTerms(m: Machine, to: string, i: nat, result: ChangeResult)
    ensures m.ann.upgradeTo.None? ==>
      Enabled(Mark(to), m) && Effect(Mark(to), m) == m.(ann := Annotations(Some(to), None, None, None, None))
    ensures Enabled(BeginDelete, m) && Effect(BeginDelete, m) == m.(deleting := true)
    ensures (i < |m.node.changes| && m.node.changes[i].result == Pending && result != Pending
             && forall j :: 0 <= j < i ==> m.node.changes[j].result != Pending) ==>
      && Enabled(Complete(result), m)
      && Effect(Complete(result), m) == m.(node := Node(
           if result == Succeeded then m.node.changes[i].option else m.node.running,
           m.node.changes[i := Change(m.node.changes[i].option, result)]))
  {
  }
}
