/** From wherever a run has got to, the upgrade of a machine can still finish. */
module MachineProgress {
  import opened Prelude
  import opened InPlace
  import opened MachineUpgrade
  import SnapOption

  /** Neither an orchestrator nor a deletion takes part. */
  predicate Unaided(acts: seq<Action>) {
    forall i :: 0 <= i < |acts| ==> !acts[i].Mark? && !acts[i].BeginDelete?
  }

  /** One more write at the end of a run. */
  lemma Then(start: Machine, acts: seq<Action>, m: Machine, a: Action) returns (acts': seq<Action>, m': Machine)
    requires Consistent(start) && Exec(start, acts) == Some(m) && Unaided(acts)
    requires Consistent(m) && Enabled(a, m) && !a.Mark? && !a.BeginDelete?
    ensures Exec(start, acts') == Some(m') && Unaided(acts') && m' == Effect(a, m) && Consistent(m')
  {
    ExecSnoc(start, acts, a);
    EffectKeepsConsistent(a, m);
    acts', m' := acts + [a], Effect(a, m);
  }

  /** Each completion leaves less to do, and nothing but the oldest pending change is touched. */
  lemma CompletionMovesOn(n: Node, result: ChangeResult)
    requires OldestPending(n.changes) < |n.changes| && !result.Pending?
    ensures var i, n' := OldestPending(n.changes), Completed(n, result);
      && |n'.changes| == |n.changes| && i < OldestPending(n'.changes)
      && n'.changes[i] == n.changes[i].(result := result)
      && (i < |n.changes| - 1 ==> LastChange(n') == LastChange(n))
  {
    var i, n' := OldestPending(n.changes), Completed(n, result);
    assert forall j :: 0 <= j <= i ==> !n'.changes[j].result.Pending?;
  }

  /** The node works off whatever it still has to do, without success. */
  lemma {:induction false} NodeSettles(start: Machine, acts: seq<Action>, m: Machine) returns (acts': seq<Action>, m': Machine)
    requires Consistent(start) && Exec(start, acts) == Some(m) && Unaided(acts) && Consistent(m)
    ensures Exec(start, acts') == Some(m') && Unaided(acts') && Consistent(m')
    ensures NothingPending(m'.node) && m'.ann == m.ann && m'.deleting == m.deleting
    ensures |m'.node.changes| == |m.node.changes|
    decreases |m.node.changes| - OldestPending(m.node.changes)
  {
    acts', m' := acts, m;
    var i := OldestPending(m.node.changes);
    if i < |m.node.changes| {
      CompletionMovesOn(m.node, Errored);
      acts', m' := Then(start, acts, m, Complete(Errored));
      acts', m' := NodeSettles(start, acts', m');
    }
  }

  /** With nothing recorded the node is asked once more, and this time succeeds. */
  lemma FreshRequestFinishes(start: Machine, acts: seq<Action>, m: Machine) returns (acts': seq<Action>, m': Machine)
    requires Consistent(start) && Exec(start, acts) == Some(m) && Unaided(acts) && Consistent(m)
    requires m.ann.upgradeTo.Some? && m.ann.changeId.None? && SnapOption.Decodable(m.ann.upgradeTo.value)
    ensures Exec(start, acts') == Some(m') && Unaided(acts') && Enabled(Finish, m') && Consistent(m')
    ensures m'.ann.upgradeTo == m.ann.upgradeTo && m'.deleting == m.deleting
  {
    acts', m' := NodeSettles(start, acts, m);
    acts', m' := Then(start, acts', m', ClearForRequest);
    acts', m' := Then(start, acts', m', IssueRefresh);
    var id := |m'.node.changes| - 1;
    assert OldestPending(m'.node.changes) == id;
    acts', m' := Then(start, acts', m', Complete(Succeeded));
    acts', m' := Then(start, acts', m', RecordChange(id));
    acts', m' := Then(start, acts', m', RecordDone);
  }

  /** With a change recorded, either it turns out done, or it is given up. */
  lemma RecordedChangeSettles(start: Machine, acts: seq<Action>, m: Machine) returns (acts': seq<Action>, m': Machine)
    requires Consistent(start) && Exec(start, acts) == Some(m) && Unaided(acts) && Consistent(m)
    requires m.ann.upgradeTo.Some? && m.ann.changeId.Some?
    ensures Exec(start, acts') == Some(m') && Unaided(acts') && Consistent(m')
    ensures m'.ann.upgradeTo == m.ann.upgradeTo && m'.deleting == m.deleting
    ensures m'.ann.changeId.None? || Enabled(Finish, m')
  {
    acts', m' := NodeSettles(start, acts, m);
    if m'.ann.status == Some(InProgress) && LastChange(m'.node).result.Succeeded? {
      acts', m' := Then(start, acts', m', RecordDone);
    } else if m'.ann.status != Some(Done) {
      if m'.ann.status != Some(UpgradeFailed) {
        acts', m' := Then(start, acts', m', RecordFailed("then"));
      }
      acts', m' := Then(start, acts', m', ResetFailed);
    }
  }

  /** An upgrade can always still finish, if its target can be decoded at all: from every consistent
      machine that carries upgrade-to some run, without an orchestrator, ends with the release stamped. */
  lemma CanStillFinish(m: Machine) returns (acts: seq<Action>, m': Machine)
    requires Consistent(m) && m.ann.upgradeTo.Some? && SnapOption.Decodable(m.ann.upgradeTo.value)
    ensures Exec(m, acts) == Some(m') && Unaided(acts) && Consistent(m')
    ensures m'.ann == Annotations(None, Some(Done), m.ann.upgradeTo, None, None) && m'.deleting == m.deleting
  {
    acts, m' := [], m;
    if m.ann.changeId.Some? {
      acts, m' := RecordedChangeSettles(m, acts, m');
    }
    if m'.ann.changeId.None? {
      acts, m' := FreshRequestFinishes(m, acts, m');
    }
    acts, m' := Then(m, acts, m', Finish);
  }
}
