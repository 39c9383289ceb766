/** If somebody rewrites upgrade-to in the middle of an upgrade: when the release that is stamped in
    the end is true. */
module MachineRewrite {
  import opened Prelude
  import opened InPlace
  import opened MachineUpgrade
  import MachineProgress

  function Rewritten(m: Machine, to: string): Machine {
    m.(ann := m.ann.(upgradeTo := Some(to)))
  }

  /** The machine still has the change of m recorded, under a rewritten upgrade-to. */
  ghost predicate SameChange(m: Machine, x: Machine) {
    && m.node.changes != [] && x.ann.changeId == m.ann.changeId == Some(|m.node.changes| - 1)
    && x.ann.release.None?
    && |x.node.changes| == |m.node.changes|
    && (forall i :: 0 <= i < |m.node.changes| ==> x.node.changes[i].option == m.node.changes[i].option)
    && (forall i :: 0 <= i < |m.node.changes| ==> SnapOption.Decodable(m.node.changes[i].option))
    && (forall i, j :: 0 <= i < j < |x.node.changes| && x.node.changes[i].result.Pending? ==> x.node.changes[j].result.Pending?)
    && (LastChange(x.node).result.Succeeded? ==> x.node.running == LastChange(x.node).option)
    && (x.ann.status == Some(Done) ==> LastChange(x.node).result.Succeeded?)
  }

  /** Without a reset the change stays recorded; a reset makes the machine consistent again. */
  ghost predicate AfterRewrite(m: Machine, to: string, reset: bool, x: Machine) {
    x.ann.upgradeTo == Some(to) && if reset then Consistent(x) else SameChange(m, x)
  }

  lemma EffectAfterRewrite(m: Machine, to: string, reset: bool, x: Machine, a: Action)
    requires AfterRewrite(m, to, reset, x) && Enabled(a, x) && !a.Finish?
    ensures AfterRewrite(m, to, reset || a.ResetFailed?, Effect(a, x))
  {
    if reset {
      EffectKeepsConsistent(a, x);
    }
  }

  lemma {:induction false} ExecAfterRewrite(m: Machine, to: string, acts: seq<Action>)
    requires Consistent(m) && m.ann.changeId.Some? && Finish !in acts
    requires Exec(Rewritten(m, to), acts).Some?
    ensures AfterRewrite(m, to, ResetFailed in acts, Exec(Rewritten(m, to), acts).value)
  {
    if acts != [] {
      var last := |acts| - 1;
      assert acts == acts[..last] + [acts[last]];
      ExecAfterRewrite(m, to, acts[..last]);
      EffectAfterRewrite(m, to, ResetFailed in acts[..last], Exec(Rewritten(m, to), acts[..last]).value, acts[last]);
    }
  }

  /** However the upgrade goes on until it finishes, the stamped release is the new value, and is true
      exactly when that is the option of the recorded change, or the change was given up, so that the
      node was refreshed to the new value. */
  lemma {:induction false} StampedAfterRewrite(m: Machine, to: string, acts: seq<Action>, x: Machine)
    requires Consistent(m) && m.ann.changeId.Some? && FinishingRun(Rewritten(m, to), acts, x)
    ensures Effect(Finish, x).ann.release == Some(to)
    ensures x.node.running == to <==> to == LastChange(m.node).option || ResetFailed in acts
  {
    ExecAfterRewrite(m, to, acts);
  }

  /** The upgrade finishes for the first time. */
  predicate FinishingRun(start: Machine, acts: seq<Action>, x: Machine) {
    Finish !in acts && Exec(start, acts) == Some(x) && Enabled(Finish, x)
  }

  /** However the upgrade goes on, the release it stamps is the one the node runs. */
  ghost predicate AlwaysStampsTruth(start: Machine) {
    forall acts, x :: FinishingRun(start, acts, x) ==> Effect(Finish, x).ann.release == Some(Effect(Finish, x).node.running)
  }

  /** The recorded change may still turn out done: it is taken to be in progress and has not ended
      without success, or it is taken to be done. */
  predicate CanStillBeDone(m: Machine)
    requires m.node.changes != []
  {
    || m.ann.status == Some(Done)
    || (m.ann.status == Some(InProgress) && LastChange(m.node).result in {Pending, Succeeded})
  }

  lemma EffectKeepsHopeless(m: Machine, to: string, x: Machine, a: Action)
    requires SameChange(m, x) && x.ann.upgradeTo == Some(to) && !CanStillBeDone(x)
    requires Enabled(a, x) && a !in {Finish, ResetFailed}
    ensures Effect(a, x).node.changes != [] && !CanStillBeDone(Effect(a, x))
  {
  }

  lemma {:induction false} HopelessUntilReset(m: Machine, to: string, acts: seq<Action>)
    requires Consistent(m) && m.ann.changeId.Some? && !CanStillBeDone(m)
    requires Finish !in acts && ResetFailed !in acts && Exec(Rewritten(m, to), acts).Some?
    ensures var x := Exec(Rewritten(m, to), acts).value; x.node.changes != [] && !CanStillBeDone(x)
  {
    if acts != [] {
      var last := |acts| - 1;
      assert acts == acts[..last] + [acts[last]];
      HopelessUntilReset(m, to, acts[..last]);
      ExecAfterRewrite(m, to, acts[..last]);
      EffectKeepsHopeless(m, to, Exec(Rewritten(m, to), acts[..last]).value, acts[last]);
    }
  }

  /** The node works off what is older than the recorded change, then the change succeeds. */
  lemma {:induction false} ChangeSucceeds(start: Machine, acts: seq<Action>, x: Machine) returns (acts': seq<Action>, x': Machine)
    requires Exec(start, acts) == Some(x) && Finish !in acts
    requires x.node.changes != [] && LastChange(x.node).result.Pending?
    ensures Exec(start, acts') == Some(x') && Finish !in acts' && x'.ann == x.ann
    ensures |x'.node.changes| == |x.node.changes|
    ensures LastChange(x'.node) == LastChange(x.node).(result := Succeeded) && x'.node.running == LastChange(x.node).option
    decreases |x.node.changes| - OldestPending(x.node.changes)
  {
    var i, last := OldestPending(x.node.changes), |x.node.changes| - 1;
    var result := if i == last then Succeeded else Errored;
    MachineProgress.CompletionMovesOn(x.node, result);
    ExecSnoc(start, acts, Complete(result));
    acts', x' := acts + [Complete(result)], Effect(Complete(result), x);
    if i != last {
      acts', x' := ChangeSucceeds(start, acts', x');
    }
  }

  /** If the change may still turn out done, some run finishes with the option of the change on the node. */
  lemma FinishesAsRecorded(m: Machine, to: string) returns (acts: seq<Action>, x: Machine)
    requires Consistent(m) && m.ann.changeId.Some? && CanStillBeDone(m)
    ensures FinishingRun(Rewritten(m, to), acts, x) && x.node.running == LastChange(m.node).option
  {
    var start := Rewritten(m, to);
    acts, x := [], start;
    if m.ann.status == Some(InProgress) {
      if LastChange(m.node).result.Pending? {
        acts, x := ChangeSucceeds(start, acts, x);
      }
      ExecSnoc(start, acts, RecordDone);
      acts, x := acts + [RecordDone], Effect(RecordDone, x);
    }
  }

  /** The limit of the truth, as somebody who rewrites upgrade-to can look it up before. While a change
      is recorded, the release is true on every run that finishes exactly if the new value is the option
      of that change, or the change can no longer turn out done. */
  lemma RewriteIsTrueExactlyWhen(m: Machine, to: string)
    requires Consistent(m) && m.ann.changeId.Some?
    ensures AlwaysStampsTruth(Rewritten(m, to)) <==> to == LastChange(m.node).option || !CanStillBeDone(m)
  {
    if to == LastChange(m.node).option || !CanStillBeDone(m) {
      forall acts, x | FinishingRun(Rewritten(m, to), acts, x)
        ensures Effect(Finish, x).ann.release == Some(Effect(Finish, x).node.running)
      {
        StampedAfterRewrite(m, to, acts, x);
        if !CanStillBeDone(m) && ResetFailed !in acts {
          HopelessUntilReset(m, to, acts);
        }
      }
    } else {
      var acts, x := FinishesAsRecorded(m, to);
      StampedAfterRewrite(m, to, acts, x);
    }
  }

  /** While none is recorded, a rewrite is as good as a first value. */
  lemma RewriteBeforeRequest(m: Machine, to: string)
    requires Consistent(m) && m.ann.upgradeTo.Some? && m.ann.changeId.None?
    ensures Consistent(Rewritten(m, to)) && AlwaysStampsTruth(Rewritten(m, to))
  {
    forall acts, x | FinishingRun(Rewritten(m, to), acts, x)
      ensures Effect(Finish, x).ann.release == Some(Effect(Finish, x).node.running)
    {
      ExecKeepsConsistent(Rewritten(m, to), acts);
    }
  }

  // ----- Rewrites during a pass -----

  /** A pass computes its writes from the machine as it read it. If upgrade-to is rewritten between that
      read and the write, the result is that of a rewrite just after the write; but the write that
      finishes drops the new value. */
  lemma WriteInFlight(a: Action, m: Machine, to: string)
    requires Enabled(a, m) && (a in {ClearForRequest, RecordDone, Finish, ResetFailed} || a.RecordFailed?)
    ensures MergePatch(Rewritten(m, to).ann, m.ann, Effect(a, m).ann)
      == if a.Finish? then Effect(a, m).ann else Rewritten(Effect(a, m), to).ann
  {
  }

  /** Rewritten during the pass that finishes: the new value is lost, and the release is that of the
      change, and true. */
  lemma RewriteDuringFinish(m: Machine, to: string)
    requires Consistent(m) && Enabled(Finish, m)
    ensures var ann := MergePatch(Rewritten(m, to).ann, m.ann, Effect(Finish, m).ann);
      ann.upgradeTo.None? && ann.release == m.ann.upgradeTo == Some(m.node.running)
  {
    WriteInFlight(Finish, m, to);
  }

  /** Rewritten between the refresh and its recording: m was read at the start of the pass, and now is
      the machine when the change is recorded, its leftovers cleared and the node asked for the old
      value. The change is recorded under the new value, and the release is true on every run exactly
      if that is the old one, or the change has already ended without success. */
  lemma RewriteDuringRequest(m: Machine, now: Machine, to: string, id: nat)
    requires Consistent(m) && Enabled(ClearForRequest, m)
    requires Consistent(now) && now.ann == Effect(ClearForRequest, m).ann && Enabled(RecordChange(id), now)
    ensures var recorded := now.(ann := MergePatch(Rewritten(now, to).ann, m.ann,
                                                   m.ann.(release := None, status := Some(InProgress), changeId := Some(id))));
      && recorded == Rewritten(Effect(RecordChange(id), now), to)
      && (AlwaysStampsTruth(recorded) <==> m.ann.upgradeTo == Some(to) || now.node.changes[id].result !in {Pending, Succeeded})
  {
    EffectKeepsConsistent(RecordChange(id), now);
    RewriteIsTrueExactlyWhen(Effect(RecordChange(id), now), to);
  }
}
