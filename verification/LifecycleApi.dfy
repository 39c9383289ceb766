/** The API server and the k8sd cluster as the control plane controller meets them, while the rest
    of the world moves on. */
module LifecycleApi {
  import opened Prelude
  import opened Remediation
  import opened ControlPlaneMachines
  import opened WorkloadCluster
  import opened Lifecycle
  import opened LifecyclePass

  /** The moves of everybody but the controller. */
  predicate Foreign(mv: Move) {
    mv.NodeUp? || mv.Vanish? || mv.MarkHealth? || mv.Annotate? || mv.ListNodes? || mv.MemberJoins? || mv.ConfigMapAppears?
  }

  // ----- What a list of machines is worth a while later -----

  /** The same machine; a node may have come up, its health may be judged differently, a user may
      have annotated it, and its AgentHealthy condition is another matter. */
  predicate SameMachine(m: Machine, now: Machine) {
    && now == m.(node := now.node, unhealthy := now.unhealthy, deleteAnnotation := now.deleteAnnotation, agent := now.agent, everHealthy := now.everHealthy)
    && (m.node.Some? ==> now.node == m.node)
  }

  /** Nobody else makes machines, or deletes them; only what was being deleted may be gone. */
  ghost predicate Mirrors(owned: Machines, now: Machines) {
    && now.Keys <= owned.Keys
    && (forall n :: n in now ==> SameMachine(owned[n], now[n]))
    && forall n :: n in owned && !owned[n].deleting ==> n in now
  }

  ghost predicate SameAgents(owned: Machines, now: Machines) {
    forall n :: n in owned && n in now ==> now[n].agent == owned[n].agent
  }

  lemma MirrorsIsTransitive(a: Machines, b: Machines, c: Machines)
    requires Mirrors(a, b) && Mirrors(b, c)
    ensures Mirrors(a, c)
    ensures SameAgents(a, b) && SameAgents(b, c) ==> SameAgents(a, c)
  {
  }

  /** A mirrored list that is stable is what is there, as far as decisions go. */
  lemma MirrorsAgree(spec: KcpSpec, owned: Machines, now: Machines)
    requires Mirrors(owned, now) && !HasDeletingMachine(owned)
    ensures now.Keys == owned.Keys && !HasDeletingMachine(now)
    ensures MachinesNeedingRollout(spec, now) == MachinesNeedingRollout(spec, owned)
    ensures Wants(spec, now) == Wants(spec, owned)
  {
  }

  lemma MirrorsAgreeOnPreflight(owned: Machines, now: Machines, excluded: Option<Name>)
    requires Mirrors(owned, now) && SameAgents(owned, now) && Preflight(owned, excluded)
    ensures Preflight(now, excluded)
  {
  }

  /** Nothing but what others, and patches of conditions, may change. */
  ghost predicate Around(s: ControlPlane, s': ControlPlane) {
    && s' == s.(machines := s'.machines, members := s'.members, nodes := s'.nodes, hasConfigMap := s'.hasConfigMap)
    && (s.hasConfigMap ==> s'.hasConfigMap)
    && Mirrors(s.machines, s'.machines)
  }

  /** Nothing but what others may change. */
  ghost predicate Steady(s: ControlPlane, s': ControlPlane) {
    Around(s, s') && SameAgents(s.machines, s'.machines)
  }

  lemma ForeignMoveIsSteady(mv: Move, s: ControlPlane)
    requires Foreign(mv) && CanMove(mv, s)
    ensures Steady(s, Moved(mv, s))
  {
  }

  lemma SetAgentIsAround(name: Name, agent: Option<Condition>, s: ControlPlane)
    requires CanMove(SetAgent(name, agent), s)
    ensures Around(s, Moved(SetAgent(name, agent), s))
  {
  }

  lemma SteadyIsReflexive(s: ControlPlane)
    ensures Steady(s, s)
  {
  }

  lemma SteadyIsTransitive(s: ControlPlane, s': ControlPlane, s'': ControlPlane)
    requires Around(s, s') && Around(s', s'')
    ensures Around(s, s'')
    ensures Steady(s, s') && Steady(s', s'') ==> Steady(s, s'')
  {
  }

  class Api {
    var st: ControlPlane
    var script: seq<Event<Move>>
    var down: bool
    ghost const start: ControlPlane
    ghost var moves: seq<Move>   // every write so far, by anyone
    ghost var failures: nat      // writes of the controller so far that did not land

    constructor (s: ControlPlane, script: seq<Event<Move>>)
      requires Inv(s)
      ensures Valid() && st == start == s && moves == [] && this.script == script && !down
    {
      st, this.script, down := s, script, false;
      start, moves, failures := s, [], 0;
    }

    /** The history of the control plane is a run, so all that holds of runs holds here. */
    ghost predicate Valid()
      reads this
    {
      Inv(start) && Run(start, moves) == Some(st) && Inv(st)
    }

    predicate Quiet()
      reads this
    {
      script == [] && !down
    }

    method Write(mv: Move)
      requires Valid() && CanMove(mv, st)
      modifies this`st, this`moves
      ensures Valid() && moves == old(moves) + [mv] && st == Moved(mv, old(st))
    {
      RunSnoc(start, moves, mv);
      MoveKeepsInv(mv, st);
      st, moves := Moved(mv, st), moves + [mv];
    }

    method Interfere()
      requires Valid()
      modifies this`st, this`script, this`moves
      ensures Valid() && old(moves) <= moves && Steady(old(st), st)
      ensures old(script) == [] ==> st == old(st) && script == []
    {
      while script != [] && script[0].Other?
        invariant Valid() && old(moves) <= moves && Steady(old(st), st)
        invariant old(script) == [] ==> st == old(st) && script == []
        decreases |script|
      {
        var mv := script[0].action;
        if Foreign(mv) && CanMove(mv, st) {
          ForeignMoveIsSteady(mv, st);
          SteadyIsTransitive(old(st), st, Moved(mv, st));
          Write(mv);
        }
        script := script[1..];
      }
    }

    method Answer() returns (fate: Fate)
      modifies this`script, this`down
      ensures old(Quiet()) ==> fate == Landed && Quiet()
    {
      if down {
        return Halted;
      }
      fate := Landed;
      if script != [] && script[0].Meet? {
        fate := script[0].fate;
        script := script[1..];
      }
      down := fate.Halted?;
    }

    method AnswerWrite() returns (fate: Fate)
      modifies this`script, this`down, this`failures
      ensures fate == Landed ==> failures == old(failures)
      ensures fate != Landed ==> failures == old(failures) + 1
      ensures old(Quiet()) ==> fate == Landed && Quiet()
    {
      fate := Answer();
      failures := failures + if fate == Landed then 0 else 1;
    }

    /** Read everything at one instant; the callers below project what they ask for. Also stands
        for a call whose effect is not part of the state. */
    method Read() returns (ok: bool, seen: ControlPlane)
      requires Valid()
      modifies this
      ensures Valid() && old(moves) <= moves && seen == old(st) && Steady(old(st), st)
      ensures old(Quiet()) ==> ok && Quiet() && st == old(st)
      ensures failures == old(failures)
    {
      var fate := Answer();
      ok, seen := fate == Landed, st;
      Interfere();
    }

    method PatchAgent(name: Name, agent: Option<Condition>) returns (ok: bool)
      requires Valid()
      requires name in st.machines ==> CanMove(SetAgent(name, agent), st)
      modifies this
      ensures Valid() && old(moves) <= moves && Around(old(st), st)
      ensures ok ==> name in old(st).machines && Steady(Moved(SetAgent(name, agent), old(st)), st)
      ensures old(Quiet()) ==>
        && Quiet() && ok == (name in old(st).machines)
        && st == if ok then Moved(SetAgent(name, agent), old(st)) else old(st)
      ensures ok ==> failures == old(failures)
    {
      SteadyIsReflexive(st);
      var fate := AnswerWrite();
      ok := fate == Landed && name in st.machines;
      if name in st.machines && (fate == Landed || fate == ReplyLost) {
        SetAgentIsAround(name, agent, st);
        Write(SetAgent(name, agent));
      }
      ghost var patched := st;
      Interfere();
      SteadyIsTransitive(old(st), patched, st);
    }

    /** A write that needs no answer but whether it succeeded. */
    method Do(mv: Move) returns (ok: bool)
      requires Valid() && CanMove(mv, st)
      modifies this
      ensures Valid() && old(moves) <= moves
      ensures ok ==> Steady(Moved(mv, old(st)), st)
      ensures !ok ==> Steady(old(st), st) || Steady(Moved(mv, old(st)), st)
      ensures old(Quiet()) ==> Quiet() && ok && st == Moved(mv, old(st))
      ensures ok ==> failures == old(failures)
    {
      var fate := AnswerWrite();
      ok := fate == Landed;
      if fate == Landed || fate == ReplyLost {
        Write(mv);
      }
      Interfere();
    }

    /** Ask the k8sd cluster, through a node, to remove another; only a member can serve that. */
    method RemoveNode(via: NodeName, node: NodeName) returns (ok: bool)
      requires Valid() && via != node
      modifies this
      ensures Valid() && old(moves) <= moves
      ensures Steady(old(st), st)
      ensures ok ==> via in old(st).members
      ensures old(Quiet()) ==>
        && Quiet() && ok == (via in old(st).members)
        && st == if ok then old(st).(members := old(st).members - {node}) else old(st)
      ensures ok ==> failures == old(failures)
    {
      var fate := AnswerWrite();
      ok := fate == Landed && via in st.members;
      ghost var s := st;
      if via in st.members && (fate == Landed || fate == ReplyLost) {
        Write(RemoveMember(node, via));
      }
      ghost var removed := st;
      assert Steady(s, removed) by {
        SteadyIsReflexive(s);
      }
      Interfere();
      SteadyIsTransitive(s, removed, st);
    }
  }
}
