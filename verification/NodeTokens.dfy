/** The token secret of a cluster: the cluster's own token under "value" and one node token per
    machine, written by several callers under an optimistic lock. */
module NodeTokens {
  import opened Prelude

  type Name = string

  datatype OwnerRef = OwnerRef(uid: string, controller: bool)

  datatype Secret = Secret(data: map<string, string>, owners: seq<OwnerRef>, resourceVersion: nat)

  const VALUE_KEY := "value"

  function MachineNodeTokenKey(machine: Name): string {
    "node-token-" + machine
  }

  lemma KeysAreDistinct(m: Name, n: Name)
    ensures MachineNodeTokenKey(m) == MachineNodeTokenKey(n) ==> m == n
    ensures MachineNodeTokenKey(m) != VALUE_KEY
  {
    assert MachineNodeTokenKey(m)[11..] == m && MachineNodeTokenKey(n)[11..] == n;
    assert MachineNodeTokenKey(m)[0] == 'n';
  }

  /** Overwrite: a token is written over an existing one. */
  datatype Move =
    | Create(token: string, owner: OwnerRef)
    | Put(machine: Name, token: string)
    | Overwrite(machine: Name, token: string)
    | SetOwners(owners: seq<OwnerRef>)

  predicate CanMove(mv: Move, s: Option<Secret>) {
    match mv
    case Create(_, _) => s.None?
    case Put(m, _) => s.Some? && MachineNodeTokenKey(m) !in s.value.data
    case Overwrite(m, _) => s.Some? && MachineNodeTokenKey(m) in s.value.data
    case SetOwners(_) => s.Some?
  }

  function Moved(mv: Move, s: Option<Secret>): Option<Secret>
    requires CanMove(mv, s)
  {
    match mv
    case Create(token, owner) => Some(Secret(map[VALUE_KEY := token], [owner], 0))
    case SetOwners(owners) => Some(Secret(s.value.data, owners, s.value.resourceVersion + 1))
    case _ => Some(Secret(s.value.data[MachineNodeTokenKey(mv.machine) := mv.token], s.value.owners, s.value.resourceVersion + 1))
  }

  function Run(start: Option<Secret>, moves: seq<Move>): Option<Option<Secret>> {
    if moves == [] then Some(start)
    else
      var last := |moves| - 1;
      match Run(start, moves[..last])
      case None => None
      case Some(s) => if CanMove(moves[last], s) then Some(Moved(moves[last], s)) else None
  }

  /** What LookupNodeToken returns. */
  function TokenOf(s: Option<Secret>, machine: Name): Option<string> {
    if s.Some? && MachineNodeTokenKey(machine) in s.value.data
    then Some(s.value.data[MachineNodeTokenKey(machine)]) else None
  }

  function ValueOf(s: Option<Secret>): Option<string> {
    if s.Some? && VALUE_KEY in s.value.data then Some(s.value.data[VALUE_KEY]) else None
  }

  predicate Replaces(mv: Move, s: Option<Secret>, machine: Name) {
    mv.Overwrite? && mv.machine == machine && Some(mv.token) != TokenOf(s, machine)
  }

  /** A move keeps every token, except that overwriting a machine's token replaces it; no move
      touches the cluster's value. */
  lemma MoveKeepsTokens(mv: Move, s: Option<Secret>, machine: Name)
    requires CanMove(mv, s)
    ensures ValueOf(s).Some? ==> ValueOf(Moved(mv, s)) == ValueOf(s)
    ensures TokenOf(s, machine).Some? ==> (TokenOf(Moved(mv, s), machine) == TokenOf(s, machine) <==> !Replaces(mv, s, machine))
  {
    if mv.Put? || mv.Overwrite? {
      KeysAreDistinct(mv.machine, machine);
    }
  }

  predicate NeverOverwritten(moves: seq<Move>, machine: Name) {
    forall mv :: mv in moves ==> !(mv.Overwrite? && mv.machine == machine)
  }

  /** No lost tokens: in a run in which machine's token is never overwritten, a token once there
      is what a lookup returns from then on; the cluster's value never changes in any run. */
  lemma {:induction false} NoLostTokens(start: Option<Secret>, moves: seq<Move>, i: nat, j: nat, machine: Name)
    requires i <= j <= |moves| && Run(start, moves[..i]).Some? && Run(start, moves[..j]).Some?
    ensures ValueOf(Run(start, moves[..i]).value).Some? ==>
      ValueOf(Run(start, moves[..j]).value) == ValueOf(Run(start, moves[..i]).value)
    ensures NeverOverwritten(moves[i..j], machine) && TokenOf(Run(start, moves[..i]).value, machine).Some? ==>
      TokenOf(Run(start, moves[..j]).value, machine) == TokenOf(Run(start, moves[..i]).value, machine)
  {
    if i < j {
      assert moves[..j][..j-1] == moves[..j-1];
      NoLostTokens(start, moves, i, j - 1, machine);
      MoveKeepsTokens(moves[j-1], Run(start, moves[..j-1]).value, machine);
      assert moves[i..j] == moves[i..j-1] + [moves[j-1]];
    }
  }

  /** What others do while a caller works for machine: anything but its token. */
  predicate Foreign(mv: Move, machine: Option<Name>) {
    (mv.Put? || mv.Overwrite?) ==> machine != Some(mv.machine)
  }

  /** The resource version tells writes apart, and the caller's own token stays as it is. */
  ghost predicate Steady(s: Option<Secret>, s': Option<Secret>, machine: Option<Name>) {
    && (s.Some? ==>
          && s'.Some? && s'.value.resourceVersion >= s.value.resourceVersion
          && (s'.value.resourceVersion == s.value.resourceVersion ==> s' == s))
    && (machine.Some? ==> TokenOf(s', machine.value) == TokenOf(s, machine.value))
  }

  lemma LaterMoves(a: seq<Move>, b: seq<Move>, c: seq<Move>)
    requires a <= b <= c
    ensures c[|a|..] == b[|a|..] + c[|b|..]
  {
  }

  class TokenApi {
    var st: Option<Secret>
    var script: seq<Event<Move>>
    var down: bool
    const machine: Option<Name>   // the machine the caller works for, if any
    ghost const start: Option<Secret>
    ghost var moves: seq<Move>    // every write so far, by anyone

    constructor (machine: Option<Name>, s: Option<Secret>, script: seq<Event<Move>>)
      ensures Valid() && st == start == s && moves == [] && this.machine == machine && this.script == script && !down
    {
      this.machine, st, this.script, down := machine, s, script, false;
      start, moves := s, [];
    }

    ghost predicate Valid()
      reads this
    {
      Run(start, moves) == Some(st)
    }

    predicate Quiet()
      reads this
    {
      script == [] && !down
    }

    /** The next call is rejected, and nothing else goes wrong or happens. */
    predicate Spurious()
      reads this
    {
      script == [Meet(Rejected)] && !down
    }

    /** What the next call meets. */
    function NextFate(): Fate
      reads this
    {
      if down then Halted else if script != [] && script[0].Meet? then script[0].fate else Landed
    }

    method Write(next: Option<Secret>, ghost mv: Move)
      requires Valid() && CanMove(mv, st) && next == Moved(mv, st)
      modifies this`st, this`moves
      ensures Valid() && moves == old(moves) + [mv] && st == next
    {
      assert (moves + [mv])[..|moves|] == moves;
      st, moves := next, moves + [mv];
    }

    /** Others overwrite tokens too, but never that of this caller's machine. */
    method Interfere()
      requires Valid()
      modifies this`st, this`script, this`moves
      ensures Valid() && old(moves) <= moves && Steady(old(st), st, machine)
      ensures forall mv :: mv in moves[|old(moves)|..] ==> Foreign(mv, machine)
      ensures old(script) == [] ==> st == old(st) && script == []
    {
      while script != [] && script[0].Other?
        invariant Valid() && old(moves) <= moves && Steady(old(st), st, machine)
        invariant forall mv :: mv in moves[|old(moves)|..] ==> Foreign(mv, machine)
        invariant old(script) == [] ==> st == old(st) && script == []
        decreases |script|
      {
        var mv := script[0].action;
        if Foreign(mv, machine) && CanMove(mv, st) {
          if (mv.Put? || mv.Overwrite?) && machine.Some? {
            KeysAreDistinct(mv.machine, machine.value);
          }
          if mv.Create? && machine.Some? {
            KeysAreDistinct(machine.value, machine.value);
          }
          Write(Moved(mv, st), mv);
        }
        script := script[1..];
      }
    }

    method Answer() returns (fate: Fate)
      modifies this`script, this`down
      ensures fate == old(NextFate())
      ensures old(Quiet()) || old(Spurious()) ==> Quiet()
    {
      if down {
        return Halted;
      }
      fate := Landed;
      if script != [] && script[0].Meet? {
        fate := script[0].fate;
        script := script[1..];
      }
      down := fate.Halted?;
    }

    method Get() returns (r: Reply<Secret>)
      requires Valid()
      modifies this
      ensures Valid() && old(moves) <= moves && Steady(old(st), st, machine)
      ensures forall mv :: mv in moves[|old(moves)|..] ==> Foreign(mv, machine)
      ensures r.Found? ==> old(st) == Some(r.value)
      ensures r.NotFound? ==> old(st).None?
      ensures r.Failed? <==> old(NextFate()) != Landed
      ensures old(Quiet()) ==> Quiet() && st == old(st) && r == if st.Some? then Found(st.value) else NotFound
      ensures old(Spurious()) ==> Quiet() && st == old(st)
    {
      var fate := Answer();
      r := if fate != Landed then Failed else if st.Some? then Found(st.value) else NotFound;
      Interfere();
    }

    method CreateSecret(token: string, owner: OwnerRef) returns (ok: bool)
      requires Valid() && machine.None?
      modifies this
      ensures Valid() && old(moves) <= moves
      ensures old(Quiet()) ==>
        Quiet() && ok == old(st).None? && st == if ok then Moved(Create(token, owner), None) else old(st)
    {
      var fate := Answer();
      ok := fate == Landed && st.None?;
      if st.None? && (fate == Landed || fate == ReplyLost) {
        Write(Moved(Create(token, owner), st), Create(token, owner));
      }
      Interfere();
    }

    /** Patch one data key of the secret that was read; a conflict if it has changed since. */
    method PatchToken(base: Secret, m: Name, token: string, ghost mv: Move) returns (ok: bool)
      requires Valid() && machine == Some(m)
      requires st.Some? && st.value.resourceVersion >= base.resourceVersion
      requires st.value.resourceVersion == base.resourceVersion ==> st.value == base
      requires (mv == Put(m, token) || mv == Overwrite(m, token)) && CanMove(mv, st)
      modifies this
      ensures Valid() && old(moves) <= moves
      ensures forall k :: k in moves[|old(moves)|..] ==> Foreign(k, machine) || k == mv
      ensures ok ==> TokenOf(st, m) == Some(token)
      ensures old(Quiet()) && old(st) == Some(base) ==> Quiet() && ok && st == Moved(mv, old(st))
    {
      var fate := Answer();
      ok := fate == Landed && st.value.resourceVersion == base.resourceVersion;
      if st.value.resourceVersion == base.resourceVersion && (fate == Landed || fate == ReplyLost) {
        Write(Some(Secret(base.data[MachineNodeTokenKey(m) := token], base.owners, base.resourceVersion + 1)), mv);
      }
      ghost var before := moves;
      assert before[|old(moves)|..] == [] || before[|old(moves)|..] == [mv];
      Interfere();
      LaterMoves(old(moves), before, moves);
    }

    /** Write back a whole secret as it was read, with other owners; a conflict if it has changed. */
    method Update(base: Secret, owners: seq<OwnerRef>) returns (ok: bool)
      requires Valid() && st.Some? && st.value.resourceVersion >= base.resourceVersion
      requires st.value.resourceVersion == base.resourceVersion ==> st.value == base
      modifies this
      ensures Valid() && old(moves) <= moves
      ensures old(Quiet()) && old(st) == Some(base) ==> Quiet() && ok && st == Moved(SetOwners(owners), old(st))
    {
      var fate := Answer();
      ok := fate == Landed && st.value.resourceVersion == base.resourceVersion;
      if st.value.resourceVersion == base.resourceVersion && (fate == Landed || fate == ReplyLost) {
        Write(Some(Secret(base.data, owners, base.resourceVersion + 1)), SetOwners(owners));
      }
      Interfere();
    }
  }

  method LookupNodeToken(api: TokenApi, m: Name) returns (r: Reply<string>)
    requires api.Valid() && api.machine == Some(m)
    modifies api
    ensures api.Valid() && old(api.moves) <= api.moves && Steady(old(api.st), api.st, Some(m))
    ensures forall mv :: mv in api.moves[|old(api.moves)|..] ==> Foreign(mv, Some(m))
    ensures r.Found? ==> TokenOf(api.st, m) == Some(r.value)
    ensures r.NotFound? ==> TokenOf(api.st, m).None?
    ensures r.Failed? <==> old(api.NextFate()) != Landed
    ensures old(api.Spurious()) ==> api.Quiet() && api.st == old(api.st)
    ensures old(api.Quiet()) ==>
      api.Quiet() && api.st == old(api.st)
      && r == match TokenOf(api.st, m) { case Some(t) => Found(t) case None => NotFound }
  {
    var s := api.Get();
    if !s.Found? {
      return if s.NotFound? then NotFound else Failed;
    }
    if MachineNodeTokenKey(m) in s.value.data {
      return Found(s.value.data[MachineNodeTokenKey(m)]);
    }
    return NotFound;
  }

  /** A returned token is the one stored for the machine. The call writes at most that token. If a
      token is there and the call succeeds, that token survives exactly if the first read did not
      fail (spurious); in runs without such reads NoLostTokens applies to every token ever returned. */
  method EnsureNodeToken(api: TokenApi, m: Name, fresh_: string) returns (token: Option<string>, spurious: bool)
    requires api.Valid() && api.machine == Some(m)
    modifies api
    ensures api.Valid() && old(api.moves) <= api.moves
    ensures token.Some? ==> TokenOf(api.st, m) == token
    ensures spurious <==> old(api.NextFate()) != Landed
    ensures TokenOf(old(api.st), m).Some? && !spurious ==> token == TokenOf(old(api.st), m) == TokenOf(api.st, m)
    ensures token.Some? && spurious ==> token == Some(fresh_)
    ensures token.Some? && TokenOf(old(api.st), m).Some? && TokenOf(old(api.st), m) != Some(fresh_) ==>
      (TokenOf(api.st, m) == TokenOf(old(api.st), m) <==> !spurious)
    ensures old(api.Spurious()) && TokenOf(old(api.st), m).Some? ==>
      spurious && token == Some(fresh_) && api.st == Moved(Overwrite(m, fresh_), old(api.st))
    ensures forall mv :: mv in api.moves[|old(api.moves)|..] ==>
      Foreign(mv, Some(m)) || mv == Put(m, fresh_) || (spurious && mv == Overwrite(m, fresh_))
    ensures old(api.Quiet()) ==>
      && api.Quiet() && !spurious
      && if old(api.st).None? then token.None? && api.st.None?
         else if TokenOf(old(api.st), m).Some? then api.st == old(api.st)
         else token == Some(fresh_) && api.st == Moved(Put(m, fresh_), old(api.st))
  {
    var found := LookupNodeToken(api, m);
    spurious := found.Failed?;
    if found.Found? {
      return Some(found.value), spurious;
    }
    ghost var s1, moves1 := api.st, api.moves;
    var s := api.Get();
    if !s.Found? {
      return None, spurious;
    }
    ghost var moves2 := api.moves;
    ghost var mv := if MachineNodeTokenKey(m) in s.value.data then Overwrite(m, fresh_) else Put(m, fresh_);
    var ok := api.PatchToken(s.value, m, fresh_, mv);
    token := if ok then Some(fresh_) else None;
    LaterMoves(old(api.moves), moves1, moves2);
    LaterMoves(old(api.moves), moves2, api.moves);
  }

  function NonControllers(refs: seq<OwnerRef>): seq<OwnerRef> {
    if refs == [] then []
    else (if refs[0].controller then [] else [refs[0]]) + NonControllers(refs[1..])
  }

  lemma {:induction false} NonControllersOfConcat(a: seq<OwnerRef>, b: seq<OwnerRef>)
    ensures NonControllers(a + b) == NonControllers(a) + NonControllers(b)
  {
    if a == [] {
      assert a + b == b;
    } else {
      assert (a + b)[1..] == a[1..] + b;
      NonControllersOfConcat(a[1..], b);
    }
  }

  /** Make owner the controller: it takes the place of a controlling reference, or is appended;
      the other references stay, in order. */
  method UpsertControllerRef(refs: seq<OwnerRef>, owner: OwnerRef) returns (updated: seq<OwnerRef>)
    requires owner.controller
    ensures owner in updated && forall r :: r in updated && r.controller ==> r == owner
    ensures NonControllers(updated) == NonControllers(refs)
    ensures |updated| == |refs| + if exists r :: r in refs && r.controller then 0 else 1
    ensures forall i :: 0 <= i < |refs| ==> updated[i] == if refs[i].controller then owner else refs[i]
  {
    updated := [];
    var controllerRefUpdated := false;
    for i := 0 to |refs|
      invariant |updated| == i && forall j :: 0 <= j < i ==> updated[j] == if refs[j].controller then owner else refs[j]
      invariant controllerRefUpdated <==> exists r :: r in refs[..i] && r.controller
      invariant controllerRefUpdated ==> owner in updated
      invariant forall r :: r in updated && r.controller ==> r == owner
      invariant NonControllers(updated) == NonControllers(refs[..i])
    {
      assert refs[..i+1] == refs[..i] + [refs[i]];
      NonControllersOfConcat(refs[..i], [refs[i]]);
      var r := if refs[i].controller then owner else refs[i];
      NonControllersOfConcat(updated, [r]);
      updated := updated + [r];
      controllerRefUpdated := controllerRefUpdated || refs[i].controller;
    }
    assert refs[..|refs|] == refs;
    if !controllerRefUpdated {
      NonControllersOfConcat(updated, [owner]);
      updated := updated + [owner];
    }
  }

  /** The first controlling reference decides, by UID. */
  predicate IsControlledBy(owners: seq<OwnerRef>, owner: OwnerRef) {
    owners != [] && if owners[0].controller then owners[0].uid == owner.uid else IsControlledBy(owners[1..], owner)
  }

  lemma {:induction false} SoleControllerControls(owners: seq<OwnerRef>, owner: OwnerRef)
    requires owner.controller && owner in owners && forall r :: r in owners && r.controller ==> r == owner
    ensures IsControlledBy(owners, owner)
  {
    if !owners[0].controller {
      SoleControllerControls(owners[1..], owner);
    }
  }

  /** Create the secret, or correct its ownership. Its data are never changed. A read that fails
      for any other reason than a missing secret leaves no secret to look at: the call panics. */
  method ReconcileToken(api: TokenApi, owner: OwnerRef, fresh_: string) returns (outcome: Outcome, panics: bool)
    requires api.Valid() && api.machine.None? && owner.controller
    modifies api
    ensures api.Valid() && old(api.moves) <= api.moves
    ensures panics <==> old(api.NextFate()) != Landed
    ensures old(api.Quiet()) ==>
      && api.Quiet() && !panics && outcome == Finished && api.st.Some? && IsControlledBy(api.st.value.owners, owner)
      && (old(api.st).None? ==> api.st.value.data == map[VALUE_KEY := fresh_])
      && (old(api.st).Some? ==>
            && api.st.value.data == old(api.st).value.data
            && NonControllers(api.st.value.owners) == NonControllers(old(api.st).value.owners)
            && forall i :: 0 <= i < |old(api.st).value.owners| && !old(api.st).value.owners[i].controller ==>
                 i < |api.st.value.owners| && api.st.value.owners[i] == old(api.st).value.owners[i])
  {
    var s := api.Get();
    if s.NotFound? {
      var ok := api.CreateSecret(fresh_, owner);
      return if ok then Finished else Error, false;
    }
    if s.Failed? {
      return Error, true;
    }
    if !IsControlledBy(s.value.owners, owner) {
      var owners := UpsertControllerRef(s.value.owners, owner);
      SoleControllerControls(owners, owner);
      var ok := api.Update(s.value, owners);
      return if ok then Finished else Error, false;
    }
    return Finished, false;
  }

  // ----- In plain terms -----

  /** Where the tokens are: the cluster's under "value", that of a machine under its name with "node-token-"
      before it. */
  lemma TokensInPlainTerms(s: Secret, m: Name)
    ensures TokenOf(Some(s), m) == if "node-token-" + m in s.data then Some(s.data["node-token-" + m]) else None
    ensures ValueOf(Some(s)) == if "value" in s.data then Some(s.data["value"]) else None
    ensures TokenOf(None, m).None? && ValueOf(None).None?
  {
  }

  /** What a write makes of the secret; each has a new resource version. */
  lemma WritesInPlainTerms(s: Secret, m: Name, token: string, owner: OwnerRef, owners: seq<OwnerRef>)
    ensures Moved(Create(token, owner), None) == Some(Secret(map["value" := token], [owner], 0))
    ensures Moved(SetOwners(owners), Some(s)) == Some(s.(owners := owners, resourceVersion := s.resourceVersion + 1))
    ensures "node-token-" + m !in s.data ==>
      Moved(Put(m, token), Some(s)) == Some(s.(data := s.data["node-token-" + m := token], resourceVersion := s.resourceVersion + 1))
    ensures "node-token-" + m in s.data ==>
      Moved(Overwrite(m, token), Some(s)) == Some(s.(data := s.data["node-token-" + m := token], resourceVersion := s.resourceVersion + 1))
  {
  }

  /** A secret is controlled by its first controlling reference alone. */
  lemma {:induction false} ControlInPlainTerms(owners: seq<OwnerRef>, owner: OwnerRef, i: nat)
    requires i <= |owners| && forall j :: 0 <= j < i ==> !owners[j].controller
    ensures i == |owners| ==> !IsControlledBy(owners, owner)
    ensures i < |owners| && owners[i].controller ==> (IsControlledBy(owners, owner) <==> owners[i].uid == owner.uid)
  {
    if i > 0 {
      ControlInPlainTerms(owners[1..], owner, i - 1);
    }
  }
}
