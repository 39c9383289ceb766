/** The certificates of a cluster, shared as secrets by everybody who looks them up or
    generates them. */
module Certificates {
  import opened Prelude
  import opened SecretNames

  type Bytes = string

  datatype KeyPair = KeyPair(cert: Bytes, key: Bytes)

  /** The two data entries of a certificate secret; either may be missing. */
  datatype Secret = Secret(tlsCrt: Option<Bytes>, tlsKey: Option<Bytes>)

  type Store = map<string, Secret>

  /** A caller creates a secret it generated, or a user supplies one. Nobody deletes. */
  datatype Move = Generated(name: string, keyPair: KeyPair) | Supplied(name: string, secret: Secret)

  /** A missing key is fine, a missing certificate is an error. */
  function SecretToKeyPair(s: Secret): Option<KeyPair> {
    if s.tlsCrt.None? then None else Some(KeyPair(s.tlsCrt.value, s.tlsKey.GetOr("")))
  }

  function AsSecret(kp: KeyPair): Secret {
    Secret(Some(kp.cert), Some(kp.key))
  }

  /** Creating fails if the name is taken; external names are left to the user. */
  predicate CanMove(external: set<string>, mv: Move, s: Store) {
    mv.name !in s && (mv.Generated? ==> mv.name !in external)
  }

  function Moved(mv: Move, s: Store): Store {
    s[mv.name := if mv.Generated? then AsSecret(mv.keyPair) else mv.secret]
  }

  function Run(external: set<string>, start: Store, moves: seq<Move>): Option<Store> {
    if moves == [] then Some(start)
    else
      var last := |moves| - 1;
      match Run(external, start, moves[..last])
      case None => None
      case Some(s) => if CanMove(external, moves[last], s) then Some(Moved(moves[last], s)) else None
  }

  /** What is stored stays stored, as it is. */
  ghost predicate Grows(s: Store, s': Store) {
    forall n :: n in s ==> n in s' && s'[n] == s[n]
  }

  lemma {:induction false} RunGrows(external: set<string>, start: Store, moves: seq<Move>, i: nat, j: nat)
    requires i <= j <= |moves| && Run(external, start, moves[..j]).Some?
    ensures Run(external, start, moves[..i]).Some?
    ensures Grows(Run(external, start, moves[..i]).value, Run(external, start, moves[..j]).value)
  {
    if i < j {
      assert moves[..j][..j-1] == moves[..j-1];
      RunGrows(external, start, moves, i, j - 1);
    }
  }

  /** Every secret is written at most once, and an external one never by a caller. */
  lemma WrittenAtMostOnce(external: set<string>, start: Store, moves: seq<Move>, i: nat, j: nat)
    requires i < j < |moves| && Run(external, start, moves).Some?
    ensures moves[i].name != moves[j].name
    ensures moves[i].Generated? ==> moves[i].name !in external
    ensures moves[i].name !in start
  {
    assert moves[..|moves|] == moves;
    RunGrows(external, start, moves, j + 1, |moves|);
    assert moves[..j+1][..j] == moves[..j];
    RunGrows(external, start, moves, i + 1, j);
    assert moves[..i+1][..i] == moves[..i];
    RunGrows(external, start, moves, 0, i);
  }

  /** All callers agree: if one caller was given the pair stored under a name at some point of
      a run, and another (or the same one, again) was at a later point, the pairs are equal. */
  lemma CallersAgree(external: set<string>, start: Store, moves: seq<Move>, i: nat, j: nat, name: string, a: KeyPair, b: KeyPair)
    requires i <= j <= |moves| && Run(external, start, moves[..i]).Some? && Run(external, start, moves[..j]).Some?
    requires name in Run(external, start, moves[..i]).value && name in Run(external, start, moves[..j]).value
    requires SecretToKeyPair(Run(external, start, moves[..i]).value[name]) == Some(a)
    requires SecretToKeyPair(Run(external, start, moves[..j]).value[name]) == Some(b)
    ensures a == b
  {
    RunGrows(external, start, moves, i, j);
  }

  class SecretApi {
    var st: Store
    var script: seq<Event<Move>>
    var down: bool
    const external: set<string>
    ghost const start: Store
    ghost var moves: seq<Move>   // every write so far, by anyone

    constructor (external: set<string>, s: Store, script: seq<Event<Move>>)
      ensures Valid() && st == start == s && moves == [] && this.external == external && this.script == script && !down
    {
      this.external, st, this.script, down := external, s, script, false;
      start, moves := s, [];
    }

    ghost predicate Valid()
      reads this
    {
      Run(external, start, moves) == Some(st)
    }

    predicate Quiet()
      reads this
    {
      script == [] && !down
    }

    method Write(mv: Move)
      requires Valid() && CanMove(external, mv, st)
      modifies this`st, this`moves
      ensures Valid() && moves == old(moves) + [mv] && st == Moved(mv, old(st)) && Grows(old(st), st)
    {
      assert (moves + [mv])[..|moves|] == moves;
      st, moves := Moved(mv, st), moves + [mv];
    }

    method Interfere()
      requires Valid()
      modifies this`st, this`script, this`moves
      ensures Valid() && old(moves) <= moves && Grows(old(st), st)
      ensures old(script) == [] ==> st == old(st) && script == []
    {
      while script != [] && script[0].Other?
        invariant Valid() && old(moves) <= moves && Grows(old(st), st)
        invariant old(script) == [] ==> st == old(st) && script == []
        decreases |script|
      {
        if CanMove(external, script[0].action, st) {
          Write(script[0].action);
        }
        script := script[1..];
      }
    }

    method Answer() returns (fate: Fate)
      modifies this`script, this`down
      ensures old(Quiet()) ==> fate == Landed && Quiet()
    {
      if down {
        return Halted;
      }
      fate := Landed;
      if script != [] && script[0].Meet? {
        fate := script[0].fate;
        script := script[1..];
      }
      down := fate.Halted?;
    }

    method Get(name: string) returns (r: Reply<Secret>)
      requires Valid()
      modifies this
      ensures Valid() && old(moves) <= moves && Grows(old(st), st)
      ensures r.Found? ==> name in old(st) && r.value == old(st)[name]
      ensures old(Quiet()) ==> Quiet() && st == old(st) && r == if name in st then Found(st[name]) else NotFound
    {
      var fate := Answer();
      r := if fate != Landed then Failed else if name in st then Found(st[name]) else NotFound;
      Interfere();
    }

    method Create(name: string, kp: KeyPair) returns (ok: bool)
      requires Valid() && name !in external
      modifies this
      ensures Valid() && old(moves) <= moves && Grows(old(st), st)
      ensures ok ==> name !in old(st) && name in st && st[name] == AsSecret(kp)
      ensures old(Quiet()) ==>
        Quiet() && ok == (name !in old(st)) && st == if ok then old(st)[name := AsSecret(kp)] else old(st)
    {
      var fate := Answer();
      ok := fate == Landed && name !in st;
      if name !in st && (fate == Landed || fate == ReplyLost) {
        Write(Generated(name, kp));
      }
      Interfere();
    }
  }

  class Certificate {
    var generated: bool
    const external: bool
    const purpose: Purpose
    var keyPair: Option<KeyPair>

    constructor (purpose: Purpose, external: bool)
      ensures this.purpose == purpose && this.external == external && !generated && keyPair.None?
    {
      this.purpose, this.external, generated, keyPair := purpose, external, false, None;
    }

    /** External certificates are not generated; the generator gives a fresh pair, or an error. */
    method Generate(kp: Option<KeyPair>) returns (ok: bool)
      modifies this
      ensures ok <==> external || kp.Some?
      ensures ok && !external ==> generated && keyPair == kp
      ensures external || !ok ==> generated == old(generated) && keyPair == old(keyPair)
    {
      if external {
        return true;
      }
      if kp.None? {
        return false;
      }
      keyPair, generated := kp, true;
      ok := true;
    }
  }

  /** The certificate's pair is the one stored under its name. */
  ghost predicate Stored(c: Certificate, cluster: string, s: Store)
    reads c
  {
    && c.keyPair.Some?
    && Name(cluster, c.purpose) in s
    && SecretToKeyPair(s[Name(cluster, c.purpose)]) == c.keyPair
  }

  ghost predicate Unset(c: Certificate)
    reads c
  {
    !c.generated && c.keyPair.None?
  }

  /** Looked up: found as stored, or not found and the caller's to generate. */
  ghost predicate Looked(c: Certificate, cluster: string, s: Store)
    reads c
  {
    !c.generated && if c.keyPair.Some? then Stored(c, cluster, s) else !c.external
  }

  /** Ready to be saved: found as stored, or generated here. */
  ghost predicate Obtained(c: Certificate, cluster: string, s: Store)
    reads c
  {
    c.keyPair.Some? && if c.generated then !c.external else Stored(c, cluster, s)
  }

  ghost predicate Distinct(certs: seq<Certificate>) {
    forall i, j :: 0 <= i < j < |certs| ==> certs[i] != certs[j]
  }

  ghost predicate DistinctPurposes(certs: seq<Certificate>) {
    forall i, j :: 0 <= i < j < |certs| ==> certs[i].purpose != certs[j].purpose
  }

  /** The user's secrets are those of the external certificates. */
  ghost predicate Fits(certs: seq<Certificate>, cluster: string, external: set<string>) {
    forall i :: 0 <= i < |certs| ==> (certs[i].external <==> Name(cluster, certs[i].purpose) in external)
  }

  /** The certificates of a control plane; with an external etcd, its two are the user's. */
  method NewCertificatesForInitialControlPlane(etcdManaged: bool) returns (certs: seq<Certificate>)
    ensures Distinct(certs) && fresh(certs) && forall i :: 0 <= i < |certs| ==> Unset(certs[i])
    ensures |certs| == if etcdManaged then 2 else 4
    ensures certs[0].purpose == CLUSTER_CA && !certs[0].external
    ensures certs[1].purpose == CLIENT_CLUSTER_CA && !certs[1].external
    ensures !etcdManaged ==> certs[2].purpose == ETCD_CA && certs[2].external
    ensures !etcdManaged ==> certs[3].purpose == API_SERVER_ETCD_CLIENT && certs[3].external
  {
    var ca := new Certificate(CLUSTER_CA, false);
    var cca := new Certificate(CLIENT_CLUSTER_CA, false);
    certs := [ca, cca];
    if !etcdManaged {
      var etcdCA := new Certificate(ETCD_CA, true);
      var etcdClient := new Certificate(API_SERVER_ETCD_CLIENT, true);
      certs := certs + [etcdCA, etcdClient];
    }
  }

  method Lookup(certs: seq<Certificate>, api: SecretApi, cluster: string) returns (ok: bool)
    requires api.Valid() && Distinct(certs) && Fits(certs, cluster, api.external)
    requires forall i :: 0 <= i < |certs| ==> Unset(certs[i])
    modifies api, certs
    ensures api.Valid() && old(api.moves) <= api.moves && Grows(old(api.st), api.st)
    ensures ok ==> forall i :: 0 <= i < |certs| ==> Looked(certs[i], cluster, api.st)
    ensures old(api.Quiet()) ==> api.Quiet() && api.st == old(api.st)
    ensures old(api.Quiet()) ==> (ok <==> forall i :: 0 <= i < |certs| ==> LooksFine(certs[i], cluster, api.st))
    ensures old(api.Quiet()) && ok ==>
      forall i :: 0 <= i < |certs| ==> (certs[i].keyPair.Some? <==> Name(cluster, certs[i].purpose) in api.st)
    ensures old(api.script == [] && !api.down) ==>
      (ok <==> forall i :: 0 <= i < |certs| ==>
        if Name(cluster, certs[i].purpose) in api.st then api.st[Name(cluster, certs[i].purpose)].tlsCrt.Some? else !certs[i].external)
  {
    for i := 0 to |certs|
      invariant api.Valid() && old(api.moves) <= api.moves && Grows(old(api.st), api.st)
      invariant forall j :: 0 <= j < i ==> Looked(certs[j], cluster, api.st)
      invariant forall j :: i <= j < |certs| ==> Unset(certs[j])
      invariant old(api.Quiet()) ==> api.Quiet() && api.st == old(api.st)
      invariant old(api.Quiet()) ==> forall j :: 0 <= j < i ==>
        LooksFine(certs[j], cluster, api.st) && (certs[j].keyPair.Some? <==> Name(cluster, certs[j].purpose) in api.st)
    {
      var s := api.Get(Name(cluster, certs[i].purpose));
      if s.Failed? {
        return false;
      }
      if s.NotFound? {
        if certs[i].external {
          return false;
        }
        continue;
      }
      var kp := SecretToKeyPair(s.value);
      if kp.None? {
        return false;
      }
      certs[i].keyPair := kp;
    }
    ok := true;
  }

  /** Undisturbed, a lookup fails on a missing external secret and on a malformed one. */
  predicate LooksFine(c: Certificate, cluster: string, s: Store) {
    var name := Name(cluster, c.purpose);
    if name in s then SecretToKeyPair(s[name]).Some? else !c.external
  }

  method GenerateMissing(certs: seq<Certificate>, cluster: string, generator: Purpose -> Option<KeyPair>, ghost s: Store) returns (ok: bool)
    requires Distinct(certs) && forall i :: 0 <= i < |certs| ==> Looked(certs[i], cluster, s)
    modifies certs
    ensures ok ==> forall i :: 0 <= i < |certs| ==> Obtained(certs[i], cluster, s)
    ensures ok <==> forall i :: 0 <= i < |certs| && old(certs[i].keyPair).None? ==> generator(certs[i].purpose).Some?
    ensures ok ==> forall i :: 0 <= i < |certs| ==>
      if old(certs[i].keyPair).Some? then certs[i].keyPair == old(certs[i].keyPair) && !certs[i].generated
      else certs[i].keyPair == generator(certs[i].purpose) && certs[i].generated
  {
    for i := 0 to |certs|
      invariant forall j :: 0 <= j < i ==> Obtained(certs[j], cluster, s)
      invariant forall j :: 0 <= j < i && old(certs[j].keyPair).None? ==> generator(certs[j].purpose).Some?
      invariant forall j :: 0 <= j < i ==>
        if old(certs[j].keyPair).Some? then certs[j].keyPair == old(certs[j].keyPair) && !certs[j].generated
        else certs[j].keyPair == generator(certs[j].purpose) && certs[j].generated
      invariant forall j :: i <= j < |certs| ==> Looked(certs[j], cluster, s) && certs[j].keyPair == old(certs[j].keyPair)
    {
      if certs[i].keyPair.None? {
        ok := certs[i].Generate(generator(certs[i].purpose));
        if !ok {
          return;
        }
      }
    }
    ok := true;
  }

  method SaveGenerated(certs: seq<Certificate>, api: SecretApi, cluster: string) returns (ok: bool)
    requires api.Valid() && Distinct(certs) && Fits(certs, cluster, api.external)
    requires forall i :: 0 <= i < |certs| ==> Obtained(certs[i], cluster, api.st)
    modifies api
    ensures api.Valid() && old(api.moves) <= api.moves && Grows(old(api.st), api.st)
    ensures ok ==> forall i :: 0 <= i < |certs| ==> Stored(certs[i], cluster, api.st)
    ensures old(api.Quiet()) ==>
      api.Quiet() && forall n :: n in api.st && n !in old(api.st) ==>
        exists i :: 0 <= i < |certs| && certs[i].generated && n == Name(cluster, certs[i].purpose)
    ensures old(api.Quiet()) && DistinctPurposes(certs) ==>
      (ok <==> forall i :: 0 <= i < |certs| && certs[i].generated ==> Name(cluster, certs[i].purpose) !in old(api.st))
  {
    for i := 0 to |certs|
      invariant api.Valid() && old(api.moves) <= api.moves && Grows(old(api.st), api.st)
      invariant forall j :: 0 <= j < i ==> Stored(certs[j], cluster, api.st)
      invariant forall j :: i <= j < |certs| ==> Obtained(certs[j], cluster, api.st)
      invariant old(api.Quiet()) ==>
        api.Quiet() && forall n :: n in api.st && n !in old(api.st) ==>
          exists j :: 0 <= j < i && certs[j].generated && n == Name(cluster, certs[j].purpose)
      invariant forall j :: 0 <= j < i && certs[j].generated ==> Name(cluster, certs[j].purpose) !in old(api.st)
    {
      if !certs[i].generated {
        continue;
      }
      ok := api.Create(Name(cluster, certs[i].purpose), certs[i].keyPair.value);
      if !ok {
        if DistinctPurposes(certs) {
          NotYetSaved(certs, cluster, i);
        }
        return;
      }
    }
    ok := true;
  }

  lemma NotYetSaved(certs: seq<Certificate>, cluster: string, i: nat)
    requires i < |certs| && DistinctPurposes(certs)
    ensures forall j :: 0 <= j < i ==> Name(cluster, certs[j].purpose) != Name(cluster, certs[i].purpose)
  {
    forall j | 0 <= j < i
      ensures Name(cluster, certs[j].purpose) != Name(cluster, certs[i].purpose)
    {
      if Name(cluster, certs[j].purpose) == Name(cluster, certs[i].purpose) {
        NameIsInjective(cluster, certs[j].purpose, certs[i].purpose);
      }
    }
  }

  /** A call that succeeds returns, for every certificate, exactly the pair that is stored, no
      matter who else looked up, generated or supplied certificates in between. Undisturbed, it succeeds
      exactly if no stored certificate is malformed, no external one is missing, and the missing ones can
      be generated. */
  method LookupOrGenerate(certs: seq<Certificate>, api: SecretApi, cluster: string, generator: Purpose -> Option<KeyPair>) returns (ok: bool)
    requires api.Valid() && Distinct(certs) && Fits(certs, cluster, api.external)
    requires forall i :: 0 <= i < |certs| ==> Unset(certs[i])
    modifies api, certs
    ensures api.Valid() && old(api.moves) <= api.moves && Grows(old(api.st), api.st)
    ensures ok ==> forall i :: 0 <= i < |certs| ==> Stored(certs[i], cluster, api.st)
    ensures ok ==> forall i :: 0 <= i < |certs| ==>
      && certs[i].keyPair.Some? && Name(cluster, certs[i].purpose) in api.st
      && api.st[Name(cluster, certs[i].purpose)].tlsCrt == Some(certs[i].keyPair.value.cert)
      && (api.st[Name(cluster, certs[i].purpose)].tlsKey.Some? ==>
            api.st[Name(cluster, certs[i].purpose)].tlsKey == Some(certs[i].keyPair.value.key))
    ensures old(api.Quiet()) ==>
      api.Quiet() && forall n :: n in api.st && n !in old(api.st) ==>
        exists i :: 0 <= i < |certs| && !certs[i].external && n == Name(cluster, certs[i].purpose)
    ensures old(api.Quiet()) && !(forall i :: 0 <= i < |certs| ==> LooksFine(certs[i], cluster, old(api.st))) ==>
      !ok && api.st == old(api.st)
    ensures old(api.script == [] && !api.down) && DistinctPurposes(certs) ==>
      (ok <==> forall i :: 0 <= i < |certs| ==>
        if Name(cluster, certs[i].purpose) in old(api.st) then old(api.st)[Name(cluster, certs[i].purpose)].tlsCrt.Some?
        else !certs[i].external && generator(certs[i].purpose).Some?)
    ensures old(api.script == [] && !api.down) && ok ==> forall i :: 0 <= i < |certs| && Name(cluster, certs[i].purpose) !in old(api.st) ==>
      certs[i].keyPair == generator(certs[i].purpose)
  {
    ok := Lookup(certs, api, cluster);
    if !ok {
      return;
    }
    ok := GenerateMissing(certs, cluster, generator, api.st);
    if !ok {
      return;
    }
    ok := SaveGenerated(certs, api, cluster);
  }

  // ----- In plain terms -----

  /** What is stored is what is read back; a missing key reads as an empty one, and without a certificate
      there is no pair. */
  lemma PairsInPlainTerms(kp: KeyPair, cert: Bytes, key: Option<Bytes>)
    ensures SecretToKeyPair(AsSecret(kp)) == Some(kp)
    ensures SecretToKeyPair(Secret(Some(cert), key)) == Some(KeyPair(cert, if key.Some? then key.value else ""))
    ensures SecretToKeyPair(Secret(None, key)) == None
  {
  }

  lemma WritesInPlainTerms(external: set<string>, s: Store, name: string, kp: KeyPair, secret: Secret)
    ensures CanMove(external, Generated(name, kp), s) <==> name !in s && name !in external
    ensures CanMove(external, Supplied(name, secret), s) <==> name !in s
    ensures Moved(Generated(name, kp), s) == s[name := Secret(Some(kp.cert), Some(kp.key))]
    ensures Moved(Supplied(name, secret), s) == s[name := secret]
  {
  }
}
