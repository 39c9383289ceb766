/** Release promotion: which version tags a promotion run mints from the tags it finds.
    Versions are plain: major.minor.micro with at most an alpha, beta or candidate suffix,
    ordered as in PEP 440 ("Summary of permitted suffixes and relative ordering"). */
module Promotion {
  import opened Prelude

  datatype Level = Alpha | Beta | Candidate

  datatype Pre = Pre(level: Level, n: nat)

  datatype Version = Version(major: nat, minor: nat, micro: nat, pre: Option<Pre>)

  function LevelRank(l: Level): nat {
    match l
    case Alpha => 0
    case Beta => 1
    case Candidate => 2
  }

  /** A release comes after all its prereleases. */
  predicate PreLess(p: Option<Pre>, q: Option<Pre>) {
    p.Some? && (q.None? || LevelRank(p.value.level) < LevelRank(q.value.level)
      || (p.value.level == q.value.level && p.value.n < q.value.n))
  }

  predicate Less(v: Version, w: Version) {
    || v.major < w.major
    || (v.major == w.major && v.minor < w.minor)
    || (v.major == w.major && v.minor == w.minor && v.micro < w.micro)
    || (v.major == w.major && v.minor == w.minor && v.micro == w.micro && PreLess(v.pre, w.pre))
  }

  lemma LessIsTotal(v: Version, w: Version)
    ensures Less(v, w) || Less(w, v) || v == w
    ensures !(Less(v, w) && Less(w, v)) && !Less(v, v)
  {
  }

  predicate SameMinor(v: Version, w: Version) {
    v.major == w.major && v.minor == w.minor
  }

  predicate SameMicro(v: Version, w: Version) {
    SameMinor(v, w) && v.micro == w.micro
  }

  predicate NewerReleaseAvailableSameMinor(v: Version, all: seq<Version>) {
    exists w :: w in all && SameMinor(v, w) && Less(v, w)
  }

  predicate StableReleaseAvailableSameMinor(major: nat, minor: nat, all: seq<Version>) {
    exists w :: w in all && w.pre.None? && w.major == major && w.minor == minor
  }

  /** The level after a prerelease's own; None is stable. */
  function NextLevel(l: Level): Option<Level> {
    match l
    case Alpha => Some(Beta)
    case Beta => Some(Candidate)
    case Candidate => None
  }

  /** An existing version of the same micro at the next level. */
  predicate AtNextLevel(existing: Version, release: Version)
    requires release.pre.Some?
  {
    && SameMicro(existing, release)
    && match NextLevel(release.pre.value.level)
       case None => existing.pre.None?
       case Some(next) => existing.pre.Some? && existing.pre.value.level == next
  }

  function After(existing: Version): Version {
    match existing.pre
    case Some(p) => existing.(pre := Some(Pre(p.level, p.n + 1)))
    case None => existing.(micro := existing.micro + 1)
  }

  function FirstOf(release: Version): Version
    requires release.pre.Some?
  {
    match NextLevel(release.pre.value.level)
    case None => release.(pre := None)
    case Some(next) => release.(pre := Some(Pre(next, 0)))
  }

  /** The version a prerelease is promoted to; None for a stable release, which is an error. */
  method GetPromotedRelease(release: Version, all: seq<Version>) returns (r: Option<Version>)
    ensures r == PromotedRelease(release, all)
  {
    if release.pre.None? {
      return None;
    }
    for i := 0 to |all|
      invariant PromotedRelease(release, all) == PromotedRelease(release, all[i..])
    {
      assert all[i..][1..] == all[i+1..];
      if AtNextLevel(all[i], release) {
        return Some(After(all[i]));
      }
    }
    assert all[|all|..] == [];
    r := Some(FirstOf(release));
  }

  function PromotedRelease(release: Version, all: seq<Version>): (r: Option<Version>)
    ensures r.Some? <==> release.pre.Some?
  {
    if release.pre.None? then None
    else if all == [] then Some(FirstOf(release))
    else if AtNextLevel(all[0], release) then Some(After(all[0]))
    else PromotedRelease(release, all[1..])
  }

  /** v is a prerelease with nothing newer in its minor. */
  predicate IsHead(v: Version, all: seq<Version>) {
    v in all && v.pre.Some? && !NewerReleaseAvailableSameMinor(v, all)
  }

  lemma NextLevelIsNewer(existing: Version, release: Version)
    requires release.pre.Some?
    ensures AtNextLevel(existing, release) ==> SameMinor(release, existing) && Less(release, existing)
  {
  }

  lemma {:induction false} NothingAtNextLevel(v: Version, all: seq<Version>)
    requires v.pre.Some? && forall w :: w in all ==> !AtNextLevel(w, v)
    ensures PromotedRelease(v, all) == Some(FirstOf(v))
  {
    if all != [] {
      NothingAtNextLevel(v, all[1..]);
    }
  }

  /** A head climbs exactly one level: alpha, beta, candidate, stable. The result is new and
      later than everything in its minor. */
  lemma HeadClimbs(v: Version, all: seq<Version>)
    requires IsHead(v, all)
    ensures PromotedRelease(v, all) == Some(FirstOf(v))
    ensures FirstOf(v) !in all && SameMinor(FirstOf(v), v) && Less(v, FirstOf(v))
    ensures forall w :: w in all && SameMinor(w, v) ==> Less(w, FirstOf(v))
  {
    forall w | w in all
      ensures !AtNextLevel(w, v)
    {
      NextLevelIsNewer(w, v);
    }
    NothingAtNextLevel(v, all);
    assert SameMinor(v, FirstOf(v)) && Less(v, FirstOf(v));
    forall w | w in all && SameMinor(w, v)
      ensures Less(w, FirstOf(v))
    {
      LessIsTotal(v, w);
      assert !Less(v, w);
    }
  }

  predicate NewestFirst(all: seq<Version>) {
    forall i, j :: 0 <= i < j < |all| ==> Less(all[j], all[i])
  }

  lemma {:induction false} PromotedFromFirst(release: Version, all: seq<Version>)
    requires release.pre.Some?
    ensures var r := PromotedRelease(release, all);
      if exists w :: w in all && AtNextLevel(w, release)
      then exists i :: 0 <= i < |all| && AtNextLevel(all[i], release) && r == Some(After(all[i]))
             && forall j :: 0 <= j < i ==> !AtNextLevel(all[j], release)
      else r == Some(FirstOf(release))
  {
    if exists w :: w in all && AtNextLevel(w, release) {
      if !AtNextLevel(all[0], release) {
        PromotedFromFirst(release, all[1..]);
        var i :| 0 <= i < |all[1..]| && AtNextLevel(all[1..][i], release)
          && PromotedRelease(release, all[1..]) == Some(After(all[1..][i]))
          && forall j :: 0 <= j < i ==> !AtNextLevel(all[1..][j], release);
        assert all[i + 1] == all[1..][i];
      }
    } else {
      NothingAtNextLevel(release, all);
    }
  }

  /** For any prerelease, head or not, and versions sorted newest first: the promoted version is
      new unless a candidate is promoted past a stable release whose successor exists too. */
  lemma PromotedIsFreshExactlyWhen(release: Version, all: seq<Version>)
    requires release.pre.Some? && NewestFirst(all)
    ensures var stable := release.(pre := None);
      PromotedRelease(release, all).value in all <==> release.pre.value.level == Candidate && stable in all && After(stable) in all
  {
    PromotedFromFirst(release, all);
    var stable := release.(pre := None);
    assert AtNextLevel(FirstOf(release), release);
    if exists w :: w in all && AtNextLevel(w, release) {
      var i :| 0 <= i < |all| && AtNextLevel(all[i], release) && PromotedRelease(release, all) == Some(After(all[i]))
        && forall j :: 0 <= j < i ==> !AtNextLevel(all[j], release);
      if release.pre.value.level == Candidate {
        assert all[i] == stable;
      } else {
        assert AtNextLevel(After(all[i]), release);
        LessIsTotal(all[i], After(all[i]));
        forall j | 0 <= j < |all|
          ensures all[j] != After(all[i])
        {
          assert j > i ==> Less(all[j], all[i]);
        }
      }
    }
  }

  // ----- The tags, one promotion at a time -----

  /** Promote head v: only into a stable release if its minor already has one. */
  predicate CanMint(v: Version, tags: seq<Version>) {
    && IsHead(v, tags)
    && (FirstOf(v).pre.None? ==> StableReleaseAvailableSameMinor(v.major, v.minor, tags))
  }

  /** The tags after promoting the given heads, one after the other; None if one could not be. */
  function Minted(tags: seq<Version>, heads: seq<Version>): Option<seq<Version>>
    decreases |heads|
  {
    if heads == [] then Some(tags)
    else if CanMint(heads[0], tags) then Minted(tags + [FirstOf(heads[0])], heads[1..])
    else None
  }

  /** How many promotions a minor has left: three for an alpha head, none for a stable one. */
  function ClimbLeft(v: Version): nat {
    match v.pre
    case None => 0
    case Some(p) => 3 - LevelRank(p.level)
  }

  function Newest(tags: seq<Version>, major: nat, minor: nat): (r: Option<Version>)
    ensures r.Some? ==> r.value in tags && r.value.major == major && r.value.minor == minor
    ensures forall w :: w in tags && w.major == major && w.minor == minor ==> r.Some? && !Less(r.value, w)
  {
    if tags == [] then None
    else
      var v := tags[|tags| - 1];
      var rest := Newest(tags[..|tags| - 1], major, minor);
      if v.major == major && v.minor == minor && (rest.None? || Less(rest.value, v)) then Some(v) else rest
  }

  /** The promotions left over all the listed minors. */
  function PromotionsLeft(tags: seq<Version>, minors: seq<(nat, nat)>): nat {
    if minors == [] then 0
    else
      var head := Newest(tags, minors[0].0, minors[0].1);
      (if head.Some? then ClimbLeft(head.value) else 0) + PromotionsLeft(tags, minors[1..])
  }

  ghost predicate Lists(minors: seq<(nat, nat)>, tags: seq<Version>) {
    && (forall i, j :: 0 <= i < j < |minors| ==> minors[i] != minors[j])
    && forall v :: v in tags ==> (v.major, v.minor) in minors
  }

  lemma NewestAfterMint(v: Version, tags: seq<Version>, major: nat, minor: nat)
    requires IsHead(v, tags)
    ensures var tags' := tags + [FirstOf(v)];
      if v.major == major && v.minor == minor
      then Newest(tags, major, minor) == Some(v) && Newest(tags', major, minor) == Some(FirstOf(v))
      else Newest(tags', major, minor) == Newest(tags, major, minor)
  {
  }

  lemma {:induction false} MintElsewhere(v: Version, tags: seq<Version>, minors: seq<(nat, nat)>)
    requires IsHead(v, tags) && (v.major, v.minor) !in minors
    ensures PromotionsLeft(tags + [FirstOf(v)], minors) == PromotionsLeft(tags, minors)
  {
    if minors != [] {
      NewestAfterMint(v, tags, minors[0].0, minors[0].1);
      assert minors[0] != (v.major, v.minor);
      assert (v.major, v.minor) !in minors[1..];
      MintElsewhere(v, tags, minors[1..]);
    }
  }

  lemma {:induction false} MintUsesOne(v: Version, tags: seq<Version>, minors: seq<(nat, nat)>)
    requires IsHead(v, tags) && (v.major, v.minor) in minors
    requires forall i, j :: 0 <= i < j < |minors| ==> minors[i] != minors[j]
    ensures PromotionsLeft(tags + [FirstOf(v)], minors) == PromotionsLeft(tags, minors) - 1
  {
    NewestAfterMint(v, tags, minors[0].0, minors[0].1);
    if minors[0] == (v.major, v.minor) {
      MintElsewhere(v, tags, minors[1..]);
    } else {
      MintUsesOne(v, tags, minors[1..]);
    }
  }

  /** Promotion is finite: with no other tags added, no sequence of runs promotes more often
      than the heads have levels left to climb. */
  lemma {:induction false} PromotionIsFinite(tags: seq<Version>, heads: seq<Version>, minors: seq<(nat, nat)>)
    requires Lists(minors, tags) && Minted(tags, heads).Some?
    ensures PromotionsLeft(Minted(tags, heads).value, minors) + |heads| == PromotionsLeft(tags, minors)
    decreases |heads|
  {
    if heads != [] {
      HeadClimbs(heads[0], tags);
      MintUsesOne(heads[0], tags, minors);
      PromotionIsFinite(tags + [FirstOf(heads[0])], heads[1..], minors);
    }
  }

  /** The minors with a stable release stay the same. */
  lemma {:induction false} StableMinorsStay(tags: seq<Version>, heads: seq<Version>, major: nat, minor: nat)
    requires Minted(tags, heads).Some?
    ensures StableReleaseAvailableSameMinor(major, minor, Minted(tags, heads).value)
       <==> StableReleaseAvailableSameMinor(major, minor, tags)
    decreases |heads|
  {
    if heads != [] {
      var tags' := tags + [FirstOf(heads[0])];
      StableMinorsStay(tags', heads[1..], major, minor);
      if StableReleaseAvailableSameMinor(major, minor, tags') {
        var w :| w in tags' && w.pre.None? && w.major == major && w.minor == minor;
        assert w in tags || w == FirstOf(heads[0]);
      } else {
        assert forall w :: w in tags ==> w in tags';
      }
    }
  }

  // ----- One run -----

  method SortNewestFirst(tags: seq<Version>) returns (versions: seq<Version>)
    requires forall i, j :: 0 <= i < j < |tags| ==> tags[i] != tags[j]
    ensures NewestFirst(versions) && forall v :: v in versions <==> v in tags
  {
    versions := [];
    for i := 0 to |tags|
      invariant NewestFirst(versions) && forall v :: v in versions <==> v in tags[..i]
    {
      var k := 0;
      while k < |versions| && Less(tags[i], versions[k])
        invariant 0 <= k <= |versions|
        invariant forall j :: 0 <= j < k ==> Less(tags[i], versions[j])
      {
        k := k + 1;
      }
      if k < |versions| {
        LessIsTotal(tags[i], versions[k]);
      }
      assert tags[i] !in tags[..i];
      assert forall v :: v in versions <==> v in versions[..k] || v in versions[k..];
      versions := versions[..k] + [tags[i]] + versions[k..];
    }
    assert tags[..|tags|] == tags;
  }

  /** A clone: its own tags, what was pushed from it, and which git commands would work. */
  class Repository {
    var tags: seq<Version>
    var pushed: seq<Version>
    const finds: Version -> bool
    const creates: Version -> bool
    const pushes: Version -> bool

    constructor (tags: seq<Version>, finds: Version -> bool, creates: Version -> bool, pushes: Version -> bool)
      ensures this.tags == tags && pushed == [] && this.finds == finds && this.creates == creates && this.pushes == pushes
    {
      this.tags, pushed := tags, [];
      this.finds, this.creates, this.pushes := finds, creates, pushes;
    }

    /** The commit of a tag. */
    method GetCommitId(v: Version) returns (ok: bool)
      ensures ok == (v in tags && finds(v))
    {
      ok := v in tags && finds(v);
    }

    /** git refuses a tag that exists, and can fail for reasons of its own. */
    method CreateTag(v: Version) returns (ok: bool)
      modifies this`tags
      ensures ok == (old(v !in tags) && creates(v))
      ensures tags == if ok then old(tags) + [v] else old(tags)
    {
      ok := v !in tags && creates(v);
      if ok {
        tags := tags + [v];
      }
    }

    method PushTag(v: Version) returns (ok: bool)
      modifies this`pushed
      ensures ok == pushes(v) && pushed == if ok then old(pushed) + [v] else old(pushed)
    {
      ok := pushes(v);
      if ok {
        pushed := pushed + [v];
      }
    }
  }

  /** Find the commit, and unless it is a dry run tag it and push the tag. Created says that the tag
      is there, ok that nothing failed: a tag can be created and not pushed. */
  method PromoteRelease(repo: Repository, from: Version, to: Version, dryRun: bool) returns (created: bool, ok: bool)
    modifies repo
    ensures ok <==> from in old(repo.tags) && repo.finds(from) && (dryRun || (to !in old(repo.tags) && repo.creates(to) && repo.pushes(to)))
    ensures created <==> from in old(repo.tags) && repo.finds(from) && (dryRun || (to !in old(repo.tags) && repo.creates(to)))
    ensures repo.tags == if created && !dryRun then old(repo.tags) + [to] else old(repo.tags)
    ensures repo.pushed == if ok && !dryRun then old(repo.pushed) + [to] else old(repo.pushed)
  {
    ok := repo.GetCommitId(from);
    created := ok;
    if ok && !dryRun {
      created := repo.CreateTag(to);
      ok := created;
      if ok {
        ok := repo.PushTag(to);
      }
    }
  }

  predicate Distinct(tags: seq<Version>) {
    forall i, j :: 0 <= i < j < |tags| ==> tags[i] != tags[j]
  }

  lemma SameSet(v: Version, versions: seq<Version>, tags: seq<Version>)
    requires forall w :: w in versions <==> w in tags
    ensures NewerReleaseAvailableSameMinor(v, versions) <==> NewerReleaseAvailableSameMinor(v, tags)
    ensures StableReleaseAvailableSameMinor(v.major, v.minor, versions) <==> StableReleaseAvailableSameMinor(v.major, v.minor, tags)
  {
  }

  lemma HeadsOfOneMinor(v: Version, w: Version, tags: seq<Version>)
    requires IsHead(v, tags) && IsHead(w, tags)
    ensures SameMinor(v, w) ==> v == w
  {
  }

  lemma NotSeenBefore(versions: seq<Version>, i: nat, h: Version)
    requires NewestFirst(versions) && i < |versions| && h in versions[..i]
    ensures h != versions[i]
  {
  }

  lemma OtherMinorKeepsHead(tags: seq<Version>, w: Version, v: Version)
    requires CanMint(v, tags) && !SameMinor(w, v)
    ensures CanMint(v, tags + [w])
  {
  }

  /** Promotions in other minors do not stand in the way. */
  lemma {:induction false} StillMintable(tags: seq<Version>, heads: seq<Version>, v: Version)
    requires Minted(tags, heads).Some? && CanMint(v, tags)
    requires forall h :: h in heads ==> !SameMinor(h, v)
    ensures CanMint(v, Minted(tags, heads).value)
    decreases |heads|
  {
    if heads != [] {
      HeadClimbs(heads[0], tags);
      assert !SameMinor(heads[0], v);
      OtherMinorKeepsHead(tags, FirstOf(heads[0]), v);
      StillMintable(tags + [FirstOf(heads[0])], heads[1..], v);
    }
  }

  lemma {:induction false} MintedSnoc(tags: seq<Version>, heads: seq<Version>, v: Version)
    requires Minted(tags, heads).Some? && CanMint(v, Minted(tags, heads).value)
    ensures Minted(tags, heads + [v]) == Some(Minted(tags, heads).value + [FirstOf(v)])
    decreases |heads|
  {
    if heads == [] {
      assert heads + [v] == [v];
    } else {
      assert (heads + [v])[1..] == heads[1..] + [v];
      MintedSnoc(tags + [FirstOf(heads[0])], heads[1..], v);
    }
  }

  lemma {:induction false} MintedStaysDistinct(tags: seq<Version>, heads: seq<Version>)
    requires Distinct(tags) && Minted(tags, heads).Some?
    ensures Distinct(Minted(tags, heads).value)
    decreases |heads|
  {
    if heads != [] {
      HeadClimbs(heads[0], tags);
      MintedStaysDistinct(tags + [FirstOf(heads[0])], heads[1..]);
    }
  }

  /** Whether the run promotes the version, and to what; all judged by the tags at its start. */
  method Decide(version: Version, versions: seq<Version>, ripe: Version -> bool) returns (promoted: Option<Version>)
    requires version in versions
    ensures promoted.Some? <==> CanMint(version, versions) && ripe(version)
    ensures promoted.Some? ==> promoted.value == FirstOf(version)
  {
    if version.pre.None? {
      return None;
    }
    if NewerReleaseAvailableSameMinor(version, versions) {
      return None;
    }
    HeadClimbs(version, versions);
    promoted := GetPromotedRelease(version, versions);
    if promoted.value.pre.None? && !StableReleaseAvailableSameMinor(promoted.value.major, promoted.value.minor, versions) {
      // the first stable release of a minor is made by hand
      return None;
    }
    if !ripe(version) {
      return None;
    }
  }

  /** The heads among the first i versions that are ripe and may be promoted. */
  ghost predicate HeadsSoFar(tags: seq<Version>, versions: seq<Version>, i: nat, ripe: Version -> bool, heads: seq<Version>)
    requires i <= |versions|
  {
    && Minted(tags, heads).Some?
    && (forall j, k :: 0 <= j < k < |heads| ==> !SameMinor(heads[j], heads[k]))
    && forall v :: v in heads <==> v in versions[..i] && CanMint(v, tags) && ripe(v)
  }

  /** A head met after others is that of another minor, and is promoted as if it were the first. */
  lemma NextHead(tags: seq<Version>, versions: seq<Version>, i: nat, ripe: Version -> bool, heads: seq<Version>)
    requires Distinct(tags) && NewestFirst(versions) && i < |versions| && HeadsSoFar(tags, versions, i, ripe, heads)
    ensures CanMint(versions[i], tags) && ripe(versions[i]) ==>
      && HeadsSoFar(tags, versions, i + 1, ripe, heads + [versions[i]])
      && var now := Minted(tags, heads).value;
      && versions[i] in now && FirstOf(versions[i]) !in now
      && Minted(tags, heads + [versions[i]]) == Some(now + [FirstOf(versions[i])])
      && Distinct(now + [FirstOf(versions[i])])
    ensures !(CanMint(versions[i], tags) && ripe(versions[i])) ==> HeadsSoFar(tags, versions, i + 1, ripe, heads)
  {
    var v := versions[i];
    assert versions[..i+1] == versions[..i] + [v];
    if CanMint(v, tags) && ripe(v) {
      forall h | h in heads
        ensures !SameMinor(h, v)
      {
        HeadsOfOneMinor(h, v, tags);
        NotSeenBefore(versions, i, h);
      }
      StillMintable(tags, heads, v);
      MintedSnoc(tags, heads, v);
      HeadClimbs(v, Minted(tags, heads).value);
      MintedStaysDistinct(tags, heads + [v]);
    }
  }

  /** What was tagged since has been pushed, but for the last tag if something failed. */
  predicate Published(tags: seq<Version>, pushed: seq<Version>, tags': seq<Version>, pushed': seq<Version>, ok: bool) {
    && tags <= tags'
    && var created := tags'[|tags|..];
    pushed' == pushed + created || (!ok && created != [] && pushed' == pushed + created[..|created| - 1])
  }

  lemma OneMorePublished(tags: seq<Version>, pushed: seq<Version>, tags': seq<Version>, pushed': seq<Version>, to: Version)
    requires Published(tags, pushed, tags', pushed', true)
    ensures Published(tags, pushed, tags', pushed', false)
    ensures Published(tags, pushed, tags' + [to], pushed' + [to], true) && Published(tags, pushed, tags' + [to], pushed', false)
  {
    assert (tags' + [to])[|tags|..] == tags'[|tags|..] + [to];
  }

  /** A run over distinct plain versions: ripe says which tags are old enough, or are promoted at
      once. It mints what promoting the returned heads one by one mints, one per minor. A run in
      which no git command fails promotes every ripe head that may be promoted; one that fails stops
      there, and may leave its last tag unpushed. */
  method PromoteReleases(repo: Repository, ripe: Version -> bool, dryRun: bool) returns (ok: bool, heads: seq<Version>)
    requires Distinct(repo.tags)
    modifies repo
    ensures Distinct(repo.tags)
    ensures Minted(old(repo.tags), heads).Some?
    ensures repo.tags == if dryRun then old(repo.tags) else Minted(old(repo.tags), heads).value
    ensures forall i, j :: 0 <= i < j < |heads| ==> !SameMinor(heads[i], heads[j])
    ensures forall v :: v in heads ==> CanMint(v, old(repo.tags)) && ripe(v)
    ensures Published(old(repo.tags), old(repo.pushed), repo.tags, repo.pushed, ok)
    ensures ok ==> forall v :: CanMint(v, old(repo.tags)) && ripe(v) ==> v in heads
    ensures ok ==> old(repo.tags) <= repo.tags && repo.pushed == old(repo.pushed) + repo.tags[|old(repo.tags)|..]
    ensures (forall v: Version :: repo.finds(v)) && (dryRun || forall v: Version :: repo.creates(v) && repo.pushes(v)) ==> ok
  {
    var versions := SortNewestFirst(repo.tags);
    ghost var tags, pushed := repo.tags, repo.pushed;
    heads := [];
    for i := 0 to |versions|
      invariant HeadsSoFar(tags, versions, i, ripe, heads)
      invariant repo.tags == if dryRun then tags else Minted(tags, heads).value
      invariant Distinct(repo.tags) && Published(tags, pushed, repo.tags, repo.pushed, true)
    {
      var version := versions[i];
      SameSet(version, versions, tags);
      NextHead(tags, versions, i, ripe, heads);
      var promoted := Decide(version, versions, ripe);
      if promoted.None? {
        continue;
      }
      OneMorePublished(tags, pushed, repo.tags, repo.pushed, promoted.value);
      var created;
      created, ok := PromoteRelease(repo, version, promoted.value, dryRun);
      if created {
        heads := heads + [version];
      }
      if !ok {
        return;
      }
    }
    assert versions[..|versions|] == versions;
    ok := true;
  }

  // ----- The next prerelease of a branch -----

  datatype ReleaseType = Major | Minor | Micro | Unknown

  /** The prerelease after the newest version of a branch; None if there is none, or no known part
      to bump. */
  function GetNextPrereleaseVersion(versions: seq<Version>, releaseType: ReleaseType): Option<Version> {
    if versions == [] then None
    else
      var lv := versions[0];
      match lv.pre
      case Some(p) => Some(lv.(pre := Some(Pre(p.level, p.n + 1))))
      case None =>
        var alpha := Some(Pre(Alpha, 0));
        match releaseType
        case Major => Some(Version(lv.major + 1, 0, 0, alpha))
        case Minor => Some(Version(lv.major, lv.minor + 1, 0, alpha))
        case Micro => Some(Version(lv.major, lv.minor, lv.micro + 1, alpha))
        case Unknown => None
  }

  /** It is always a prerelease newer than every version of the branch, so a new tag there. */
  lemma NextPrereleaseIsNewest(versions: seq<Version>, releaseType: ReleaseType)
    requires NewestFirst(versions) && GetNextPrereleaseVersion(versions, releaseType).Some?
    ensures var v := GetNextPrereleaseVersion(versions, releaseType).value;
      v.pre.Some? && v !in versions && forall w :: w in versions ==> Less(w, v)
  {
  }

  // ----- In plain terms -----

  /** How versions are ordered: by their numbers, and then alpha before beta before candidate before
      stable, each by its own number. */
  lemma OrderInPlainTerms(v: Version, w: Version, a: nat, b: nat)
    ensures v.major < w.major ==> Less(v, w)
    ensures v.major == w.major && v.minor < w.minor ==> Less(v, w)
    ensures v.major == w.major && v.minor == w.minor && v.micro < w.micro ==> Less(v, w)
    ensures Less(v.(pre := Some(Pre(Alpha, a))), v.(pre := Some(Pre(Beta, b))))
    ensures Less(v.(pre := Some(Pre(Beta, a))), v.(pre := Some(Pre(Candidate, b))))
    ensures Less(v.(pre := Some(Pre(Candidate, a))), v.(pre := None))
    ensures forall level :: a < b ==> Less(v.(pre := Some(Pre(level, a))), v.(pre := Some(Pre(level, b))))
  {
  }

  /** What is promoted to what: an alpha to beta 0, a beta to candidate 0, a candidate to the stable
      release, if there is none of that kind for the same major, minor and micro. */
  lemma PromotedInPlainTerms(v: Version, all: seq<Version>)
    requires v.pre.Some?
    ensures v.pre.value.level == Alpha && (forall n: nat :: v.(pre := Some(Pre(Beta, n))) !in all) ==>
      PromotedRelease(v, all) == Some(Version(v.major, v.minor, v.micro, Some(Pre(Beta, 0))))
    ensures v.pre.value.level == Beta && (forall n: nat :: v.(pre := Some(Pre(Candidate, n))) !in all) ==>
      PromotedRelease(v, all) == Some(Version(v.major, v.minor, v.micro, Some(Pre(Candidate, 0))))
    ensures v.pre.value.level == Candidate && v.(pre := None) !in all ==>
      PromotedRelease(v, all) == Some(Version(v.major, v.minor, v.micro, None))
    ensures v.pre.value.level == Candidate && v.(pre := None) in all ==>
      PromotedRelease(v, all) == Some(Version(v.major, v.minor, v.micro + 1, None))
  {
    PromotedFromFirst(v, all);
    forall w | w in all && AtNextLevel(w, v)
      ensures if v.pre.value.level == Alpha then w.pre.Some? && w == v.(pre := Some(Pre(Beta, w.pre.value.n)))
              else if v.pre.value.level == Beta then w.pre.Some? && w == v.(pre := Some(Pre(Candidate, w.pre.value.n)))
              else w == v.(pre := None)
    {
    }
    assert v.pre.value.level == Candidate ==> AtNextLevel(v.(pre := None), v);
  }

  /** And if there is one of that kind, the newest of them decides: it is one more than that. */
  lemma RepeatedInPlainTerms(v: Version, all: seq<Version>, n: nat)
    requires v.pre.Some? && NewestFirst(all)
    ensures v.pre.value.level == Alpha && v.(pre := Some(Pre(Beta, n))) in all && (forall k: nat :: v.(pre := Some(Pre(Beta, k))) in all ==> k <= n) ==>
      PromotedRelease(v, all) == Some(Version(v.major, v.minor, v.micro, Some(Pre(Beta, n + 1))))
    ensures v.pre.value.level == Beta && v.(pre := Some(Pre(Candidate, n))) in all && (forall k: nat :: v.(pre := Some(Pre(Candidate, k))) in all ==> k <= n) ==>
      PromotedRelease(v, all) == Some(Version(v.major, v.minor, v.micro, Some(Pre(Candidate, n + 1))))
  {
    PromotedFromFirst(v, all);
    if v.pre.value.level != Candidate {
      var next := if v.pre.value.level == Alpha then Beta else Candidate;
      var newest := v.(pre := Some(Pre(next, n)));
      if newest in all && forall k: nat :: v.(pre := Some(Pre(next, k))) in all ==> k <= n {
        NewestIsFirst(v, all, newest);
      }
    }
  }

  lemma NewestIsFirst(v: Version, all: seq<Version>, newest: Version)
    requires v.pre.Some? && v.pre.value.level != Candidate && NewestFirst(all)
    requires newest in all && AtNextLevel(newest, v)
    requires forall w :: w in all && AtNextLevel(w, v) ==> w.pre.value.n <= newest.pre.value.n
    ensures PromotedRelease(v, all) == Some(After(newest))
  {
    PromotedFromFirst(v, all);
    var i :| 0 <= i < |all| && AtNextLevel(all[i], v) && PromotedRelease(v, all) == Some(After(all[i]))
      && forall j :: 0 <= j < i ==> !AtNextLevel(all[j], v);
    LessIsTotal(newest, all[i]);
  }

  /** What a run may promote: a prerelease with nothing later in its minor; a candidate only if its minor
      has a stable release already. */
  lemma MintInPlainTerms(v: Version, tags: seq<Version>)
    ensures CanMint(v, tags) <==>
      && v in tags && v.pre.Some?
      && (forall w :: w in tags && w.major == v.major && w.minor == v.minor ==> !Less(v, w))
      && (v.pre.value.level == Candidate ==>
            exists w :: w in tags && w.pre.None? && w.major == v.major && w.minor == v.minor)
  {
    if v in tags && v.pre.Some? && NewerReleaseAvailableSameMinor(v, tags) {
      var w :| w in tags && SameMinor(v, w) && Less(v, w);
      assert w.major == v.major && w.minor == v.minor;
    }
    if v.pre.Some? && StableReleaseAvailableSameMinor(v.major, v.minor, tags) {
      var w :| w in tags && w.pre.None? && w.major == v.major && w.minor == v.minor;
    }
  }

  /** The next prerelease of a branch: one more of the same kind after a prerelease, alpha 0 of the next
      major, minor or micro after a stable release. */
  lemma NextPrereleaseInPlainTerms(versions: seq<Version>, newest: Version, releaseType: ReleaseType)
    requires versions != [] && versions[0] == newest
    ensures newest.pre.Some? ==>
      && GetNextPrereleaseVersion(versions, releaseType).Some?
      && var v := GetNextPrereleaseVersion(versions, releaseType).value;
      && v.major == newest.major && v.minor == newest.minor && v.micro == newest.micro
      && v.pre == Some(Pre(newest.pre.value.level, newest.pre.value.n + 1))
    ensures newest.pre.None? ==>
      && GetNextPrereleaseVersion(versions, Major) == Some(Version(newest.major + 1, 0, 0, Some(Pre(Alpha, 0))))
      && GetNextPrereleaseVersion(versions, Minor) == Some(Version(newest.major, newest.minor + 1, 0, Some(Pre(Alpha, 0))))
      && GetNextPrereleaseVersion(versions, Micro) == Some(Version(newest.major, newest.minor, newest.micro + 1, Some(Pre(Alpha, 0))))
      && GetNextPrereleaseVersion(versions, Unknown) == None
  {
  }
}
