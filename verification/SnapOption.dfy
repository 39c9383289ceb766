/** The snap option string: the value of the upgrade-to and release annotations.
    It is read in two places by two pieces of code: the request sent to a node when it is
    refreshed, and the install data baked into a joining machine's cloud-init. */
module SnapOption {
  import opened Prelude

  datatype Kind = Channel | Revision | LocalPath

  datatype RefreshRequest = RefreshRequest(channel: string, revision: string, localPath: string)

  datatype SnapInstallData = SnapInstallData(option: Kind, value: string)

  /** strings.Split(s, "="). */
  function Split(s: string): (parts: seq<string>)
    ensures |parts| >= 1
  {
    if s == [] then [[]]
    else
      var rest := Split(s[1..]);
      if s[0] == '=' then [[]] + rest else [[s[0]] + rest[0]] + rest[1..]
  }

  function Keyword(k: Kind): string {
    match k
    case Channel => "channel"
    case Revision => "revision"
    case LocalPath => "localPath"
  }

  function KindOf(keyword: string): Option<Kind> {
    if keyword == "channel" then Some(Channel)
    else if keyword == "revision" then Some(Revision)
    else if keyword == "localPath" then Some(LocalPath)
    else None
  }

  /** What a joining machine installs because of its release annotation, if it has one. */
  function ResolveInPlaceUpgradeRelease(release: Option<string>): Option<SnapInstallData> {
    match release
    case None => None
    case Some(text) =>
      var parts := Split(text);
      if |parts| != 2 then None
      else
        match KindOf(parts[0])
        case None => None
        case Some(k) => Some(SnapInstallData(k, parts[1]))
  }

  /** The refresh request a decoded option stands for. */
  function RequestFor(data: SnapInstallData): RefreshRequest {
    match data.option
    case Channel => RefreshRequest(data.value, "", "")
    case Revision => RefreshRequest("", data.value, "")
    case LocalPath => RefreshRequest("", "", data.value)
  }

  predicate Decodable(option: string) {
    ResolveInPlaceUpgradeRelease(Some(option)).Some?
  }

  /** The first half of RefreshMachine: the request for an upgrade option, or an error.
      It accepts exactly the strings that a later join decodes, to the same kind and value. */
  method BuildRefreshRequest(upgradeOption: string) returns (r: Option<RefreshRequest>)
    ensures r.Some? <==> Decodable(upgradeOption)
    ensures r.Some? ==> r.value == RequestFor(ResolveInPlaceUpgradeRelease(Some(upgradeOption)).value)
    ensures r.Some? ==>
      || (upgradeOption == "channel=" + r.value.channel && r.value.revision == "" && r.value.localPath == "")
      || (upgradeOption == "revision=" + r.value.revision && r.value.channel == "" && r.value.localPath == "")
      || (upgradeOption == "localPath=" + r.value.localPath && r.value.channel == "" && r.value.revision == "")
  {
    if Decodable(upgradeOption) {
      RequestInPlainTerms(upgradeOption);
    }
    var channel, revision, localPath := "", "", "";
    var optionKv := Split(upgradeOption);
    if |optionKv| != 2 {
      return None;
    }
    if optionKv[0] == "channel" {
      channel := optionKv[1];
    } else if optionKv[0] == "revision" {
      revision := optionKv[1];
    } else if optionKv[0] == "localPath" {
      localPath := optionKv[1];
    } else {
      return None;
    }
    r := Some(RefreshRequest(channel, revision, localPath));
  }

  lemma {:induction false} SplitWithoutSeparator(s: string)
    requires '=' !in s
    ensures Split(s) == [s]
  {
    if s != [] {
      SplitWithoutSeparator(s[1..]);
      assert [s[0]] + s[1..] == s;
    }
  }

  lemma {:induction false} SplitAtSeparator(a: string, b: string)
    requires '=' !in a
    ensures Split(a + "=" + b) == [a] + Split(b)
  {
    var s := a + "=" + b;
    if a == [] {
      assert s[1..] == b;
    } else {
      assert s[1..] == a[1..] + "=" + b;
      SplitAtSeparator(a[1..], b);
      assert [s[0]] + a[1..] == a;
    }
  }

  /** Splitting loses nothing: a result of two parts came from exactly one separator. */
  lemma {:induction false} SplitInverse(s: string)
    ensures |Split(s)| == 1 ==> Split(s) == [s] && '=' !in s
    ensures |Split(s)| == 2 ==> s == Split(s)[0] + "=" + Split(s)[1] && '=' !in Split(s)[0] && '=' !in Split(s)[1]
  {
    if s != [] {
      SplitInverse(s[1..]);
      assert s == [s[0]] + s[1..];
    }
  }

  /** The accepted strings, exactly: a known keyword, one '=', and a value without '='. */
  lemma DecodesExactly(text: string, k: Kind, v: string)
    ensures ResolveInPlaceUpgradeRelease(Some(text)) == Some(SnapInstallData(k, v))
       <==> text == Keyword(k) + "=" + v && '=' !in v
  {
    if text == Keyword(k) + "=" + v && '=' !in v {
      SplitAtSeparator(Keyword(k), v);
      SplitWithoutSeparator(v);
    }
    SplitInverse(text);
  }

  /** The options as they are written. */
  lemma OptionInPlainTerms(v: string)
    requires '=' !in v
    ensures ResolveInPlaceUpgradeRelease(Some("channel=" + v)) == Some(SnapInstallData(Channel, v))
    ensures ResolveInPlaceUpgradeRelease(Some("revision=" + v)) == Some(SnapInstallData(Revision, v))
    ensures ResolveInPlaceUpgradeRelease(Some("localPath=" + v)) == Some(SnapInstallData(LocalPath, v))
    ensures Decodable("channel=" + v) && Decodable("revision=" + v) && Decodable("localPath=" + v)
  {
    assert "channel=" + v == "channel" + "=" + v;
    assert "revision=" + v == "revision" + "=" + v;
    assert "localPath=" + v == "localPath" + "=" + v;
    DecodesExactly("channel=" + v, Channel, v);
    DecodesExactly("revision=" + v, Revision, v);
    DecodesExactly("localPath=" + v, LocalPath, v);
  }

  /** The request carries the value of the option under the name of the option, and nothing else. */
  lemma RequestInPlainTerms(text: string)
    requires Decodable(text)
    ensures var r := RequestFor(ResolveInPlaceUpgradeRelease(Some(text)).value);
      || (text == "channel=" + r.channel && r.revision == "" && r.localPath == "")
      || (text == "revision=" + r.revision && r.channel == "" && r.localPath == "")
      || (text == "localPath=" + r.localPath && r.channel == "" && r.revision == "")
  {
    var data := ResolveInPlaceUpgradeRelease(Some(text)).value;
    DecodesExactly(text, data.option, data.value);
    assert Keyword(data.option) + "=" + data.value == Keyword(data.option) + ("=" + data.value);
    assert "channel" + "=" == "channel=" && "revision" + "=" == "revision=" && "localPath" + "=" == "localPath=";
  }
}
