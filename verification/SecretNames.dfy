/** Names of cluster secrets: a cluster name, a hyphen, and the purpose of the secret. */
module SecretNames {
  import opened Prelude

  type Purpose = string

  const KUBECONFIG: Purpose := "kubeconfig"
  const CLUSTER_CA: Purpose := "ca"
  const CLIENT_CLUSTER_CA: Purpose := "cca"
  const ETCD_CA: Purpose := "etcd"
  const SERVICE_ACCOUNT: Purpose := "sa"
  const FRONT_PROXY_CA: Purpose := "proxy"
  const API_SERVER_ETCD_CLIENT: Purpose := "apiserver-etcd-client"

  const ALL_SECRET_PURPOSES: seq<Purpose> :=
    [KUBECONFIG, CLUSTER_CA, ETCD_CA, SERVICE_ACCOUNT, FRONT_PROXY_CA, API_SERVER_ETCD_CLIENT]

  function Name(cluster: string, purpose: Purpose): string {
    cluster + "-" + purpose
  }

  /** The last position of the hyphen, or -1. */
  function LastHyphen(s: string): (i: int)
    ensures -1 <= i < |s|
    ensures i >= 0 ==> s[i] == '-'
    ensures forall j :: i < j < |s| ==> s[j] != '-'
  {
    if s == [] then -1
    else if s[|s| - 1] == '-' then |s| - 1
    else LastHyphen(s[..|s| - 1])
  }

  /** The cluster name and the purpose, or None if the suffix is missing or not a listed purpose. */
  function ParseSecretName(name: string): Option<(string, Purpose)> {
    var separatorPos := LastHyphen(name);
    if separatorPos == -1 then None
    else
      var purposeSuffix := name[separatorPos + 1..];
      if purposeSuffix in ALL_SECRET_PURPOSES then Some((name[..separatorPos], purposeSuffix)) else None
  }

  /** Whatever parses was built by Name, from a listed purpose. */
  lemma ParseThenName(s: string, cluster: string, purpose: Purpose)
    requires ParseSecretName(s) == Some((cluster, purpose))
    ensures Name(cluster, purpose) == s && purpose in ALL_SECRET_PURPOSES
  {
    var i := LastHyphen(s);
    assert s == s[..i] + [s[i]] + s[i+1..];
  }

  lemma LastHyphenOfName(cluster: string, purpose: Purpose)
    requires '-' !in purpose
    ensures LastHyphen(Name(cluster, purpose)) == |cluster|
  {
    var s := Name(cluster, purpose);
    assert s[|cluster|] == '-';
    assert forall j :: |cluster| < j < |s| ==> s[j] == purpose[j - |cluster| - 1];
  }

  /** A name parses back to its parts, for every cluster name, exactly when the purpose is listed
      and has no hyphen. */
  lemma NameThenParse(cluster: string, purpose: Purpose)
    ensures ParseSecretName(Name(cluster, purpose)) == Some((cluster, purpose))
       <==> purpose in ALL_SECRET_PURPOSES && '-' !in purpose
  {
    var s := Name(cluster, purpose);
    if '-' !in purpose {
      LastHyphenOfName(cluster, purpose);
      assert s[..|cluster|] == cluster && s[|cluster| + 1..] == purpose;
    }
    if ParseSecretName(s) == Some((cluster, purpose)) {
      assert |s[..LastHyphen(s)]| == |cluster|;
      assert forall k :: 0 <= k < |purpose| ==> purpose[k] == s[|cluster| + 1 + k];
    }
  }

  /** The one listed purpose with hyphens, and the unlisted client CA, never parse at all. */
  lemma NeverParsed(cluster: string)
    ensures ParseSecretName(Name(cluster, API_SERVER_ETCD_CLIENT)).None?
    ensures ParseSecretName(Name(cluster, CLIENT_CLUSTER_CA)).None?
  {
    LastHyphenOfName(cluster, CLIENT_CLUSTER_CA);
    LastHyphenOfName(cluster + "-apiserver-etcd", "client");
    assert Name(cluster + "-apiserver-etcd", "client") == Name(cluster, API_SERVER_ETCD_CLIENT);
  }

  lemma NameIsInjective(cluster: string, p: Purpose, q: Purpose)
    requires Name(cluster, p) == Name(cluster, q)
    ensures p == q
  {
    assert Name(cluster, p)[|cluster| + 1..] == p;
    assert Name(cluster, q)[|cluster| + 1..] == q;
  }

  lemma Listed(purpose: Purpose)
    requires purpose in {"kubeconfig", "ca", "etcd", "sa", "proxy"}
    ensures purpose in ALL_SECRET_PURPOSES && '-' !in purpose
  {
  }

  /** The names as they are written, and what they parse to. */
  lemma ParsedInPlainTerms(cluster: string, purpose: Purpose)
    ensures Name(cluster, purpose) == cluster + ("-" + purpose)
    ensures purpose in {"kubeconfig", "ca", "etcd", "sa", "proxy"} ==> ParseSecretName(cluster + "-" + purpose) == Some((cluster, purpose))
    ensures purpose in {"cca", "apiserver-etcd-client"} ==> ParseSecretName(cluster + "-" + purpose) == None
  {
    if purpose in {"kubeconfig", "ca", "etcd", "sa", "proxy"} {
      Listed(purpose);
    }
    NameThenParse(cluster, purpose);
    NeverParsed(cluster);
  }

  lemma CertificateNamesInPlainTerms(cluster: string)
    ensures Name(cluster, CLUSTER_CA) == cluster + "-" + "ca" && Name(cluster, CLIENT_CLUSTER_CA) == cluster + "-" + "cca"
    ensures Name(cluster, ETCD_CA) == cluster + "-" + "etcd" && Name(cluster, API_SERVER_ETCD_CLIENT) == cluster + "-" + "apiserver-etcd-client"
  {
  }
}
