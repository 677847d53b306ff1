/** `k3kcli kubeconfig generate` (cli/cmds/kubeconfig.go): look up the Cluster, derive
    the server host, the certificate SANs, organisations and expiry from the flags,
    extract a credentials document (retrying while the answer is NotFound), and
    write it to a file whose name defaults from the cluster.

    The command's flags are package-level variables that the action itself updates
    (`altNames` gains the server override, `configName` gains its default), so they
    are the fields of the class `GenerateFlags`. */
module Kubeconfig {
  import opened Api
  import opened Certs
  import opened ClientConfig
  import Retry

  newtype int64 = x: int | -0x8000_0000_0000_0000 <= x < 0x8000_0000_0000_0000

  /** Two's-complement wrap-around of a product to 64 bits, as Go's int64 arithmetic does. */
  function Wrap64(x: int): (r: int64)
    ensures -0x8000_0000_0000_0000 <= x < 0x8000_0000_0000_0000 ==> r as int == x
    ensures (r as int - x) % 0x1_0000_0000_0000_0000 == 0
  {
    ((x + 0x8000_0000_0000_0000) % 0x1_0000_0000_0000_0000 - 0x8000_0000_0000_0000) as int64
  }

  /** `url.Parse(host)` followed by `.Host`: the `host:port` part of the REST
      endpoint, or a parse error. Defined outside the modelled files. */
  const ParseURLHost: string -> Result<string>

  /** The error `altNames.Set(value)` reports, if any, when the override is added to
      the alt-name flag (urfave/cli's `StringSlice.Set`, defined outside the modelled
      files). On success the value is appended. */
  const AltNamesSetError: (seq<string>, string) -> Option<Error>

  /** `strings.Split(s, string(sep))`: the pieces between separators; an empty string
      gives one empty piece. */
  function Split(s: string, sep: char): (parts: seq<string>)
    ensures |parts| >= 1
    ensures forall i :: 0 <= i < |parts| ==> sep !in parts[i]
  {
    if |s| == 0 then [""]
    else
      var rest := Split(s[1..], sep);
      if s[0] == sep then [""] + rest else [[s[0]] + rest[0]] + rest[1..]
  }

  /** `strings.Join(parts, string(sep))`. */
  function Join(parts: seq<string>, sep: char): string
    requires |parts| >= 1
  {
    if |parts| == 1 then parts[0] else parts[0] + [sep] + Join(parts[1..], sep)
  }

  /** Splitting loses nothing: joining the pieces gives the string back. */
  lemma {:induction false} JoinSplit(s: string, sep: char)
    ensures Join(Split(s, sep), sep) == s
  {
    if |s| > 0 {
      var rest := Split(s[1..], sep);
      JoinSplit(s[1..], sep);
      if s[0] == sep {
        assert Split(s, sep) == [""] + rest;
        assert ([""] + rest)[1..] == rest;
      } else {
        var parts := Split(s, sep);
        assert parts == [[s[0]] + rest[0]] + rest[1..];
        if |rest| == 1 {
          assert parts == [[s[0]] + rest[0]];
        } else {
          assert parts[1..] == rest[1..];
          assert Join(rest, sep) == rest[0] + [sep] + Join(rest[1..], sep);
        }
      }
    }
  }

  /** The first piece is the longest prefix without a separator. */
  lemma {:induction false} SplitFirst(s: string, sep: char)
    ensures var h := Split(s, sep)[0];
            |h| <= |s| && h == s[..|h|] && sep !in h && (|h| < |s| ==> s[|h|] == sep)
  {
    if |s| > 0 && s[0] != sep {
      SplitFirst(s[1..], sep);
    }
  }

  /** The host written into the credentials document: the override when one is
      given, otherwise the REST endpoint's `host:port` up to its first colon. */
  function ServerHost(urlHost: string, kubeconfigServerHost: string): (h: string)
    ensures kubeconfigServerHost != "" ==> h == kubeconfigServerHost
    ensures kubeconfigServerHost == "" ==>
              |h| <= |urlHost| && h == urlHost[..|h|] && ':' !in h && (|h| < |urlHost| ==> urlHost[|h|] == ':')
  {
    SplitFirst(urlHost, ':');
    if kubeconfigServerHost != "" then kubeconfigServerHost else Split(urlHost, ':')[0]
  }

  /** Without an override the host is the endpoint up to its first colon. */
  lemma ServerHostCutsAtFirstColon(urlHost: string, k: nat)
    requires k < |urlHost| && urlHost[k] == ':'
    requires forall j :: 0 <= j < k ==> urlHost[j] != ':'
    ensures ServerHost(urlHost, "") == urlHost[..k]
  {
  }

  /** For a bracketed IPv6 endpoint the cut falls inside the brackets, so only the
      opening bracket is kept. */
  lemma ServerHostOfIPv6Endpoint()
    ensures ServerHost("[::1]:6443", "") == "["
  {
    ServerHostCutsAtFirstColon("[::1]:6443", 1);
  }

  /** The names handed to `certs.AddSANs`: the user's alt names, followed by the
      server override when one is given. */
  function SanInput(altNames: seq<string>, kubeconfigServerHost: string): (r: seq<string>)
    ensures kubeconfigServerHost != "" ==> |r| == |altNames| + 1 && r[..|altNames|] == altNames && r[|altNames|] == kubeconfigServerHost
    ensures kubeconfigServerHost == "" ==> r == altNames
  {
    if kubeconfigServerHost != "" then altNames + [kubeconfigServerHost] else altNames
  }

  /** Organisations: the privileged group when the flag was never set (a nil list),
      otherwise the given list as it is. */
  function DefaultOrgs(org: Option<seq<string>>): (r: seq<string>)
    ensures org.None? ==> r == [SystemPrivilegedGroup]
    ensures org.Some? ==> r == org.value
  {
    match org
    case None => [SystemPrivilegedGroup]
    case Some(orgs) => orgs
  }

  /** The largest number of days whose duration fits in an int64 of nanoseconds. */
  const MaxExpirationDays: int := 106751

  /** `time.Hour * 24 * time.Duration(expirationDays)`, in nanoseconds, wrapping
      around as Go's int64 multiplication does. */
  function Expiry(expirationDays: int64): (d: int64)
    ensures -MaxExpirationDays <= expirationDays as int <= MaxExpirationDays ==> d as int == expirationDays as int * Day
    // outside that range the product wraps around modulo 2^64
    ensures (d as int - expirationDays as int * Day) % 0x1_0000_0000_0000_0000 == 0
  {
    Wrap64(Day * expirationDays as int)
  }

  /** The default of 356 days is 356 whole days; one day past the int64 range wraps to a
      negative duration, and twice as many days wrap around to a positive one. */
  lemma ExpiryExamples()
    ensures Expiry(356) as int == 356 * 24 * Hour
    ensures Expiry(MaxExpirationDays as int64 + 1) < 0
    ensures Expiry(213504) > 0
  {
  }

  /** The default file name is derived from the cluster's namespace and name; an
      explicit name is kept. */
  function ConfigFileName(configName: string, cluster: Cluster): (f: string)
    ensures configName != "" ==> f == configName
    ensures configName == "" ==> f == cluster.namespace + "-" + cluster.name + "-kubeconfig.yaml"
  {
    if configName == "" then cluster.namespace + "-" + cluster.name + "-kubeconfig.yaml" else configName
  }

  /** `kubeconfig.KubeConfig`: what `Extract` is asked to issue; expiry in nanoseconds. */
  datatype KubeConfigRequest = KubeConfigRequest(cn: string, orgs: seq<string>, expiry: int64, altNames: AltNames)

  /** A file to write: its name and the serialised document. */
  datatype KubeconfigFile = KubeconfigFile(name: string, data: Bytes)

  /** `cfg.Extract(ctx, client, &cluster, host)` called for the i-th time returns
      `extract(cfg, cluster, host, i)`. */
  type Extractor = (KubeConfigRequest, Cluster, string, nat) -> Result<Config>

  function ExtractAttempts(extract: Extractor, cfg: KubeConfigRequest, cluster: Cluster, host: string): nat -> Result<Config> {
    (i: nat) => extract(cfg, cluster, host, i)
  }

  /** The package-level flag variables of the generate command. */
  class GenerateFlags {
    var name: string
    var cn: string
    var org: Option<seq<string>>
    var altNames: seq<string>
    var expirationDays: int64
    var configName: string
    var kubeconfigServerHost: string

    /** The flags' declared defaults. */
    constructor ()
      ensures name == "" && cn == AdminCommonName && org == None && altNames == []
      ensures expirationDays == 356 && configName == "" && kubeconfigServerHost == ""
    {
      name, cn, org, altNames := "", AdminCommonName, None, [];
      expirationDays, configName, kubeconfigServerHost := 356, "", "";
    }

    /** `writeKubeconfigFile`: settle the file name (stored back into the flag) and
        serialise the document. Reading the working directory and writing the file
        are left to the caller. */
    method WriteKubeconfigFile(cluster: Cluster, kubeconfig: Config) returns (r: Result<KubeconfigFile>)
      modifies this`configName
      ensures configName == ConfigFileName(old(configName), cluster)
      ensures Write(kubeconfig).Err? ==> r == Err(Write(kubeconfig).error)
      ensures Write(kubeconfig).Ok? ==> r == Ok(KubeconfigFile(configName, Write(kubeconfig).value))
    {
      if configName == "" {
        configName := cluster.namespace + "-" + cluster.name + "-kubeconfig.yaml";
      }
      var data := Write(kubeconfig);
      if data.Err? {
        return Err(data.error);
      }
      return Ok(KubeconfigFile(configName, data.value));
    }

    /** The generate action. `namespace` is what the CLI context resolves for the
        cluster name, `restHost` the host of the CLI's REST config, and `steps` the
        number of attempts the retry backoff allows. */
    method Generate(store: Store, namespace: string, restHost: string, steps: nat, extract: Extractor)
      returns (r: Result<KubeconfigFile>, extractCalls: nat)
      requires steps >= 1
      modifies this`altNames, this`configName
      // a failed Cluster lookup or URL parse is returned before anything else happens
      ensures GetCluster(store.State(), Key(namespace, name)).Err? ==>
                r == Err(GetCluster(store.State(), Key(namespace, name)).error) && extractCalls == 0 &&
                altNames == old(altNames) && configName == old(configName)
      ensures GetCluster(store.State(), Key(namespace, name)).Ok? && ParseURLHost(restHost).Err? ==>
                r == Err(ParseURLHost(restHost).error) && extractCalls == 0 &&
                altNames == old(altNames) && configName == old(configName)
      // a failure to add the override to the alt names is returned before extraction
      ensures GetCluster(store.State(), Key(namespace, name)).Ok? && ParseURLHost(restHost).Ok? &&
              kubeconfigServerHost != "" && AltNamesSetError(old(altNames), kubeconfigServerHost).Some? ==>
                r == Err(AltNamesSetError(old(altNames), kubeconfigServerHost).value) && extractCalls == 0 &&
                altNames == old(altNames) && configName == old(configName)
      // otherwise the override joins the alt names, and extraction is retried on NotFound only
      ensures GetCluster(store.State(), Key(namespace, name)).Ok? && ParseURLHost(restHost).Ok? &&
              (kubeconfigServerHost == "" || AltNamesSetError(old(altNames), kubeconfigServerHost).None?) ==>
                var cluster := GetCluster(store.State(), Key(namespace, name)).value;
                var host := ServerHost(ParseURLHost(restHost).value, kubeconfigServerHost);
                var cfg := KubeConfigRequest(cn, DefaultOrgs(org), Expiry(expirationDays), AddSANs(altNames));
                && altNames == SanInput(old(altNames), kubeconfigServerHost)
                && extractCalls >= 1
                && var last := extract(cfg, cluster, host, extractCalls - 1);
                && Retry.IsRun(steps, IsNotFound, ExtractAttempts(extract, cfg, cluster, host), last, extractCalls)
                && (last.Err? ==> r == Err(last.error) && configName == old(configName))
                && (last.Ok? ==> configName == ConfigFileName(old(configName), cluster) &&
                                 r == (if Write(last.value).Ok? then Ok(KubeconfigFile(configName, Write(last.value).value))
                                       else Err(Write(last.value).error)))
    {
      var got := GetCluster(store.State(), Key(namespace, name));
      if got.Err? {
        return Err(got.error), 0;
      }
      var cluster := got.value;
      var url := ParseURLHost(restHost);
      if url.Err? {
        return Err(url.error), 0;
      }
      var host := Split(url.value, ':');
      if kubeconfigServerHost != "" {
        host := [kubeconfigServerHost];
        var setError := AltNamesSetError(altNames, kubeconfigServerHost);
        if setError.Some? {
          return Err(setError.value), 0;
        }
        altNames := altNames + [kubeconfigServerHost];
      }
      var certAltNames := AddSANs(altNames);
      var cfg := KubeConfigRequest(cn, DefaultOrgs(org), Expiry(expirationDays), certAltNames);
      var extracted;
      extracted, extractCalls := Retry.OnError(steps, IsNotFound, ExtractAttempts(extract, cfg, cluster, host[0]));
      if extracted.Err? {
        return Err(extracted.error), extractCalls;
      }
      r := WriteKubeconfigFile(cluster, extracted.value);
    }
  }
}
