/** The virtual kubelet's credential and TLS set-up (k3k-kubelet/kubelet.go): where
    its client configuration for the virtual cluster comes from, the certificates it
    requests, the credentials document it builds, its HTTPS listener options, and
    the options of its two controller managers.

    Bootstrap decoding, certificate signing, key-pair and PEM parsing, IP parsing and
    REST-config loading are defined outside the modelled files; they appear as
    constants of function type, and the i-th bootstrap decode returns
    `decode(token, endpoint, i)`. */
module Kubelet {
  import opened Api
  import opened Certs
  import opened ClientConfig
  import Retry
  import Format

  /** `server.ServiceName`: the name of a cluster's server Service. */
  const ServiceName: string -> string

  /** The CA material `bootstrap.DecodedBootstrap` returns (PEM contents). */
  datatype Bootstrap = Bootstrap(serverCA: Bytes, serverCAKey: Bytes, clientCA: Bytes, clientCAKey: Bytes)

  type Decoder = (string, string, nat) -> Result<Bootstrap>

  /** A REST client configuration, as built by client-go. */
  datatype RestConfig = RestConfig(source: Bytes)

  /** `clientcmd.BuildConfigFromFlags("", path)` and `clientcmd.RESTConfigFromKubeConfig`. */
  const BuildConfigFromFile: string -> Result<RestConfig>
  const RESTConfigFromKubeConfig: Bytes -> Result<RestConfig>

  /** A parsed CA certificate and a TLS key pair. */
  datatype Certificate = Certificate(der: Bytes)
  datatype KeyPair = KeyPair(cert: Bytes, key: Bytes)

  /** `tls.X509KeyPair`, `certutil.ParseCertsPEM` and `net.ParseIP` (None for a nil IP). */
  const X509KeyPair: (Bytes, Bytes) -> Result<KeyPair>
  const ParseCertsPEM: Bytes -> Result<seq<Certificate>>
  const ParseIP: string -> Option<Bytes>

  /** The listener's `tls.Config`: trusted roots and the serving certificates. */
  datatype TlsConfig = TlsConfig(rootCAs: seq<Certificate>, certificates: seq<KeyPair>)

  /** The retry predicate of both bootstrap decodes: every non-nil error is retried. */
  predicate AnyError(e: Error) {
    true
  }

  function DecodeAttempts(decode: Decoder, token: string, endpoint: string): nat -> Result<Bootstrap> {
    (i: nat) => decode(token, endpoint, i)
  }

  /** Where the bootstrap data is fetched from: the server Service inside the cluster's
      namespace. */
  function BootstrapEndpoint(cluster: Cluster): string {
    ServiceName(cluster.name) + "." + cluster.namespace
  }

  /** The API server URL written into the kubelet's credentials document. */
  function ApiURL(cluster: Cluster): string {
    "https://" + ServiceName(cluster.name)
  }

  /** The URL names the same Service as the bootstrap endpoint, without its namespace:
      the host part of the URL is the endpoint up to the namespace suffix. */
  lemma ApiURLHostIsEndpointService(cluster: Cluster)
    ensures var host := ApiURL(cluster)[|"https://"|..];
            BootstrapEndpoint(cluster) == host + "." + cluster.namespace
  {
  }

  /** The admin client certificate the kubelet issues itself from the bootstrap data. */
  function AdminCertRequest(b: Bootstrap): CertRequest {
    CertRequest(AdminCommonName, [SystemPrivilegedGroup], None, [ClientAuth], 356 * Day, b.clientCA, b.clientCAKey)
  }

  /** The serving certificate of the kubelet's HTTPS listener. */
  function ServingCertRequest(nodeName: string, hostname: string, agentIP: string, podIP: string, b: Bootstrap): CertRequest {
    CertRequest(nodeName, [], Some(AltNames([hostname], [ParseIP(agentIP), ParseIP(podIP)])), [ServerAuth], 0, b.serverCA, b.serverCAKey)
  }

  /** The parameters of the two certificates: the admin certificate is a client
      certificate signed by the client CA with a fixed lifetime of 356 days, the serving
      certificate a server certificate for the node's name and addresses, signed by the
      server CA with the signer's default lifetime. The two never share a usage. */
  lemma CertRequestParameters(b: Bootstrap, nodeName: string, hostname: string, agentIP: string, podIP: string)
    ensures var admin := AdminCertRequest(b);
            && admin.commonName == AdminCommonName && admin.organizations == [SystemPrivilegedGroup]
            && admin.altNames.None? && admin.usages == [ClientAuth]
            && admin.caCert == b.clientCA && admin.caKey == b.clientCAKey
            && admin.expiry == 356 * 24 * Hour
    ensures var serving := ServingCertRequest(nodeName, hostname, agentIP, podIP, b);
            && serving.commonName == nodeName && serving.organizations == [] && serving.usages == [ServerAuth]
            && serving.altNames == Some(AltNames([hostname], [ParseIP(agentIP), ParseIP(podIP)]))
            && serving.caCert == b.serverCA && serving.caKey == b.serverCAKey
            && serving.expiry == 0
    ensures var admin := AdminCertRequest(b);
            var serving := ServingCertRequest(nodeName, hostname, agentIP, podIP, b);
            forall u :: u in admin.usages ==> u !in serving.usages
  {
  }

  /** `kubeconfigBytes` before serialisation: one cluster, one user and one context, all
      named "default". */
  function KubeconfigDoc(url: string, serverCA: Bytes, clientCert: Bytes, clientKey: Bytes): Config {
    Config(
      map["default" := ClusterEntry(url, serverCA)],
      map["default" := AuthInfo(clientCert, clientKey)],
      map["default" := Context("default", "default")],
      "default")
  }

  /** A client loading the document connects to `url`, trusts `serverCA` and presents
      the given certificate and key; "default" is the only name in the document. */
  lemma KubeconfigDocResolves(url: string, serverCA: Bytes, clientCert: Bytes, clientKey: Bytes)
    ensures CurrentCredentials(KubeconfigDoc(url, serverCA, clientCert, clientKey)) ==
              Some(Credentials(url, serverCA, clientCert, clientKey))
    ensures var c := KubeconfigDoc(url, serverCA, clientCert, clientKey);
            c.clusters.Keys == c.authInfos.Keys == c.contexts.Keys == {"default"} && c.currentContext == "default"
  {
  }

  /** The rest of `virtRestConfig` once the bootstrap data is decoded: issue the admin
      certificate, build and serialise the document, load it. Each error is returned
      as it is. */
  function AdminRestConfig(cluster: Cluster, b: Bootstrap): (r: Result<RestConfig>)
    ensures CreateClientCertKey(AdminCertRequest(b)).Err? ==> r == Err(CreateClientCertKey(AdminCertRequest(b)).error)
    ensures CreateClientCertKey(AdminCertRequest(b)).Ok? ==>
              var (cert, key) := CreateClientCertKey(AdminCertRequest(b)).value;
              var data := Write(KubeconfigDoc(ApiURL(cluster), b.serverCA, cert, key));
              r == (if data.Err? then Err(data.error) else RESTConfigFromKubeConfig(data.value))
  {
    match CreateClientCertKey(AdminCertRequest(b))
    case Err(e) => Err(e)
    case Ok((cert, key)) =>
      match Write(KubeconfigDoc(ApiURL(cluster), b.serverCA, cert, key))
      case Err(e) => Err(e)
      case Ok(data) => RESTConfigFromKubeConfig(data)
  }

  /** The rest of `loadTLSConfig` once the bootstrap data is decoded: issue the serving
      certificate, build the key pair, and trust only the first server CA certificate. */
  function ServingTls(nodeName: string, hostname: string, agentIP: string, podIP: string, b: Bootstrap): (r: Result<TlsConfig>)
    // a configuration comes back only when every step succeeded
    ensures r.Ok? ==> ParseCertsPEM(b.serverCA).Ok? && |ParseCertsPEM(b.serverCA).value| >= 1
    ensures r.Ok? ==> r.value.rootCAs == [ParseCertsPEM(b.serverCA).value[0]] && |r.value.certificates| == 1
    ensures r.Ok? ==> CreateClientCertKey(ServingCertRequest(nodeName, hostname, agentIP, podIP, b)).Ok? &&
                      var (cert, key) := CreateClientCertKey(ServingCertRequest(nodeName, hostname, agentIP, podIP, b)).value;
                      X509KeyPair(cert, key) == Ok(r.value.certificates[0])
    // each failing step has its own message
    ensures var signed := CreateClientCertKey(ServingCertRequest(nodeName, hostname, agentIP, podIP, b));
            signed.Err? ==> r == Err(Wrap("unable to get cert and key: ", signed.error))
    ensures var signed := CreateClientCertKey(ServingCertRequest(nodeName, hostname, agentIP, podIP, b));
            signed.Ok? ==>
              var pair := X509KeyPair(signed.value.0, signed.value.1);
              var cas := ParseCertsPEM(b.serverCA);
              && (pair.Err? ==> r == Err(Wrap("unable to get key pair: ", pair.error)))
              && (pair.Ok? && cas.Err? ==> r == Err(Wrap("unable to create ca certs: ", cas.error)))
              && (pair.Ok? && cas == Ok([]) ==> r == Err(NewError("ca cert is not parsed correctly")))
              // and when every step succeeds the result is a configuration
              && (pair.Ok? && cas.Ok? && |cas.value| >= 1 ==> r.Ok? && r.value.certificates == [pair.value])
  {
    match CreateClientCertKey(ServingCertRequest(nodeName, hostname, agentIP, podIP, b))
    case Err(e) => Err(Wrap("unable to get cert and key: ", e))
    case Ok((cert, key)) =>
      match X509KeyPair(cert, key)
      case Err(e) => Err(Wrap("unable to get key pair: ", e))
      case Ok(pair) =>
        match ParseCertsPEM(b.serverCA)
        case Err(e) => Err(Wrap("unable to create ca certs: ", e))
        case Ok(cas) =>
          if |cas| < 1 then Err(NewError("ca cert is not parsed correctly"))
          else Ok(TlsConfig([cas[0]], [pair]))
  }

  /** `r` and `calls` are what `virtRestConfig` returns and how often it decoded. */
  ghost predicate IsVirtRestConfig(w: World, virtualConfigPath: string, clusterName: string, clusterNamespace: string,
                                   token: string, steps: nat, decode: Decoder, r: Result<RestConfig>, calls: nat)
  {
    if virtualConfigPath != "" then
      // the file is used directly: no Cluster lookup, no decode
      r == BuildConfigFromFile(virtualConfigPath) && calls == 0
    else
      match GetCluster(w, Key(clusterNamespace, clusterName))
      case Err(e) => r == Err(e) && calls == 0
      case Ok(cluster) =>
        var endpoint := BootstrapEndpoint(cluster);
        && calls >= 1
        && var last := decode(token, endpoint, calls - 1);
        && Retry.IsRun(steps, AnyError, DecodeAttempts(decode, token, endpoint), last, calls)
        && r == (match last
                 case Err(e) => Err(Wrap("unable to decode bootstrap: ", e))
                 case Ok(b) => AdminRestConfig(cluster, b))
  }

  /** `virtRestConfig`: the kubelet's client configuration for the virtual cluster. */
  method VirtRestConfig(store: Store, virtualConfigPath: string, clusterName: string, clusterNamespace: string,
                        token: string, steps: nat, decode: Decoder) returns (r: Result<RestConfig>, decodeCalls: nat)
    requires steps >= 1
    ensures IsVirtRestConfig(store.State(), virtualConfigPath, clusterName, clusterNamespace, token, steps, decode, r, decodeCalls)
  {
    if virtualConfigPath != "" {
      return BuildConfigFromFile(virtualConfigPath), 0;
    }
    var got := GetCluster(store.State(), Key(clusterNamespace, clusterName));
    if got.Err? {
      return Err(got.error), 0;
    }
    var cluster := got.value;
    var endpoint := ServiceName(cluster.name) + "." + cluster.namespace;
    var decoded;
    decoded, decodeCalls := Retry.OnError(steps, AnyError, DecodeAttempts(decode, token, endpoint));
    if decoded.Err? {
      return Err(Wrap("unable to decode bootstrap: ", decoded.error)), decodeCalls;
    }
    r := AdminRestConfig(cluster, decoded.value);
  }

  /** `r` and `calls` are what `loadTLSConfig` returns and how often it decoded. */
  ghost predicate IsLoadTLSConfig(w: World, clusterName: string, clusterNamespace: string, nodeName: string,
                                  hostname: string, token: string, agentIP: string, podIP: string,
                                  steps: nat, decode: Decoder, r: Result<TlsConfig>, calls: nat)
  {
    match GetCluster(w, Key(clusterNamespace, clusterName))
    case Err(e) => r == Err(e) && calls == 0
    case Ok(cluster) =>
      var endpoint := BootstrapEndpoint(cluster);
      && calls >= 1
      && var last := decode(token, endpoint, calls - 1);
      && Retry.IsRun(steps, AnyError, DecodeAttempts(decode, token, endpoint), last, calls)
      && r == (match last
               case Err(e) => Err(Wrap("unable to decode bootstrap: ", e))
               case Ok(b) => ServingTls(nodeName, hostname, agentIP, podIP, b))
  }

  /** `loadTLSConfig`; `podIP` is the value of the POD_IP environment variable. */
  method LoadTLSConfig(store: Store, clusterName: string, clusterNamespace: string, nodeName: string,
                       hostname: string, token: string, agentIP: string, podIP: string,
                       steps: nat, decode: Decoder) returns (r: Result<TlsConfig>, decodeCalls: nat)
    requires steps >= 1
    ensures IsLoadTLSConfig(store.State(), clusterName, clusterNamespace, nodeName, hostname, token, agentIP, podIP,
                            steps, decode, r, decodeCalls)
  {
    var got := GetCluster(store.State(), Key(clusterNamespace, clusterName));
    if got.Err? {
      return Err(got.error), 0;
    }
    var cluster := got.value;
    var endpoint := ServiceName(cluster.name) + "." + cluster.namespace;
    var decoded;
    decoded, decodeCalls := Retry.OnError(steps, AnyError, DecodeAttempts(decode, token, endpoint));
    if decoded.Err? {
      return Err(Wrap("unable to decode bootstrap: ", decoded.error)), decodeCalls;
    }
    r := ServingTls(nodeName, hostname, agentIP, podIP, decoded.value);
  }

  /** The listen address `fmt.Sprintf(":%d", port)`. */
  function ListenAddr(port: int): (a: string)
    ensures |a| >= 2 && a[0] == ':'
    ensures a[1..] == Format.Decimal(port)
  {
    ":" + Format.Decimal(port)
  }

  /** The address names the port: reading back the digits after the colon gives it. */
  lemma ListenAddrNamesPort(port: int)
    ensures var d := ListenAddr(port)[1..];
            (if d[0] == '-' then Format.AllDigits(d[1..]) else Format.AllDigits(d)) && Format.ParseInt(d) == port
  {
    Format.DecimalRoundTrip(port);
  }

  /** The HTTP handler: a mux carrying the node-provider routes. */
  datatype Handler = ProviderMux

  /** The fields of `nodeutil.NodeConfig` that the node options set. */
  class NodeConfig {
    var httpListenAddr: string
    var handler: Option<Handler>
    var tlsConfig: Option<TlsConfig>

    constructor ()
      ensures httpListenAddr == "" && handler == None && tlsConfig == None
    {
      httpListenAddr, handler, tlsConfig := "", None, None;
    }
  }

  /** A running virtual node, as `nodeutil.NewNode` returns it. */
  datatype NodeHandle = NodeHandle(name: string)

  /** The kubelet: the fields the modelled code reads or sets. */
  class Kubelet {
    var name: string
    var token: string
    var port: int
    var agentIP: string
    var dnsIP: string
    var node: Option<NodeHandle>

    constructor (name: string, token: string, port: int, agentIP: string, dnsIP: string)
      ensures this.name == name && this.token == token && this.port == port
      ensures this.agentIP == agentIP && this.dnsIP == dnsIP && node == None
    {
      this.name, this.token, this.port := name, token, port;
      this.agentIP, this.dnsIP, this.node := agentIP, dnsIP, None;
    }

    /** The node option of `nodeOpts`: set the listen address, attach the provider routes
        (`routes` is what `nodeutil.AttachProviderRoutes` returns), then load the TLS
        configuration. Fields set before a failure stay set. */
    method NodeOpts(c: NodeConfig, store: Store, srvPort: int, namespace: string, name: string, hostname: string,
                    agentIP: string, podIP: string, routes: Outcome, steps: nat, decode: Decoder)
      returns (o: Outcome, decodeCalls: nat)
      requires steps >= 1
      modifies c
      ensures c.httpListenAddr == ListenAddr(srvPort)
      ensures routes.Fail? ==>
                o == Fail(Wrap("unable to attach routes: ", routes.error)) && decodeCalls == 0 &&
                c.handler == old(c.handler) && c.tlsConfig == old(c.tlsConfig)
      ensures routes.Pass? ==>
                && c.handler == Some(ProviderMux)
                && exists t :: IsLoadTLSConfig(store.State(), name, namespace, this.name, hostname, token, agentIP, podIP,
                                                steps, decode, t, decodeCalls)
                            && (t.Err? ==> o == Fail(Wrap("unable to get tls config: ", t.error)) && c.tlsConfig == old(c.tlsConfig))
                            && (t.Ok? ==> o == Pass && c.tlsConfig == Some(t.value))
    {
      c.httpListenAddr := ListenAddr(srvPort);
      if routes.Fail? {
        return Fail(Wrap("unable to attach routes: ", routes.error)), 0;
      }
      c.handler := Some(ProviderMux);
      var tls;
      tls, decodeCalls := LoadTLSConfig(store, name, namespace, this.name, hostname, token, agentIP, podIP, steps, decode);
      if tls.Err? {
        return Fail(Wrap("unable to get tls config: ", tls.error)), decodeCalls;
      }
      c.tlsConfig := Some(tls.value);
      o := Pass;
    }

    /** `registerNode`: keep the node `nodeutil.NewNode` returned (`created`), or wrap its error. */
    method RegisterNode(created: Result<NodeHandle>) returns (o: Outcome)
      modifies this`node
      ensures created.Ok? ==> node == Some(created.value) && o == Pass
      ensures created.Err? ==> node == None && o == Fail(Wrap("unable to start kubelet: ", created.error))
    {
      match created
      case Ok(n) =>
        node := Some(n);
        o := Pass;
      case Err(e) =>
        node := None;
        o := Fail(Wrap("unable to start kubelet: ", e));
    }
  }

  /** The options of a controller-runtime manager that the kubelet chooses. */
  datatype ManagerOptions = ManagerOptions(
    leaderElection: bool,
    leaderElectionNamespace: string,
    leaderElectionID: string,
    metricsBindAddress: string,
    cacheNamespaces: Option<set<string>>,
    webhookPort: Option<int>)

  /** Metrics bind addresses of the host and virtual managers; "0" disables metrics. */
  function MetricsAddresses(mirrorHostNodes: bool): (string, string) {
    if mirrorHostNodes then ("0", "0") else (":8083", ":8084")
  }

  /** The host manager: elected per cluster in the cluster's namespace, caching only
      that namespace. */
  function HostManagerOptions(clusterName: string, clusterNamespace: string, mirrorHostNodes: bool): ManagerOptions {
    ManagerOptions(true, clusterNamespace, clusterName, MetricsAddresses(mirrorHostNodes).0, Some({clusterNamespace}), None)
  }

  /** The virtual manager: elected per cluster in kube-system of the virtual cluster,
      serving the pod webhook. */
  function VirtualManagerOptions(clusterName: string, mirrorHostNodes: bool, webhookPort: int): ManagerOptions {
    ManagerOptions(true, "kube-system", clusterName, MetricsAddresses(mirrorHostNodes).1, None, Some(webhookPort))
  }

  /** The options chosen for the two managers. They never bind the same metrics
      address: mirroring host nodes turns both off, otherwise they listen on :8083 and
      :8084. Both elect a leader under the cluster's name, the host one in the cluster's
      namespace (the only one it caches), the virtual one in kube-system; only the
      virtual one serves the webhook. */
  lemma ManagerOptionChoices(clusterName: string, clusterNamespace: string, mirrorHostNodes: bool, webhookPort: int)
    ensures var h := HostManagerOptions(clusterName, clusterNamespace, mirrorHostNodes);
            var v := VirtualManagerOptions(clusterName, mirrorHostNodes, webhookPort);
            && (h.metricsBindAddress == v.metricsBindAddress <==> mirrorHostNodes)
            && (mirrorHostNodes ==> h.metricsBindAddress == v.metricsBindAddress == "0")
            && (!mirrorHostNodes ==> h.metricsBindAddress == ":8083" && v.metricsBindAddress == ":8084")
            && h.leaderElection && v.leaderElection
            && h.leaderElectionID == v.leaderElectionID == clusterName
            && h.leaderElectionNamespace == clusterNamespace && v.leaderElectionNamespace == "kube-system"
            && h.cacheNamespaces == Some({clusterNamespace}) && v.cacheNamespaces.None?
            && h.webhookPort.None? && v.webhookPort == Some(webhookPort)
  {
  }
}
