/** Certificate requests and the credentials document, as the core builds them. The
    signing itself (`certs.CreateClientCertKey`), SAN classification
    (`certs.AddSANs`) and YAML serialisation (`clientcmd.Write`) are defined outside
    the modelled files and appear here as constants of function type: the model says
    what is passed to them and how their results and errors flow, not what they
    compute. */
module Certs {
  import opened Api

  /** `controller.AdminCommonName`, defined outside the modelled files. */
  const AdminCommonName: string
  /** `user.SystemPrivilegedGroup` of the Kubernetes API server. */
  const SystemPrivilegedGroup := "system:masters"

  /** Nanoseconds in an hour and a day (`time.Hour`, `time.Hour * 24`). */
  const Hour: int := 3_600_000_000_000
  const Day: int := 24 * Hour

  datatype KeyUsage = ClientAuth | ServerAuth

  /** `certutil.AltNames`; a nil IP (an address `net.ParseIP` rejected) is `None`. */
  datatype AltNames = AltNames(dnsNames: seq<string>, ips: seq<Option<Bytes>>)

  /** The arguments of `certs.CreateClientCertKey`; `expiry` is in nanoseconds and 0
      selects the signer's default. */
  datatype CertRequest = CertRequest(
    commonName: string,
    organizations: seq<string>,
    altNames: Option<AltNames>,
    usages: seq<KeyUsage>,
    expiry: int,
    caCert: Bytes,
    caKey: Bytes)

  /** `certs.CreateClientCertKey`: the PEM certificate and key, or an error. */
  const CreateClientCertKey: CertRequest -> Result<(Bytes, Bytes)>
  /** `certs.AddSANs`: sorts names into DNS names and IP addresses. */
  const AddSANs: seq<string> -> AltNames
}

/** The client credentials document (`clientcmdapi.Config`): named clusters, users and
    contexts, and the context in use. */
module ClientConfig {
  import opened Api

  datatype ClusterEntry = ClusterEntry(server: string, certificateAuthorityData: Bytes)
  datatype AuthInfo = AuthInfo(clientCertificateData: Bytes, clientKeyData: Bytes)
  datatype Context = Context(cluster: string, authInfo: string)

  datatype Config = Config(
    clusters: map<string, ClusterEntry>,
    authInfos: map<string, AuthInfo>,
    contexts: map<string, Context>,
    currentContext: string)

  /** What a client connects with: server URL, CA bundle, client certificate and key. */
  datatype Credentials = Credentials(server: string, caData: Bytes, clientCert: Bytes, clientKey: Bytes)

  /** The credentials a client takes from the document: those of the cluster and the
      user named by the current context, when all three are present. */
  function CurrentCredentials(c: Config): Option<Credentials> {
    if c.currentContext in c.contexts
       && c.contexts[c.currentContext].cluster in c.clusters
       && c.contexts[c.currentContext].authInfo in c.authInfos
    then
      var ctx := c.contexts[c.currentContext];
      var cl := c.clusters[ctx.cluster];
      var user := c.authInfos[ctx.authInfo];
      Some(Credentials(cl.server, cl.certificateAuthorityData, user.clientCertificateData, user.clientKeyData))
    else None
  }

  /** `clientcmd.Write`: the serialised document, or an error. */
  const Write: Config -> Result<Bytes>
}
