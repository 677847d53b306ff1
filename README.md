# k3k: cluster deletion, kubeconfig generation and virtual-kubelet credentials

This project is a Dafny model of three parts of k3k, which runs virtual Kubernetes clusters inside a host cluster.

- **`k3kcli cluster delete NAME [--keep-data]`** (`cli/cmds/cluster_delete.go`, module `ClusterDelete`).
  - It rejects the reserved cluster name.
  - With `--keep-data` it strips the Cluster's owner reference from the token secret and the webhook secret, so that garbage collection spares them. It does so only for a secret that has a controller reference and a reference to the Cluster; the exact conditions are listed below under "Owner linkage is only partly removed".
  - Otherwise it deletes the PersistentVolumeClaims labelled `cluster=NAME, role=server` in the cluster's namespace. A NotFound from this claims deletion ends the action with success and leaves the Cluster in place (`ClusterDelete.ClaimDeletionFailureSkipsClusterDelete`).
  - When the previous steps pass, it then deletes the Cluster. A NotFound from this delete counts as success.
  - The host API is an object store (`Api.Store`, a class over maps). Each client call is specified by a function of the store's contents. The imperative flow (`ClusterDelete.Delete`) is proved to produce exactly the state and outcome given by `ClusterDelete.Deletion`, and properties of the flow are proved about that function.
- **`k3kcli kubeconfig generate`** (`cli/cmds/kubeconfig.go`, module `Kubeconfig`).
  - The command's package-level flag variables are the fields of the class `GenerateFlags`, because the action updates two of them: the alt names and the config file name.
  - It derives the server host, the certificate alt names, the organisations and the expiry.
  - It retries credential extraction while the answer is NotFound, and only then.
  - It names the output file after the cluster unless a name was given.
- **The virtual kubelet's set-up** (`k3k-kubelet/kubelet.go`, module `Kubelet`):
  - how it obtains a client configuration for the virtual cluster (`virtRestConfig`);
  - the credentials document it builds (`kubeconfigBytes`);
  - the serving TLS configuration (`loadTLSConfig`);
  - the listener options (`nodeOpts`);
  - node registration (`registerNode`);
  - the options of its host and virtual controller managers.

Shared pieces:

- **`Retry`** models client-go's `retry.OnError`. It makes at most `steps` attempts and stops at the first result the predicate does not retry. When the attempts run out it returns the last one. The `Retry.IsRun` predicate pins down which run happened.
- **`Format`** models `%d`, with a parser that reads the result back.
- **`Certs` and `ClientConfig`** hold:
  - the certificate requests;
  - the client credentials document;
  - the resolution of the current context to the server, CA and client key pair.

Collaborators defined outside these files are constants of function type, so the model fixes what is passed to them and how their results and errors flow, but not what they compute. These are:

- bootstrap decoding;
- certificate signing (`certs.CreateClientCertKey`);
- SAN sorting (`certs.AddSANs`);
- YAML serialisation (`clientcmd.Write`);
- REST-config loading;
- PEM, key-pair, URL and IP parsing;
- `server.ServiceName`, `TokenSecretName`, `WebhookSecretName`;
- the reserved cluster name.

The n-th call of a decode or extraction returns `decode(token, endpoint, n)` or `extract(cfg, cluster, host, n)`. The backoff's step count is a parameter `steps >= 1`.

Three behaviours of the code differ from what its design intends, and the model follows the code:

- **Decode failures are wrapped.** A terminal bootstrap-decode error is meant to be returned as it is. Both `virtRestConfig` and `loadTLSConfig` prefix it with `unable to decode bootstrap: `, which also drops its API reason.
- **Credential extraction can return NotFound.** Extraction is meant never to return NotFound to its caller. `generate` retries only on NotFound, so once the steps are used up the last NotFound is returned (`Retry.RetriableErrorMeansExhausted`).
- **Owner linkage is only partly removed.** Kept secrets are meant to end with no owner linkage. The code does something narrower:
  - It removes only the first owner reference that names this Cluster, and every other reference stays.
  - It does so only when the secret has some controller reference, whoever that controller is.
  - A secret with no controller reference at all is left as it is, even when it references the Cluster (`ClusterDelete.NonControllerOwnerIsKept`).
  - A secret with a controller reference and no reference to the Cluster makes the deletion fail before the Cluster is deleted (`ClusterDelete.ForeignControllerFails`).
  - A secret with a controller reference to another owner and a non-controller reference to the Cluster loses that Cluster reference.

Two edge cases of the code are stated as lemmas:

- Without `--kubeconfig-server`, a bracketed IPv6 endpoint such as `[::1]:6443` yields the host `[` (`Kubeconfig.ServerHostOfIPv6Endpoint`).
- More than 106751 expiration days overflows Go's int64 nanosecond duration, which wraps modulo 2^64. 106752 days comes out negative, while larger counts can wrap to either sign: 213504 days comes out positive (`Kubeconfig.ExpiryExamples`).

## Model

| member | source | states |
|---|---|---|
| `ClusterDelete.Deletion` | cli/cmds/cluster_delete.go:39-87 | Several guarantees about the delete action: <br>• the reserved name fails with "invalid cluster name" and changes nothing; <br>• injected faults are untouched; <br>• at most the named Cluster disappears; <br>• with keep-data the claims are untouched, and without it the secrets are; <br>• no secret is created or removed, and only the token and webhook secrets can change; <br>• without keep-data the server claims are removed all at once or not at all. |
| `ClusterDelete.Delete` | cli/cmds/cluster_delete.go:39-87 | The imperative action leaves the store in exactly the state, and returns exactly the outcome, that `Deletion` gives for the old state. |
| `ClusterDelete.KeepDataStopsAtFirstFailure` | cli/cmds/cluster_delete.go:60-69 | If the token secret step fails, its error is returned and nothing changes. If the webhook step fails, the Cluster still exists. |
| `ClusterDelete.ClaimDeletionFailureSkipsClusterDelete` | cli/cmds/cluster_delete.go:71-78 | A failed claim deletion ends the action with that error, passed through IgnoreNotFound. A NotFound here is success even though the Cluster was never deleted. |
| `ClusterDelete.DeletionWithKeepData` | cli/cmds/cluster_delete.go:60-85 | With no faults on the two secrets or the Cluster, and secrets the step can handle: both secret steps pass in order, the result is Pass, the Cluster is gone, the claims are untouched, and the secrets are what the two steps made them. |
| `ClusterDelete.KeepDataReleasesSecrets` | cli/cmds/cluster_delete.go:60-69 | After that run, each of the two secrets without a controller reference is unchanged. Each one whose single reference to the Cluster sat beside a controller reference holds no reference to the Cluster. |
| `ClusterDelete.StepSucceeds` | cli/cmds/cluster_delete.go:97-111 | With no read or update fault and a secret the step can handle, the step passes. It writes back the stripped secret when there is a controller reference, and changes nothing otherwise. |
| `ClusterDelete.DeletionWithoutKeepData` | cli/cmds/cluster_delete.go:71-85 | With no faults: the result is Pass, the Cluster is gone, no server claim of the cluster remains in its namespace, and every other claim is unchanged. |
| `ClusterDelete.ClusterRemoval` | cli/cmds/cluster_delete.go:81-83 | The Cluster delete fails exactly on a non-NotFound fault, and then with that error. Otherwise at most the Cluster is removed. |
| `ClusterDelete.ClusterDeleteErrorWithoutKeepData` | cli/cmds/cluster_delete.go:71-85 | Without keep-data, when the claims are deleted and the Cluster delete has a fault, the action returns that fault through IgnoreNotFound and the claims stay deleted. |
| `ClusterDelete.KeepDataGoesOnToClusterDelete` | cli/cmds/cluster_delete.go:60-85 | With keep-data, in every world where both secret steps pass, the action's result is exactly the Cluster removal applied to the state the two steps left. |
| `ClusterDelete.MissingSecretIsSkipped` | cli/cmds/cluster_delete.go:97-101 | A secret that is absent, and not read with any error other than NotFound, is skipped with Pass and nothing written, whatever fault an update would raise. |
| `ClusterDelete.ClusterDeleteErrorWithKeepData` | cli/cmds/cluster_delete.go:60-85 | With keep-data, when both secret steps pass and the Cluster delete has a fault, the action returns that fault through IgnoreNotFound and the secrets stay as the two steps left them. |
| `ClusterDelete.OwnerRefRemoval` | cli/cmds/cluster_delete.go:89-115 | Several guarantees about the owner-reference step: <br>• only the named secret can change, and it is never created or removed; <br>• a failure writes nothing; <br>• a missing secret is a Pass, and any other read error is returned; <br>• a secret without a controller reference is left alone; <br>• otherwise a strip error is returned, an update fault is returned, and with neither the stripped secret is written back with Pass. |
| `ClusterDelete.RemoveOwnerReferenceFromSecret` | cli/cmds/cluster_delete.go:89-115 | The method's effect on the store and its outcome equal `OwnerRefRemoval` of the old state. |
| `ClusterDelete.OwnerIndex` | cli/cmds/cluster_delete.go:107 | Returns the first position whose reference names the Cluster (group, kind and name), or -1 when there is none. |
| `ClusterDelete.StripClusterOwner` | cli/cmds/cluster_delete.go:107-109 | Succeeds exactly when some reference names the Cluster. On success it removes that first reference, keeps the others in order, and leaves labels and data alone. |
| `ClusterDelete.StripRemovesSoleClusterRef` | cli/cmds/cluster_delete.go:107 | When exactly one reference names the Cluster, stripping succeeds and leaves no reference to the Cluster. |
| `ClusterDelete.RemovalKeepsOrder` | cli/cmds/cluster_delete.go:107 | Removing one position keeps the earlier references in place and shifts the later ones down by one. |
| `ClusterDelete.KeptSecretLosesClusterOwner` | cli/cmds/cluster_delete.go:106-111 | A secret whose only reference to the Cluster is its controller reference ends with no reference to the Cluster, and its other references are kept in order. |
| `ClusterDelete.NonControllerOwnerIsKept` | cli/cmds/cluster_delete.go:106-114 | A secret without a controller reference comes back unchanged with Pass, even if it references the Cluster. |
| `ClusterDelete.ForeignControllerFails` | cli/cmds/cluster_delete.go:106-109 | A controlled secret with no reference to the Cluster fails with "does not have an owner reference" and nothing is written. |
| `Api.IgnoreNotFound` | cli/cmds/cluster_delete.go:77 | Gives Pass exactly for NotFound errors and returns any other error unchanged. |
| `Retry.OnError` | cli/cmds/kubeconfig.go:150-155 | The loop makes 1 to `steps` attempts. Every attempt but the last was a retriable error. The result is the last attempt. It stops early only on a non-retriable result. |
| `Retry.RetriableErrorMeansExhausted` | cli/cmds/kubeconfig.go:150-155 | A retriable error comes back only after all steps were used, each on a retriable error. |
| `Retry.RunIsUnique` | k3k-kubelet/kubelet.go:336-345 | The attempts determine the run: the number of calls and the result are unique. |
| `Kubeconfig.GenerateFlags.constructor` | cli/cmds/kubeconfig.go:35-76 | Flag defaults: <br>• cn is the admin common name; <br>• expiration is 356 days; <br>• org, alt names, config name and server override are unset. |
| `Kubeconfig.GenerateFlags.Generate` | cli/cmds/kubeconfig.go:102-158 | Step by step: <br>• a Cluster lookup or URL parse error is returned before anything changes; <br>• a failure to add the override to the alt names is returned before extraction; <br>• otherwise the override is appended to the alt names; <br>• extraction runs under `Retry.IsRun` with retries on NotFound only, using the derived host, orgs, expiry and SANs; <br>• its last error is returned; <br>• a success goes to the file writer. |
| `Kubeconfig.GenerateFlags.WriteKubeconfigFile` | cli/cmds/kubeconfig.go:161-183 | The config name becomes the default derived from the cluster when empty. The document is serialised under that name, or the serialisation error is returned. |
| `Kubeconfig.ConfigFileName` | cli/cmds/kubeconfig.go:162-164 | An explicit name is kept. Otherwise the name is `<namespace>-<name>-kubeconfig.yaml`. |
| `Kubeconfig.Split` | cli/cmds/kubeconfig.go:123 | There is at least one piece, and no piece contains the separator. |
| `Kubeconfig.JoinSplit` | cli/cmds/kubeconfig.go:123 | Joining the pieces with the separator gives the string back. |
| `Kubeconfig.SplitFirst` | cli/cmds/kubeconfig.go:123 | The first piece is the longest prefix without the separator. |
| `Kubeconfig.ServerHost` | cli/cmds/kubeconfig.go:123-126 | The override when given. Otherwise the longest colon-free prefix of the endpoint's `host:port`, cut at a colon. |
| `Kubeconfig.ServerHostCutsAtFirstColon` | cli/cmds/kubeconfig.go:123 | Without an override, the host is the endpoint up to its first colon. |
| `Kubeconfig.ServerHostOfIPv6Endpoint` | cli/cmds/kubeconfig.go:123 | For `[::1]:6443` the host is `[`. |
| `Kubeconfig.SanInput` | cli/cmds/kubeconfig.go:124-132 | The SAN input is the user's alt names, followed by the override exactly when one is given. |
| `Kubeconfig.DefaultOrgs` | cli/cmds/kubeconfig.go:134-137 | An unset org list becomes `[system:masters]`. A set one is used as given. |
| `Kubeconfig.Wrap64` | cli/cmds/kubeconfig.go:142 | In-range values are unchanged. Out-of-range values are congruent modulo 2^64 (Go int64 wrap-around). |
| `Kubeconfig.Expiry` | cli/cmds/kubeconfig.go:142 | Up to 106751 days in either direction, the duration is exactly days × 24 h in nanoseconds. Beyond that it is the product wrapped modulo 2^64, as Go's int64 multiplication does. |
| `Kubeconfig.ExpiryExamples` | cli/cmds/kubeconfig.go:142 | The default of 356 days is 356 whole days. 106752 days wraps to a negative duration, and 213504 days wraps round to a positive one. |
| `Kubelet.ManagerOptionChoices` | k3k-kubelet/kubelet.go:102-148 | Metrics addresses: <br>• mirroring host nodes turns both metrics off (`"0"`); <br>• otherwise they bind `:8083` and `:8084` and never coincide. <br>Both managers elect a leader under the cluster's name: <br>• the host one in the cluster's namespace, which is the only namespace it caches; <br>• the virtual one in kube-system, and only it serves the webhook. |
| `Kubelet.Kubelet.RegisterNode` | k3k-kubelet/kubelet.go:234-246 | The created node is kept. An error is wrapped as "unable to start kubelet: ". |
| `Kubelet.Kubelet.NodeOpts` | k3k-kubelet/kubelet.go:300-320 | Step by step: <br>• the listen address is always set first; <br>• a route error is wrapped and stops before the handler and TLS config are set; <br>• otherwise the handler is set and the outcome of `IsLoadTLSConfig` decides; <br>• a TLS error is wrapped as "unable to get tls config: "; <br>• a success installs the TLS config. |
| `Kubelet.ListenAddr` | k3k-kubelet/kubelet.go:302 | The address is ":" followed by the decimal port. |
| `Kubelet.ListenAddrNamesPort` | k3k-kubelet/kubelet.go:302 | The text after the colon is well formed and parses back to the port. |
| `Format.Decimal` | k3k-kubelet/kubelet.go:302 | The text is non-empty, and starts with '-' exactly for negative numbers. |
| `Format.NatDecimalRoundTrip` | k3k-kubelet/kubelet.go:302 | Parsing the digits of n gives n back. |
| `Format.DecimalRoundTrip` | k3k-kubelet/kubelet.go:302 | The `%d` text of any integer is well formed and parses back to it. |
| `Kubelet.VirtRestConfig` | k3k-kubelet/kubelet.go:322-367 | Step by step: <br>• a configured file is loaded with no lookup and no decode; <br>• otherwise a lookup error is returned as it is; <br>• decoding runs under `Retry.IsRun`, retrying on every error against `<service>.<namespace>`; <br>• its final error is wrapped as "unable to decode bootstrap: "; <br>• a decoded bootstrap goes on to `AdminRestConfig`. |
| `Kubelet.AdminRestConfig` | k3k-kubelet/kubelet.go:347-366 | Signing and serialisation errors are returned unchanged. Otherwise the REST config is loaded from the document for `https://<service>` with the server CA and the signed admin pair. |
| `Kubelet.ApiURLHostIsEndpointService` | k3k-kubelet/kubelet.go:332-359 | The API URL's host is the bootstrap endpoint without its `.<namespace>` suffix. |
| `Kubelet.CertRequestParameters` | k3k-kubelet/kubelet.go:347-422 | The admin certificate: <br>• admin common name, system:masters, client auth; <br>• 356 days, signed by the client CA. <br>The serving certificate: <br>• node name, SANs of hostname plus agent and pod IP, server auth; <br>• the signer's default lifetime, signed by the server CA. <br>The two never share a usage. |
| `Kubelet.KubeconfigDocResolves` | k3k-kubelet/kubelet.go:369-390 | The document's current context resolves to the given URL, CA, certificate and key. "default" is its only name. |
| `Kubelet.LoadTLSConfig` | k3k-kubelet/kubelet.go:392-449 | The lookup error is returned unchanged. Decoding is retried on every error, and its final error is wrapped. A decoded bootstrap leads to `ServingTls`. |
| `Kubelet.ServingTls` | k3k-kubelet/kubelet.go:413-448 | Error paths: <br>• signing, key-pair and CA-parse errors are wrapped as "unable to get cert and key: ", "unable to get key pair: " and "unable to create ca certs: "; <br>• an empty CA list fails with "ca cert is not parsed correctly". <br>The result is a configuration exactly when every step succeeds. It then trusts only the first server CA certificate and serves the one key pair built from the signed certificate. |

## Left out

- Starting and supervising the managers and the node (`start`, goroutines, the node-ready wait), controller and syncer registration, and the provider function are not modelled. They are concurrency and framework wiring.
- Most of `newKubelet` is left out: creating the clients, the scheme, the managers and the webhook server. Only the option values chosen for the two managers are modelled.
- `nodeutil.NewNode` and `nodeutil.AttachProviderRoutes` are foreign code. Their results are parameters (`created`, `routes`).
- Bootstrap decoding, certificate signing, SAN sorting, PEM, key-pair, URL and IP parsing, YAML serialisation, REST-config loading and the secret and service name functions are opaque collaborators. Their contents are defined elsewhere.
- Logging, `os.Getwd` and `os.WriteFile` are left out. The `POD_IP` environment variable is a parameter.
- Flag parsing (cobra and urfave/cli) and the CLI context are not modelled. `appCtx.Namespace(name)` and the REST host are parameters.
- The delays of the retry backoff are not modelled, and only its step count is.
- `ClusterDelete.StripClusterOwner`: the scheme lookup that `RemoveOwnerReference` does before comparing references is not modelled. That lookup cannot fail for the registered Cluster type.
- `ClusterDelete.OwnerIndex`: owner references are compared by API group, kind and name. The group is taken as already parsed from the apiVersion.
- `Api.Store`: update conflicts (resourceVersion) and other server-side failures are modelled only as injected faults per operation.
- `Api.Store`: server-side garbage collection is not modelled. That covers the cascading deletion of a deleted Cluster's dependents and the PVC protection finalizers. The frame that `ClusterDelete.Deletion` states covers only the action's own calls.
- `Kubeconfig.GenerateFlags.Generate`: the error of `altNames.Set` is an opaque function of the current alt names and the override. A failed call is taken to leave the alt names unchanged, because the flag library's internals are not part of this model.
- `ClusterDelete.DeletionWithKeepData`: it is stated for distinct token and webhook secret names. The name functions that guarantee this are defined outside the modelled files.
- `Kubeconfig.SanInput`: the override is appended as one name. The comma splitting that urfave/cli's `StringSlice.Set` applies to a value is not modelled.
- `Kubelet.Kubelet.RegisterNode`: on error the node field is left empty, which is what `NewNode` returns alongside an error.
- `pkg/controller/cluster/cluster_test.go` is not part of this model.
