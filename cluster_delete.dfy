/** `k3kcli cluster delete NAME [--keep-data]` (cli/cmds/cluster_delete.go): reject
    the reserved name; with --keep-data strip the Cluster's owner reference from the
    token and webhook secrets so that garbage collection spares them; otherwise
    delete the server's PersistentVolumeClaims; then delete the Cluster. NotFound
    answers count as success.

    Each step is specified by a function of the store's contents (`OwnerRefRemoval`,
    `Deletion`), and the methods that drive the store are proved to follow it. */
module ClusterDelete {
  import opened Api

  /** `k3kcluster.ClusterInvalidName`, a reserved name defined outside the modelled files. */
  const ClusterInvalidName: string
  /** `k3kcluster.TokenSecretName` and `agent.WebhookSecretName`, name functions defined
      outside the modelled files. */
  const TokenSecretName: string -> string
  const WebhookSecretName: string -> string

  /** API group and kind of the Cluster resource (k3k.io/v1alpha1). */
  const ClusterGroup := "k3k.io"
  const ClusterKind := "Cluster"

  /** The labels of the claims created for a cluster's servers. */
  function ServerClaimSelector(clusterName: string): map<string, string> {
    map["cluster" := clusterName, "role" := "server"]
  }

  /** Whether an owner reference names the Cluster `clusterName` (same group, kind and name). */
  predicate RefersTo(ref: OwnerRef, clusterName: string) {
    ref.group == ClusterGroup && ref.kind == ClusterKind && ref.name == clusterName
  }

  /** `controllerutil.HasControllerReference`: some owner reference is marked controller. */
  predicate HasControllerReference(s: Secret) {
    exists i :: 0 <= i < |s.ownerRefs| && s.ownerRefs[i].controller
  }

  /** Position of the first owner reference naming the cluster, or -1. */
  function OwnerIndex(refs: seq<OwnerRef>, clusterName: string): (i: int)
    ensures -1 <= i < |refs|
    ensures i >= 0 ==> RefersTo(refs[i], clusterName) && forall j :: 0 <= j < i ==> !RefersTo(refs[j], clusterName)
    ensures i == -1 ==> forall j :: 0 <= j < |refs| ==> !RefersTo(refs[j], clusterName)
  {
    if |refs| == 0 then -1
    else if RefersTo(refs[0], clusterName) then 0
    else
      var k := OwnerIndex(refs[1..], clusterName);
      if k == -1 then -1 else k + 1
  }

  /** `controllerutil.RemoveOwnerReference(&cluster, &secret, scheme)`: drop the first
      owner reference naming the cluster, keeping the order of the others and every
      other field; an error when there is none. */
  function StripClusterOwner(s: Secret, clusterName: string): (r: Result<Secret>)
    ensures r.Ok? <==> exists j :: 0 <= j < |s.ownerRefs| && RefersTo(s.ownerRefs[j], clusterName)
    ensures r.Ok? ==> r.value.labels == s.labels && r.value.data == s.data
    ensures r.Ok? ==> |r.value.ownerRefs| == |s.ownerRefs| - 1
    ensures r.Ok? ==> var i := OwnerIndex(s.ownerRefs, clusterName);
                      r.value.ownerRefs == s.ownerRefs[..i] + s.ownerRefs[i + 1..]
  {
    if |s.ownerRefs| < 1 then Err(NewError("*v1.Secret does not have any owner references"))
    else
      var i := OwnerIndex(s.ownerRefs, clusterName);
      if i == -1 then Err(NewError("*v1.Secret does not have an owner reference for *v1alpha1.Cluster"))
      else
        assert RefersTo(s.ownerRefs[i], clusterName);
        var kept := s.ownerRefs[..i] + s.ownerRefs[i + 1..];
        assert |s.ownerRefs[..i]| == i && |s.ownerRefs[i + 1..]| == |s.ownerRefs| - i - 1;
        assert |kept| == |s.ownerRefs| - 1;
        Ok(s.(ownerRefs := kept))
  }

  /** No two owner references name the cluster. */
  predicate SingleClusterRef(refs: seq<OwnerRef>, clusterName: string) {
    forall i, j :: 0 <= i < |refs| && 0 <= j < |refs| && RefersTo(refs[i], clusterName) && RefersTo(refs[j], clusterName) ==> i == j
  }

  /** When the cluster is named by exactly one reference, removing it leaves none that
      names the cluster, and the others keep their order. */
  lemma StripRemovesSoleClusterRef(s: Secret, clusterName: string)
    requires exists j :: 0 <= j < |s.ownerRefs| && RefersTo(s.ownerRefs[j], clusterName)
    requires SingleClusterRef(s.ownerRefs, clusterName)
    ensures StripClusterOwner(s, clusterName).Ok?
    ensures var after := StripClusterOwner(s, clusterName).value.ownerRefs;
            forall j :: 0 <= j < |after| ==> !RefersTo(after[j], clusterName)
  {
    var refs := s.ownerRefs;
    var i := OwnerIndex(refs, clusterName);
    var after := StripClusterOwner(s, clusterName).value.ownerRefs;
    assert after == refs[..i] + refs[i + 1..];
    forall j | 0 <= j < |after|
      ensures !RefersTo(after[j], clusterName)
    {
      if j < i {
        assert after[j] == refs[j];
        assert j != i;
      } else {
        assert after[j] == refs[j + 1];
        assert j + 1 != i;
      }
    }
  }

  /** What `RemoveOwnerReferenceFromSecret` does to the store and returns. */
  function OwnerRefRemoval(w: World, name: string, cluster: Cluster): (r: (World, Outcome))
    // only the one secret may change, and it is never created or removed
    ensures r.0.clusters == w.clusters && r.0.pvcs == w.pvcs && r.0.faults == w.faults
    ensures r.0.secrets.Keys == w.secrets.Keys
    ensures forall k :: k in w.secrets && k != Key(cluster.namespace, name) ==> r.0.secrets[k] == w.secrets[k]
    // a failed step writes nothing
    ensures r.1.Fail? ==> r.0 == w
    // a missing secret is skipped; any other read error is returned as it is
    ensures GetSecret(w, Key(cluster.namespace, name)).Err? ==>
              r == (w, IgnoreNotFound(GetSecret(w, Key(cluster.namespace, name)).error))
    // a secret without a controller reference is left alone
    ensures (GetSecret(w, Key(cluster.namespace, name)).Ok? &&
             !HasControllerReference(GetSecret(w, Key(cluster.namespace, name)).value)) ==> r == (w, Pass)
    // otherwise the cluster's reference is removed and the secret written back: a
    // failed removal or a failed update is returned and writes nothing
    ensures (GetSecret(w, Key(cluster.namespace, name)).Ok? &&
             HasControllerReference(GetSecret(w, Key(cluster.namespace, name)).value)) ==>
              var key := Key(cluster.namespace, name);
              var stripped := StripClusterOwner(GetSecret(w, key).value, cluster.name);
              && (stripped.Err? ==> r == (w, Fail(stripped.error)))
              && (stripped.Ok? && UpdateSecretOp(key) in w.faults ==> r == (w, Fail(w.faults[UpdateSecretOp(key)])))
              && (stripped.Ok? && UpdateSecretOp(key) !in w.faults ==>
                    r.1 == Pass && r.0.secrets == w.secrets[key := stripped.value])
  {
    var key := Key(cluster.namespace, name);
    match GetSecret(w, key)
    case Err(e) => (w, IgnoreNotFound(e))
    case Ok(s) =>
      if !HasControllerReference(s) then (w, Pass)
      else
        match StripClusterOwner(s, cluster.name)
        case Err(e) => (w, Fail(e))
        case Ok(stripped) => UpdateSecret(w, key, stripped)
  }

  /** The final `client.Delete(&cluster)`, with NotFound taken as success. */
  function ClusterRemoval(w: World, key: Key): (r: (World, Outcome))
    ensures r.0 == w || r.0 == w.(clusters := w.clusters - {key})
    ensures r.0 != w ==> key in w.clusters && r.1.Pass?
    ensures r.1.Fail? <==> DeleteClusterOp(key) in w.faults && !IsNotFound(w.faults[DeleteClusterOp(key)])
    ensures r.1.Fail? ==> r.1.error == w.faults[DeleteClusterOp(key)]
    ensures DeleteClusterOp(key) !in w.faults ==> r == (w.(clusters := w.clusters - {key}), Pass)
  {
    assert key !in w.clusters ==> w.clusters - {key} == w.clusters;
    var (w', o) := DeleteCluster(w, key);
    (w', if o.Fail? then IgnoreNotFound(o.error) else Pass)
  }

  /** The whole `delete` action for cluster `name` in `namespace`. */
  function Deletion(w: World, namespace: string, name: string, keepData: bool): (r: (World, Outcome))
    ensures name == ClusterInvalidName ==> r == (w, Fail(NewError("invalid cluster name")))
    ensures r.0.faults == w.faults
    // only the Cluster itself may disappear
    ensures r.0.clusters == w.clusters || r.0.clusters == w.clusters - {Key(namespace, name)}
    // keep-data never touches claims; deletion of claims never touches secrets
    ensures keepData ==> r.0.pvcs == w.pvcs
    ensures !keepData ==> r.0.secrets == w.secrets
    // no secret is created or removed, and only the two named ones may change
    ensures r.0.secrets.Keys == w.secrets.Keys
    ensures forall k :: (k in w.secrets && k != Key(namespace, TokenSecretName(name)) &&
                         k != Key(namespace, WebhookSecretName(name))) ==> r.0.secrets[k] == w.secrets[k]
    // without keep-data, claims are removed all at once or not at all
    ensures !keepData && name != ClusterInvalidName ==>
              r.0.pvcs == w.pvcs ||
              forall k :: k in r.0.pvcs <==>
                k in w.pvcs && !(k.namespace == namespace && LabelsMatch(w.pvcs[k].labels, ServerClaimSelector(name)))
  {
    if name == ClusterInvalidName then (w, Fail(NewError("invalid cluster name")))
    else
      var cluster := Cluster(name, namespace);
      var key := Key(namespace, name);
      if keepData then
        var (w1, o1) := OwnerRefRemoval(w, TokenSecretName(name), cluster);
        if o1.Fail? then (w1, o1)
        else
          var (w2, o2) := OwnerRefRemoval(w1, WebhookSecretName(name), cluster);
          if o2.Fail? then (w2, o2)
          else ClusterRemoval(w2, key)
      else
        var (w1, o1) := DeleteAllOfPvcs(w, namespace, ServerClaimSelector(name));
        if o1.Fail? then (w1, IgnoreNotFound(o1.error))
        else ClusterRemoval(w1, key)
  }

  /** `RemoveOwnerReferenceFromSecret(ctx, name, client, cluster)`. */
  method RemoveOwnerReferenceFromSecret(store: Store, name: string, cluster: Cluster) returns (o: Outcome)
    modifies store`secrets
    ensures (store.State(), o) == OwnerRefRemoval(old(store.State()), name, cluster)
  {
    var key := Key(cluster.namespace, name);
    var got := GetSecret(store.State(), key);
    if got.Err? {
      if IsNotFound(got.error) {
        return Pass;
      }
      return Fail(got.error);
    }
    var secret := got.value;
    if HasControllerReference(secret) {
      var stripped := StripClusterOwner(secret, cluster.name);
      if stripped.Err? {
        return Fail(stripped.error);
      }
      o := store.Update(key, stripped.value);
      return;
    }
    return Pass;
  }

  /** The `delete` action: `namespace` is what the CLI context resolves for `name`. */
  method Delete(store: Store, namespace: string, name: string, keepData: bool) returns (o: Outcome)
    modifies store
    ensures (store.State(), o) == Deletion(old(store.State()), namespace, name, keepData)
  {
    if name == ClusterInvalidName {
      return Fail(NewError("invalid cluster name"));
    }
    var cluster := Cluster(name, namespace);
    if keepData {
      o := RemoveOwnerReferenceFromSecret(store, TokenSecretName(cluster.name), cluster);
      if o.Fail? {
        return;
      }
      o := RemoveOwnerReferenceFromSecret(store, WebhookSecretName(cluster.name), cluster);
      if o.Fail? {
        return;
      }
    } else {
      o := store.DeleteAllOf(cluster.namespace, ServerClaimSelector(cluster.name));
      if o.Fail? {
        return IgnoreNotFound(o.error);
      }
    }
    o := store.Delete(Key(cluster.namespace, cluster.name));
    if o.Fail? {
      o := IgnoreNotFound(o.error);
    }
  }

  /** With --keep-data the token secret is handled first: if that step fails, the
      webhook secret, the claims and the Cluster are untouched and its error is
      returned; if the webhook step then fails, the Cluster is still there. */
  lemma KeepDataStopsAtFirstFailure(w: World, namespace: string, name: string)
    requires name != ClusterInvalidName
    ensures var t := OwnerRefRemoval(w, TokenSecretName(name), Cluster(name, namespace));
            t.1.Fail? ==> Deletion(w, namespace, name, true) == (w, t.1)
    ensures var t := OwnerRefRemoval(w, TokenSecretName(name), Cluster(name, namespace));
            var h := OwnerRefRemoval(t.0, WebhookSecretName(name), Cluster(name, namespace));
            t.1.Pass? && h.1.Fail? ==> Deletion(w, namespace, name, true) == (t.0, h.1) && t.0.clusters == w.clusters
  {
  }

  /** Once the claims are deleted, a failing Cluster delete decides the outcome: its
      error is returned through IgnoreNotFound, and the claims stay deleted. */
  lemma ClusterDeleteErrorWithoutKeepData(w: World, namespace: string, name: string)
    requires name != ClusterInvalidName
    requires DeleteAllOfPvcsOp(namespace) !in w.faults
    requires DeleteClusterOp(Key(namespace, name)) in w.faults
    ensures Deletion(w, namespace, name, false) ==
              (DeleteAllOfPvcs(w, namespace, ServerClaimSelector(name)).0,
               IgnoreNotFound(w.faults[DeleteClusterOp(Key(namespace, name))]))
  {
    var w1 := DeleteAllOfPvcs(w, namespace, ServerClaimSelector(name)).0;
    assert w1.faults == w.faults;
  }

  /** With --keep-data, once both secret steps pass, a failing Cluster delete decides
      the outcome: its error is returned through IgnoreNotFound, and the secrets stay
      as the two steps left them. */
  lemma ClusterDeleteErrorWithKeepData(w: World, namespace: string, name: string)
    requires name != ClusterInvalidName
    requires DeleteClusterOp(Key(namespace, name)) in w.faults
    ensures var t := OwnerRefRemoval(w, TokenSecretName(name), Cluster(name, namespace));
            var h := OwnerRefRemoval(t.0, WebhookSecretName(name), Cluster(name, namespace));
            t.1.Pass? && h.1.Pass? ==>
              Deletion(w, namespace, name, true) == (h.0, IgnoreNotFound(w.faults[DeleteClusterOp(Key(namespace, name))]))
  {
    var cluster := Cluster(name, namespace);
    var t := OwnerRefRemoval(w, TokenSecretName(name), cluster);
    var h := OwnerRefRemoval(t.0, WebhookSecretName(name), cluster);
    assert h.0.faults == w.faults;
  }

  /** With --keep-data, once both secret steps pass, the action goes on to the Cluster
      delete in every world, whatever faults the secret calls that were never made
      would have raised. */
  lemma KeepDataGoesOnToClusterDelete(w: World, namespace: string, name: string)
    requires name != ClusterInvalidName
    ensures var t := OwnerRefRemoval(w, TokenSecretName(name), Cluster(name, namespace));
            var h := OwnerRefRemoval(t.0, WebhookSecretName(name), Cluster(name, namespace));
            t.1.Pass? && h.1.Pass? ==> Deletion(w, namespace, name, true) == ClusterRemoval(h.0, Key(namespace, name))
  {
  }

  /** A missing secret, or one that cannot be read because it is not found, is skipped:
      the step passes without writing, even when updating that secret would fail. */
  lemma MissingSecretIsSkipped(w: World, name: string, cluster: Cluster)
    requires Key(cluster.namespace, name) !in w.secrets
    requires GetSecretOp(Key(cluster.namespace, name)) in w.faults ==>
               IsNotFound(w.faults[GetSecretOp(Key(cluster.namespace, name))])
    ensures OwnerRefRemoval(w, name, cluster) == (w, Pass)
  {
  }

  /** A secret the owner-reference step can handle: without a controller reference it is
      left alone, with one it must hold a reference to the cluster. */
  predicate Strippable(s: Secret, clusterName: string) {
    HasControllerReference(s) ==> exists j :: 0 <= j < |s.ownerRefs| && RefersTo(s.ownerRefs[j], clusterName)
  }

  /** The owner-reference step for `key` cannot fail: neither reading nor updating the
      secret fails, and the secret, if present, can be handled. */
  predicate StepCanSucceed(w: World, key: Key, clusterName: string) {
    && GetSecretOp(key) !in w.faults && UpdateSecretOp(key) !in w.faults
    && (key in w.secrets ==> Strippable(w.secrets[key], clusterName))
  }

  /** When no store call fails and both secrets can be handled, deletion with --keep-data
      succeeds: it strips the token secret, then the webhook secret, leaves the claims
      alone and removes the Cluster. */
  lemma DeletionWithKeepData(w: World, namespace: string, name: string)
    requires name != ClusterInvalidName
    requires TokenSecretName(name) != WebhookSecretName(name)
    requires StepCanSucceed(w, Key(namespace, TokenSecretName(name)), name)
    requires StepCanSucceed(w, Key(namespace, WebhookSecretName(name)), name)
    requires DeleteClusterOp(Key(namespace, name)) !in w.faults
    ensures var r := Deletion(w, namespace, name, true);
            var t := OwnerRefRemoval(w, TokenSecretName(name), Cluster(name, namespace));
            var h := OwnerRefRemoval(t.0, WebhookSecretName(name), Cluster(name, namespace));
            && t.1 == Pass && h.1 == Pass
            && r.1 == Pass
            && r.0.clusters == w.clusters - {Key(namespace, name)}
            && r.0.pvcs == w.pvcs
            && r.0.secrets == h.0.secrets
  {
    var cluster := Cluster(name, namespace);
    var wk := Key(namespace, WebhookSecretName(name));
    var t := OwnerRefRemoval(w, TokenSecretName(name), cluster);
    StepSucceeds(w, TokenSecretName(name), cluster);
    assert wk in t.0.secrets ==> t.0.secrets[wk] == w.secrets[wk];
    assert StepCanSucceed(t.0, wk, name);
    StepSucceeds(t.0, WebhookSecretName(name), cluster);
  }

  /** After a successful --keep-data deletion, each of the two secrets that had no
      controller reference is as it was, and each whose one reference to the cluster
      sat beside a controller reference holds no reference to the cluster any more. */
  lemma KeepDataReleasesSecrets(w: World, namespace: string, name: string, k: Key)
    requires name != ClusterInvalidName
    requires TokenSecretName(name) != WebhookSecretName(name)
    requires StepCanSucceed(w, Key(namespace, TokenSecretName(name)), name)
    requires StepCanSucceed(w, Key(namespace, WebhookSecretName(name)), name)
    requires DeleteClusterOp(Key(namespace, name)) !in w.faults
    requires k == Key(namespace, TokenSecretName(name)) || k == Key(namespace, WebhookSecretName(name))
    requires k in w.secrets
    ensures var after := Deletion(w, namespace, name, true).0.secrets[k];
            && (!HasControllerReference(w.secrets[k]) ==> after == w.secrets[k])
            && (HasControllerReference(w.secrets[k]) && SingleClusterRef(w.secrets[k].ownerRefs, name) ==>
                  forall j :: 0 <= j < |after.ownerRefs| ==> !RefersTo(after.ownerRefs[j], name))
  {
    var cluster := Cluster(name, namespace);
    var tk, wk := Key(namespace, TokenSecretName(name)), Key(namespace, WebhookSecretName(name));
    DeletionWithKeepData(w, namespace, name);
    var t := OwnerRefRemoval(w, TokenSecretName(name), cluster);
    var h := OwnerRefRemoval(t.0, WebhookSecretName(name), cluster);
    StepSucceeds(w, TokenSecretName(name), cluster);
    assert wk in t.0.secrets ==> t.0.secrets[wk] == w.secrets[wk];
    StepSucceeds(t.0, WebhookSecretName(name), cluster);
    // the step on the other secret leaves this one as the step on it made it
    assert k == tk ==> h.0.secrets[k] == t.0.secrets[k];
    assert k == wk ==> t.0.secrets[k] == w.secrets[k];
    if HasControllerReference(w.secrets[k]) && SingleClusterRef(w.secrets[k].ownerRefs, name) {
      StripRemovesSoleClusterRef(w.secrets[k], name);
    }
  }

  /** One owner-reference step with no fault on its secret, on a secret it can handle,
      succeeds: a stripped secret is written back and nothing else changes. */
  lemma StepSucceeds(w: World, name: string, cluster: Cluster)
    requires StepCanSucceed(w, Key(cluster.namespace, name), cluster.name)
    ensures var r := OwnerRefRemoval(w, name, cluster);
            var key := Key(cluster.namespace, name);
            && r.1 == Pass
            && r.0.faults == w.faults && r.0.clusters == w.clusters && r.0.pvcs == w.pvcs
            && (key !in w.secrets || !HasControllerReference(w.secrets[key]) ==> r.0 == w)
            && (key in w.secrets && HasControllerReference(w.secrets[key]) ==>
                  StripClusterOwner(w.secrets[key], cluster.name).Ok? &&
                  r.0.secrets == w.secrets[key := StripClusterOwner(w.secrets[key], cluster.name).value])
  {
  }

  /** A failed claim deletion ends the action before the Cluster is deleted: NotFound
      is reported as success with the Cluster still present, any other error is
      returned as it is; nothing is changed in either case. */
  lemma ClaimDeletionFailureSkipsClusterDelete(w: World, namespace: string, name: string)
    requires name != ClusterInvalidName
    requires DeleteAllOfPvcsOp(namespace) in w.faults
    ensures Deletion(w, namespace, name, false) == (w, IgnoreNotFound(w.faults[DeleteAllOfPvcsOp(namespace)]))
    ensures IsNotFound(w.faults[DeleteAllOfPvcsOp(namespace)]) ==>
              Deletion(w, namespace, name, false).1.Pass? &&
              (Key(namespace, name) in w.clusters ==> Key(namespace, name) in Deletion(w, namespace, name, false).0.clusters)
  {
  }

  /** When neither store call fails, deletion without --keep-data succeeds, leaves no
      server claim of the cluster in its namespace, keeps every other claim, and
      removes the Cluster. */
  lemma DeletionWithoutKeepData(w: World, namespace: string, name: string)
    requires name != ClusterInvalidName
    requires DeleteAllOfPvcsOp(namespace) !in w.faults && DeleteClusterOp(Key(namespace, name)) !in w.faults
    ensures var r := Deletion(w, namespace, name, false);
            && r.1 == Pass
            && Key(namespace, name) !in r.0.clusters
            && r.0.clusters == w.clusters - {Key(namespace, name)}
            && (forall k :: k in r.0.pvcs ==>
                  !(k.namespace == namespace && LabelsMatch(r.0.pvcs[k].labels, ServerClaimSelector(name))))
            && (forall k :: k in w.pvcs && (k.namespace != namespace || !LabelsMatch(w.pvcs[k].labels, ServerClaimSelector(name))) ==>
                  k in r.0.pvcs && r.0.pvcs[k] == w.pvcs[k])
  {
    var (w1, o1) := DeleteAllOfPvcs(w, namespace, ServerClaimSelector(name));
    assert w1.faults == w.faults && w1.clusters == w.clusters;
  }

  /** A secret whose only reference to the cluster is its controller reference comes
      out of the step with no reference to the cluster at all, and its other owner
      references are kept in order. */
  lemma KeptSecretLosesClusterOwner(w: World, name: string, cluster: Cluster)
    requires Key(cluster.namespace, name) in w.secrets
    requires GetSecretOp(Key(cluster.namespace, name)) !in w.faults
    requires UpdateSecretOp(Key(cluster.namespace, name)) !in w.faults
    requires var refs := w.secrets[Key(cluster.namespace, name)].ownerRefs;
             exists i :: 0 <= i < |refs| && refs[i].controller && RefersTo(refs[i], cluster.name) &&
                         forall j :: 0 <= j < |refs| && j != i ==> !RefersTo(refs[j], cluster.name)
    ensures var r := OwnerRefRemoval(w, name, cluster);
            var refs := w.secrets[Key(cluster.namespace, name)].ownerRefs;
            var after := r.0.secrets[Key(cluster.namespace, name)].ownerRefs;
            && r.1 == Pass
            && (forall j :: 0 <= j < |after| ==> !RefersTo(after[j], cluster.name))
            && after == seq(|refs| - 1, j requires 0 <= j < |refs| - 1 =>
                 if j < OwnerIndex(refs, cluster.name) then refs[j] else refs[j + 1])
  {
    var key := Key(cluster.namespace, name);
    var s := w.secrets[key];
    var refs := s.ownerRefs;
    var i :| 0 <= i < |refs| && refs[i].controller && RefersTo(refs[i], cluster.name) &&
             forall j :: 0 <= j < |refs| && j != i ==> !RefersTo(refs[j], cluster.name);
    assert HasControllerReference(s);
    assert SingleClusterRef(refs, cluster.name);
    StripRemovesSoleClusterRef(s, cluster.name);
    StepSucceeds(w, name, cluster);
    RemovalKeepsOrder(refs, OwnerIndex(refs, cluster.name));
  }

  /** Removing position `k` shifts the later elements down by one. */
  lemma RemovalKeepsOrder(refs: seq<OwnerRef>, k: nat)
    requires k < |refs|
    ensures refs[..k] + refs[k + 1..] == seq(|refs| - 1, j requires 0 <= j < |refs| - 1 => if j < k then refs[j] else refs[j + 1])
  {
    var after := refs[..k] + refs[k + 1..];
    var expected := seq(|refs| - 1, j requires 0 <= j < |refs| - 1 => if j < k then refs[j] else refs[j + 1]);
    forall j | 0 <= j < |after|
      ensures after[j] == expected[j]
    {
      if j < k {
        assert after[j] == refs[..k][j];
      } else {
        assert after[j] == refs[k + 1..][j - k];
      }
    }
  }

  /** An owner reference to the cluster that is not a controller reference, on a secret
      with no controller reference at all, is left in place: the step succeeds without
      writing. */
  lemma NonControllerOwnerIsKept(w: World, name: string, cluster: Cluster)
    requires Key(cluster.namespace, name) in w.secrets
    requires GetSecretOp(Key(cluster.namespace, name)) !in w.faults
    requires forall j :: 0 <= j < |w.secrets[Key(cluster.namespace, name)].ownerRefs| ==>
               !w.secrets[Key(cluster.namespace, name)].ownerRefs[j].controller
    ensures OwnerRefRemoval(w, name, cluster) == (w, Pass)
  {
  }

  /** A secret controlled by some other owner and holding no reference to the cluster
      makes the step fail, and nothing is written. */
  lemma ForeignControllerFails(w: World, name: string, cluster: Cluster)
    requires Key(cluster.namespace, name) in w.secrets
    requires GetSecretOp(Key(cluster.namespace, name)) !in w.faults
    requires HasControllerReference(w.secrets[Key(cluster.namespace, name)])
    requires forall j :: 0 <= j < |w.secrets[Key(cluster.namespace, name)].ownerRefs| ==>
               !RefersTo(w.secrets[Key(cluster.namespace, name)].ownerRefs[j], cluster.name)
    ensures OwnerRefRemoval(w, name, cluster).0 == w
    ensures OwnerRefRemoval(w, name, cluster).1 ==
              Fail(NewError("*v1.Secret does not have an owner reference for *v1alpha1.Cluster"))
  {
    var s := w.secrets[Key(cluster.namespace, name)];
    assert GetSecret(w, Key(cluster.namespace, name)) == Ok(s);
    assert OwnerIndex(s.ownerRefs, cluster.name) == -1;
    assert StripClusterOwner(s, cluster.name) ==
             Err(NewError("*v1.Secret does not have an owner reference for *v1alpha1.Cluster"));
  }
}
