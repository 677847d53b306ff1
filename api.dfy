/** The Kubernetes API surface the core talks to: errors, object identities, the
    objects the deletion flow touches (Cluster, Secret, PersistentVolumeClaim) and
    an object store that answers Get, Update, DeleteAllOf and Delete the way the
    controller-runtime client does. Failures other than "not found" are injected
    per operation through `faults`. */
module Api {

  type Bytes = seq<bv8>

  datatype Option<T> = None | Some(value: T)

  /** The API reason carried by an error; `Unknown` is a plain `errors.New` error. */
  datatype Reason = NotFound | Conflict | Forbidden | Invalid | Unavailable | Unknown

  datatype Error = Error(reason: Reason, message: string)

  predicate IsNotFound(e: Error) {
    e.reason == NotFound
  }

  /** `errors.New(message)`: an error with no API reason. */
  function NewError(message: string): (e: Error)
    ensures e.message == message && !IsNotFound(e)
  {
    Error(Unknown, message)
  }

  /** `errors.New(prefix + err.Error())`: the message is kept, the API reason is lost. */
  function Wrap(prefix: string, err: Error): (e: Error)
    ensures e.message == prefix + err.message && !IsNotFound(e)
  {
    NewError(prefix + err.message)
  }

  /** A value or an error, as a Go `(T, error)` pair. */
  datatype Result<T> = Ok(value: T) | Err(error: Error)

  /** A Go `error` return: nil (`Pass`) or an error. */
  datatype Outcome = Pass | Fail(error: Error)

  /** `client.IgnoreNotFound(err)` for a non-nil err. */
  function IgnoreNotFound(e: Error): (o: Outcome)
    ensures o.Pass? <==> IsNotFound(e)
    ensures o.Fail? ==> o.error == e
  {
    if IsNotFound(e) then Pass else Fail(e)
  }

  /** A namespaced object name. */
  datatype Key = Key(namespace: string, name: string)

  /** The API-server error for a missing object: `<resource> "<name>" not found`. */
  function NotFoundError(resource: string, key: Key): (e: Error)
    ensures IsNotFound(e)
  {
    Error(NotFound, resource + " \"" + key.name + "\" not found")
  }

  /** An owner reference; `group` is the API group parsed from its apiVersion. */
  datatype OwnerRef = OwnerRef(group: string, kind: string, name: string, controller: bool)

  datatype Secret = Secret(ownerRefs: seq<OwnerRef>, labels: map<string, string>, data: map<string, Bytes>)

  datatype Pvc = Pvc(labels: map<string, string>)

  /** A Cluster object; only its identity matters to the modelled code. */
  datatype Cluster = Cluster(name: string, namespace: string)

  /** A client call that a fault can be injected into. */
  datatype Op =
    | GetClusterOp(key: Key)
    | GetSecretOp(key: Key)
    | UpdateSecretOp(key: Key)
    | DeleteAllOfPvcsOp(namespace: string)
    | DeleteClusterOp(key: Key)

  /** The contents of the store, and the failures it is set up to return. */
  datatype World = World(
    clusters: map<Key, Cluster>,
    secrets: map<Key, Secret>,
    pvcs: map<Key, Pvc>,
    faults: map<Op, Error>)

  /** A label selector built with `MatchingLabels`: every pair must be present. */
  predicate LabelsMatch(labels: map<string, string>, selector: map<string, string>) {
    forall l :: l in selector ==> l in labels && labels[l] == selector[l]
  }

  function GetCluster(w: World, key: Key): (r: Result<Cluster>)
    ensures GetClusterOp(key) in w.faults ==> r == Err(w.faults[GetClusterOp(key)])
    ensures GetClusterOp(key) !in w.faults ==>
              (r.Ok? <==> key in w.clusters) && (r.Ok? ==> r.value == w.clusters[key]) && (r.Err? ==> IsNotFound(r.error))
  {
    if GetClusterOp(key) in w.faults then Err(w.faults[GetClusterOp(key)])
    else if key in w.clusters then Ok(w.clusters[key])
    else Err(NotFoundError("clusters.k3k.io", key))
  }

  function GetSecret(w: World, key: Key): (r: Result<Secret>)
    ensures GetSecretOp(key) in w.faults ==> r == Err(w.faults[GetSecretOp(key)])
    ensures GetSecretOp(key) !in w.faults ==>
              (r.Ok? <==> key in w.secrets) && (r.Ok? ==> r.value == w.secrets[key]) && (r.Err? ==> IsNotFound(r.error))
  {
    if GetSecretOp(key) in w.faults then Err(w.faults[GetSecretOp(key)])
    else if key in w.secrets then Ok(w.secrets[key])
    else Err(NotFoundError("secrets", key))
  }

  /** `client.Update` of a secret: replaces the stored object, or fails and writes nothing. */
  function UpdateSecret(w: World, key: Key, s: Secret): (r: (World, Outcome))
    ensures r.1.Fail? ==> r.0 == w
    ensures r.1.Pass? <==> UpdateSecretOp(key) !in w.faults && key in w.secrets
    ensures r.1.Pass? ==> r.0 == w.(secrets := w.secrets[key := s])
  {
    if UpdateSecretOp(key) in w.faults then (w, Fail(w.faults[UpdateSecretOp(key)]))
    else if key !in w.secrets then (w, Fail(NotFoundError("secrets", key)))
    else (w.(secrets := w.secrets[key := s]), Pass)
  }

  /** `client.DeleteAllOf` on claims: removes exactly the claims of `namespace` whose labels
      match `selector`, or fails and removes nothing. */
  function DeleteAllOfPvcs(w: World, namespace: string, selector: map<string, string>): (r: (World, Outcome))
    ensures r.1.Fail? <==> DeleteAllOfPvcsOp(namespace) in w.faults
    ensures r.1.Fail? ==> r.0 == w && r.1.error == w.faults[DeleteAllOfPvcsOp(namespace)]
    ensures r.0.clusters == w.clusters && r.0.secrets == w.secrets && r.0.faults == w.faults
    ensures r.1.Pass? ==> forall k :: k in r.0.pvcs <==>
              k in w.pvcs && !(k.namespace == namespace && LabelsMatch(w.pvcs[k].labels, selector))
    ensures forall k :: k in r.0.pvcs ==> k in w.pvcs && r.0.pvcs[k] == w.pvcs[k]
  {
    if DeleteAllOfPvcsOp(namespace) in w.faults then (w, Fail(w.faults[DeleteAllOfPvcsOp(namespace)]))
    else
      var kept := map k | k in w.pvcs && !(k.namespace == namespace && LabelsMatch(w.pvcs[k].labels, selector)) :: w.pvcs[k];
      (w.(pvcs := kept), Pass)
  }

  /** `client.Delete` of a Cluster: removes it, reports NotFound when it is absent. */
  function DeleteCluster(w: World, key: Key): (r: (World, Outcome))
    ensures r.1.Fail? ==> r.0 == w
    ensures DeleteClusterOp(key) in w.faults ==> r.1 == Fail(w.faults[DeleteClusterOp(key)])
    ensures DeleteClusterOp(key) !in w.faults ==>
              (r.1.Pass? <==> key in w.clusters) && (r.1.Fail? ==> IsNotFound(r.1.error))
    ensures r.1.Pass? ==> r.0 == w.(clusters := w.clusters - {key})
  {
    if DeleteClusterOp(key) in w.faults then (w, Fail(w.faults[DeleteClusterOp(key)]))
    else if key !in w.clusters then (w, Fail(NotFoundError("clusters.k3k.io", key)))
    else (w.(clusters := w.clusters - {key}), Pass)
  }

  /** The API server as seen through one client. */
  class Store {
    var clusters: map<Key, Cluster>
    var secrets: map<Key, Secret>
    var pvcs: map<Key, Pvc>
    var faults: map<Op, Error>

    function State(): World
      reads this
    {
      World(clusters, secrets, pvcs, faults)
    }

    constructor (w: World)
      ensures State() == w
    {
      clusters, secrets, pvcs, faults := w.clusters, w.secrets, w.pvcs, w.faults;
    }

    method Update(key: Key, s: Secret) returns (o: Outcome)
      modifies this`secrets
      ensures (State(), o) == UpdateSecret(old(State()), key, s)
    {
      if UpdateSecretOp(key) in faults {
        o := Fail(faults[UpdateSecretOp(key)]);
      } else if key !in secrets {
        o := Fail(NotFoundError("secrets", key));
      } else {
        secrets := secrets[key := s];
        o := Pass;
      }
    }

    method DeleteAllOf(namespace: string, selector: map<string, string>) returns (o: Outcome)
      modifies this`pvcs
      ensures (State(), o) == DeleteAllOfPvcs(old(State()), namespace, selector)
    {
      if DeleteAllOfPvcsOp(namespace) in faults {
        o := Fail(faults[DeleteAllOfPvcsOp(namespace)]);
      } else {
        pvcs := map k | k in pvcs && !(k.namespace == namespace && LabelsMatch(pvcs[k].labels, selector)) :: pvcs[k];
        o := Pass;
      }
    }

    method Delete(key: Key) returns (o: Outcome)
      modifies this`clusters
      ensures (State(), o) == DeleteCluster(old(State()), key)
    {
      if DeleteClusterOp(key) in faults {
        o := Fail(faults[DeleteClusterOp(key)]);
      } else if key !in clusters {
        o := Fail(NotFoundError("clusters.k3k.io", key));
      } else {
        clusters := clusters - {key};
        o := Pass;
      }
    }
  }
}
