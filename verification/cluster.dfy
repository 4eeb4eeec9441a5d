/** The cluster as the reconciler sees it: one store per object kind, keyed by
    name, and the API calls a reconcile pass issues against it. The API client
    is replaced by two things: the store, which decides whether an object
    exists, and a set of faulted call sites, each of which fails with a
    transient error (network, throttling, write conflict) and changes nothing. */
module Cluster {
  import opened Wrappers
  import opened Types
  import opened Rbac
  import Deployment
  import Service
  import ConfigMap
  import Defaults

  /** Every call site of a reconcile pass. Each runs at most once per pass, so
      a set of call sites fixes the outcome of every call. */
  datatype Call =
    | InstanceGet | InstanceAddFinalizer | InstanceRemoveFinalizer | InstanceStatusUpdate
    | NamespaceGet
    | ClusterRoleGet | ClusterRoleCreate | ClusterRoleUpdate
    | BindingGetCommon | BindingCreate
    | ServiceAccountCreate | BindingGetPrerequisites | BindingUpdatePrerequisites | IngressClassCreate
    | BindingGetFinalize | BindingUpdateFinalize | IngressClassDelete
    | DeploymentGet | DeploymentCreate | DeploymentUpdate
    | ServiceGet | ServiceCreate | ServiceUpdate
    | ConfigMapGet | ConfigMapCreate | ConfigMapUpdate

  datatype Error =
    | NotFound
    | Transient(call: Call)
    | Invalid(reason: Defaults.ValidationError)
    | Rejected(call: Call)

  /** The phase of a namespace that is being deleted. */
  const Terminating := "Terminating"

  datatype Cluster = Cluster(
    instances: map<ObjectKey, Instance>,
    namespaces: map<string, string>,
    clusterRoles: map<string, ClusterRole>,
    bindings: map<string, ClusterRoleBinding>,
    serviceAccounts: set<ObjectKey>,
    ingressClasses: set<string>,
    deployments: map<ObjectKey, Deployment.Deployment>,
    services: map<ObjectKey, Service.Service>,
    configMaps: map<ObjectKey, ConfigMap.ConfigMap>)

  /** Every stored Service passed the API server's validation. */
  predicate ServicesAdmitted(services: map<ObjectKey, Service.Service>) {
    forall k :: k in services ==> Service.Admitted(services[k])
  }

  /** Every stored Deployment passed the API server's validation; in
      particular it has a container. */
  predicate DeploymentsAdmitted(deployments: map<ObjectKey, Deployment.Deployment>) {
    forall k :: k in deployments ==> Deployment.Admitted(deployments[k])
  }

  /** What the API server guarantees of stored objects: instances sit under
      their own key, and every Deployment and Service passed validation. */
  predicate WellFormed(c: Cluster) {
    && (forall k :: k in c.instances ==> KeyOf(c.instances[k]) == k)
    && DeploymentsAdmitted(c.deployments)
    && ServicesAdmitted(c.services)
  }

  /** Well-formedness only looks at instances, Deployments and Services. */
  lemma WellFormedFrame(c: Cluster, d: Cluster)
    requires WellFormed(c)
    requires d.instances == c.instances && d.deployments == c.deployments && d.services == c.services
    ensures WellFormed(d)
  {
  }

  /** Storing a Deployment that passed validation keeps the cluster
      well-formed. */
  lemma WellFormedWithDeployment(c: Cluster, key: ObjectKey, d: Deployment.Deployment)
    requires WellFormed(c)
    requires Deployment.Admitted(d)
    ensures WellFormed(c.(deployments := c.deployments[key := d]))
  {
  }

  /** The effect of a (part of a) reconcile pass: the resulting cluster, the
      calls issued in order, and the error it returns. */
  datatype Run = Run(cluster: Cluster, trace: seq<Call>, err: Option<Error>)

  predicate TransientError(err: Option<Error>) {
    err.Some? && err.value.Transient?
  }

  /** Errors short-circuit: every call but the last succeeded, the calls fail
      with a transient error exactly when the last one was faulted, and the
      error names that call. */
  predicate ShortCircuit(trace: seq<Call>, err: Option<Error>, faults: set<Call>) {
    && (forall k :: 0 <= k < |trace| - 1 ==> trace[k] !in faults)
    && (|trace| > 0 && trace[|trace| - 1] in faults <==> TransientError(err))
    && (TransientError(err) ==> |trace| > 0 && err.value.call == trace[|trace| - 1])
  }

  predicate FailsAtFirstFault(r: Run, faults: set<Call>) {
    ShortCircuit(r.trace, r.err, faults)
  }

  /** Issue one call whose success moves the cluster to `next`. */
  function Issue(c: Cluster, call: Call, faults: set<Call>, next: Cluster): (r: Run)
    ensures FailsAtFirstFault(r, faults)
    ensures r.trace == [call]
    ensures call in faults ==> r.cluster == c && r.err == Some(Transient(call))
    ensures call !in faults ==> r.cluster == next && r.err.None?
  {
    if call in faults then Run(c, [call], Some(Transient(call))) else Run(next, [call], None)
  }

  /** A failed first step ends the pass there. */
  function Fail(c: Cluster, trace: seq<Call>, e: Error): Run {
    Run(c, trace, Some(e))
  }

  /** Run `second` after `first`, which succeeded. */
  function Then(first: Run, second: Run): (r: Run)
    requires first.err.None?
    ensures r.cluster == second.cluster && r.err == second.err
    ensures r.trace == first.trace + second.trace
  {
    Run(second.cluster, first.trace + second.trace, second.err)
  }

  lemma ThenFailsAtFirstFault(first: Run, second: Run, faults: set<Call>)
    requires first.err.None?
    requires FailsAtFirstFault(first, faults) && FailsAtFirstFault(second, faults)
    ensures FailsAtFirstFault(Then(first, second), faults)
  {
    var r := Then(first, second);
    forall k | 0 <= k < |r.trace| - 1
      ensures r.trace[k] !in faults
    {
      if k < |first.trace| {
        assert r.trace[k] == first.trace[k];
      } else {
        assert r.trace[k] == second.trace[k - |first.trace|];
      }
    }
    if |second.trace| == 0 {
      assert r.trace == first.trace;
    } else {
      assert r.trace[|r.trace| - 1] == second.trace[|second.trace| - 1];
    }
  }

  /** A create that treats an existing object as success; the flag says
      whether the object already existed. */
  datatype Created<K> = Created(store: set<K>, existed: bool, err: Option<Error>)

  /** createIfNotExists over a store of keys. */
  function CreateIfNotExists<K>(store: set<K>, k: K, call: Call, faults: set<Call>): (r: Created<K>)
    ensures call in faults ==> r.store == store && r.err == Some(Transient(call))
    ensures call !in faults ==> r.err.None? && r.existed == (k in store) && r.store == store + {k}
  {
    if call in faults then Created(store, false, Some(Transient(call)))
    else if k in store then Created(store, true, None)
    else Created(store + {k}, false, None)
  }
}
