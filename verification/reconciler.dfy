/** One reconcile pass of the NginxIngressController controller: read the
    instance; finalize it when it is being deleted; otherwise put the
    finalizer in place, check the namespace, default and validate the spec,
    and bring the shared RBAC objects, the prerequisites, the Deployment, the
    Service, the ConfigMap and the status in line with it. */
module Reconciler {
  import opened Wrappers
  import opened Types
  import opened Rbac
  import opened Subjects
  import opened Defaults
  import opened Cluster
  import opened Prerequisites
  import opened Controller
  import S = Service
  import D = Deployment

  /** The stored instance may only gain or lose finalizers and become
      deployed: a pass never writes its spec (the defaults live only in
      memory) and never sets `deployed` back to false. */
  predicate Evolves(before: Instance, after: Instance) {
    && after == before.(finalizers := after.finalizers, status := after.status)
    && (before.status.deployed ==> after.status.deployed)
  }

  /** The pass changes no instance but the one it reconciles, and that one
      only as `Evolves` allows. */
  predicate InstancesEvolve(c: Cluster, d: Cluster, key: ObjectKey) {
    && d.instances.Keys == c.instances.Keys
    && (forall k :: k in c.instances && k != key ==> d.instances[k] == c.instances[k])
    && (key in c.instances ==> Evolves(c.instances[key], d.instances[key]))
  }

  /** Only the instance under `key` differs, and only as `Evolves` allows:
      the one-step form of `InstancesEvolve`. */
  predicate UpdatedAt(c: Cluster, d: Cluster, key: ObjectKey) {
    && key in c.instances && key in d.instances
    && d.instances == c.instances[key := d.instances[key]]
    && Evolves(c.instances[key], d.instances[key])
  }

  lemma UpdatedAtEvolves(c: Cluster, d: Cluster, key: ObjectKey)
    requires UpdatedAt(c, d, key)
    ensures InstancesEvolve(c, d, key)
    ensures WellFormed(c) && d.deployments == c.deployments && d.services == c.services ==> WellFormed(d)
  {
  }

  lemma UpdatedAtTransitive(a: Cluster, b: Cluster, d: Cluster, key: ObjectKey)
    requires UpdatedAt(a, b, key) && UpdatedAt(b, d, key)
    ensures UpdatedAt(a, d, key)
  {
    assert a.instances[key := b.instances[key]][key := d.instances[key]] == a.instances[key := d.instances[key]];
  }

  /** The shared RBAC objects and the instance's prerequisites are in place. */
  predicate RbacReady(c: Cluster, i: Instance) {
    && ClusterRoleName in c.clusterRoles
    && c.clusterRoles[ClusterRoleName] == ClusterRoleFor(ClusterRoleName)
    && ClusterRoleName in c.bindings
    && HasSubject(c.bindings[ClusterRoleName].subjects, i.name, i.namespace)
    && ServiceAccountFor(i) in c.serviceAccounts
    && IngressClassFor(i) in c.ingressClasses
  }

  /** The instance's Service and ConfigMap exist and their mutate functions
      would not change them. */
  predicate ServiceObjectsReady(c: Cluster, i: Instance) {
    && KeyOf(i) in c.services && ServiceSettled(c.services[KeyOf(i)], i)
    && KeyOf(i) in c.configMaps && ConfigMapSettled(c.configMaps[KeyOf(i)], i)
  }

  /** The instance's Deployment, Service and ConfigMap exist, and a further
      pass would not rewrite them. */
  predicate ChildrenReady(c: Cluster, i: Instance)
    requires i.spec.workload.Some?
  {
    DeploymentReady(c, i) && ServiceObjectsReady(c, i)
  }

  /** createCommonResources followed by checkPrerequisites. */
  method SetUp(c: Cluster, i: Instance, faults: set<Call>) returns (r: Run)
    ensures FailsAtFirstFault(r, faults)
    ensures |r.trace| > 0 && r.trace[0] == ClusterRoleGet
    ensures r.cluster.(clusterRoles := c.clusterRoles, bindings := c.bindings,
                       serviceAccounts := c.serviceAccounts, ingressClasses := c.ingressClasses) == c
    ensures r.err.None? ==> RbacReady(r.cluster, i)
    ensures faults == {} ==> r.err.None?
    ensures faults == {} && RbacReady(c, i) ==> r.cluster == c
  {
    r := CreateCommonResources(c, faults);
    if r.err.Some? {
      return;
    }
    var r2 := CheckPrerequisites(r.cluster, i, faults);
    ThenFailsAtFirstFault(r, r2, faults);
    r := Then(r, r2);
  }

  /** The Service and ConfigMap steps. A Service that validation refuses
      stops the pass before the ConfigMap. */
  method ServiceObjects(c: Cluster, i: Instance, faults: set<Call>) returns (r: Run)
    ensures FailsAtFirstFault(r, faults)
    ensures |r.trace| > 0 && r.trace[0] == ServiceGet
    ensures r.cluster.(services := c.services, configMaps := c.configMaps) == c
    ensures ServicesAdmitted(c.services) ==> ServicesAdmitted(r.cluster.services)
    ensures r.err.None? ==> ServiceObjectsReady(r.cluster, i)
    ensures faults == {} && S.Admitted(DesiredService(c.services, i)) ==> r.err.None?
    ensures ServicesAdmitted(c.services) && !S.Admitted(DesiredService(c.services, i)) ==> r.err.Some? && r.cluster == c
    ensures faults == {} && ServicesAdmitted(c.services) && !S.Admitted(DesiredService(c.services, i)) ==>
      r.err == Some(Rejected(ServiceWrite(c.services, i)))
    ensures faults == {} && ServiceObjectsReady(c, i) ==> r.cluster == c
  {
    r := ConvergeService(c, i, faults);
    if r.err.Some? {
      return;
    }
    var r2 := ConvergeConfigMap(r.cluster, i, faults);
    ThenFailsAtFirstFault(r, r2, faults);
    r := Then(r, r2);
  }

  /** The Deployment, Service and ConfigMap steps. */
  method Workloads(c: Cluster, i: Instance, faults: set<Call>) returns (r: Run)
    requires ContainersAt(c.deployments, KeyOf(i))
    requires i.spec.workload.Some?
    ensures FailsAtFirstFault(r, faults)
    ensures |r.trace| > 0 && r.trace[0] == DeploymentGet
    ensures r.cluster.(deployments := c.deployments, services := c.services, configMaps := c.configMaps) == c
    ensures WellFormed(c) ==> WellFormed(r.cluster)
    ensures r.err.None? ==> ChildrenReady(r.cluster, i)
    ensures faults == {} && DeploymentAccepted(c.deployments, i) ==> DeploymentReady(r.cluster, i)
    ensures faults == {} && DeploymentAccepted(c.deployments, i) && S.Admitted(DesiredService(c.services, i)) ==> r.err.None?
    ensures WellFormed(c) && !DeploymentAccepted(c.deployments, i) ==> r.err.Some? && r.cluster == c
    ensures faults == {} && WellFormed(c) && !DeploymentAccepted(c.deployments, i) ==>
      r.err == Some(Rejected(DeploymentWrite(c.deployments, i)))
    ensures ServicesAdmitted(c.services) && !S.Admitted(DesiredService(c.services, i)) ==>
      r.err.Some? && r.cluster.(deployments := c.deployments) == c
    ensures (faults == {} && DeploymentAccepted(c.deployments, i)
             && ServicesAdmitted(c.services) && !S.Admitted(DesiredService(c.services, i))) ==>
      r.err == Some(Rejected(ServiceWrite(c.services, i)))
    ensures faults == {} && ChildrenReady(c, i) ==> r.cluster == c
    ensures DeploymentReady(c, i) && ServicesAdmitted(c.services) && !S.Admitted(DesiredService(c.services, i)) ==>
      r.cluster == c
  {
    r := SettleDeployment(c, i, faults);
    if r.err.Some? {
      return;
    }
    var r2 := ServiceObjects(r.cluster, i, faults);
    ThenFailsAtFirstFault(r, r2, faults);
    r := Then(r, r2);
  }

  /** The workload steps and the status step. */
  method Finish(c: Cluster, i: Instance, faults: set<Call>) returns (r: Run)
    requires ContainersAt(c.deployments, KeyOf(i))
    requires i.spec.workload.Some?
    ensures FailsAtFirstFault(r, faults)
    ensures |r.trace| > 0 && r.trace[0] == DeploymentGet
    ensures StatusOnly(c, r.cluster, i)
    ensures r.cluster.(instances := c.instances, deployments := c.deployments,
                       services := c.services, configMaps := c.configMaps) == c
    ensures WellFormed(c) ==> WellFormed(r.cluster)
    ensures r.err.None? ==> ChildrenReady(r.cluster, i)
    ensures r.err.None? && KeyOf(i) in c.instances ==> i.status.deployed || r.cluster.instances[KeyOf(i)].status.deployed
    ensures faults == {} && DeploymentAccepted(c.deployments, i) ==> DeploymentReady(r.cluster, i)
    ensures (faults == {} && KeyOf(i) in c.instances && DeploymentAccepted(c.deployments, i)
             && S.Admitted(DesiredService(c.services, i))) ==> r.err.None?
    ensures WellFormed(c) && !DeploymentAccepted(c.deployments, i) ==> r.err.Some? && r.cluster == c
    ensures faults == {} && WellFormed(c) && !DeploymentAccepted(c.deployments, i) ==>
      r.err == Some(Rejected(DeploymentWrite(c.deployments, i)))
    ensures ServicesAdmitted(c.services) && !S.Admitted(DesiredService(c.services, i)) ==>
      r.err.Some? && r.cluster.(deployments := c.deployments) == c
    ensures (faults == {} && DeploymentAccepted(c.deployments, i)
             && ServicesAdmitted(c.services) && !S.Admitted(DesiredService(c.services, i))) ==>
      r.err == Some(Rejected(ServiceWrite(c.services, i)))
    ensures faults == {} && ChildrenReady(c, i) && i.status.deployed ==> r.cluster == c
    ensures DeploymentReady(c, i) && ServicesAdmitted(c.services) && !S.Admitted(DesiredService(c.services, i)) ==>
      r.cluster == c
  {
    r := Workloads(c, i, faults);
    if r.err.Some? {
      return;
    }
    var r2 := MarkDeployed(r.cluster, i, faults);
    ThenFailsAtFirstFault(r, r2, faults);
    r := Then(r, r2);
  }

  /** The instance store after `Converge`: at most the reconciled instance's
      status has become deployed. */
  predicate StatusOnly(c: Cluster, d: Cluster, i: Instance) {
    || d.instances == c.instances
    || (&& KeyOf(i) in c.instances
        && !i.status.deployed
        && d.instances == c.instances[KeyOf(i) := c.instances[KeyOf(i)].(status := Status(true))])
  }

  lemma StatusOnlyUpdatedAt(c: Cluster, d: Cluster, i: Instance)
    requires StatusOnly(c, d, i)
    requires KeyOf(i) in c.instances
    ensures UpdatedAt(c, d, KeyOf(i))
  {
    if d.instances == c.instances {
      assert c.instances[KeyOf(i) := c.instances[KeyOf(i)]] == c.instances;
    }
  }

  /** Everything after validation: set-up, the workload objects, and the
      status, stopping at the first error. */
  method Converge(c: Cluster, i: Instance, faults: set<Call>) returns (r: Run)
    requires ContainersAt(c.deployments, KeyOf(i))
    requires i.spec.workload.Some?
    ensures FailsAtFirstFault(r, faults)
    ensures |r.trace| > 0 && r.trace[0] == ClusterRoleGet
    ensures StatusOnly(c, r.cluster, i)
    ensures r.cluster.namespaces == c.namespaces
    ensures WellFormed(c) ==> WellFormed(r.cluster)
    ensures r.err.None? ==> RbacReady(r.cluster, i) && ChildrenReady(r.cluster, i)
    ensures r.err.None? && KeyOf(i) in c.instances ==> i.status.deployed || r.cluster.instances[KeyOf(i)].status.deployed
    ensures faults == {} ==> RbacReady(r.cluster, i)
    ensures faults == {} && DeploymentAccepted(c.deployments, i) ==> DeploymentReady(r.cluster, i)
    ensures (faults == {} && KeyOf(i) in c.instances && DeploymentAccepted(c.deployments, i)
             && S.Admitted(DesiredService(c.services, i))) ==> r.err.None?
    ensures WellFormed(c) && !DeploymentAccepted(c.deployments, i) ==>
      && r.err.Some?
      && r.cluster.instances == c.instances
      && r.cluster.deployments == c.deployments
      && r.cluster.services == c.services
      && r.cluster.configMaps == c.configMaps
    ensures faults == {} && WellFormed(c) && !DeploymentAccepted(c.deployments, i) ==>
      r.err == Some(Rejected(DeploymentWrite(c.deployments, i)))
    ensures ServicesAdmitted(c.services) && !S.Admitted(DesiredService(c.services, i)) ==>
      && r.err.Some?
      && r.cluster.instances == c.instances
      && r.cluster.services == c.services
      && r.cluster.configMaps == c.configMaps
    ensures (faults == {} && DeploymentAccepted(c.deployments, i)
             && ServicesAdmitted(c.services) && !S.Admitted(DesiredService(c.services, i))) ==>
      r.err == Some(Rejected(ServiceWrite(c.services, i)))
    ensures faults == {} && RbacReady(c, i) && ChildrenReady(c, i) && i.status.deployed ==> r.cluster == c
    ensures (faults == {} && RbacReady(c, i) && DeploymentReady(c, i)
             && ServicesAdmitted(c.services) && !S.Admitted(DesiredService(c.services, i))) ==> r.cluster == c
    ensures faults == {} && WellFormed(c) && RbacReady(c, i) && !DeploymentAccepted(c.deployments, i) ==> r.cluster == c
    ensures faults == {} && WellFormed(c) && !S.Admitted(DesiredService(c.services, i)) ==> RefusedPass(c, i, r)
  {
    r := SetUp(c, i, faults);
    if r.err.Some? {
      return;
    }
    var r2 := Finish(r.cluster, i, faults);
    ThenFailsAtFirstFault(r, r2, faults);
    r := Then(r, r2);
  }

  /** A namespace that exists and is not being deleted. */
  predicate NamespaceActive(c: Cluster, namespace: string) {
    namespace in c.namespaces && c.namespaces[namespace] != Terminating
  }

  /** The instance as the rest of the pass sees it in memory once the
      defaults are filled in; the stored instance keeps its own spec. */
  function Defaulted(i: Instance): (d: Instance)
    requires AddDefaultFields(i.spec).Success?
    ensures d.spec.workload.Some?
    ensures d == i.(spec := d.spec)
    ensures Normalized(d.spec)
  {
    i.(spec := AddDefaultFields(i.spec).value)
  }

  /** The instance without its bookkeeping: what its children are generated
      from is its identity, labels and spec alone. */
  function Bare(i: Instance): Instance {
    i.(finalizers := [], status := Status(false))
  }

  /** The readiness predicates already ignore the bookkeeping. */
  lemma BareReady(c: Cluster, i: Instance)
    requires i.spec.workload.Some?
    ensures RbacReady(c, Bare(i)) <==> RbacReady(c, i)
    ensures DeploymentReady(c, Bare(i)) <==> DeploymentReady(c, i)
    ensures ChildrenReady(c, Bare(i)) <==> ChildrenReady(c, i)
  {
  }

  /** So does the Deployment's validation. */
  lemma BareAccepted(deployments: map<ObjectKey, D.Deployment>, i: Instance)
    requires i.spec.workload.Some?
    ensures DeploymentAccepted(deployments, Bare(i)) <==> DeploymentAccepted(deployments, i)
  {
  }

  /** Everything the pass puts in place for an instance, judged against its
      defaulted spec. */
  predicate Ready(c: Cluster, i: Instance) {
    && AddDefaultFields(i.spec).Success?
    && RbacReady(c, Bare(Defaulted(i)))
    && ChildrenReady(c, Bare(Defaulted(i)))
  }

  lemma ReadyOfDefaulted(c: Cluster, i: Instance)
    requires AddDefaultFields(i.spec).Success?
    ensures Ready(c, i) <==> RbacReady(c, Defaulted(i)) && ChildrenReady(c, Defaulted(i))
  {
    BareReady(c, Defaulted(i));
  }

  /** Readiness does not look at the instance's finalizers or status. */
  lemma ReadyIgnoresBookkeeping(c: Cluster, i: Instance, j: Instance)
    requires j == i.(finalizers := j.finalizers, status := j.status)
    ensures Ready(c, i) <==> Ready(c, j)
    ensures Prepared(c, i) <==> Prepared(c, j)
  {
    if AddDefaultFields(i.spec).Success? {
      assert Bare(Defaulted(i)) == Bare(Defaulted(j));
    }
  }

  /** In a cluster whose Services all passed validation no instance is ever
      ready: its Service would have to be one that serviceMutateFn leaves
      alone, and every such Service of a defaulted instance is refused. */
  lemma NeverReady(c: Cluster, i: Instance)
    requires ServicesAdmitted(c.services)
    ensures !Ready(c, i)
  {
    if Ready(c, i) {
      var d := Bare(Defaulted(i));
      NormalizedServiceRefused(c.services[KeyOf(d)], d);
      S.SemanticallyEqualAdmitted(ServiceMutateFn(c.services[KeyOf(d)], d), c.services[KeyOf(d)]);
      assert false;
    }
  }

  /** What the pass does put in place for an instance, judged against its
      defaulted spec: the RBAC objects, the prerequisites and, unless
      validation refuses it, the Deployment. The Service never passes
      validation, so the ConfigMap and the status are never reached. */
  predicate Prepared(c: Cluster, i: Instance) {
    && AddDefaultFields(i.spec).Success?
    && RbacReady(c, Bare(Defaulted(i)))
    && (DeploymentReady(c, Bare(Defaulted(i))) || !DeploymentAccepted(c.deployments, Bare(Defaulted(i))))
  }

  lemma PreparedOfDefaulted(c: Cluster, i: Instance)
    requires AddDefaultFields(i.spec).Success?
    ensures Prepared(c, i) <==>
      RbacReady(c, Defaulted(i)) && (DeploymentReady(c, Defaulted(i)) || !DeploymentAccepted(c.deployments, Defaulted(i)))
  {
    BareReady(c, Defaulted(i));
    BareAccepted(c.deployments, Defaulted(i));
  }

  /** The write at which a pass with no faults for an instance with a valid
      spec is refused: the Deployment's when validation refuses the
      Deployment, the Service's otherwise. */
  function RefusedWrite(c: Cluster, i: Instance): Call
    requires AddDefaultFields(i.spec).Success?
  {
    if DeploymentAccepted(c.deployments, Bare(Defaulted(i))) then ServiceWrite(c.services, i)
    else DeploymentWrite(c.deployments, i)
  }

  /** `Converge` with the defaulted instance, stated of the instance as
      stored. The Service write is always refused, so the pass never gets
      past it; a Deployment that validation refuses stops it earlier. */
  method ConvergeDefaulted(c: Cluster, i: Instance, faults: set<Call>) returns (r: Run)
    requires ContainersAt(c.deployments, KeyOf(i))
    requires AddDefaultFields(i.spec).Success?
    ensures FailsAtFirstFault(r, faults)
    ensures |r.trace| > 0 && r.trace[0] == ClusterRoleGet
    ensures StatusOnly(c, r.cluster, i)
    ensures r.cluster.namespaces == c.namespaces
    ensures WellFormed(c) ==> WellFormed(r.cluster)
    ensures r.err.None? ==> (
      && Ready(r.cluster, i)
      && (KeyOf(i) in c.instances ==> i.status.deployed || r.cluster.instances[KeyOf(i)].status.deployed))
    ensures ServicesAdmitted(c.services) ==>
      && r.err.Some?
      && r.cluster.instances == c.instances
      && r.cluster.services == c.services
      && r.cluster.configMaps == c.configMaps
    ensures faults == {} && WellFormed(c) ==>
      r.err == Some(Rejected(RefusedWrite(c, i))) && Prepared(r.cluster, i)
    ensures faults == {} && WellFormed(c) && Prepared(c, i) ==> r.cluster == c
    ensures faults == {} && i.status.deployed && Ready(c, i) ==> r.cluster == c
  {
    r := ConvergeDefaultedSteps(c, i, faults);
    NormalizedServiceRefused(if KeyOf(i) in c.services then c.services[KeyOf(i)] else FreshService(Defaulted(i)), Defaulted(i));
    ReadyOfDefaulted(r.cluster, i);
    ReadyOfDefaulted(c, i);
    if faults == {} && WellFormed(c) {
      DefaultedPassRefused(c, i, r);
    }
  }

  /** `Converge` with the defaulted instance: what it promises of the
      instance as stored, and what a pass with no faults leaves behind,
      stated of the defaulted instance. */
  method ConvergeDefaultedSteps(c: Cluster, i: Instance, faults: set<Call>) returns (r: Run)
    requires ContainersAt(c.deployments, KeyOf(i))
    requires AddDefaultFields(i.spec).Success?
    ensures FailsAtFirstFault(r, faults)
    ensures |r.trace| > 0 && r.trace[0] == ClusterRoleGet
    ensures StatusOnly(c, r.cluster, i)
    ensures r.cluster.namespaces == c.namespaces
    ensures WellFormed(c) ==> WellFormed(r.cluster)
    ensures r.err.None? ==> RbacReady(r.cluster, Defaulted(i)) && ChildrenReady(r.cluster, Defaulted(i))
    ensures r.err.None? && KeyOf(i) in c.instances ==> i.status.deployed || r.cluster.instances[KeyOf(i)].status.deployed
    ensures ServicesAdmitted(c.services) && !S.Admitted(DesiredService(c.services, Defaulted(i))) ==>
      && r.err.Some?
      && r.cluster.instances == c.instances
      && r.cluster.services == c.services
      && r.cluster.configMaps == c.configMaps
    ensures faults == {} && RbacReady(c, Defaulted(i)) && ChildrenReady(c, Defaulted(i)) && i.status.deployed ==>
      r.cluster == c
    ensures faults == {} && WellFormed(c) && !S.Admitted(DesiredService(c.services, Defaulted(i))) ==>
      RefusedPass(c, Defaulted(i), r)
  {
    r := Converge(c, Defaulted(i), faults);
  }

  /** What `Converge` promises of a pass with no faults over a valid
      cluster for an instance whose Service is refused: the RBAC objects are
      in place; an accepted Deployment is settled and the Service write is
      refused; a refused Deployment is left alone and its write is refused;
      and once there is nothing left to put in place the pass changes
      nothing. */
  predicate RefusedPass(c: Cluster, i: Instance, r: Run)
    requires i.spec.workload.Some?
  {
    && RbacReady(r.cluster, i)
    && (DeploymentAccepted(c.deployments, i) ==>
          DeploymentReady(r.cluster, i) && r.err == Some(Rejected(ServiceWrite(c.services, i))))
    && (!DeploymentAccepted(c.deployments, i) ==>
          r.cluster.deployments == c.deployments && r.err == Some(Rejected(DeploymentWrite(c.deployments, i))))
    && (RbacReady(c, i) && DeploymentReady(c, i) ==> r.cluster == c)
    && (RbacReady(c, i) && !DeploymentAccepted(c.deployments, i) ==> r.cluster == c)
  }

  /** How a pass with no faults over the defaulted instance ends, given what
      `Converge` promises of it: it is refused at the Deployment or at the
      Service, the instance is prepared afterwards, and a prepared instance
      is left alone. */
  lemma DefaultedPassRefused(c: Cluster, i: Instance, r: Run)
    requires AddDefaultFields(i.spec).Success?
    requires RefusedPass(c, Defaulted(i), r)
    ensures r.err == Some(Rejected(RefusedWrite(c, i)))
    ensures Prepared(r.cluster, i)
    ensures Prepared(c, i) ==> r.cluster == c
  {
    BareAccepted(c.deployments, Defaulted(i));
    PreparedOfDefaulted(c, i);
    PreparedOfDefaulted(r.cluster, i);
  }

  /** The part of the pass after the finalizer is in place: the namespace
      check (a missing or terminating namespace ends the pass without error),
      the defaults and validation (an invalid spec is returned as an error),
      then `Converge` with the defaulted instance, which always stops at the
      refused Service. */
  method Proceed(c: Cluster, i: Instance, faults: set<Call>) returns (r: Run)
    requires ContainersAt(c.deployments, KeyOf(i))
    ensures FailsAtFirstFault(r, faults)
    ensures |r.trace| > 0 && r.trace[0] == NamespaceGet
    ensures StatusOnly(c, r.cluster, i)
    ensures r.cluster.namespaces == c.namespaces
    ensures WellFormed(c) ==> WellFormed(r.cluster)
    ensures !NamespaceActive(c, i.namespace) || AddDefaultFields(i.spec).Failure? ==>
      r.cluster == c && r.trace == [NamespaceGet]
    ensures NamespaceGet !in faults && !NamespaceActive(c, i.namespace) ==> r.err.None?
    ensures NamespaceGet !in faults && NamespaceActive(c, i.namespace) && AddDefaultFields(i.spec).Failure? ==>
      r.err == Some(Invalid(AddDefaultFields(i.spec).error))
    ensures r.err.None? && NamespaceActive(c, i.namespace) ==> (
      && Ready(r.cluster, i)
      && (KeyOf(i) in c.instances ==> i.status.deployed || r.cluster.instances[KeyOf(i)].status.deployed))
    ensures ServicesAdmitted(c.services) && NamespaceActive(c, i.namespace) && AddDefaultFields(i.spec).Success? ==>
      && r.err.Some?
      && r.cluster.instances == c.instances
      && r.cluster.services == c.services
      && r.cluster.configMaps == c.configMaps
    ensures (faults == {} && WellFormed(c) && NamespaceActive(c, i.namespace)
             && AddDefaultFields(i.spec).Success?) ==>
      r.err == Some(Rejected(RefusedWrite(c, i))) && Prepared(r.cluster, i)
    ensures faults == {} && WellFormed(c) && NamespaceActive(c, i.namespace) && Prepared(c, i) ==>
      r.cluster == c
    ensures faults == {} && NamespaceActive(c, i.namespace) && i.status.deployed && Ready(c, i) ==> r.cluster == c
  {
    var get := Run(c, [NamespaceGet], None);
    if NamespaceGet in faults {
      return Fail(c, [NamespaceGet], Transient(NamespaceGet));
    }
    if !NamespaceActive(c, i.namespace) {
      return get;
    }
    var defaults := AddDefaultFields(i.spec);
    if defaults.Failure? {
      return Fail(c, [NamespaceGet], Invalid(defaults.error));
    }
    var r1 := ConvergeDefaulted(c, i, faults);
    ThenFailsAtFirstFault(get, r1, faults);
    r := Then(get, r1);
  }

  /** The instance as the finalizer write leaves it. */
  function WithFinalizer(i: Instance): (r: Instance)
    ensures HasFinalizer(r)
    ensures r == i.(finalizers := r.finalizers)
    ensures HasFinalizer(i) ==> r == i
  {
    i.(finalizers := AddFinalizer(i.finalizers))
  }

  /** The state a pass with no faults brings an active instance to, and from
      which a further pass changes nothing: the finalizer is stored, the
      namespace is active, and what the pass can put in place is in place. */
  predicate Settled(c: Cluster, key: ObjectKey) {
    && key in c.instances
    && HasFinalizer(c.instances[key])
    && NamespaceActive(c, c.instances[key].namespace)
    && Prepared(c, c.instances[key])
  }

  /** What the pass for an instance that is not being deleted promises: the
      stored instance gains the finalizer and nothing else, unless the write
      of the finalizer itself failed, in which case nothing changed; a later
      failure never takes the finalizer back; a missing or terminating namespace or
      an invalid spec changes at most the finalizer; the pass reports success
      only when the namespace is not active; with no faults it returns the
      validation error or the refusal of the Deployment or the Service, and
      reaches `Settled`; once
      `Settled`, a pass with no faults changes nothing. */
  predicate ActiveOutcome(c: Cluster, key: ObjectKey, faults: set<Call>, d: Cluster, err: Option<Error>)
    requires key in c.instances
  {
    var inst := c.instances[key];
    && d.namespaces == c.namespaces
    && (d.instances == c.instances[key := WithFinalizer(inst)] || (d == c && err.Some?))
    && (InstanceAddFinalizer !in faults ==> d.instances == c.instances[key := WithFinalizer(inst)])
    && (!NamespaceActive(c, inst.namespace) || AddDefaultFields(inst.spec).Failure? ==>
          d == c || d == c.(instances := c.instances[key := WithFinalizer(inst)]))
    && (err.None? ==> !NamespaceActive(c, inst.namespace))
    && (faults == {} && !NamespaceActive(c, inst.namespace) ==> err.None?)
    && (faults == {} && NamespaceActive(c, inst.namespace) && AddDefaultFields(inst.spec).Failure? ==>
          err == Some(Invalid(AddDefaultFields(inst.spec).error)))
    && (faults == {} && NamespaceActive(c, inst.namespace) && AddDefaultFields(inst.spec).Success? ==>
          err == Some(Rejected(RefusedWrite(c, inst))) && Settled(d, key))
    && (faults == {} && Settled(c, key) ==> d == c)
  }

  /** The pass for an active instance whose stored copy already carries the
      finalizer. */
  method ActiveWithFinalizer(c: Cluster, key: ObjectKey, faults: set<Call>) returns (r: Run)
    requires WellFormed(c)
    requires key in c.instances && HasFinalizer(c.instances[key])
    ensures FailsAtFirstFault(r, faults)
    ensures |r.trace| > 0 && r.trace[0] == NamespaceGet
    ensures WellFormed(r.cluster)
    ensures UpdatedAt(c, r.cluster, key)
    ensures r.cluster.instances == c.instances
    ensures ActiveOutcome(c, key, faults, r.cluster, r.err)
  {
    var inst := c.instances[key];
    r := Proceed(c, inst, faults);
    UpdatedAtSelf(c, key);
    ReadyIgnoresBookkeeping(r.cluster, inst, r.cluster.instances[key]);
    ReadyIgnoresBookkeeping(c, inst, c.instances[key]);
  }

  /** The pass for an instance that is not being deleted: the finalizer is
      added and written first, when it is missing, then the rest of the pass
      runs on the in-memory instance that carries it. */
  method ReconcileActive(c: Cluster, key: ObjectKey, faults: set<Call>) returns (r: Run)
    requires WellFormed(c)
    requires key in c.instances
    ensures FailsAtFirstFault(r, faults)
    ensures |r.trace| > 0
    ensures r.trace[0] == (if HasFinalizer(c.instances[key]) then NamespaceGet else InstanceAddFinalizer)
    ensures WellFormed(r.cluster)
    ensures UpdatedAt(c, r.cluster, key)
    ensures ActiveOutcome(c, key, faults, r.cluster, r.err)
  {
    if HasFinalizer(c.instances[key]) {
      r := ActiveWithFinalizer(c, key, faults);
    } else {
      r := ActiveWithoutFinalizer(c, key, faults);
    }
  }

  /** The pass for an active instance whose stored copy lacks the finalizer:
      write it first, then run the rest of the pass. */
  method ActiveWithoutFinalizer(c: Cluster, key: ObjectKey, faults: set<Call>) returns (r: Run)
    requires WellFormed(c)
    requires key in c.instances && !HasFinalizer(c.instances[key])
    ensures FailsAtFirstFault(r, faults)
    ensures |r.trace| > 0 && r.trace[0] == InstanceAddFinalizer
    ensures WellFormed(r.cluster)
    ensures UpdatedAt(c, r.cluster, key)
    ensures ActiveOutcome(c, key, faults, r.cluster, r.err)
  {
    var add := AcquireFinalizer(c, key, faults);
    if add.err.Some? {
      return add;
    }
    var rest := ActiveWithFinalizer(add.cluster, key, faults);
    UpdatedAtTransitive(c, add.cluster, rest.cluster, key);
    ActiveOutcomeAfterAcquire(c, key, faults, rest.cluster, rest.err);
    ThenFailsAtFirstFault(add, rest, faults);
    r := Then(add, rest);
  }

  /** Once the finalizer is written, the outcome of the rest of the pass is
      the outcome of the whole pass. */
  lemma ActiveOutcomeAfterAcquire(c: Cluster, key: ObjectKey, faults: set<Call>, d: Cluster, err: Option<Error>)
    requires key in c.instances && !HasFinalizer(c.instances[key])
    requires var mid := c.(instances := c.instances[key := WithFinalizer(c.instances[key])]);
      ActiveOutcome(mid, key, faults, d, err) && d.instances == mid.instances
    ensures ActiveOutcome(c, key, faults, d, err)
  {
    var inst := c.instances[key];
    var mid := c.(instances := c.instances[key := WithFinalizer(inst)]);
    assert mid.instances[key := WithFinalizer(mid.instances[key])] == mid.instances;
    assert KeyOf(WithFinalizer(inst)) == KeyOf(inst);
    if AddDefaultFields(inst.spec).Success? {
      RefusedWriteIgnoresBookkeeping(c, mid, inst, WithFinalizer(inst));
    }
  }

  /** The write a pass is refused at does not look at the instance's
      finalizers or status, nor at stores other than the Deployments and the
      Services. */
  lemma RefusedWriteIgnoresBookkeeping(c: Cluster, d: Cluster, i: Instance, j: Instance)
    requires c.deployments == d.deployments && c.services == d.services
    requires j == i.(finalizers := j.finalizers, status := j.status)
    requires AddDefaultFields(i.spec).Success?
    ensures RefusedWrite(c, i) == RefusedWrite(d, j)
  {
    BareDefaulted(i, j);
  }

  /** Instances that differ only in bookkeeping have the same defaulted bare
      instance. */
  lemma BareDefaulted(i: Instance, j: Instance)
    requires j == i.(finalizers := j.finalizers, status := j.status)
    requires AddDefaultFields(i.spec).Success?
    ensures Bare(Defaulted(i)) == Bare(Defaulted(j))
    ensures KeyOf(i) == KeyOf(j)
  {
  }

  /** The write that adds the finalizer to the stored instance. */
  method AcquireFinalizer(c: Cluster, key: ObjectKey, faults: set<Call>) returns (r: Run)
    requires WellFormed(c)
    requires key in c.instances
    ensures FailsAtFirstFault(r, faults)
    ensures r.trace == [InstanceAddFinalizer]
    ensures WellFormed(r.cluster)
    ensures UpdatedAt(c, r.cluster, key)
    ensures r.err.Some? ==> r.cluster == c
    ensures r.err.None? ==> r.cluster == c.(instances := c.instances[key := WithFinalizer(c.instances[key])])
    ensures faults == {} ==> r.err.None?
    ensures r.err.None? <==> InstanceAddFinalizer !in faults
  {
    var next := c.(instances := c.instances[key := WithFinalizer(c.instances[key])]);
    UpdatedAtSelf(c, key);
    UpdatedAtEvolves(c, next, key);
    r := Issue(c, InstanceAddFinalizer, faults, next);
  }

  /** Nothing about the instances changes when the cluster does not. */
  lemma UpdatedAtSelf(c: Cluster, key: ObjectKey)
    requires key in c.instances
    ensures UpdatedAt(c, c, key)
  {
    assert c.instances[key := c.instances[key]] == c.instances;
  }

  /** The instance once its finalizer is removed. */
  function Unmarked(i: Instance): (r: Instance)
    ensures !HasFinalizer(r)
    ensures r == i.(finalizers := r.finalizers)
    ensures !HasFinalizer(i) ==> r == i
  {
    i.(finalizers := RemoveFinalizer(i.finalizers))
  }

  /** The write that removes the finalizer from the stored instance. */
  method ReleaseFinalizer(c: Cluster, key: ObjectKey, faults: set<Call>) returns (r: Run)
    requires WellFormed(c)
    requires key in c.instances
    ensures FailsAtFirstFault(r, faults)
    ensures r.trace == [InstanceRemoveFinalizer]
    ensures WellFormed(r.cluster)
    ensures UpdatedAt(c, r.cluster, key)
    ensures r.err.Some? ==> r.cluster == c
    ensures r.err.None? ==> r.cluster == c.(instances := c.instances[key := Unmarked(c.instances[key])])
    ensures faults == {} ==> r.err.None?
    ensures r.err.None? <==> InstanceRemoveFinalizer !in faults
  {
    var next := c.(instances := c.instances[key := Unmarked(c.instances[key])]);
    UpdatedAtSelf(c, key);
    UpdatedAtEvolves(c, next, key);
    r := Issue(c, InstanceRemoveFinalizer, faults, next);
  }

  /** The pass for an instance being deleted: nothing when the finalizer is
      already gone; otherwise finalize, and remove the finalizer only when
      finalization succeeded. */
  method ReconcileDeletion(c: Cluster, key: ObjectKey, faults: set<Call>) returns (r: Run)
    requires WellFormed(c)
    requires key in c.instances
    ensures FailsAtFirstFault(r, faults)
    ensures !HasFinalizer(c.instances[key]) ==> r == Run(c, [], None)
    ensures HasFinalizer(c.instances[key]) ==> |r.trace| > 0 && r.trace[0] == BindingGetFinalize
    ensures WellFormed(r.cluster)
    ensures UpdatedAt(c, r.cluster, key)
    ensures r.cluster.(instances := c.instances, bindings := c.bindings, ingressClasses := c.ingressClasses) == c
    ensures r.err.Some? ==> r.cluster.instances == c.instances
    ensures ClusterRoleName !in c.bindings && BindingGetFinalize !in faults && HasFinalizer(c.instances[key]) ==>
      r == Run(c, [BindingGetFinalize], Some(NotFound))
    ensures var inst := c.instances[key];
      r.err.None? && HasFinalizer(inst) ==> (
        && ClusterRoleName in c.bindings
        && r.cluster.instances[key] == Unmarked(inst)
        && r.cluster.bindings == c.bindings[ClusterRoleName := c.bindings[ClusterRoleName].(subjects :=
             RemoveSubjects(c.bindings[ClusterRoleName].subjects, inst.name, inst.namespace))]
        && r.cluster.ingressClasses == c.ingressClasses - {IngressClassFor(inst)})
    ensures faults == {} && ClusterRoleName in c.bindings ==> r.err.None?
    ensures HasFinalizer(c.instances[key]) && ClusterRoleName in c.bindings ==>
      (r.err.None? <==> FinalizationSucceeds(faults))
  {
    var inst := c.instances[key];
    UpdatedAtSelf(c, key);
    if !HasFinalizer(inst) {
      return Run(c, [], None);
    }
    r := Finalize(c, inst, faults);
    WellFormedFrame(c, r.cluster);
    UpdatedAtSelf(r.cluster, key);
    if r.err.Some? {
      return;
    }
    var release := ReleaseFinalizer(r.cluster, key, faults);
    ThenFailsAtFirstFault(r, release, faults);
    r := Then(r, release);
  }

  /** What the pass for an instance being deleted promises: only the
      bindings, the IngressClasses and the instance may change, and the
      instances only when the pass succeeds; nothing happens when the
      finalizer is already gone; a missing binding is reported as NotFound
      and changes nothing; success means the subject and the IngressClass are
      gone and then the finalizer; with the binding present the pass succeeds
      exactly when none of its calls is faulted, so a failed binding write or
      IngressClass delete keeps the finalizer. */
  predicate DeletionOutcome(c: Cluster, key: ObjectKey, faults: set<Call>, d: Cluster, err: Option<Error>)
    requires key in c.instances
  {
    var inst := c.instances[key];
    && d.(instances := c.instances, bindings := c.bindings, ingressClasses := c.ingressClasses) == c
    && (err.Some? ==> d.instances == c.instances)
    && (!HasFinalizer(inst) ==> d == c && err.None?)
    && (HasFinalizer(inst) && ClusterRoleName !in c.bindings && BindingGetFinalize !in faults ==>
          d == c && err == Some(NotFound))
    && (HasFinalizer(inst) && err.None? ==> (
          && ClusterRoleName in c.bindings
          && d.instances == c.instances[key := Unmarked(inst)]
          && d.bindings == c.bindings[ClusterRoleName := c.bindings[ClusterRoleName].(subjects :=
               RemoveSubjects(c.bindings[ClusterRoleName].subjects, inst.name, inst.namespace))]
          && d.ingressClasses == c.ingressClasses - {IngressClassFor(inst)}))
    && (faults == {} && ClusterRoleName in c.bindings ==> err.None?)
    && (HasFinalizer(inst) && ClusterRoleName in c.bindings ==> (err.None? <==> FinalizationSucceeds(faults)))
  }

  /** None of the calls of a deletion pass with the binding present is
      faulted: the binding read and write, the IngressClass delete and the
      finalizer removal. */
  predicate FinalizationSucceeds(faults: set<Call>) {
    && BindingGetFinalize !in faults
    && BindingUpdateFinalize !in faults
    && IngressClassDelete !in faults
    && InstanceRemoveFinalizer !in faults
  }

  /** The pass once the instance has been read: the deletion or the active
      pass. */
  method ReconcileFound(c: Cluster, key: ObjectKey, faults: set<Call>) returns (r: Run)
    requires WellFormed(c)
    requires key in c.instances
    ensures FailsAtFirstFault(r, faults)
    ensures WellFormed(r.cluster)
    ensures InstancesEvolve(c, r.cluster, key)
    ensures r.cluster.namespaces == c.namespaces
    ensures c.instances[key].deletionMarked ==> DeletionOutcome(c, key, faults, r.cluster, r.err)
    ensures c.instances[key].deletionMarked && !HasFinalizer(c.instances[key]) ==> r.trace == []
    ensures c.instances[key].deletionMarked && HasFinalizer(c.instances[key]) ==>
      |r.trace| > 0 && r.trace[0] == BindingGetFinalize
    ensures (c.instances[key].deletionMarked && HasFinalizer(c.instances[key])
             && ClusterRoleName !in c.bindings && BindingGetFinalize !in faults) ==> r.trace == [BindingGetFinalize]
    ensures !c.instances[key].deletionMarked ==> ActiveOutcome(c, key, faults, r.cluster, r.err)
    ensures !c.instances[key].deletionMarked ==>
      |r.trace| > 0 && r.trace[0] == (if HasFinalizer(c.instances[key]) then NamespaceGet else InstanceAddFinalizer)
  {
    if c.instances[key].deletionMarked {
      r := ReconcileDeletion(c, key, faults);
      if r.err.None? && HasFinalizer(c.instances[key]) {
        assert r.cluster.instances == c.instances[key := Unmarked(c.instances[key])];
      }
    } else {
      r := ReconcileActive(c, key, faults);
    }
    UpdatedAtEvolves(c, r.cluster, key);
  }

  /** A successful read of an existing instance followed by the deletion or
      the active pass. */
  method ReadFound(c: Cluster, key: ObjectKey, faults: set<Call>) returns (r: Run)
    requires WellFormed(c)
    requires key in c.instances && InstanceGet !in faults
    ensures FailsAtFirstFault(r, faults)
    ensures |r.trace| > 0 && r.trace[0] == InstanceGet
    ensures WellFormed(r.cluster)
    ensures InstancesEvolve(c, r.cluster, key)
    ensures r.cluster.namespaces == c.namespaces
    ensures c.instances[key].deletionMarked ==> DeletionOutcome(c, key, faults, r.cluster, r.err)
    ensures c.instances[key].deletionMarked && !HasFinalizer(c.instances[key]) ==> r == Run(c, [InstanceGet], None)
    ensures (c.instances[key].deletionMarked && HasFinalizer(c.instances[key])
             && ClusterRoleName !in c.bindings && BindingGetFinalize !in faults) ==>
      r == Run(c, [InstanceGet, BindingGetFinalize], Some(NotFound))
    ensures !c.instances[key].deletionMarked ==> ActiveOutcome(c, key, faults, r.cluster, r.err)
  {
    var get := Run(c, [InstanceGet], None);
    var rest := ReconcileFound(c, key, faults);
    ThenFailsAtFirstFault(get, rest, faults);
    r := Run(rest.cluster, [InstanceGet] + rest.trace, rest.err);
  }

  /** Reconcile: read the instance (a missing one ends the pass without
      error, any other read error is returned), then run the deletion or the
      active pass. */
  method Reconcile(c: Cluster, key: ObjectKey, faults: set<Call>) returns (r: Run)
    requires WellFormed(c)
    ensures FailsAtFirstFault(r, faults)
    ensures |r.trace| > 0 && r.trace[0] == InstanceGet
    ensures WellFormed(r.cluster)
    ensures InstancesEvolve(c, r.cluster, key)
    ensures r.cluster.namespaces == c.namespaces
    ensures InstanceGet in faults ==> r == Run(c, [InstanceGet], Some(Transient(InstanceGet)))
    ensures InstanceGet !in faults && key !in c.instances ==> r == Run(c, [InstanceGet], None)
    ensures InstanceGet !in faults && key in c.instances && c.instances[key].deletionMarked ==>
      DeletionOutcome(c, key, faults, r.cluster, r.err)
    ensures (InstanceGet !in faults && key in c.instances && c.instances[key].deletionMarked
             && !HasFinalizer(c.instances[key])) ==> r == Run(c, [InstanceGet], None)
    ensures (InstanceGet !in faults && key in c.instances && c.instances[key].deletionMarked
             && HasFinalizer(c.instances[key]) && ClusterRoleName !in c.bindings && BindingGetFinalize !in faults) ==>
      r == Run(c, [InstanceGet, BindingGetFinalize], Some(NotFound))
    ensures InstanceGet !in faults && key in c.instances && !c.instances[key].deletionMarked ==>
      ActiveOutcome(c, key, faults, r.cluster, r.err)
  {
    if InstanceGet in faults {
      return Fail(c, [InstanceGet], Transient(InstanceGet));
    }
    if key !in c.instances {
      return Run(c, [InstanceGet], None);
    }
    r := ReadFound(c, key, faults);
  }
}
