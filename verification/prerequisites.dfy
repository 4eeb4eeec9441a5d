/** The objects every controller needs before its Deployment: the shared
    ClusterRole and ClusterRoleBinding (createCommonResources), and the
    instance's ServiceAccount, its subject in the binding and its IngressClass
    (checkPrerequisites). */
module Prerequisites {
  import opened Wrappers
  import opened Types
  import opened Rbac
  import opened Subjects
  import opened Cluster

  /** The ServiceAccount of an instance is named after it, in its namespace. */
  function ServiceAccountFor(i: Instance): ObjectKey {
    KeyOf(i)
  }

  /** The IngressClass of an instance is named after it. */
  function IngressClassFor(i: Instance): string {
    i.name
  }

  /** The binding half of createCommonResources: created when it is missing,
      never modified when present. */
  method EnsureBinding(c: Cluster, faults: set<Call>) returns (r: Run)
    ensures FailsAtFirstFault(r, faults)
    ensures |r.trace| > 0 && r.trace[0] == BindingGetCommon
    ensures ClusterRoleName in c.bindings ==> r.cluster == c
    ensures r.err.None? ==> ClusterRoleName in r.cluster.bindings
    ensures ClusterRoleName !in c.bindings && r.err.None? ==>
      r.cluster == c.(bindings := c.bindings[ClusterRoleName := ClusterRoleBindingFor(ClusterRoleName)])
    ensures r.err.Some? ==> r.cluster == c
    ensures faults == {} ==> r.err.None?
  {
    if BindingGetCommon in faults {
      return Fail(c, [BindingGetCommon], Transient(BindingGetCommon));
    }
    var get := Run(c, [BindingGetCommon], None);
    if ClusterRoleName in c.bindings {
      return get;
    }
    var next := c.(bindings := c.bindings[ClusterRoleName := ClusterRoleBindingFor(ClusterRoleName)]);
    var create := Issue(c, BindingCreate, faults, next);
    ThenFailsAtFirstFault(get, create, faults);
    r := Then(get, create);
  }

  /** The role half of createCommonResources: created when missing,
      overwritten with the fixed rules when present; any other read error is
      returned. */
  method EnsureClusterRole(c: Cluster, faults: set<Call>) returns (r: Run)
    ensures FailsAtFirstFault(r, faults)
    ensures |r.trace| > 0 && r.trace[0] == ClusterRoleGet
    ensures ClusterRoleGet !in faults ==> (|r.trace| == 2 &&
      r.trace[1] == (if ClusterRoleName in c.clusterRoles then ClusterRoleUpdate else ClusterRoleCreate))
    ensures r.err.None? ==> r.cluster == c.(clusterRoles := c.clusterRoles[ClusterRoleName := ClusterRoleFor(ClusterRoleName)])
    ensures r.err.Some? ==> r.cluster == c
    ensures faults == {} ==> r.err.None?
  {
    if ClusterRoleGet in faults {
      return Fail(c, [ClusterRoleGet], Transient(ClusterRoleGet));
    }
    var roleWrite := if ClusterRoleName in c.clusterRoles then ClusterRoleUpdate else ClusterRoleCreate;
    var withRole := c.(clusterRoles := c.clusterRoles[ClusterRoleName := ClusterRoleFor(ClusterRoleName)]);
    var get := Run(c, [ClusterRoleGet], None);
    var write := Issue(c, roleWrite, faults, withRole);
    ThenFailsAtFirstFault(get, write, faults);
    r := Then(get, write);
  }

  /** createCommonResources: the ClusterRole, then the ClusterRoleBinding. An
      existing binding, subjects included, is left as it is, and rewriting a
      role that already has the fixed rules changes nothing. */
  method CreateCommonResources(c: Cluster, faults: set<Call>) returns (r: Run)
    ensures FailsAtFirstFault(r, faults)
    ensures |r.trace| > 0 && r.trace[0] == ClusterRoleGet
    ensures ClusterRoleGet !in faults ==> (|r.trace| > 1 &&
      r.trace[1] == (if ClusterRoleName in c.clusterRoles then ClusterRoleUpdate else ClusterRoleCreate))
    ensures r.err.None? ==> r.cluster.clusterRoles == c.clusterRoles[ClusterRoleName := ClusterRoleFor(ClusterRoleName)]
    ensures r.err.None? ==> ClusterRoleName in r.cluster.bindings
    ensures ClusterRoleName in c.bindings ==> r.cluster.bindings == c.bindings
    ensures ClusterRoleName !in c.bindings && r.err.None? ==>
      r.cluster.bindings == c.bindings[ClusterRoleName := ClusterRoleBindingFor(ClusterRoleName)]
    ensures r.cluster.(clusterRoles := c.clusterRoles, bindings := c.bindings) == c
    ensures faults == {} ==> r.err.None?
    ensures (&& ClusterRoleName in c.clusterRoles && c.clusterRoles[ClusterRoleName] == ClusterRoleFor(ClusterRoleName)
             && ClusterRoleName in c.bindings) ==> r.cluster == c
  {
    r := EnsureClusterRole(c, faults);
    if ClusterRoleName in c.clusterRoles && c.clusterRoles[ClusterRoleName] == ClusterRoleFor(ClusterRoleName) {
      assert c.clusterRoles[ClusterRoleName := ClusterRoleFor(ClusterRoleName)] == c.clusterRoles;
    }
    if r.err.Some? {
      return;
    }
    var r2 := EnsureBinding(r.cluster, faults);
    ThenFailsAtFirstFault(r, r2, faults);
    r := Then(r, r2);
  }

  /** The IngressClass step of checkPrerequisites. */
  method EnsureIngressClass(c: Cluster, i: Instance, faults: set<Call>) returns (r: Run)
    ensures FailsAtFirstFault(r, faults)
    ensures r.trace == [IngressClassCreate]
    ensures r.err.None? ==> r.cluster == c.(ingressClasses := c.ingressClasses + {IngressClassFor(i)})
    ensures r.err.Some? ==> r.cluster == c
    ensures faults == {} ==> r.err.None?
  {
    var created := CreateIfNotExists(c.ingressClasses, IngressClassFor(i), IngressClassCreate, faults);
    if created.err.Some? {
      return Fail(c, [IngressClassCreate], created.err.value);
    }
    r := Run(c.(ingressClasses := created.store), [IngressClassCreate], None);
  }

  /** The binding after the instance's ServiceAccount is added to it when
      missing. */
  function WithSubject(c: Cluster, i: Instance): (d: Cluster)
    requires ClusterRoleName in c.bindings
    ensures HasSubject(c.bindings[ClusterRoleName].subjects, i.name, i.namespace) ==> d == c
  {
    var b := c.bindings[ClusterRoleName];
    var r := c.(bindings := c.bindings[ClusterRoleName :=
                  b.(subjects := AddSubjectIfAbsent(b.subjects, SubjectForServiceAccount(i.namespace, i.name)))]);
    assert HasSubject(b.subjects, i.name, i.namespace) ==> c.bindings[ClusterRoleName := b] == c.bindings;
    r
  }

  /** The subject step of checkPrerequisites: read the binding, and append the
      ServiceAccount and write the binding back only when no subject has its
      name and namespace. */
  method EnsureSubject(c: Cluster, i: Instance, faults: set<Call>) returns (r: Run)
    ensures FailsAtFirstFault(r, faults)
    ensures |r.trace| > 0 && r.trace[0] == BindingGetPrerequisites
    ensures BindingUpdatePrerequisites in r.trace <==>
      BindingGetPrerequisites !in faults && ClusterRoleName in c.bindings
      && !HasSubject(c.bindings[ClusterRoleName].subjects, i.name, i.namespace)
    ensures ClusterRoleName !in c.bindings ==> r.err.Some?
    ensures r.err.None? ==> ClusterRoleName in c.bindings && r.cluster == WithSubject(c, i)
    ensures r.err.Some? ==> r.cluster == c
    ensures faults == {} && ClusterRoleName in c.bindings ==> r.err.None?
  {
    if BindingGetPrerequisites in faults {
      return Fail(c, [BindingGetPrerequisites], Transient(BindingGetPrerequisites));
    }
    if ClusterRoleName !in c.bindings {
      return Fail(c, [BindingGetPrerequisites], NotFound);
    }
    var get := Run(c, [BindingGetPrerequisites], None);
    var b := c.bindings[ClusterRoleName];
    if HasSubject(b.subjects, i.name, i.namespace) {
      return get;
    }
    var update := Issue(c, BindingUpdatePrerequisites, faults, WithSubject(c, i));
    ThenFailsAtFirstFault(get, update, faults);
    r := Then(get, update);
  }

  /** checkPrerequisites: ServiceAccount (an existing one is success), then
      the binding subject, then the IngressClass (an existing one is success),
      stopping at the first error. */
  method CheckPrerequisites(c: Cluster, i: Instance, faults: set<Call>) returns (r: Run)
    ensures FailsAtFirstFault(r, faults)
    ensures |r.trace| > 0 && r.trace[0] == ServiceAccountCreate
    ensures ServiceAccountCreate !in faults ==> (|r.trace| > 1 && r.trace[1] == BindingGetPrerequisites)
    ensures BindingUpdatePrerequisites in r.trace <==>
      ServiceAccountCreate !in faults && BindingGetPrerequisites !in faults && ClusterRoleName in c.bindings
      && !HasSubject(c.bindings[ClusterRoleName].subjects, i.name, i.namespace)
    ensures r.err.None? ==>
      && ClusterRoleName in c.bindings
      && r.cluster == WithSubject(c, i).(serviceAccounts := c.serviceAccounts + {ServiceAccountFor(i)},
                                         ingressClasses := c.ingressClasses + {IngressClassFor(i)})
    ensures r.err.Some? ==> r.cluster.ingressClasses == c.ingressClasses
    ensures r.cluster.(bindings := c.bindings, serviceAccounts := c.serviceAccounts, ingressClasses := c.ingressClasses) == c
    ensures faults == {} && ClusterRoleName in c.bindings ==> r.err.None?
    ensures (&& ClusterRoleName in c.bindings && HasSubject(c.bindings[ClusterRoleName].subjects, i.name, i.namespace)
             && ServiceAccountFor(i) in c.serviceAccounts && IngressClassFor(i) in c.ingressClasses) ==> r.cluster == c
  {
    var created := CreateIfNotExists(c.serviceAccounts, ServiceAccountFor(i), ServiceAccountCreate, faults);
    if created.err.Some? {
      return Fail(c, [ServiceAccountCreate], created.err.value);
    }
    var r1 := Run(c.(serviceAccounts := created.store), [ServiceAccountCreate], None);
    var r2 := EnsureSubject(r1.cluster, i, faults);
    ThenFailsAtFirstFault(r1, r2, faults);
    r := Then(r1, r2);
    if r.err.Some? {
      return;
    }
    var r3 := EnsureIngressClass(r.cluster, i, faults);
    ThenFailsAtFirstFault(r, r3, faults);
    r := Then(r, r3);
  }
}
