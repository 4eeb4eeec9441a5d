/** The pieces of the reconciler that act on one kind of object each: the
    finalizer marker, the controller's own mutate functions for the Service
    and the ConfigMap, controller-runtime's create-or-update, finalization,
    and the Deployment/Service/ConfigMap/status steps of a pass. */
module Controller {
  import opened Wrappers
  import opened Types
  import opened Utils
  import opened Rbac
  import opened Subjects
  import opened Ports
  import opened Cluster
  import opened Prerequisites
  import D = Deployment
  import S = Service
  import CM = ConfigMap
  import Defaults

  const Finalizer := "nginxingresscontroller.networking.kubegems.io/finalizer"

  predicate HasFinalizer(i: Instance) {
    Finalizer in i.finalizers
  }

  /** controllerutil.AddFinalizer: appended when absent. */
  function AddFinalizer(finalizers: seq<string>): (r: seq<string>)
    ensures Finalizer in r
    ensures Finalizer in finalizers ==> r == finalizers
    ensures Finalizer !in finalizers ==> r == finalizers + [Finalizer]
  {
    if Finalizer in finalizers then finalizers else finalizers + [Finalizer]
  }

  /** controllerutil.RemoveFinalizer: every occurrence is dropped, the other
      finalizers stay in order. */
  function RemoveFinalizer(finalizers: seq<string>): (r: seq<string>)
    ensures Finalizer !in r
    ensures forall f :: f in r <==> f in finalizers && f != Finalizer
    ensures Finalizer !in finalizers ==> r == finalizers
  {
    if |finalizers| == 0 then []
    else
      var rest := RemoveFinalizer(finalizers[1..]);
      assert forall f :: f in finalizers <==> f == finalizers[0] || f in finalizers[1..];
      if finalizers[0] == Finalizer then rest
      else
        assert Finalizer !in finalizers ==> [finalizers[0]] + finalizers[1..] == finalizers;
        [finalizers[0]] + rest
  }

  /** Removal works element by element: it distributes over concatenation,
      so the order of the remaining finalizers is kept. */
  lemma {:induction false} RemoveFinalizerConcat(a: seq<string>, b: seq<string>)
    ensures RemoveFinalizer(a + b) == RemoveFinalizer(a) + RemoveFinalizer(b)
  {
    if |a| == 0 {
      assert a + b == b;
    } else {
      assert (a + b)[0] == a[0];
      assert (a + b)[1..] == a[1..] + b;
      RemoveFinalizerConcat(a[1..], b);
    }
  }

  /** Removing the finalizer undoes adding it. */
  lemma {:induction false} RemoveAddFinalizer(finalizers: seq<string>)
    requires Finalizer !in finalizers
    ensures RemoveFinalizer(AddFinalizer(finalizers)) == finalizers
  {
    RemoveFinalizerConcat(finalizers, [Finalizer]);
    assert RemoveFinalizer([Finalizer]) == RemoveFinalizer([Finalizer][1..]);
  }

  /** maps.Copy(dst, src) as a pure union in which `src` wins. In Go the copy
      writes into the instance's own label map (so the in-memory instance is
      changed too) and panics when that map is nil and `src` is not empty;
      the model returns the union in both cases. */
  function CopyInto(dst: NullableMap, src: NullableMap): (r: NullableMap)
    ensures IsEmptyMap(src) ==> r == dst
    ensures !IsEmptyMap(src) ==> r.Some? && Entries(r).Keys == Entries(dst).Keys + Entries(src).Keys
    ensures forall k :: k in Entries(src) ==> Entries(r)[k] == Entries(src)[k]
    ensures forall k :: k in Entries(dst) && k !in Entries(src) ==> k in Entries(r) && Entries(r)[k] == Entries(dst)[k]
  {
    if IsEmptyMap(src) then dst else Some(Entries(dst) + Entries(src))
  }

  /** serviceMutateFn of the controller file, the one Reconcile uses: labels
      and annotations are the instance's merged with the extra ones, the
      selector is {"app": name}, the type is the spec's, and the ports are
      whatever mergePorts returns, which is nothing. */
  function ServiceMutateFn(svc: S.Service, i: Instance): (r: S.Service)
    ensures r.name == svc.name && r.namespace == svc.namespace
    ensures r.selector == Some(map["app" := i.name])
    ensures r.serviceType == i.spec.service.GetOr(EmptyServiceSpec).serviceType
    ensures r.labels == CopyInto(i.labels, i.spec.service.GetOr(EmptyServiceSpec).extraLabels)
    ensures r.annotations == CopyInto(i.annotations, i.spec.service.GetOr(EmptyServiceSpec).extraAnnotations)
    ensures r.ports == []
    ensures r.owner == Some(KeyOf(i))
  {
    var service := i.spec.service.GetOr(EmptyServiceSpec);
    var labels := CopyInto(i.labels, service.extraLabels);
    var annotations := CopyInto(i.annotations, service.extraAnnotations);
    svc.(labels := labels,
         annotations := annotations,
         selector := Some(map["app" := i.name]),
         serviceType := service.serviceType,
         ports := MergePorts(svc.ports, service.ports),
         owner := Some(KeyOf(i)))
  }

  lemma ServiceMutateFnIdempotent(svc: S.Service, i: Instance)
    ensures ServiceMutateFn(ServiceMutateFn(svc, i), i) == ServiceMutateFn(svc, i)
  {
  }

  /** configMapMutateFn of the controller file: the spec's data, verbatim, and
      the owner reference. */
  function ConfigMapMutateFn(cm: CM.ConfigMap, i: Instance): (r: CM.ConfigMap)
    ensures r.name == cm.name && r.namespace == cm.namespace
    ensures r.data == i.spec.configMapData
    ensures r.owner == Some(KeyOf(i))
  {
    CM.ConfigMapMutate(cm, i.spec.configMapData).(owner := Some(KeyOf(i)))
  }

  lemma ConfigMapMutateFnIdempotent(cm: CM.ConfigMap, i: Instance)
    ensures ConfigMapMutateFn(ConfigMapMutateFn(cm, i), i) == ConfigMapMutateFn(cm, i)
  {
  }

  /** The result of create-or-update on one store. */
  datatype Stored<T> = Stored(store: map<ObjectKey, T>, trace: seq<Call>, err: Option<Error>)

  /** controllerutil.CreateOrUpdate: read the object; when it is missing,
      mutate a fresh one and create it; when it exists, mutate it and write it
      back only if the mutation changed it, as judged by `same`, the
      equality.Semantic.DeepEqual of the kind. `admits` is the API server's
      validation: a write of an object it refuses fails and changes nothing. */
  function CreateOrUpdate<T(==)>(store: map<ObjectKey, T>, key: ObjectKey, initial: T, mutate: T -> T,
                                 same: (T, T) -> bool, admits: T -> bool,
                                 get: Call, create: Call, update: Call, faults: set<Call>): (r: Stored<T>)
    requires get != create && get != update && create != update
    ensures ShortCircuit(r.trace, r.err, faults)
    ensures |r.trace| > 0 && r.trace[0] == get
    ensures r.err.Some? ==> r.store == store
    ensures var obj := mutate(if key in store then store[key] else initial);
      r.err.None? ==> r.store == if key in store && same(obj, store[key]) then store else store[key := obj]
    ensures r.err.None? ==> r.store == store || admits(mutate(if key in store then store[key] else initial))
    ensures create in r.trace <==> get !in faults && key !in store
    ensures update in r.trace <==> get !in faults && key in store && !same(mutate(store[key]), store[key])
    ensures r.err.Some? && !TransientError(r.err) ==> r.err == Some(Rejected(r.trace[|r.trace| - 1]))
    ensures var obj := mutate(if key in store then store[key] else initial);
      faults == {} ==> (r.err.None? <==> admits(obj) || (key in store && same(obj, store[key])))
    ensures faults == {} && r.err.Some? ==> r.err == Some(Rejected(if key in store then update else create))
  {
    if get in faults then Stored(store, [get], Some(Transient(get)))
    else if key !in store then
      var obj := mutate(initial);
      if create in faults then Stored(store, [get, create], Some(Transient(create)))
      else if !admits(obj) then Stored(store, [get, create], Some(Rejected(create)))
      else Stored(store[key := obj], [get, create], None)
    else
      var obj := mutate(store[key]);
      if same(obj, store[key]) then Stored(store, [get], None)
      else if update in faults then Stored(store, [get, update], Some(Transient(update)))
      else if !admits(obj) then Stored(store, [get, update], Some(Rejected(update)))
      else Stored(store[key := obj], [get, update], None)
  }

  /** finalizeNginxIngressController: read the binding (any error, NotFound
      included, is returned), write it back without the instance's subject,
      then delete the IngressClass, an already missing one counting as
      deleted. */
  method Finalize(c: Cluster, i: Instance, faults: set<Call>) returns (r: Run)
    ensures FailsAtFirstFault(r, faults)
    ensures |r.trace| > 0 && r.trace[0] == BindingGetFinalize
    ensures ClusterRoleName !in c.bindings && BindingGetFinalize !in faults ==>
      r.err == Some(NotFound) && r.cluster == c && r.trace == [BindingGetFinalize]
    ensures r.err.None? ==> (
      && ClusterRoleName in c.bindings
      && r.cluster == c.(bindings := c.bindings[ClusterRoleName := c.bindings[ClusterRoleName].(subjects :=
                           RemoveSubjects(c.bindings[ClusterRoleName].subjects, i.name, i.namespace))],
                        ingressClasses := c.ingressClasses - {IngressClassFor(i)}))
    ensures r.cluster.(bindings := c.bindings, ingressClasses := c.ingressClasses) == c
    ensures faults == {} && ClusterRoleName in c.bindings ==> r.err.None?
    ensures ClusterRoleName in c.bindings && BindingGetFinalize !in faults ==>
      r.trace == if BindingUpdateFinalize in faults then [BindingGetFinalize, BindingUpdateFinalize]
                 else [BindingGetFinalize, BindingUpdateFinalize, IngressClassDelete]
    ensures ClusterRoleName in c.bindings ==>
      (r.err.None? <==> BindingGetFinalize !in faults && BindingUpdateFinalize !in faults && IngressClassDelete !in faults)
  {
    if BindingGetFinalize in faults {
      return Fail(c, [BindingGetFinalize], Transient(BindingGetFinalize));
    }
    if ClusterRoleName !in c.bindings {
      return Fail(c, [BindingGetFinalize], NotFound);
    }
    if BindingUpdateFinalize in faults {
      return Fail(c, [BindingGetFinalize, BindingUpdateFinalize], Transient(BindingUpdateFinalize));
    }
    var b := c.bindings[ClusterRoleName];
    var filtered := c.(bindings := c.bindings[ClusterRoleName := b.(subjects := RemoveSubjects(b.subjects, i.name, i.namespace))]);
    if IngressClassDelete in faults {
      return Fail(filtered, [BindingGetFinalize, BindingUpdateFinalize, IngressClassDelete], Transient(IngressClassDelete));
    }
    r := Run(filtered.(ingressClasses := c.ingressClasses - {IngressClassFor(i)}),
             [BindingGetFinalize, BindingUpdateFinalize, IngressClassDelete], None);
  }

  /** What the Deployment step leaves behind: either no tracked field differs,
      or updating would change nothing (only the pull policy is off). */
  predicate DeploymentSettled(d: D.Deployment, i: Instance)
    requires i.spec.workload.Some?
  {
    && |d.template.containers| > 0
    && (D.HasDeploymentChanged(d, i) ==> D.UpdateDeployment(d, i) == d)
  }

  /** What the Deployment step needs of the store: the live Deployment, if
      any, has a container to compare against. */
  predicate ContainersAt(deployments: map<ObjectKey, D.Deployment>, key: ObjectKey) {
    key in deployments ==> |deployments[key].template.containers| > 0
  }

  /** The Deployment the Deployment step leaves under the instance's key:
      the generated one when none exists, the updated live one when the diff
      fires, the live one otherwise. */
  function DeploymentAfter(deployments: map<ObjectKey, D.Deployment>, i: Instance): D.Deployment
    requires ContainersAt(deployments, KeyOf(i))
    requires i.spec.workload.Some?
  {
    var key := KeyOf(i);
    if key !in deployments then D.DeploymentFor(i)
    else if D.HasDeploymentChanged(deployments[key], i) then D.UpdateDeployment(deployments[key], i)
    else deployments[key]
  }

  /** Whatever was there before, the Deployment step leaves a settled
      Deployment with at least one container, and a settled one stays. */
  lemma DeploymentAfterSettled(deployments: map<ObjectKey, D.Deployment>, i: Instance)
    requires ContainersAt(deployments, KeyOf(i))
    requires i.spec.workload.Some?
    ensures DeploymentSettled(DeploymentAfter(deployments, i), i)
    ensures KeyOf(i) in deployments && DeploymentSettled(deployments[KeyOf(i)], i) ==>
      deployments[KeyOf(i) := DeploymentAfter(deployments, i)] == deployments
  {
    var key := KeyOf(i);
    if key !in deployments {
      D.GeneratedDeploymentUnchanged(i);
    } else {
      if D.HasDeploymentChanged(deployments[key], i) {
        D.UpdateDeploymentIdempotent(deployments[key], i);
      }
      if DeploymentSettled(deployments[key], i) {
        assert deployments[key := deployments[key]] == deployments;
      }
    }
  }

  /** The Deployment the Deployment step leaves behind passes validation:
      the write it issues, if any, is not refused. */
  predicate DeploymentAccepted(deployments: map<ObjectKey, D.Deployment>, i: Instance)
    requires i.spec.workload.Some?
  {
    ContainersAt(deployments, KeyOf(i)) && D.Admitted(DeploymentAfter(deployments, i))
  }

  /** The write the Deployment step issues when the Deployment differs. */
  function DeploymentWrite(deployments: map<ObjectKey, D.Deployment>, i: Instance): Call {
    if KeyOf(i) in deployments then DeploymentUpdate else DeploymentCreate
  }

  /** The Deployment step of Reconcile on the Deployment store: create the
      generated Deployment when none exists, otherwise update the live one
      when the diff fires. A write that validation refuses fails and changes
      nothing. */
  function StoreDeployment(deployments: map<ObjectKey, D.Deployment>, i: Instance, faults: set<Call>): (st: Stored<D.Deployment>)
    requires ContainersAt(deployments, KeyOf(i))
    requires i.spec.workload.Some?
    ensures ShortCircuit(st.trace, st.err, faults)
    ensures st.trace ==
      if DeploymentGet in faults then [DeploymentGet]
      else if KeyOf(i) !in deployments then [DeploymentGet, DeploymentCreate]
      else if D.HasDeploymentChanged(deployments[KeyOf(i)], i) then [DeploymentGet, DeploymentUpdate]
      else [DeploymentGet]
    ensures st.err.Some? ==> st.store == deployments
    ensures st.err.None? ==> st.store == deployments[KeyOf(i) := DeploymentAfter(deployments, i)]
    ensures st.err.Some? && !TransientError(st.err) ==> st.err == Some(Rejected(DeploymentWrite(deployments, i)))
    ensures faults == {} && DeploymentAccepted(deployments, i) ==> st.err.None?
    ensures DeploymentsAdmitted(deployments) && !DeploymentAccepted(deployments, i) ==> st.err.Some?
    ensures !DeploymentAccepted(deployments, i) ==> st.store == deployments
  {
    var key := KeyOf(i);
    var after := DeploymentAfter(deployments, i);
    var call := DeploymentWrite(deployments, i);
    if DeploymentGet in faults then Stored(deployments, [DeploymentGet], Some(Transient(DeploymentGet)))
    else if key in deployments && !D.HasDeploymentChanged(deployments[key], i) then
      assert after == deployments[key];
      assert deployments[key := after] == deployments;
      Stored(deployments, [DeploymentGet], None)
    else if call in faults then Stored(deployments, [DeploymentGet, call], Some(Transient(call)))
    else if !D.Admitted(after) then Stored(deployments, [DeploymentGet, call], Some(Rejected(call)))
    else Stored(deployments[key := after], [DeploymentGet, call], None)
  }

  /** The Deployment step of Reconcile over the whole cluster. */
  method ConvergeDeployment(c: Cluster, i: Instance, faults: set<Call>) returns (r: Run)
    requires ContainersAt(c.deployments, KeyOf(i))
    requires i.spec.workload.Some?
    ensures FailsAtFirstFault(r, faults)
    ensures |r.trace| > 0 && r.trace[0] == DeploymentGet
    ensures r.cluster.(deployments := c.deployments) == c
    ensures r.err.Some? ==> r.cluster == c
    ensures r.err.None? ==> r.cluster.deployments == c.deployments[KeyOf(i) := DeploymentAfter(c.deployments, i)]
    ensures r.trace ==
      if DeploymentGet in faults then [DeploymentGet]
      else if KeyOf(i) !in c.deployments then [DeploymentGet, DeploymentCreate]
      else if D.HasDeploymentChanged(c.deployments[KeyOf(i)], i) then [DeploymentGet, DeploymentUpdate]
      else [DeploymentGet]
    ensures r.err.Some? && !TransientError(r.err) ==> r.err == Some(Rejected(DeploymentWrite(c.deployments, i)))
    ensures faults == {} && DeploymentAccepted(c.deployments, i) ==> r.err.None?
    ensures DeploymentsAdmitted(c.deployments) && !DeploymentAccepted(c.deployments, i) ==> r.err.Some?
    ensures !DeploymentAccepted(c.deployments, i) ==> r.cluster == c
  {
    var st := StoreDeployment(c.deployments, i, faults);
    r := Run(c.(deployments := st.store), st.trace, st.err);
  }

  /** The instance's Deployment exists and a further pass would not rewrite
      it. */
  predicate DeploymentReady(c: Cluster, i: Instance)
    requires i.spec.workload.Some?
  {
    KeyOf(i) in c.deployments && DeploymentSettled(c.deployments[KeyOf(i)], i)
  }

  /** The Deployment step leaves a settled Deployment behind, keeps the
      cluster well-formed, and leaves a settled one alone; a Deployment that
      validation refuses fails the step and changes nothing. */
  method SettleDeployment(c: Cluster, i: Instance, faults: set<Call>) returns (r: Run)
    requires ContainersAt(c.deployments, KeyOf(i))
    requires i.spec.workload.Some?
    ensures FailsAtFirstFault(r, faults)
    ensures |r.trace| > 0 && r.trace[0] == DeploymentGet
    ensures r.cluster.(deployments := c.deployments) == c
    ensures r.err.Some? ==> r.cluster == c
    ensures r.err.None? ==> DeploymentReady(r.cluster, i)
    ensures WellFormed(c) ==> WellFormed(r.cluster)
    ensures faults == {} && DeploymentAccepted(c.deployments, i) ==> r.err.None?
    ensures !DeploymentAccepted(c.deployments, i) ==> r.cluster == c
    ensures WellFormed(c) && !DeploymentAccepted(c.deployments, i) ==> r.err.Some?
    ensures faults == {} && WellFormed(c) && !DeploymentAccepted(c.deployments, i) ==>
      r.err == Some(Rejected(DeploymentWrite(c.deployments, i)))
    ensures DeploymentReady(c, i) ==> r.cluster == c
  {
    r := ConvergeDeployment(c, i, faults);
    DeploymentAfterSettled(c.deployments, i);
    if r.err.None? && WellFormed(c) {
      WellFormedWithDeployment(c, KeyOf(i), DeploymentAfter(c.deployments, i));
    }
  }

  /** The object CreateOrUpdate starts from when the Service is missing: only
      name and namespace are set. */
  function FreshService(i: Instance): S.Service {
    S.Service(i.name, i.namespace, None, None, "", None, [], None)
  }

  function FreshConfigMap(i: Instance): CM.ConfigMap {
    CM.ConfigMap(i.name, i.namespace, None, None)
  }

  /** The Service the Service step writes: the mutation of the live one, or
      of a fresh one when none exists. */
  function DesiredService(services: map<ObjectKey, S.Service>, i: Instance): S.Service {
    ServiceMutateFn(if KeyOf(i) in services then services[KeyOf(i)] else FreshService(i), i)
  }

  /** The write the Service step issues when the Service differs. */
  function ServiceWrite(services: map<ObjectKey, S.Service>, i: Instance): Call {
    if KeyOf(i) in services then ServiceUpdate else ServiceCreate
  }

  /** serviceMutateFn clears the ports, so what it writes passes validation
      only as an ExternalName Service. */
  lemma ServiceMutateFnAdmitted(svc: S.Service, i: Instance)
    ensures S.Admitted(ServiceMutateFn(svc, i)) <==> i.spec.service.GetOr(EmptyServiceSpec).serviceType == "ExternalName"
  {
  }

  /** Neither type addDefaultFields accepts is ExternalName: the Service of a
      defaulted instance is always refused. */
  lemma NormalizedServiceRefused(svc: S.Service, i: Instance)
    requires Defaults.Normalized(i.spec)
    ensures !S.Admitted(ServiceMutateFn(svc, i))
  {
    ServiceMutateFnAdmitted(svc, i);
  }

  /** The live Service is one the Service step leaves alone: the mutate
      function would not change it, up to semantic equality. */
  predicate ServiceSettled(svc: S.Service, i: Instance) {
    S.SemanticallyEqual(ServiceMutateFn(svc, i), svc)
  }

  /** The same for the ConfigMap step. */
  predicate ConfigMapSettled(cm: CM.ConfigMap, i: Instance) {
    CM.SemanticallyEqual(ConfigMapMutateFn(cm, i), cm)
  }

  /** A live ConfigMap whose data reads back as an empty map, for a spec
      without ConfigMap data: the mutate function writes nil data, which
      differs from the live object as a value, yet the step leaves it
      alone. */
  lemma EmptyConfigMapDataSettled(cm: CM.ConfigMap, i: Instance)
    requires cm.data == Some(map[]) && cm.owner == Some(KeyOf(i))
    requires i.spec.configMapData.None?
    ensures ConfigMapMutateFn(cm, i) != cm
    ensures ConfigMapSettled(cm, i)
  {
    CM.NilDataSemanticallyEmpty(cm);
  }

  /** Create-or-update of the instance's Service in the Service store. */
  method StoreService(services: map<ObjectKey, S.Service>, i: Instance, faults: set<Call>)
      returns (st: Stored<S.Service>)
    ensures ShortCircuit(st.trace, st.err, faults)
    ensures |st.trace| > 0 && st.trace[0] == ServiceGet
    ensures st.err.Some? ==> st.store == services
    ensures st.err.None? ==> st.store == if KeyOf(i) in services && ServiceSettled(services[KeyOf(i)], i) then services
                                        else services[KeyOf(i) := DesiredService(services, i)]
    ensures st.err.None? ==> KeyOf(i) in st.store && ServiceSettled(st.store[KeyOf(i)], i)
    ensures ServiceUpdate in st.trace <==>
      ServiceGet !in faults && KeyOf(i) in services && !ServiceSettled(services[KeyOf(i)], i)
    ensures ServicesAdmitted(services) ==> ServicesAdmitted(st.store)
    ensures faults == {} && S.Admitted(DesiredService(services, i)) ==> st.err.None?
    ensures ServicesAdmitted(services) && !S.Admitted(DesiredService(services, i)) ==> st.err.Some?
    ensures faults == {} && ServicesAdmitted(services) && !S.Admitted(DesiredService(services, i)) ==>
      st.err == Some(Rejected(ServiceWrite(services, i)))
    ensures KeyOf(i) in services && ServiceSettled(services[KeyOf(i)], i) ==> st.store == services
  {
    var prior := if KeyOf(i) in services then services[KeyOf(i)] else FreshService(i);
    ServiceMutateFnIdempotent(prior, i);
    if KeyOf(i) in services && ServiceSettled(prior, i) {
      S.SemanticallyEqualAdmitted(DesiredService(services, i), prior);
    }
    st := CreateOrUpdate(services, KeyOf(i), FreshService(i), (s: S.Service) => ServiceMutateFn(s, i),
                         S.SemanticallyEqual, S.Admitted, ServiceGet, ServiceCreate, ServiceUpdate, faults);
    if ServicesAdmitted(services) && st.store != services {
      ServicesAdmittedWith(services, KeyOf(i), DesiredService(services, i));
    }
  }

  /** The Service step of Reconcile. */
  method ConvergeService(c: Cluster, i: Instance, faults: set<Call>) returns (r: Run)
    ensures FailsAtFirstFault(r, faults)
    ensures |r.trace| > 0 && r.trace[0] == ServiceGet
    ensures r.cluster.(services := c.services) == c
    ensures r.err.None? ==> r.cluster.services == if KeyOf(i) in c.services && ServiceSettled(c.services[KeyOf(i)], i) then c.services
                                                   else c.services[KeyOf(i) := DesiredService(c.services, i)]
    ensures r.err.None? ==> KeyOf(i) in r.cluster.services && ServiceSettled(r.cluster.services[KeyOf(i)], i)
    ensures ServiceUpdate in r.trace <==>
      ServiceGet !in faults && KeyOf(i) in c.services && !ServiceSettled(c.services[KeyOf(i)], i)
    ensures r.err.Some? ==> r.cluster == c
    ensures ServicesAdmitted(c.services) ==> ServicesAdmitted(r.cluster.services)
    ensures faults == {} && S.Admitted(DesiredService(c.services, i)) ==> r.err.None?
    ensures ServicesAdmitted(c.services) && !S.Admitted(DesiredService(c.services, i)) ==> r.err.Some?
    ensures faults == {} && ServicesAdmitted(c.services) && !S.Admitted(DesiredService(c.services, i)) ==>
      r.err == Some(Rejected(ServiceWrite(c.services, i)))
    ensures KeyOf(i) in c.services && ServiceSettled(c.services[KeyOf(i)], i) ==> r.cluster == c
  {
    var stored := StoreService(c.services, i, faults);
    r := Run(c.(services := stored.store), stored.trace, stored.err);
  }

  /** Storing a Service that passed validation keeps every stored Service
      valid. */
  lemma ServicesAdmittedWith(services: map<ObjectKey, S.Service>, key: ObjectKey, svc: S.Service)
    requires ServicesAdmitted(services) && S.Admitted(svc)
    ensures ServicesAdmitted(services[key := svc])
  {
  }

  /** The ConfigMap step of Reconcile. Validation refuses none of the
      ConfigMaps modelled here. */
  method ConvergeConfigMap(c: Cluster, i: Instance, faults: set<Call>) returns (r: Run)
    ensures FailsAtFirstFault(r, faults)
    ensures |r.trace| > 0 && r.trace[0] == ConfigMapGet
    ensures r.cluster.(configMaps := c.configMaps) == c
    ensures r.err.None? ==>
      r.cluster.configMaps ==
        if KeyOf(i) in c.configMaps && ConfigMapSettled(c.configMaps[KeyOf(i)], i) then c.configMaps
        else c.configMaps[KeyOf(i) := ConfigMapMutateFn(if KeyOf(i) in c.configMaps then c.configMaps[KeyOf(i)] else FreshConfigMap(i), i)]
    ensures r.err.None? ==> KeyOf(i) in r.cluster.configMaps && ConfigMapSettled(r.cluster.configMaps[KeyOf(i)], i)
    ensures ConfigMapUpdate in r.trace <==>
      ConfigMapGet !in faults && KeyOf(i) in c.configMaps && !ConfigMapSettled(c.configMaps[KeyOf(i)], i)
    ensures r.err.Some? ==> r.cluster == c
    ensures faults == {} ==> r.err.None?
    ensures KeyOf(i) in c.configMaps && ConfigMapSettled(c.configMaps[KeyOf(i)], i) ==> r.cluster == c
  {
    var prior := if KeyOf(i) in c.configMaps then c.configMaps[KeyOf(i)] else FreshConfigMap(i);
    ConfigMapMutateFnIdempotent(prior, i);
    var stored := CreateOrUpdate(c.configMaps, KeyOf(i), FreshConfigMap(i), (m: CM.ConfigMap) => ConfigMapMutateFn(m, i),
                                 CM.SemanticallyEqual, (m: CM.ConfigMap) => true,
                                 ConfigMapGet, ConfigMapCreate, ConfigMapUpdate, faults);
    r := Run(c.(configMaps := stored.store), stored.trace, stored.err);
  }

  /** The status step of Reconcile: when the instance read at the start of the
      pass is not yet deployed, persist `deployed = true`. The status is never
      set back to false. */
  method MarkDeployed(c: Cluster, i: Instance, faults: set<Call>) returns (r: Run)
    ensures FailsAtFirstFault(r, faults)
    ensures i.status.deployed ==> r == Run(c, [], None)
    ensures !i.status.deployed ==> r.trace == [InstanceStatusUpdate]
    ensures r.cluster.(instances := c.instances) == c
    ensures WellFormed(c) ==> WellFormed(r.cluster)
    ensures || r.cluster.instances == c.instances
            || (&& KeyOf(i) in c.instances
                && !i.status.deployed
                && r.cluster.instances == c.instances[KeyOf(i) := c.instances[KeyOf(i)].(status := Status(true))])
    ensures r.err.None? && KeyOf(i) in c.instances ==>
      i.status.deployed || r.cluster.instances[KeyOf(i)].status.deployed
    ensures !i.status.deployed && KeyOf(i) !in c.instances && InstanceStatusUpdate !in faults ==> r.err == Some(NotFound)
    ensures faults == {} && KeyOf(i) in c.instances ==> r.err.None?
  {
    var key := KeyOf(i);
    if i.status.deployed {
      return Run(c, [], None);
    }
    if InstanceStatusUpdate in faults {
      return Fail(c, [InstanceStatusUpdate], Transient(InstanceStatusUpdate));
    }
    if key !in c.instances {
      return Fail(c, [InstanceStatusUpdate], NotFound);
    }
    r := Run(c.(instances := c.instances[key := c.instances[key].(status := Status(true))]), [InstanceStatusUpdate], None);
  }
}
