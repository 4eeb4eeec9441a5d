/** addDefaultFields: fills the fixed defaults into a spec and rejects pull
    policies and service types outside the accepted lists. Failing leaves the
    spec as it was; nothing is written to the cluster either way. */
module Defaults {
  import opened Wrappers
  import opened Types
  import opened Utils

  const DefaultRepository := "registry.k8s.io/ingress-nginx/controller"
  const DefaultTag := "v1.3.0"
  const DefaultPullPolicy := "IfNotPresent"
  const DefaultReplicaCount: Int32 := 1
  const DefaultServiceType := "NodePort"
  const DefaultIngressClass := "nginx"

  const PullPolicies := ["Always", "IfNotPresent", "Never"]

  /** The accepted service types, with "LoadBalancer" misspelled exactly as in
      the controller: the documented value "LoadBalancer" is refused. */
  const ServiceTypes := ["NodePort", "LoadBanlancer"]

  datatype ValidationError = InvalidPullPolicy(pullPolicy: string) | InvalidServiceType(serviceType: string)

  /** The pull policy a spec asks for, an empty one meaning the default. */
  function RequestedPullPolicy(s: Spec): string {
    if s.image.pullPolicy == "" then DefaultPullPolicy else s.image.pullPolicy
  }

  /** The service type a spec asks for, a nil section or empty type meaning
      the default. */
  function RequestedServiceType(s: Spec): string {
    if s.service.None? || s.service.value.serviceType == "" then DefaultServiceType
    else s.service.value.serviceType
  }

  /** A spec with every defaulted field filled and both enumerations valid. */
  predicate Normalized(s: Spec) {
    && s.image.repository != ""
    && s.image.tag != ""
    && s.image.pullPolicy in PullPolicies
    && s.replicas.Some?
    && s.service.Some?
    && s.service.value.serviceType in ServiceTypes
    && s.workload.Some?
    && s.ingressClass != ""
  }

  function AddDefaultFields(s: Spec): (r: Result<Spec, ValidationError>)
    // the two checks, in the order they run
    ensures r.Success? <==>
      (s.image.pullPolicy == "" || s.image.pullPolicy in {"Always", "IfNotPresent", "Never"})
      && (s.service.None? || s.service.value.serviceType == ""
          || s.service.value.serviceType in {"NodePort", "LoadBanlancer"})
    ensures r.Failure? && s.image.pullPolicy != "" && s.image.pullPolicy !in PullPolicies ==>
      r.error == InvalidPullPolicy(s.image.pullPolicy)
    ensures r.Failure? && (s.image.pullPolicy == "" || s.image.pullPolicy in PullPolicies) ==>
      r.error == InvalidServiceType(s.service.value.serviceType)
    // defaults only where a field is empty or nil
    ensures r.Success? ==> Normalized(r.value)
    ensures r.Success? ==> r.value.image.repository == (if s.image.repository == "" then DefaultRepository else s.image.repository)
    ensures r.Success? ==> r.value.image.tag == (if s.image.tag == "" then DefaultTag else s.image.tag)
    ensures r.Success? ==> r.value.image.pullPolicy == RequestedPullPolicy(s)
    ensures r.Success? ==> r.value.replicas == (if s.replicas.None? then Some(DefaultReplicaCount) else s.replicas)
    ensures r.Success? ==> r.value.service.value.serviceType == RequestedServiceType(s)
    ensures r.Success? ==> r.value.ingressClass == (if s.ingressClass == "" then DefaultIngressClass else s.ingressClass)
    ensures r.Success? && s.service.Some? ==>
      r.value.service.value.(serviceType := s.service.value.serviceType) == s.service.value
    ensures r.Success? && s.service.None? ==> r.value.service.value.(serviceType := "") == EmptyServiceSpec
    ensures r.Success? ==> r.value.workload == Some(s.workload.GetOr(EmptyWorkload))
    ensures r.Success? ==> r.value.watchNamespace == s.watchNamespace && r.value.configMapData == s.configMapData
  {
    var repository := if s.image.repository == "" then DefaultRepository else s.image.repository;
    var tag := if s.image.tag == "" then DefaultTag else s.image.tag;
    var pullPolicy := if s.image.pullPolicy == "" then DefaultPullPolicy else s.image.pullPolicy;
    if !ContainsStr(PullPolicies, pullPolicy) then Failure(InvalidPullPolicy(pullPolicy))
    else
      var replicas := if s.replicas.None? then Some(DefaultReplicaCount) else s.replicas;
      var service := s.service.GetOr(EmptyServiceSpec);
      var service' := if service.serviceType == "" then service.(serviceType := DefaultServiceType) else service;
      if !ContainsStr(ServiceTypes, service'.serviceType) then Failure(InvalidServiceType(service'.serviceType))
      else
        var workload := s.workload.GetOr(EmptyWorkload);
        var ingressClass := if s.ingressClass == "" then DefaultIngressClass else s.ingressClass;
        Success(s.(image := Image(repository, tag, pullPolicy),
                   replicas := replicas,
                   service := Some(service'),
                   workload := Some(workload),
                   ingressClass := ingressClass))
  }

  /** Normalizing a normalized spec changes nothing. */
  lemma AddDefaultFieldsIdempotent(s: Spec)
    requires AddDefaultFields(s).Success?
    ensures AddDefaultFields(AddDefaultFields(s).value) == AddDefaultFields(s)
  {
    var n := AddDefaultFields(s).value;
    NormalizedIsFixpoint(n);
  }

  /** A normalized spec is its own normal form. */
  lemma NormalizedIsFixpoint(s: Spec)
    requires Normalized(s)
    ensures AddDefaultFields(s) == Success(s)
  {
    var r := AddDefaultFields(s);
    assert r.Success?;
    assert r.value.image == s.image;
    assert r.value.service == s.service;
  }

  /** The Service type the API documents as valid is refused. */
  lemma LoadBalancerRejected(s: Spec)
    requires s.image.pullPolicy in PullPolicies
    requires s.service.Some? && s.service.value.serviceType == "LoadBalancer"
    ensures AddDefaultFields(s) == Failure(InvalidServiceType("LoadBalancer"))
  {
  }

  /** An empty image, no replica count and no service section normalize to
      the documented defaults. */
  lemma EmptySpecDefaults(s: Spec)
    requires s.image == Image("", "", "") && s.replicas.None? && s.service.None?
    ensures AddDefaultFields(s).Success?
    ensures var n := AddDefaultFields(s).value;
      && n.image == Image("registry.k8s.io/ingress-nginx/controller", "v1.3.0", "IfNotPresent")
      && n.replicas == Some(1)
      && n.service.value.serviceType == "NodePort"
      && n.ingressClass == (if s.ingressClass == "" then "nginx" else s.ingressClass)
  {
  }

  /** An unknown service type is refused and named in the error. */
  lemma BogusServiceTypeRejected(s: Spec)
    requires s.image.pullPolicy == ""
    requires s.service == Some(EmptyServiceSpec.(serviceType := "Bogus"))
    ensures AddDefaultFields(s) == Failure(InvalidServiceType("Bogus"))
  {
  }
}
