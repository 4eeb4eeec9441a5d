/** The controller Service: its generator and the three-argument mutate
    function of service.go. The controller file declares a second
    serviceMutateFn with another signature (module Controller); the package
    as shown declares the name twice. */
module Service {
  import opened Wrappers
  import opened Types

  datatype Service = Service(
    name: string,
    namespace: string,
    labels: NullableMap,
    annotations: NullableMap,
    serviceType: string,
    selector: NullableMap,
    ports: seq<ServicePort>,
    owner: Option<ObjectKey>)

  /** The service types the API server accepts; an empty type is defaulted
      to ClusterIP before validation. */
  const KnownServiceTypes := {"ClusterIP", "NodePort", "LoadBalancer", "ExternalName"}

  function EffectiveType(svc: Service): string {
    if svc.serviceType == "" then "ClusterIP" else svc.serviceType
  }

  /** What the API server's Service validation asks of the fields modelled
      here: a known type, and at least one port unless the Service is of
      type ExternalName. A write of a Service that fails it is refused. */
  predicate Admitted(svc: Service) {
    && EffectiveType(svc) in KnownServiceTypes
    && (|svc.ports| > 0 || EffectiveType(svc) == "ExternalName")
  }

  /** The form under which equality.Semantic.DeepEqual compares Services:
      a nil and an empty label, annotation or selector map are the same. */
  function Canonical(svc: Service): Service {
    svc.(labels := CanonicalMap(svc.labels), annotations := CanonicalMap(svc.annotations),
         selector := CanonicalMap(svc.selector))
  }

  predicate SemanticallyEqual(a: Service, b: Service) {
    Canonical(a) == Canonical(b)
  }

  /** Semantic equality field by field: every field but the three maps is
      equal, and each pair of maps holds the same entries. */
  lemma SemanticallyEqualFieldwise(a: Service, b: Service)
    ensures SemanticallyEqual(a, b) <==>
      && a.(labels := None, annotations := None, selector := None) == b.(labels := None, annotations := None, selector := None)
      && Entries(a.labels) == Entries(b.labels)
      && Entries(a.annotations) == Entries(b.annotations)
      && Entries(a.selector) == Entries(b.selector)
  {
    CanonicalMapIdentifiesEntries(a.labels, b.labels);
    CanonicalMapIdentifiesEntries(a.annotations, b.annotations);
    CanonicalMapIdentifiesEntries(a.selector, b.selector);
  }

  /** Validation looks only at fields semantic equality compares exactly. */
  lemma SemanticallyEqualAdmitted(a: Service, b: Service)
    requires SemanticallyEqual(a, b)
    ensures Admitted(a) <==> Admitted(b)
  {
    assert a.serviceType == Canonical(a).serviceType == Canonical(b).serviceType == b.serviceType;
    assert a.ports == Canonical(a).ports == Canonical(b).ports == b.ports;
  }

  const HttpPort := ServicePort("http", "TCP", None, 80, IntOrString(IntKind, 80, ""), 0)
  const HttpsPort := ServicePort("https", "TCP", None, 443, IntOrString(IntKind, 443, ""), 0)

  /** serviceForNginxIngressController. The labels fall back to an empty map
      when the service section is nil, but the type is then read through the
      nil pointer, so the section must be set. */
  function ServiceFor(i: Instance): (svc: Service)
    requires i.spec.service.Some?
    ensures svc.name == i.name && svc.namespace == i.namespace
    ensures svc.selector == Some(map["app" := i.name])
    ensures svc.ports == [HttpPort, HttpsPort]
    ensures svc.ports[0].name == "http" && svc.ports[0].protocol == "TCP"
    ensures svc.ports[0].port == 80 && svc.ports[0].targetPort.intVal == 80
    ensures svc.ports[1].name == "https" && svc.ports[1].protocol == "TCP"
    ensures svc.ports[1].port == 443 && svc.ports[1].targetPort.intVal == 443
    ensures svc.labels == i.spec.service.value.extraLabels
    ensures svc.annotations == i.spec.service.value.extraAnnotations
    ensures svc.serviceType == i.spec.service.value.serviceType
    ensures svc.owner == Some(KeyOf(i))
  {
    var service := i.spec.service.value;
    Service(i.name, i.namespace, service.extraLabels, service.extraAnnotations, service.serviceType,
            Some(map["app" := i.name]), [HttpPort, HttpsPort], Some(KeyOf(i)))
  }

  /** The generated Service carries the http and https ports, so validation
      judges it by its type alone. */
  lemma GeneratedServiceAdmitted(i: Instance)
    requires i.spec.service.Some?
    ensures Admitted(ServiceFor(i)) <==> EffectiveType(ServiceFor(i)) in KnownServiceTypes
  {
  }

  /** serviceMutateFn of service.go: sets the type, labels and annotations and
      nothing else. */
  function ServiceMutate(svc: Service, serviceType: string, labels: NullableMap, annotations: NullableMap): (r: Service)
    ensures r.serviceType == serviceType && r.labels == labels && r.annotations == annotations
    ensures r.(serviceType := svc.serviceType, labels := svc.labels, annotations := svc.annotations) == svc
  {
    svc.(serviceType := serviceType, labels := labels, annotations := annotations)
  }

  lemma ServiceMutateIdempotent(svc: Service, serviceType: string, labels: NullableMap, annotations: NullableMap)
    ensures ServiceMutate(ServiceMutate(svc, serviceType, labels, annotations), serviceType, labels, annotations)
         == ServiceMutate(svc, serviceType, labels, annotations)
  {
  }

  /** The generated Service already carries what the mutate function writes
      from its own service section. */
  lemma GeneratedServiceIsMutateFixpoint(i: Instance)
    requires i.spec.service.Some?
    ensures var s := i.spec.service.value;
      ServiceMutate(ServiceFor(i), s.serviceType, s.extraLabels, s.extraAnnotations) == ServiceFor(i)
  {
  }
}
