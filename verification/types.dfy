/** The custom resource NginxIngressController (api/v1beta1) and the few core/v1
    value types its spec embeds. */
module Types {
  import opened Wrappers

  /** A Go map[string]string. `None` is a nil map and `Some(m)` a non-nil one:
      reflect.DeepEqual tells the two apart, so the model does too;
      semantic equality does not (`CanonicalMap`). */
  type StringMap = map<string, string>
  type NullableMap = Option<StringMap>

  /** The entries a nullable map holds; a nil map reads as empty. */
  function Entries(m: NullableMap): StringMap {
    m.GetOr(map[])
  }

  /** Go's `len(m) == 0`, which holds for nil and for empty maps alike. */
  predicate IsEmptyMap(m: NullableMap) {
    Entries(m) == map[]
  }

  /** The representative of a map under apimachinery's semantic equality,
      which does not tell a nil map from an empty one: an empty map reads as
      nil, any other map as itself. */
  function CanonicalMap(m: NullableMap): (r: NullableMap)
    ensures Entries(r) == Entries(m)
    ensures r.Some? ==> r.value != map[]
  {
    if IsEmptyMap(m) then None else m
  }

  /** Two maps have the same representative exactly when they hold the same
      entries, whether either of them is nil. */
  lemma CanonicalMapIdentifiesEntries(a: NullableMap, b: NullableMap)
    ensures CanonicalMap(a) == CanonicalMap(b) <==> Entries(a) == Entries(b)
  {
  }

  type Int32 = x: int | -0x8000_0000 <= x < 0x8000_0000
  type UInt16 = x: int | 0 <= x < 0x1_0000

  /** The namespace/name pair that identifies a namespaced object. */
  datatype ObjectKey = ObjectKey(namespace: string, name: string)

  /** intstr.IntOrString: `kind` is 0 for an integer and 1 for a string. */
  datatype IntOrString = IntOrString(kind: int, intVal: Int32, strVal: string)

  const IntKind: int := 0
  const StringKind: int := 1

  /** corev1.ServicePort, with the fields the operator reads or writes. */
  datatype ServicePort = ServicePort(
    name: string,
    protocol: string,
    appProtocol: Option<string>,
    port: Int32,
    targetPort: IntOrString,
    nodePort: Int32)

  /** The Go zero value of a ServicePort. */
  const ZeroPort := ServicePort("", "", None, 0, IntOrString(IntKind, 0, ""), 0)

  /** corev1.ResourceRequirements; every quantity is an already canonical
      integer, so quantity equality is integer equality. */
  type ResourceList = map<string, int>
  datatype Resources = Resources(limits: ResourceList, requests: ResourceList)

  const NoResources := Resources(map[], map[])

  datatype Image = Image(repository: string, tag: string, pullPolicy: string)

  /** The Service section of the spec; `serviceType` is the JSON field `type`. */
  datatype ServiceSpec = ServiceSpec(
    serviceType: string,
    extraLabels: NullableMap,
    extraAnnotations: NullableMap,
    ports: seq<ServicePort>)

  const EmptyServiceSpec := ServiceSpec("", None, None, [])

  datatype Workload = Workload(resources: Resources, extraLabels: NullableMap)

  const EmptyWorkload := Workload(NoResources, None)

  /** A metrics port as the schema admits it. */
  type MetricsPortNumber = p: int | 1023 <= p <= 65535 witness 10254

  /** Prometheus metrics settings. The spec has no field of this type; a
      missing port means 10254. */
  datatype Metrics = Metrics(enable: bool, port: Option<MetricsPortNumber>)

  const DefaultMetricsPort: MetricsPortNumber := 10254

  /** NginxIngressControllerSpec. `replicas`, `service` and `workload` are
      nullable pointers; `configMapData` is a nullable map. */
  datatype Spec = Spec(
    image: Image,
    replicas: Option<Int32>,
    ingressClass: string,
    service: Option<ServiceSpec>,
    workload: Option<Workload>,
    watchNamespace: string,
    configMapData: NullableMap)

  datatype Status = Status(deployed: bool)

  /** An NginxIngressController object: the metadata the operator reads
      (labels, annotations, finalizers, whether a deletion timestamp is set)
      together with spec and status. */
  datatype Instance = Instance(
    name: string,
    namespace: string,
    labels: NullableMap,
    annotations: NullableMap,
    finalizers: seq<string>,
    deletionMarked: bool,
    spec: Spec,
    status: Status)

  function KeyOf(i: Instance): ObjectKey {
    ObjectKey(i.namespace, i.name)
  }
}
