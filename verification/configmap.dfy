/** The controller ConfigMap: its generator and the two-argument mutate
    function of configmap.go. The controller file declares a second
    configMapMutateFn taking the instance (module Controller). */
module ConfigMap {
  import opened Wrappers
  import opened Types

  datatype ConfigMap = ConfigMap(name: string, namespace: string, data: NullableMap, owner: Option<ObjectKey>)

  /** configMapForNginxIngressController: the spec's data verbatim, nil
      included. */
  function ConfigMapFor(i: Instance): (cm: ConfigMap)
    ensures cm.name == i.name && cm.namespace == i.namespace
    ensures cm.data == i.spec.configMapData
    ensures cm.owner == Some(KeyOf(i))
  {
    ConfigMap(i.name, i.namespace, i.spec.configMapData, Some(KeyOf(i)))
  }

  /** configMapMutateFn of configmap.go: the data is overwritten whatever it
      held, and nothing else changes. */
  function ConfigMapMutate(cm: ConfigMap, data: NullableMap): (r: ConfigMap)
    ensures r.data == data
    ensures r.(data := cm.data) == cm
  {
    cm.(data := data)
  }

  lemma ConfigMapMutateIdempotent(cm: ConfigMap, data: NullableMap)
    ensures ConfigMapMutate(ConfigMapMutate(cm, data), data) == ConfigMapMutate(cm, data)
  {
  }

  /** Mutating with new data forgets the previous data entirely. */
  lemma ConfigMapMutateForgetsPriorData(a: ConfigMap, b: ConfigMap, data: NullableMap)
    requires a.(data := b.data) == b
    ensures ConfigMapMutate(a, data) == ConfigMapMutate(b, data)
  {
  }

  /** The form under which equality.Semantic.DeepEqual compares ConfigMaps:
      a nil and an empty data map are the same. */
  function Canonical(cm: ConfigMap): ConfigMap {
    cm.(data := CanonicalMap(cm.data))
  }

  predicate SemanticallyEqual(a: ConfigMap, b: ConfigMap) {
    Canonical(a) == Canonical(b)
  }

  /** Semantic equality field by field: every field but the data is equal,
      and the data maps hold the same entries. */
  lemma SemanticallyEqualFieldwise(a: ConfigMap, b: ConfigMap)
    ensures SemanticallyEqual(a, b) <==> a.(data := None) == b.(data := None) && Entries(a.data) == Entries(b.data)
  {
    CanonicalMapIdentifiesEntries(a.data, b.data);
  }

  /** A ConfigMap with nil data and one with empty data differ as values but
      are semantically equal. */
  lemma NilDataSemanticallyEmpty(cm: ConfigMap)
    ensures cm.(data := None) != cm.(data := Some(map[]))
    ensures SemanticallyEqual(cm.(data := None), cm.(data := Some(map[])))
  {
  }

  lemma GeneratedConfigMapIsMutateFixpoint(i: Instance)
    ensures ConfigMapMutate(ConfigMapFor(i), i.spec.configMapData) == ConfigMapFor(i)
  {
  }
}
