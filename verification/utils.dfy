/** Helpers shared by the generators and the diff: container arguments, image
    reference, label merge, resource comparison and string membership. */
module Utils {
  import opened Wrappers
  import opened Types

  /** containsStr: whether `d` occurs in `src`. */
  function ContainsStr(src: seq<string>, d: string): (r: bool)
    ensures r <==> d in src
  {
    if |src| == 0 then false
    else if src[0] == d then true
    else ContainsStr(src[1..], d)
  }

  const ControllerBinary := "/nginx-ingress-controller"
  const PublishServicePrefix := "--publish-service=$(POD_NAMESPACE)/"
  const ConfigMapPrefix := "--configmap=$(POD_NAMESPACE)/"
  const ElectionIdPrefix := "--election-id="
  const LockSuffix := "-lock"
  const IngressClassPrefix := "--ingress-class="
  const ControllerClassPrefix := "--controller-class=kubegems.io/ingress-nginx-"
  const WatchNamespacePrefix := "-watch-namespace="

  /** The leader-election id a controller pod is started with. */
  function PodElectionId(name: string): string {
    name + LockSuffix
  }

  /** generatePodArgs: the fixed ordered argument list, plus the
      watch-namespace flag last when a namespace filter is set. */
  function GeneratePodArgs(i: Instance): (args: seq<string>)
    ensures |args| == if i.spec.watchNamespace == "" then 6 else 7
    ensures args[0] == ControllerBinary
    ensures args[1] == PublishServicePrefix + i.name
    ensures args[2] == ConfigMapPrefix + i.name
    ensures args[3] == ElectionIdPrefix + PodElectionId(i.name)
    ensures args[4] == IngressClassPrefix + i.spec.ingressClass
    ensures args[5] == ControllerClassPrefix + i.spec.ingressClass
    ensures |args| == 7 ==> args[6] == WatchNamespacePrefix + i.spec.watchNamespace
  {
    var base := [
      ControllerBinary,
      PublishServicePrefix + i.name,
      ConfigMapPrefix + i.name,
      ElectionIdPrefix + i.name + LockSuffix,
      IngressClassPrefix + i.spec.ingressClass,
      ControllerClassPrefix + i.spec.ingressClass
    ];
    if i.spec.watchNamespace != "" then base + [WatchNamespacePrefix + i.spec.watchNamespace]
    else base
  }

  /** The arguments depend on the instance name, the ingress class and the
      watch namespace and on nothing else. */
  lemma PodArgsDependOnlyOnNameClassNamespace(a: Instance, b: Instance)
    requires a.name == b.name
    requires a.spec.ingressClass == b.spec.ingressClass
    requires a.spec.watchNamespace == b.spec.watchNamespace
    ensures GeneratePodArgs(a) == GeneratePodArgs(b)
  {
  }

  lemma PrefixCancel(p: string, x: string, y: string)
    requires p + x == p + y
    ensures x == y
  {
    assert x == (p + x)[|p|..];
    assert y == (p + y)[|p|..];
  }

  /** Conversely the arguments determine those three inputs: two instances get
      the same argument list only if they agree on name, class and namespace. */
  lemma PodArgsDetermineNameClassNamespace(a: Instance, b: Instance)
    requires GeneratePodArgs(a) == GeneratePodArgs(b)
    ensures a.name == b.name
    ensures a.spec.ingressClass == b.spec.ingressClass
    ensures a.spec.watchNamespace == b.spec.watchNamespace
  {
    var args := GeneratePodArgs(a);
    PrefixCancel(PublishServicePrefix, a.name, b.name);
    PrefixCancel(IngressClassPrefix, a.spec.ingressClass, b.spec.ingressClass);
    if |args| == 7 {
      PrefixCancel(WatchNamespacePrefix, a.spec.watchNamespace, b.spec.watchNamespace);
    }
  }

  /** hasDifferentArguments: whether the container arguments differ from the
      generated ones as an ordered sequence. */
  function HasDifferentArguments(args: seq<string>, i: Instance): (r: bool)
    ensures !r ==> |args| >= 6 && args[3] == ElectionIdPrefix + PodElectionId(i.name)
    ensures r <==> args != GeneratePodArgs(i)
  {
    GeneratePodArgs(i) != args
  }

  /** generateImage: "<repository>:<tag>". */
  function GenerateImage(repository: string, tag: string): (image: string)
    ensures |image| == |repository| + 1 + |tag|
    ensures image[..|repository|] == repository
    ensures image[|repository|] == ':'
    ensures image[|repository| + 1..] == tag
  {
    repository + ":" + tag
  }

  /** The example of utils_test.go. */
  lemma GenerateImageExample()
    ensures GenerateImage("repository/image", "version") == "repository/image:version"
  {
  }

  /** For colon-free tags the image reference determines repository and tag,
      so a changed repository or tag always shows up as a changed image. */
  lemma GenerateImageInjective(r1: string, t1: string, r2: string, t2: string)
    requires ':' !in t1 && ':' !in t2
    requires GenerateImage(r1, t1) == GenerateImage(r2, t2)
    ensures r1 == r2 && t1 == t2
  {
  }

  /** mergeLabels: `toadd` itself when `origin` is empty (nil stays nil),
      otherwise the union with `toadd` winning on shared keys. The Go code
      writes into `origin`; every caller passes a fresh literal, so the
      aliasing is invisible. */
  function MergeLabels(origin: NullableMap, toadd: NullableMap): (r: NullableMap)
    ensures IsEmptyMap(origin) ==> r == toadd
    ensures !IsEmptyMap(origin) ==> r.Some?
    ensures !IsEmptyMap(origin) ==> Entries(r).Keys == Entries(origin).Keys + Entries(toadd).Keys
    ensures !IsEmptyMap(origin) ==>
      forall k :: k in Entries(toadd) ==> Entries(r)[k] == Entries(toadd)[k]
    ensures !IsEmptyMap(origin) ==>
      forall k :: k in Entries(origin) && k !in Entries(toadd) ==> Entries(r)[k] == Entries(origin)[k]
  {
    if IsEmptyMap(origin) then toadd
    else Some(Entries(origin) + Entries(toadd))
  }

  /** The example of utils_test.go. */
  lemma MergeLabelsExample()
    ensures MergeLabels(Some(map["app" := "ngnix"]), Some(map["key" := "value"]))
         == Some(map["app" := "ngnix", "key" := "value"])
  {
    var r := MergeLabels(Some(map["app" := "ngnix"]), Some(map["key" := "value"]));
    assert !IsEmptyMap(Some(map["app" := "ngnix"])) by {
      assert "app" in Entries(Some(map["app" := "ngnix"]));
    }
    assert Entries(r).Keys == {"app", "key"};
    assert Entries(r)["app"] == "ngnix" && Entries(r)["key"] == "value";
    assert Entries(r) == map["app" := "ngnix", "key" := "value"];
  }

  /** ResourceList.Cpu() / Memory(): the named quantity, zero when absent. */
  function Quantity(l: ResourceList, resource: string): int {
    if resource in l then l[resource] else 0
  }

  /** The quantities HasDifferentResources looks at. */
  predicate SameCpuMemory(a: Resources, b: Resources) {
    && Quantity(a.requests, "cpu") == Quantity(b.requests, "cpu")
    && Quantity(a.requests, "memory") == Quantity(b.requests, "memory")
    && Quantity(a.limits, "cpu") == Quantity(b.limits, "cpu")
    && Quantity(a.limits, "memory") == Quantity(b.limits, "memory")
  }

  /** HasDifferentResources: cpu and memory of requests and limits, compared
      by value; other resource names are not looked at. */
  function HasDifferentResources(origin: Resources, newone: Resources): (r: bool)
    ensures r <==> !SameCpuMemory(origin, newone)
  {
    !(Quantity(origin.requests, "cpu") == Quantity(newone.requests, "cpu")
      && Quantity(origin.requests, "memory") == Quantity(newone.requests, "memory")
      && Quantity(origin.limits, "cpu") == Quantity(newone.limits, "cpu")
      && Quantity(origin.limits, "memory") == Quantity(newone.limits, "memory"))
  }

  lemma HasDifferentResourcesIrreflexive(a: Resources)
    ensures !HasDifferentResources(a, a)
  {
  }

  lemma HasDifferentResourcesSymmetric(a: Resources, b: Resources)
    ensures HasDifferentResources(a, b) == HasDifferentResources(b, a)
  {
  }

  /** Setting any resource other than cpu or memory, in requests or limits,
      never changes the verdict; neither does spelling out a zero quantity. */
  lemma HasDifferentResourcesIgnoresOtherNames(a: Resources, b: Resources, n: string, q: int)
    requires n != "cpu" && n != "memory"
    ensures HasDifferentResources(Resources(a.limits[n := q], a.requests), b) == HasDifferentResources(a, b)
    ensures HasDifferentResources(Resources(a.limits, a.requests[n := q]), b) == HasDifferentResources(a, b)
    ensures !HasDifferentResources(NoResources, Resources(map["cpu" := 0], map["memory" := 0]))
  {
  }
}
