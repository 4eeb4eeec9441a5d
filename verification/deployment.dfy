/** The controller Deployment: its generator, the diff that decides whether a
    live Deployment must be updated, and the update itself. Security context,
    probes, environment and the preStop hook are constant literals and are not
    represented. */
module Deployment {
  import opened Wrappers
  import opened Types
  import opened Utils

  datatype ContainerPort = ContainerPort(name: string, containerPort: int)

  datatype Container = Container(
    name: string,
    image: string,
    pullPolicy: string,
    args: seq<string>,
    ports: seq<ContainerPort>,
    resources: Resources)

  datatype PodTemplate = PodTemplate(
    name: string,
    namespace: string,
    labels: NullableMap,
    serviceAccountName: string,
    containers: seq<Container>)

  datatype Deployment = Deployment(
    name: string,
    namespace: string,
    labels: NullableMap,
    selector: StringMap,
    replicas: Option<Int32>,
    template: PodTemplate,
    owner: Option<ObjectKey>)

  /** The replica count an absent one stands for. */
  const DefaultReplicas: int := 1

  const ControllerPorts := [
    ContainerPort("http", 80),
    ContainerPort("https", 443),
    ContainerPort("metrics", 10254)
  ]

  /** The pod selector and base template labels: {"app": name}. */
  function AppSelector(name: string): StringMap {
    map["app" := name]
  }

  /** deploymentForNginxIngressController (the fields the operator computes).
      It reads the workload section without a nil check. */
  function DeploymentFor(i: Instance): (d: Deployment)
    requires i.spec.workload.Some?
    ensures d.name == i.name && d.namespace == i.namespace
    ensures d.selector == map["app" := i.name]
    ensures d.owner == Some(KeyOf(i))
    ensures d.replicas == i.spec.replicas
    ensures d.labels == i.spec.workload.value.extraLabels
    ensures d.template.name == i.name && d.template.namespace == i.namespace
    ensures d.template.serviceAccountName == i.name
    ensures d.template.labels == MergeLabels(Some(map["app" := i.name]), i.spec.workload.value.extraLabels)
    ensures |d.template.containers| == 1
    ensures var c := d.template.containers[0];
      && c.name == i.name
      && c.image == GenerateImage(i.spec.image.repository, i.spec.image.tag)
      && c.pullPolicy == i.spec.image.pullPolicy
      && c.args == GeneratePodArgs(i)
      && c.resources == i.spec.workload.value.resources
      && |c.ports| == 3
      && c.ports[0] == ContainerPort("http", 80)
      && c.ports[1] == ContainerPort("https", 443)
      && c.ports[2] == ContainerPort("metrics", 10254)
  {
    var workload := i.spec.workload.value;
    var container := Container(
      i.name,
      GenerateImage(i.spec.image.repository, i.spec.image.tag),
      i.spec.image.pullPolicy,
      GeneratePodArgs(i),
      ControllerPorts,
      workload.resources);
    Deployment(
      i.name, i.namespace, workload.extraLabels, AppSelector(i.name), i.spec.replicas,
      PodTemplate(i.name, i.namespace, MergeLabels(Some(AppSelector(i.name)), workload.extraLabels), i.name, [container]),
      Some(KeyOf(i)))
  }

  /** The pods carry "app": <name> unless the extra labels set "app"
      themselves, in which case the extra value wins and the selector no longer
      matches the template. */
  lemma TemplateAppLabel(i: Instance)
    requires i.spec.workload.Some?
    ensures var labels := Entries(DeploymentFor(i).template.labels);
      && "app" in labels
      && labels["app"] == (if "app" in Entries(i.spec.workload.value.extraLabels)
                           then Entries(i.spec.workload.value.extraLabels)["app"] else i.name)
  {
    assert "app" in Entries(Some(map["app" := i.name]));
  }

  /** The part of apps/v1 Deployment validation that the operator's writes
      run into: the pod template has a container, the replica count is not
      negative, and every selector entry is among the template's labels. */
  predicate Admitted(d: Deployment) {
    && |d.template.containers| > 0
    && (d.replicas.Some? ==> d.replicas.value >= 0)
    && (forall k :: k in d.selector ==> k in Entries(d.template.labels) && Entries(d.template.labels)[k] == d.selector[k])
  }

  /** What a spec needs for the Deployments generated from it to pass
      validation: a replica count that is not negative, and no extra "app"
      label other than the instance's name. */
  predicate SpecAdmissible(i: Instance)
    requires i.spec.workload.Some?
  {
    var extra := Entries(i.spec.workload.value.extraLabels);
    && (i.spec.replicas.Some? ==> i.spec.replicas.value >= 0)
    && ("app" in extra ==> extra["app"] == i.name)
  }

  /** The generated Deployment passes validation exactly when the spec is
      admissible: a negative replica count and an extra "app" label naming
      something else are the only ways to fail. */
  lemma GeneratedDeploymentAdmitted(i: Instance)
    requires i.spec.workload.Some?
    ensures Admitted(DeploymentFor(i)) <==> SpecAdmissible(i)
  {
    TemplateAppLabel(i);
  }

  /** An update of a Deployment that carries the operator's selector passes
      validation exactly when the spec is admissible. */
  lemma UpdatedDeploymentAdmitted(dep: Deployment, i: Instance)
    requires i.spec.workload.Some?
    requires |dep.template.containers| > 0
    requires dep.selector == AppSelector(i.name)
    ensures Admitted(UpdateDeployment(dep, i)) <==> SpecAdmissible(i)
  {
    TemplateAppLabel(i);
    assert UpdateDeployment(dep, i).template.labels == DeploymentFor(i).template.labels;
  }

  /** The replica rule of hasDeploymentChanged: only a set observed count can
      differ, from the desired one or, when none is desired, from 1. */
  predicate ReplicasChanged(observed: Option<Int32>, desired: Option<Int32>) {
    || (observed.Some? && desired.None? && observed.value != DefaultReplicas)
    || (observed.Some? && desired.Some? && observed.value != desired.value)
  }

  lemma NilObservedReplicasNeverChange(desired: Option<Int32>)
    ensures !ReplicasChanged(None, desired)
  {
  }

  /** hasDeploymentChanged. The first container is read without a length
      check, so the Deployment must have one; a nil workload reads as an empty
      one. */
  function HasDeploymentChanged(dep: Deployment, i: Instance): (changed: bool)
    requires |dep.template.containers| > 0
    ensures ReplicasChanged(dep.replicas, i.spec.replicas) ==> changed
    ensures !changed ==> dep.template.containers[0].image == GenerateImage(i.spec.image.repository, i.spec.image.tag)
    ensures !changed ==> dep.template.containers[0].pullPolicy == i.spec.image.pullPolicy
    ensures !changed ==> dep.labels == i.spec.workload.GetOr(EmptyWorkload).extraLabels
    ensures !changed ==> SameCpuMemory(dep.template.containers[0].resources, i.spec.workload.GetOr(EmptyWorkload).resources)
    ensures !changed ==> dep.template.containers[0].args == GeneratePodArgs(i)
    ensures changed ==> (ReplicasChanged(dep.replicas, i.spec.replicas)
      || dep.template.containers[0].image != GenerateImage(i.spec.image.repository, i.spec.image.tag)
      || dep.template.containers[0].pullPolicy != i.spec.image.pullPolicy
      || dep.labels != i.spec.workload.GetOr(EmptyWorkload).extraLabels
      || !SameCpuMemory(dep.template.containers[0].resources, i.spec.workload.GetOr(EmptyWorkload).resources)
      || dep.template.containers[0].args != GeneratePodArgs(i))
  {
    if ReplicasChanged(dep.replicas, i.spec.replicas) then true
    else
      var container := dep.template.containers[0];
      if container.image != GenerateImage(i.spec.image.repository, i.spec.image.tag) then true
      else if container.pullPolicy != i.spec.image.pullPolicy then true
      else
        var workload := i.spec.workload.GetOr(EmptyWorkload);
        if dep.labels != workload.extraLabels then true
        else if HasDifferentResources(container.resources, workload.resources) then true
        else HasDifferentArguments(container.args, i)
  }

  /** updateDeployment: writes the replica count (1 when none is set), the
      image, arguments and resources of the first container, and the
      Deployment and template labels. The pull policy is not written. */
  function UpdateDeployment(dep: Deployment, i: Instance): (r: Deployment)
    requires i.spec.workload.Some?
    requires |dep.template.containers| > 0
    ensures r.replicas == Some(i.spec.replicas.GetOr(DefaultReplicas))
    ensures r.labels == i.spec.workload.value.extraLabels
    ensures r.template.labels == MergeLabels(Some(map["app" := i.name]), i.spec.workload.value.extraLabels)
    ensures |r.template.containers| == |dep.template.containers|
    ensures var c := r.template.containers[0]; var old_c := dep.template.containers[0];
      && c.image == GenerateImage(i.spec.image.repository, i.spec.image.tag)
      && c.args == GeneratePodArgs(i)
      && c.resources == i.spec.workload.value.resources
      && c.pullPolicy == old_c.pullPolicy
      && c.name == old_c.name
      && c.ports == old_c.ports
    ensures r.template.containers[1..] == dep.template.containers[1..]
    ensures r.name == dep.name && r.namespace == dep.namespace
    ensures r.selector == dep.selector && r.owner == dep.owner
    ensures r.template.name == dep.template.name && r.template.namespace == dep.template.namespace
    ensures r.template.serviceAccountName == dep.template.serviceAccountName
  {
    var workload := i.spec.workload.value;
    var replicas := if i.spec.replicas.None? then Some(DefaultReplicas) else i.spec.replicas;
    var c := dep.template.containers[0];
    var c' := c.(image := GenerateImage(i.spec.image.repository, i.spec.image.tag),
                 args := GeneratePodArgs(i),
                 resources := workload.resources);
    var containers := dep.template.containers[0 := c'];
    assert containers[1..] == dep.template.containers[1..];
    dep.(replicas := replicas,
         labels := workload.extraLabels,
         template := dep.template.(containers := containers,
                                   labels := MergeLabels(Some(AppSelector(i.name)), workload.extraLabels)))
  }

  /** Convergence: after an update the diff fires exactly when the live pull
      policy differs from the spec's, since the update never writes it. */
  lemma UpdateThenDiff(dep: Deployment, i: Instance)
    requires i.spec.workload.Some?
    requires |dep.template.containers| > 0
    ensures HasDeploymentChanged(UpdateDeployment(dep, i), i)
        <==> dep.template.containers[0].pullPolicy != i.spec.image.pullPolicy
  {
    var r := UpdateDeployment(dep, i);
    assert !ReplicasChanged(r.replicas, i.spec.replicas);
    HasDifferentResourcesIrreflexive(i.spec.workload.value.resources);
  }

  /** The API server drops an empty label map, so a Deployment written with
      the empty map reads back with none. Against an instance whose extra
      labels are the empty map such a Deployment always differs, and the
      update writes the empty map again. */
  lemma EmptyExtraLabelsDiffer(dep: Deployment, i: Instance)
    requires |dep.template.containers| > 0
    requires dep.labels.None?
    requires i.spec.workload.Some? && i.spec.workload.value.extraLabels == Some(map[])
    ensures HasDeploymentChanged(dep, i)
    ensures UpdateDeployment(dep, i).labels == Some(map[])
  {
  }

  /** A freshly generated Deployment shows no difference from its instance. */
  lemma GeneratedDeploymentUnchanged(i: Instance)
    requires i.spec.workload.Some?
    ensures !HasDeploymentChanged(DeploymentFor(i), i)
  {
    HasDifferentResourcesIrreflexive(i.spec.workload.value.resources);
  }

  /** Updating a generated Deployment whose instance sets a replica count
      gives it back unchanged. */
  lemma UpdateOfGeneratedIsIdentity(i: Instance)
    requires i.spec.workload.Some? && i.spec.replicas.Some?
    ensures UpdateDeployment(DeploymentFor(i), i) == DeploymentFor(i)
  {
    var d := DeploymentFor(i);
    var r := UpdateDeployment(d, i);
    assert r.template.containers == d.template.containers;
  }

  /** An update leaves a Deployment where another update changes nothing. */
  lemma UpdateDeploymentIdempotent(dep: Deployment, i: Instance)
    requires i.spec.workload.Some?
    requires |dep.template.containers| > 0
    ensures UpdateDeployment(UpdateDeployment(dep, i), i) == UpdateDeployment(dep, i)
  {
    var r := UpdateDeployment(dep, i);
    var r2 := UpdateDeployment(r, i);
    assert r2.template.containers == r.template.containers;
  }
}
