# ingress-nginx-operator reconciler, modelled in Dafny

This project models the controller of the kubegems ingress-nginx-operator.
The controller reconciles `NginxIngressController` custom resources (API
group `networking.kubegems.io/v1beta1`). A pass reads the instance. If the
instance is being deleted and still carries the operator's finalizer, the
pass finalizes it. Otherwise the pass does the following, in order:

- puts the finalizer in place;
- gives up quietly when the namespace is missing or terminating;
- fills in the spec's defaults and validates it (in memory only);
- creates or refreshes the shared ClusterRole and ClusterRoleBinding;
- creates the instance's ServiceAccount, binding subject and IngressClass;
- creates or updates the Deployment;
- creates or updates the Service and the ConfigMap through create-or-update;
- records `status.deployed`.

As written, the Service step never succeeds. The API server refuses every
Service the controller writes, so a pass for an active instance never gets
to the ConfigMap or the status. A spec with a negative replica count, or
with extra labels that set `app` to something other than the instance's
name, is refused one step earlier, at the Deployment.

The model is pure: the cluster is a record of stores (`Cluster.Cluster`). A
pass is a method from a cluster and a set of injected API faults to a `Run`:
the resulting cluster, the ordered trace of API calls, and the error the pass
returns. Every step stops at its first error, as the Go code does. The
stores apply the following rules of the API server's validation, which the
operator's writes can break:

- A Deployment must have a container and a replica count that is not
  negative. Every entry of its selector must appear among the pod
  template's labels (`Deployment.Admitted`).
- A Service must have a Kubernetes service type. It must have at least one
  port unless its type is ExternalName (`Service.Admitted`).

A write that breaks one of these rules is refused with `Rejected` and
changes nothing. The rest of validation is not modelled (see "Left out").

Modules follow the Go files:

| module | models |
|---|---|
| `Types` | the custom resource and the core/v1 fields the operator reads; nil and empty maps under semantic equality |
| `Utils` | pod arguments, image, labels, resource diff, `containsStr` |
| `Rbac` | the fixed ClusterRole and ClusterRoleBinding, the subject |
| `Subjects` | subject search, append and the finalizer's filter |
| `Deployment` | generator, diff, update |
| `Ports` | `mergePort`, `mergePorts` |
| `Service` | Service generator, three-argument mutate function |
| `ConfigMap` | ConfigMap generator, two-argument mutate function |
| `Defaults` | `addDefaultFields` |
| `Cluster` | stores, API calls, faults, `createIfNotExists` |
| `Prerequisites` | `createCommonResources`, `checkPrerequisites` |
| `Controller` | finalizer, the controller's own mutate functions, create-or-update, finalize, the Deployment, Service, ConfigMap and status steps |
| `Reconciler` | `Reconcile` |

The pass-level contracts of `Reconciler.Reconcile` say these things:

- A pass changes no instance except the one it reconciles. An active pass can only add the finalizer. Once the finalizer write succeeds, the finalizer stays, whatever fails later. A deletion pass removes the finalizer, and only after finalization succeeded.
- A pass stops at the first faulted call and returns a transient error naming that call. No faulted call is passed over.
- A deletion pass with a missing ClusterRoleBinding returns NotFound and changes nothing. On success, the instance's subject, its IngressClass and then the finalizer are gone.
- With the binding present, a deletion pass succeeds exactly when none of its calls is faulted: the binding read, the binding write, the IngressClass delete and the finalizer write. So a failed binding write or IngressClass delete keeps the finalizer.
- A pass for an active instance reports success only when its namespace is missing or terminating.
- In an active namespace, a pass with no faults returns the spec's validation error or a refusal. The Deployment's write is refused when validation refuses the Deployment; otherwise the Service's write is. The refusal comes after the RBAC objects and the prerequisites are in place, and after the Deployment too unless it was the one refused (`Reconciler.Settled`).
- A pass with no faults over a settled instance changes nothing and returns the same refusal.
- No instance is ever ready in the full sense, with the Service and the ConfigMap in place (`Reconciler.NeverReady`). So `deployed` is never set.

Behaviour of the Go code that looks unintended is modelled as written:

- `addDefaultFields` accepts the service types `"NodePort"` and `"LoadBanlancer"`. So the documented `"LoadBalancer"` is rejected (`Defaults.LoadBalancerRejected`).
- `mergePorts` builds the merged port map and then returns nil. So the controller's Service mutate function always writes an empty port list (`Ports.MergePortsDiscardsMergedMap`, `Controller.ServiceMutateFn`). Validation refuses a Service without ports unless it is of type ExternalName (`Controller.ServiceMutateFnAdmitted`). Neither type that `addDefaultFields` lets through is ExternalName, so every Service write fails (`Controller.NormalizedServiceRefused`). `"LoadBanlancer"` is not a Kubernetes service type either.
- `mergePort` overrides the target port only when the source's is a string. An integer target port is ignored (`Ports.IntegerTargetPortIgnored`).
- `updateDeployment` never writes the image pull policy, while `hasDeploymentChanged` compares it. A Deployment whose pull policy differs is therefore rewritten on every pass without converging on that field (`Deployment.UpdateThenDiff`).
- The pods are started with `--election-id=<name>-lock`, but the ClusterRole grants lease and configmap updates only on `ingress-controller-leader` (`Rbac.PodElectionIdNotGranted`).
- The package declares `serviceMutateFn` and `configMapMutateFn` twice, with different signatures. Both versions are modelled: `Service.ServiceMutate` and `ConfigMap.ConfigMapMutate` for the helper files, `Controller.ServiceMutateFn` and `Controller.ConfigMapMutateFn` for the versions the reconciler calls.
- The defaulted spec lives only in memory and is never written back. The stored instance keeps its own spec (`Reconciler.Evolves`, `Reconciler.Defaulted`).

## Model

| member | source | states |
|---|---|---|
| Types.CanonicalMap | controllers/nginxingresscontroller_controller.go:164-183 | the representative of a map under semantic equality holds the same entries and is never an empty non-nil map |
| Types.CanonicalMapIdentifiesEntries | controllers/nginxingresscontroller_controller.go:164-183 | two maps have the same representative exactly when they hold the same entries |
| Utils.ContainsStr | controllers/utils.go:79-86 | true exactly when the string is an element of the list |
| Utils.GeneratePodArgs | controllers/utils.go:33-49 | six arguments in a fixed order: binary, publish-service, configmap, election id `<name>-lock`, ingress class, controller class; a seventh watch-namespace argument appears exactly when a watch namespace is set |
| Utils.PodArgsDependOnlyOnNameClassNamespace | controllers/utils.go:34-49 | two instances that agree on name, ingress class and watch namespace get the same arguments |
| Utils.PodArgsDetermineNameClassNamespace | controllers/utils.go:34-49 | conversely, equal argument lists imply equal name, ingress class and watch namespace |
| Utils.HasDifferentArguments | controllers/utils.go:51-55 | reports a difference exactly when the container's arguments are not the generated list |
| Utils.GenerateImage | controllers/utils.go:57-59 | the image reference is the repository, one colon, then the tag |
| Utils.GenerateImageExample | controllers/utils_test.go:32-41 | `"repository/image"` and `"version"` give `"repository/image:version"` |
| Utils.GenerateImageInjective | controllers/utils.go:57-59 | for tags without a colon, the image reference determines both the repository and the tag |
| Utils.MergeLabels | controllers/utils.go:61-69 | an empty or nil origin yields `toadd` itself, so nil stays nil; otherwise the result holds the union of the keys, with `toadd`'s values winning |
| Utils.MergeLabelsExample | controllers/utils_test.go:43-60 | `{"app": "ngnix"}` merged with `{"key": "value"}` holds both entries |
| Utils.HasDifferentResources | controllers/utils.go:71-77 | different exactly when the cpu or memory quantity of the requests or limits differs; an absent quantity counts as zero |
| Utils.HasDifferentResourcesIrreflexive | controllers/utils.go:72-77 | a resource requirement never differs from itself |
| Utils.HasDifferentResourcesSymmetric | controllers/utils.go:72-77 | the comparison is symmetric |
| Utils.HasDifferentResourcesIgnoresOtherNames | controllers/utils.go:71-77 | changing any resource other than cpu or memory does not change the verdict, and an absent quantity equals an explicit zero |
| Rbac.ClusterRoleFor | controllers/rbac.go:28-85 | the role carries the given name and the nine fixed rules; it grants update on the lease `ingress-controller-leader` and create on leases and configmaps of any name |
| Rbac.LeaseRulesAreNameScoped | controllers/rbac.go:61-71 | get or update on a lease is granted exactly for the object `ingress-controller-leader` |
| Rbac.ConfigMapRulesAreNameScoped | controllers/rbac.go:35-60 | get on a configmap is granted for every name; update is granted only for `ingress-controller-leader` |
| Rbac.PodElectionIdNotGranted | controllers/rbac.go:50-66 | the election id the pods are started with, `<name>-lock`, is granted neither a lease update nor a configmap update, whatever the instance name |
| Rbac.SubjectForServiceAccount | controllers/rbac.go:87-94 | a ServiceAccount subject with the given name and namespace |
| Rbac.ClusterRoleBindingFor | controllers/rbac.go:96-108 | a binding of the same name that refers to the ClusterRole of that name in `rbac.authorization.k8s.io`, with no subjects |
| Subjects.HasSubject | controllers/prerequisites.go:54-61 | true exactly when some subject has the given name and namespace; the kind is ignored |
| Subjects.AddSubjectIfAbsent | controllers/prerequisites.go:63-70 | afterwards the account is bound; a list that already binds it is returned unchanged, otherwise the subject is appended at the end |
| Subjects.RemoveSubjects | controllers/nginxingresscontroller_controller.go:258-265 | keeps exactly the subjects whose name or namespace differs from the instance's, and never grows the list |
| Subjects.AddSubjectKeepsNoDuplicates | controllers/prerequisites.go:54-70 | the conditional append never introduces two subjects for one account |
| Subjects.AddSubjectIdempotent | controllers/prerequisites.go:54-70 | a second append of the same account changes nothing |
| Subjects.RemoveSubjectsDistributes | controllers/nginxingresscontroller_controller.go:258-263 | the filter distributes over concatenation, that is, it keeps the subjects in order |
| Subjects.RemoveAbsentSubject | controllers/nginxingresscontroller_controller.go:258-265 | filtering out an account that is not bound returns the list unchanged |
| Subjects.RemoveSubjectsRemovesAccount | controllers/nginxingresscontroller_controller.go:258-265 | after the filter the account is no longer bound |
| Subjects.RemoveSubjectsKeepsNoDuplicates | controllers/nginxingresscontroller_controller.go:258-265 | the filter keeps a duplicate-free list duplicate-free |
| Subjects.AddThenRemoveRoundTrip | controllers/nginxingresscontroller_controller.go:258-265 | the finalizer's filter undoes the prerequisite step's append of an account that was not bound before |
| Subjects.RemoveSubjectsFrame | controllers/nginxingresscontroller_controller.go:258-265 | every subject of another account keeps its membership |
| Deployment.DeploymentFor | controllers/deployment.go:31-144 | name, namespace, owner, selector `{"app": name}`, replicas and labels as the spec gives them; the pod template named and placed like the instance, with labels merged onto `app`; one container with the generated image, the pull policy, the generated arguments, the workload resources and ports http:80, https:443, metrics:10254 |
| Deployment.TemplateAppLabel | controllers/deployment.go:44-52 | the pods carry `app: <name>` unless the extra labels set `app` themselves, in which case the extra value wins |
| Deployment.NilObservedReplicasNeverChange | controllers/deployment.go:147-151 | a live Deployment without a replica count never counts as changed on replicas |
| Deployment.HasDeploymentChanged | controllers/deployment.go:146-175 | no change means the replicas rule is satisfied and the image, pull policy, labels, cpu/memory and arguments all match; a change means one of them differs |
| Deployment.UpdateDeployment | controllers/deployment.go:177-190 | writes the replica count (1 when unset), the labels, the template labels, and the first container's image, arguments and resources; the pull policy, the other containers, the selector and the owner are left as they were |
| Deployment.UpdateThenDiff | controllers/deployment.go:146-190 | after an update the diff fires exactly when the live pull policy differs from the spec's |
| Deployment.EmptyExtraLabelsDiffer | controllers/deployment.go:163-168 | a live Deployment without labels differs from an instance whose extra labels are the empty map, and the update writes the empty map again |
| Deployment.GeneratedDeploymentUnchanged | controllers/deployment.go:31-175 | a freshly generated Deployment shows no difference from its instance |
| Deployment.UpdateOfGeneratedIsIdentity | controllers/deployment.go:177-190 | updating a generated Deployment whose instance sets a replica count gives it back unchanged |
| Deployment.UpdateDeploymentIdempotent | controllers/deployment.go:177-190 | a second update changes nothing |
| Deployment.GeneratedDeploymentAdmitted | controllers/deployment.go:37-52 | the generated Deployment passes validation exactly when the spec's replica count is not negative and its extra labels set `app`, if at all, to the instance's name, because the selector `{"app": name}` must match the pod labels |
| Deployment.UpdatedDeploymentAdmitted | controllers/deployment.go:177-190 | an updated Deployment that has a container and the generator's selector passes validation under exactly the same condition |
| Ports.MergePort | controllers/nginxingresscontroller_controller.go:336-353 | each of name, protocol, port and node port comes from `src` when it is not the zero value, and from `dest` otherwise; the target port comes from `src` only when it is a string; all other fields come from `dest` |
| Ports.MergeZeroPortIdentity | controllers/nginxingresscontroller_controller.go:336-353 | merging in the zero port changes nothing |
| Ports.MergePortIdempotent | controllers/nginxingresscontroller_controller.go:336-353 | merging the same source twice equals merging it once |
| Ports.MergePortAssociative | controllers/nginxingresscontroller_controller.go:336-353 | two successive overrides equal one override by the merged source |
| Ports.IntegerTargetPortIgnored | controllers/nginxingresscontroller_controller.go:346-348 | a non-zero integer target port in the override leaves the destination's target port in place |
| Ports.IndexPorts | controllers/nginxingresscontroller_controller.go:311-314 | the index holds exactly the port names, each entry is one of the ports, and each sits under its own name |
| Ports.EnsureDefaultPorts | controllers/nginxingresscontroller_controller.go:315-325 | adds `http` (port 80) and `https` (port 443) only when they are missing; existing entries are kept |
| Ports.MergeDesiredPort | controllers/nginxingresscontroller_controller.go:326-332 | a desired port whose name is present is merged into the existing entry, otherwise it is inserted verbatim; the other entries are kept |
| Ports.MergeDesiredPorts | controllers/nginxingresscontroller_controller.go:326-332 | the loop's key set is the base keys plus the desired names |
| Ports.MergeDesiredPortsFrame | controllers/nginxingresscontroller_controller.go:326-332 | names that no desired port carries keep their base entry |
| Ports.MergeDesiredPortsEffect | controllers/nginxingresscontroller_controller.go:326-332 | with distinct desired names, each desired port ends up merged into the base port of its name, or verbatim when there is none |
| Ports.MergedPortMap | controllers/nginxingresscontroller_controller.go:310-332 | the merged map always holds http and https, plus every current and desired name |
| Ports.MergePorts | controllers/nginxingresscontroller_controller.go:310-334 | the result is the empty port list, whatever the inputs |
| Ports.MergePortsDiscardsMergedMap | controllers/nginxingresscontroller_controller.go:310-334 | the merged map has at least two entries, yet the result is empty |
| Ports.MergedPortMapExample | controllers/nginxingresscontroller_controller.go:310-332 | the default ports with an override `{name: "http", port: 8080}` leave one http entry on 8080 and https untouched |
| Service.ServiceFor | controllers/service.go:29-75 | name, namespace, owner, selector `{"app": name}`, the fixed http/80 and https/443 TCP ports, and the service section's labels, annotations and type |
| Service.GeneratedServiceAdmitted | controllers/service.go:29-75 | the generated Service has ports, so it passes validation exactly when its type is a Kubernetes service type |
| Service.ServiceMutate | controllers/service.go:77-84 | sets the type, labels and annotations and leaves every other field as it was |
| Service.ServiceMutateIdempotent | controllers/service.go:77-84 | applying the mutate function twice equals applying it once |
| Service.GeneratedServiceIsMutateFixpoint | controllers/service.go:29-84 | a generated Service is left unchanged by the mutate function fed from its own service section |
| Service.SemanticallyEqualFieldwise | controllers/nginxingresscontroller_controller.go:164-173 | two Services are semantically equal exactly when all fields but the labels, annotations and selector are equal and each of those maps holds the same entries |
| Service.SemanticallyEqualAdmitted | controllers/nginxingresscontroller_controller.go:164-173 | validation gives the same verdict on semantically equal Services |
| ConfigMap.ConfigMapFor | controllers/configmap.go:29-41 | name, namespace, owner, and the spec's data verbatim, nil included |
| ConfigMap.ConfigMapMutate | controllers/configmap.go:43-48 | sets the data and leaves everything else as it was |
| ConfigMap.ConfigMapMutateIdempotent | controllers/configmap.go:43-48 | applying the mutate function twice equals applying it once |
| ConfigMap.ConfigMapMutateForgetsPriorData | controllers/configmap.go:43-48 | two ConfigMaps that differ only in their data are equal after the mutation |
| ConfigMap.GeneratedConfigMapIsMutateFixpoint | controllers/configmap.go:29-48 | a generated ConfigMap is left unchanged by the mutate function fed from its own spec |
| ConfigMap.SemanticallyEqualFieldwise | controllers/nginxingresscontroller_controller.go:174-183 | two ConfigMaps are semantically equal exactly when all fields but the data are equal and the data maps hold the same entries |
| ConfigMap.NilDataSemanticallyEmpty | controllers/nginxingresscontroller_controller.go:174-183 | nil data and empty data differ as values but are semantically equal |
| Defaults.AddDefaultFields | controllers/nginxingresscontroller_controller.go:202-239 | success exactly when the pull policy is empty or one of Always, IfNotPresent, Never, and the service type is empty, NodePort or LoadBanlancer; the pull-policy error comes first and names the value; on success every empty field takes its default (repository, tag `v1.3.0`, IfNotPresent, 1 replica, NodePort, an empty workload, class `nginx`) and everything else is kept |
| Defaults.AddDefaultFieldsIdempotent | controllers/nginxingresscontroller_controller.go:202-239 | defaulting a defaulted spec changes nothing |
| Defaults.NormalizedIsFixpoint | controllers/nginxingresscontroller_controller.go:202-239 | a spec with every default filled and valid enumerations is returned unchanged |
| Defaults.LoadBalancerRejected | controllers/nginxingresscontroller_controller.go:227-229 | the service type `LoadBalancer` is refused with an error naming it |
| Defaults.EmptySpecDefaults | controllers/nginxingresscontroller_controller.go:203-226 | an empty image, no replica count and no service section normalize to the controller image `v1.3.0`, IfNotPresent, 1 replica and NodePort |
| Defaults.BogusServiceTypeRejected | controllers/nginxingresscontroller_controller.go:224-229 | an unknown service type is refused with an error naming it |
| Cluster.Issue | controllers/nginxingresscontroller_controller.go:148-152 | one API write: a faulted call fails with a transient error and changes nothing; otherwise it moves the cluster to its effect |
| Cluster.Then | controllers/nginxingresscontroller_controller.go:129-136 | sequencing after a successful step concatenates the traces, and the second step decides the cluster and the error |
| Cluster.ThenFailsAtFirstFault | controllers/nginxingresscontroller_controller.go:129-136 | sequencing two steps that stop at their first fault gives a step that stops at its first fault |
| Cluster.CreateIfNotExists | controllers/nginxingresscontroller_controller.go:241-248 | an existing object counts as success and is reported as existing; a successful create adds the key |
| Prerequisites.EnsureClusterRole | controllers/prerequisites.go:91-113 | reads the role, then creates it when it is missing or overwrites it when present; on success the role has the fixed rules; errors change nothing |
| Prerequisites.EnsureBinding | controllers/prerequisites.go:115-125 | creates the binding only when it is missing; an existing binding, subjects included, is never touched |
| Prerequisites.CreateCommonResources | controllers/prerequisites.go:87-128 | role first, then binding; only these two stores change; when the role already has the fixed rules and the binding exists, nothing changes |
| Prerequisites.EnsureIngressClass | controllers/prerequisites.go:72-81 | the IngressClass named after the instance exists afterwards; an existing one counts as success |
| Prerequisites.WithSubject | controllers/prerequisites.go:54-70 | a binding that already lists the account is left as it is |
| Prerequisites.EnsureSubject | controllers/prerequisites.go:46-70 | reads the binding, where a missing binding is an error; the binding is written exactly when no subject has the account's name and namespace |
| Prerequisites.CheckPrerequisites | controllers/prerequisites.go:32-84 | ServiceAccount, then binding subject, then IngressClass, stopping at the first error; success implies all three are in place and nothing else changed; when all three already exist, nothing changes |
| Controller.AddFinalizer | controllers/nginxingresscontroller_controller.go:105-112 | the finalizer is present afterwards; it is appended only when missing |
| Controller.RemoveFinalizer | controllers/nginxingresscontroller_controller.go:94-97 | the finalizer is absent afterwards and every other finalizer keeps its membership |
| Controller.RemoveFinalizerConcat | controllers/nginxingresscontroller_controller.go:94-97 | removal distributes over concatenation, so the remaining finalizers keep their order |
| Controller.RemoveAddFinalizer | controllers/nginxingresscontroller_controller.go:94-112 | removing the finalizer undoes adding it to a list that lacked it |
| Controller.CopyInto | controllers/nginxingresscontroller_controller.go:295-298 | an empty source leaves the target as it is; otherwise the result holds the union of the keys, with the source's values winning |
| Controller.ServiceMutateFn | controllers/nginxingresscontroller_controller.go:290-308 | writes the instance labels and annotations merged with the extra ones, the selector `{"app": name}`, the spec's type, no ports and the owner; keeps name and namespace |
| Controller.ServiceMutateFnAdmitted | controllers/nginxingresscontroller_controller.go:290-308 | what the mutate function writes passes validation exactly when the spec's service type is ExternalName |
| Controller.NormalizedServiceRefused | controllers/nginxingresscontroller_controller.go:290-308 | for a spec that `addDefaultFields` accepted, what the mutate function writes never passes validation |
| Controller.ServiceMutateFnIdempotent | controllers/nginxingresscontroller_controller.go:290-308 | applying the mutate function twice equals applying it once, so create-or-update reaches a fixpoint |
| Controller.ConfigMapMutateFn | controllers/nginxingresscontroller_controller.go:195-200 | writes the spec's data verbatim and the owner; keeps name and namespace |
| Controller.ConfigMapMutateFnIdempotent | controllers/nginxingresscontroller_controller.go:195-200 | applying the mutate function twice equals applying it once |
| Controller.EmptyConfigMapDataSettled | controllers/nginxingresscontroller_controller.go:174-183 | a live ConfigMap with empty data, for a spec without data, differs as a value from what the mutate function writes, yet counts as settled, so the step issues no update |
| Controller.CreateOrUpdate | controllers/nginxingresscontroller_controller.go:164-183 | the stored object is the mutation of the live one, or of a fresh one when none exists; a create is issued exactly when the object is missing, and an update exactly when the mutation is not semantically equal to the live object; a semantically unchanged object is left as it is; an object is stored only if validation admits it; a refused write fails with `Rejected` naming it; with no faults the step fails exactly when it has to write an object that validation refuses; errors change nothing |
| Controller.Finalize | controllers/nginxingresscontroller_controller.go:250-281 | reads the binding, writes it back without the instance's subject, then deletes the IngressClass, stopping at the first faulted call; a missing binding is returned as NotFound; with the binding present the step succeeds exactly when none of the three calls is faulted; on success the binding has lost the instance's subject and its IngressClass is gone; nothing else changes |
| Controller.DeploymentAfterSettled | controllers/nginxingresscontroller_controller.go:138-163 | the Deployment step leaves a Deployment on which a further step would not change anything, and leaves alone one that is already settled |
| Controller.StoreDeployment | controllers/nginxingresscontroller_controller.go:138-163 | the Deployment step on the Deployment store: read, then create a missing Deployment or update a live one whose diff fires; a Deployment that validation refuses is never stored, and its write fails with `Rejected` naming the create or the update; over valid Deployments a refused one always fails the step; with no faults an accepted one is stored; errors change nothing |
| Controller.ConvergeDeployment | controllers/nginxingresscontroller_controller.go:138-163 | a missing Deployment is created from the generator; a live one is updated exactly when the diff fires; the trace names the calls; a write that validation refuses fails with `Rejected` naming the create or the update; over valid Deployments a refused Deployment always fails the step; with no faults an accepted Deployment is stored; errors change nothing |
| Controller.SettleDeployment | controllers/nginxingresscontroller_controller.go:138-163 | on success the instance's Deployment exists and is settled; a settled one is not touched; only the Deployment store changes; a Deployment that validation refuses changes nothing and, over a valid cluster, fails the step, with no faults with the refusal of its create or update; with no faults an accepted one succeeds |
| Controller.StoreService | controllers/nginxingresscontroller_controller.go:164-173 | create-or-update on the Service store: a live Service the mutate function would leave semantically unchanged is kept, otherwise the mutated one is stored; an update is issued exactly when the live Service is not settled in that sense; on success the stored Service is settled; every stored Service stays valid; a refused Service makes the step fail; with no faults the error names the create or the update |
| Controller.ConvergeService | controllers/nginxingresscontroller_controller.go:164-173 | the Service step: only the Service store changes; a settled live Service is kept and any other is replaced by its mutation; an update is issued exactly when the live Service is not settled; on success the stored Service is settled; a Service that validation refuses fails the step and changes nothing; with no faults and a valid Service the step succeeds |
| Controller.ConvergeConfigMap | controllers/nginxingresscontroller_controller.go:174-183 | the same for the ConfigMap, which validation never refuses: with no faults the step succeeds, and a ConfigMap whose data is only nil instead of empty, or the reverse, is not rewritten |
| Controller.MarkDeployed | controllers/nginxingresscontroller_controller.go:185-190 | the status is written only when the instance read at the start is not deployed; afterwards it is deployed; it is never set back to false |
| Reconciler.UpdatedAtEvolves | controllers/nginxingresscontroller_controller.go:65-193 | a one-instance update that only changes finalizers or the deployed flag keeps every other instance and keeps the cluster well-formed |
| Reconciler.UpdatedAtTransitive | controllers/nginxingresscontroller_controller.go:65-193 | two such updates of the same instance compose into one |
| Reconciler.SetUp | controllers/nginxingresscontroller_controller.go:129-136 | on success the shared RBAC objects and the instance's prerequisites are in place; when they already were and no call fails, nothing changes |
| Reconciler.ServiceObjects | controllers/nginxingresscontroller_controller.go:164-183 | on success the Service and ConfigMap exist and are settled, up to semantic equality; a refused Service stops the step before the ConfigMap and changes nothing; when both already were settled, nothing changes |
| Reconciler.Workloads | controllers/nginxingresscontroller_controller.go:138-183 | on success the Deployment, Service and ConfigMap are all settled; with no faults an accepted Deployment is settled even when the Service is refused; over a valid cluster a refused Deployment fails the step and changes nothing, and with no faults the error is the refusal of its write; a refused Service leaves everything but the Deployment as it was; settled children are left alone |
| Reconciler.Finish | controllers/nginxingresscontroller_controller.go:138-190 | additionally, at most the reconciled instance's status changes, and on success it is deployed; a refused Deployment or Service means the status is never written |
| Reconciler.StatusOnlyUpdatedAt | controllers/nginxingresscontroller_controller.go:185-190 | a status-only change of a stored instance is an allowed one-instance update |
| Reconciler.Converge | controllers/nginxingresscontroller_controller.go:129-190 | everything after validation: on success RBAC, prerequisites and children are ready and the instance is deployed; with no faults RBAC and prerequisites are ready, and so is the Deployment unless validation refuses it; over a valid cluster a refused Deployment fails the pass with instances, Deployments, Services and ConfigMaps unchanged; a refused Service fails it with instances, Services and ConfigMaps unchanged; with no faults the error is the refusal of that write; when nothing is left to put in place before the refusal, a fault-free pass changes nothing |
| Reconciler.Defaulted | controllers/nginxingresscontroller_controller.go:125-127 | the in-memory instance differs from the stored one only in its spec, which is normalized and has a workload section |
| Reconciler.BareReady | controllers/nginxingresscontroller_controller.go:129-183 | readiness of the RBAC objects and children does not depend on finalizers or status |
| Reconciler.ReadyOfDefaulted | controllers/nginxingresscontroller_controller.go:125-183 | an instance is ready exactly when RBAC and children are ready for its defaulted spec |
| Reconciler.ReadyIgnoresBookkeeping | controllers/nginxingresscontroller_controller.go:105-190 | two instances that differ only in finalizers and status are ready together, and prepared together |
| Reconciler.NeverReady | controllers/nginxingresscontroller_controller.go:164-173 | in a cluster whose Services all passed validation, no instance is ready, because its Service would have to be a fixpoint of the mutate function |
| Reconciler.PreparedOfDefaulted | controllers/nginxingresscontroller_controller.go:125-163 | an instance is prepared exactly when RBAC is ready for its defaulted spec and the Deployment is either ready or refused by validation |
| Reconciler.BareAccepted | controllers/nginxingresscontroller_controller.go:138-163 | whether validation accepts the Deployment does not depend on the instance's finalizers or status |
| Reconciler.ConvergeDefaulted | controllers/nginxingresscontroller_controller.go:125-190 | the steps after validation, run with the defaulted instance: over valid Services the pass always fails and changes neither instances, Services nor ConfigMaps; over a valid cluster with no faults it returns the refusal of the Deployment write when validation refuses the Deployment, and of the Service write otherwise, and leaves the instance prepared; over a prepared instance a fault-free pass changes nothing |
| Reconciler.ConvergeDefaultedSteps | controllers/nginxingresscontroller_controller.go:125-190 | the same steps, stated of the defaulted instance: on success RBAC and children are ready for it; over valid Services a refused Service fails the pass with instances, Services and ConfigMaps unchanged; over a valid cluster with no faults the pass ends refused as `Reconciler.DefaultedPassRefused` needs |
| Reconciler.DefaultedPassRefused | controllers/nginxingresscontroller_controller.go:138-173 | a fault-free pass for the defaulted instance is refused at the Deployment write when validation refuses the Deployment, and at the Service write otherwise; afterwards the instance is prepared; over a prepared instance the pass changes nothing |
| Reconciler.Proceed | controllers/nginxingresscontroller_controller.go:114-190 | a missing or terminating namespace ends the pass without error and without change; an invalid spec ends it with the validation error and without change; otherwise, over valid Services, the pass fails; over a valid cluster with no faults it returns the refusal of the Deployment or the Service write and leaves the instance prepared; over a prepared instance a fault-free pass changes nothing |
| Reconciler.WithFinalizer | controllers/nginxingresscontroller_controller.go:105-112 | the instance carries the finalizer and is otherwise unchanged; one that had it is returned as it is |
| Reconciler.ActiveWithFinalizer | controllers/nginxingresscontroller_controller.go:114-193 | for an instance that has the finalizer: no instance changes, and the active-pass outcome holds: success only outside an active namespace; with no faults the validation error or the refusal of the Deployment or the Service write, and the instance settled; over a settled instance a fault-free pass changes nothing |
| Reconciler.ReconcileActive | controllers/nginxingresscontroller_controller.go:105-193 | the stored instance gains the finalizer and nothing else, unless the finalizer write itself failed, in which case nothing changes; once that write succeeds the finalizer stays whatever fails later; success only when the namespace is not active; with no faults, the validation error or the refusal of the Deployment or the Service write, and the instance settled; over a settled instance a fault-free pass changes nothing |
| Reconciler.ActiveWithoutFinalizer | controllers/nginxingresscontroller_controller.go:105-193 | the finalizer is written first; if that write fails, nothing changes; if it succeeds, the finalizer stays whatever fails later; otherwise the same outcome as for an instance that had it, including the refusal of the Deployment or the Service write on a fault-free pass |
| Reconciler.ActiveOutcomeAfterAcquire | controllers/nginxingresscontroller_controller.go:105-114 | the outcome of the pass after the finalizer write, stated of the instance as written, is the outcome of the whole pass |
| Reconciler.RefusedWriteIgnoresBookkeeping | controllers/nginxingresscontroller_controller.go:105-163 | over the same Deployments and Services, the write at which a fault-free pass is refused is the same for two instances that differ only in finalizers and status |
| Reconciler.BareDefaulted | controllers/nginxingresscontroller_controller.go:125-127 | two instances that differ only in finalizers and status have the same key and the same defaulted spec |
| Reconciler.AcquireFinalizer | controllers/nginxingresscontroller_controller.go:106-111 | one write that adds the finalizer to the stored instance, or changes nothing on error; it succeeds exactly when the write is not faulted |
| Reconciler.Unmarked | controllers/nginxingresscontroller_controller.go:96 | the instance without the finalizer and otherwise unchanged |
| Reconciler.ReleaseFinalizer | controllers/nginxingresscontroller_controller.go:96-100 | one write that removes the finalizer from the stored instance, or changes nothing on error; it succeeds exactly when the write is not faulted |
| Reconciler.ReconcileDeletion | controllers/nginxingresscontroller_controller.go:84-103 | without the finalizer, nothing happens; otherwise finalization runs, and the finalizer is removed only when finalization succeeded; with the binding present the pass succeeds exactly when none of the binding read, binding write, IngressClass delete and finalizer write is faulted, so a failed binding write or delete keeps the finalizer |
| Reconciler.ReconcileFound | controllers/nginxingresscontroller_controller.go:82-193 | for an instance being deleted: only bindings, IngressClasses and the instance change; failures leave the instances alone; a missing binding gives NotFound after one read; success means the subject and IngressClass are gone and then the finalizer; with the binding present the pass succeeds exactly when none of its calls is faulted. For an active instance: the active-pass outcome of `Reconciler.ReconcileActive`, in which the finalizer stays once written, with the refusal of the Deployment or the Service write |
| Reconciler.ReadFound | controllers/nginxingresscontroller_controller.go:65-193 | the same guarantees, after the successful read of the instance |
| Reconciler.Reconcile | controllers/nginxingresscontroller_controller.go:65-193 | a failed read is returned and changes nothing; a missing instance ends the pass quietly; only the reconciled instance evolves; a deletion pass finalizes before it removes the finalizer, a missing binding gives NotFound after two reads, and with the binding present the pass succeeds exactly when none of its calls is faulted; an active pass only adds the finalizer, and keeps it once its write succeeded whatever fails later, succeeds only outside an active namespace, and with no faults settles the instance and returns the refusal of the Deployment write when validation refuses the Deployment, of the Service write otherwise; over a settled instance a fault-free pass changes nothing |

## Left out

- The Kubernetes client, the API server and controller-runtime are replaced by the store model of `Cluster`. There is no concurrency, no resource-version conflicts, no watches and no requeue timing.
- Cascading deletion of owned objects and the final removal of an instance once its finalizers are gone are done by the API server, not the operator. The model stops when the finalizer is removed.
- `ctrl.SetControllerReference` can fail, for example on a scheme mismatch. That error path is not modelled: the owner is always set to the instance.
- `Deployment.DeploymentFor` leaves out the constant parts of the pod template: the security context, the environment variables, the probes and the preStop hook. Nothing in the operator compares or rewrites them.
- Resource quantities are modelled as canonical integers. Parsing and unit normalisation of `resource.Quantity` are left out.
- Logging, `RunningK8sVersion` (controllers/utils.go:31) and `apiVersionUnsupportedError` (controllers/utils.go:28) have no effect on the behaviour modelled.
- `serviceAccountForNginxIngressController` and `ingressClassForNginxIngressController` are not part of this model. The ServiceAccount is modelled by its key (the instance's name and namespace) and the IngressClass by the instance's name.
- `SetupWithManager` (controllers/nginxingresscontroller_controller.go:283-288), `NginxIngressControllerList` and the scheme registration are wiring only.
- `Metrics` (api/v1beta1/nginxingresscontroller_types.go:98-109) is modelled with its schema bounds as a subset type and its default port, but the spec has no field of that type, so nothing else uses it.
- Deployment validation is modelled only as far as the operator's writes meet it: a container, a replica count that is not negative, and a selector whose entries all appear among the pod template's labels. The syntax of label keys and values, container names and ports, and every other field are not checked.
- Service validation is modelled only as far as the operator's writes meet it: the type must be a Kubernetes service type, and there must be a port unless the type is ExternalName. Headless Services, which may omit ports, are not modelled; nor are the external name an ExternalName Service needs, the port ranges, or any other field. ConfigMaps are never refused.
- Controller.CopyInto: `maps.Copy` writes into the instance's own label and annotation maps. That changes the in-memory instance too, and Go panics when the map is nil and the source is not empty. The model returns the union in both cases.
- Service.ServiceFor: the Go code dereferences the service section unguarded when it reads the type. The model requires the section to be set, rather than modelling the panic.
- Deployment.HasDeploymentChanged: `hasDeploymentChanged` indexes the first container without a length check. The model requires a container; `Cluster.WellFormed` records that stored Deployments have one.
- Reconciler.ConvergeDefaulted: the fault-free refusal is promised over a well-formed cluster, not merely over valid Services. A stored Deployment that validation would refuse, and that the diff leaves alone, is passed over without an error, so the refusal would then come at the Service.
- Reconciler.Proceed: the same premise as `Reconciler.ConvergeDefaulted` for the fault-free refusal.
- Reconciler.Reconcile: the pass is modelled over a well-formed cluster: instances are stored under their own key, and stored Deployments and Services passed validation. This reflects what the API server guarantees. The pass also does not promise to bring an active instance to full readiness with `deployed` set. The Deployment or the Service is always refused, so the promise is now `Reconciler.Settled`: RBAC and prerequisites in place, the Deployment too unless it was refused, and the refusal returned.
- Controller.ConvergeDeployment: the API server drops an empty label map, but the store keeps it as written. With `workload.extraLabels: {}` the live Deployment reads back without labels. So the real diff fires and the Deployment is rewritten on every pass (`Deployment.EmptyExtraLabelsDiffer`), while the model settles. The Service and ConfigMap steps are not affected: create-or-update compares with semantic equality, which counts a nil map and an empty one as equal (`Controller.EmptyConfigMapDataSettled`).
- Controller.CreateOrUpdate: `equality.Semantic.DeepEqual` is modelled only where it differs from value equality on the fields modelled here, that is, for nil and empty maps. Its special cases for quantities, times and selectors concern fields the Service and ConfigMap models do not have.
- Injected faults are a set of call sites. Every call site runs at most once per pass, so a set suffices; failures that depend on the payload are not distinguished.
