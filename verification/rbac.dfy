/** The shared RBAC objects: the fixed ClusterRole, the ClusterRoleBinding and
    the ServiceAccount subjects it binds. */
module Rbac {
  import opened Utils

  /** The name shared by the ClusterRole and the ClusterRoleBinding. */
  const ClusterRoleName := "ingress-nginx-role"

  /** The leader-election object name the role's name-scoped rules allow. */
  const ElectionId := "ingress-controller-leader"

  /** rbacv1.PolicyRule; an empty `resourceNames` leaves the rule unscoped. */
  datatype PolicyRule = PolicyRule(
    resources: seq<string>,
    resourceNames: seq<string>,
    apiGroups: seq<string>,
    verbs: seq<string>)

  datatype ClusterRole = ClusterRole(name: string, rules: seq<PolicyRule>)

  datatype RoleRef = RoleRef(kind: string, name: string, apiGroup: string)

  datatype Subject = Subject(kind: string, name: string, namespace: string)

  datatype ClusterRoleBinding = ClusterRoleBinding(name: string, roleRef: RoleRef, subjects: seq<Subject>)

  /** The nine rules the controller pods need, in the order they are granted. */
  const Rules: seq<PolicyRule> := [
    PolicyRule(["namespaces"], [], [""], ["get"]),
    PolicyRule(["configmaps", "pods", "secrets", "endpoints", "services"], [], [""], ["get", "list", "watch"]),
    PolicyRule(["ingresses", "ingressclasses"], [], ["networking.k8s.io"], ["get", "list", "watch"]),
    PolicyRule(["ingresses/status"], [], ["networking.k8s.io"], ["update"]),
    PolicyRule(["configmaps"], [ElectionId], [""], ["get", "update"]),
    PolicyRule(["configmaps"], [], [""], ["create"]),
    PolicyRule(["leases"], [ElectionId], ["coordination.k8s.io"], ["get", "update"]),
    PolicyRule(["leases"], [], ["coordination.k8s.io"], ["create"]),
    PolicyRule(["events"], [], [""], ["create", "patch"])
  ]

  /** Whether one rule grants `verb` on the object `objectName` of `resource`
      in `apiGroup`, following the Kubernetes RBAC matching of rules without
      wildcards. */
  predicate RuleAllows(rule: PolicyRule, apiGroup: string, resource: string, objectName: string, verb: string) {
    && apiGroup in rule.apiGroups
    && resource in rule.resources
    && verb in rule.verbs
    && (|rule.resourceNames| == 0 || objectName in rule.resourceNames)
  }

  predicate Allows(role: ClusterRole, apiGroup: string, resource: string, objectName: string, verb: string) {
    exists k :: 0 <= k < |role.rules| && RuleAllows(role.rules[k], apiGroup, resource, objectName, verb)
  }

  /** clusterRoleForNginxIngressController: the role `name` with the fixed
      rules; it does not depend on any instance. */
  function ClusterRoleFor(name: string): (role: ClusterRole)
    ensures role.name == name
    ensures role.rules == Rules
    ensures |role.rules| == 9
    ensures Allows(role, "coordination.k8s.io", "leases", ElectionId, "update")
    ensures forall objectName :: Allows(role, "coordination.k8s.io", "leases", objectName, "create")
    ensures forall objectName :: Allows(role, "", "configmaps", objectName, "create")
  {
    var role := ClusterRole(name, Rules);
    assert RuleAllows(role.rules[6], "coordination.k8s.io", "leases", ElectionId, "update");
    assert forall objectName :: Allows(role, "coordination.k8s.io", "leases", objectName, "create") by {
      forall objectName
        ensures Allows(role, "coordination.k8s.io", "leases", objectName, "create")
      {
        assert RuleAllows(role.rules[7], "coordination.k8s.io", "leases", objectName, "create");
      }
    }
    assert forall objectName :: Allows(role, "", "configmaps", objectName, "create") by {
      forall objectName
        ensures Allows(role, "", "configmaps", objectName, "create")
      {
        assert RuleAllows(role.rules[5], "", "configmaps", objectName, "create");
      }
    }
    role
  }

  /** Reading and renewing the leader-election lease is granted for the
      object named "ingress-controller-leader" only. */
  lemma LeaseRulesAreNameScoped(name: string, objectName: string, verb: string)
    requires verb == "get" || verb == "update"
    ensures Allows(ClusterRoleFor(name), "coordination.k8s.io", "leases", objectName, verb) <==> objectName == ElectionId
  {
    var role := ClusterRoleFor(name);
    if objectName == ElectionId {
      assert RuleAllows(role.rules[6], "coordination.k8s.io", "leases", objectName, verb);
    }
  }

  /** Renewing the leader-election configmap is granted for the object named
      "ingress-controller-leader" only; reading any configmap is granted. */
  lemma ConfigMapRulesAreNameScoped(name: string, objectName: string, verb: string)
    requires verb == "get" || verb == "update"
    ensures Allows(ClusterRoleFor(name), "", "configmaps", objectName, verb) <==> objectName == ElectionId || verb == "get"
  {
    var role := ClusterRoleFor(name);
    if objectName == ElectionId {
      assert RuleAllows(role.rules[4], "", "configmaps", objectName, verb);
    }
    if verb == "get" {
      assert RuleAllows(role.rules[1], "", "configmaps", objectName, verb);
    }
  }

  /** The election id a controller pod uses, "<name>-lock", is never the one
      the role scopes its get/update rules to: the pods cannot renew their
      leader lease under the shared role. */
  lemma PodElectionIdNotGranted(roleName: string, instanceName: string)
    ensures !Allows(ClusterRoleFor(roleName), "coordination.k8s.io", "leases", PodElectionId(instanceName), "update")
    ensures !Allows(ClusterRoleFor(roleName), "", "configmaps", PodElectionId(instanceName), "update")
  {
    var id := PodElectionId(instanceName);
    assert id[|id| - 1] == 'k';
    assert ElectionId[|ElectionId| - 1] == 'r';
    assert id != ElectionId;
    LeaseRulesAreNameScoped(roleName, id, "update");
    ConfigMapRulesAreNameScoped(roleName, id, "update");
  }

  /** subjectForServiceAccount. */
  function SubjectForServiceAccount(namespace: string, name: string): (s: Subject)
    ensures s.kind == "ServiceAccount" && s.name == name && s.namespace == namespace
  {
    Subject("ServiceAccount", name, namespace)
  }

  /** clusterRoleBindingForNginxIngressController: binds the role of the same
      name, with no subjects yet. */
  function ClusterRoleBindingFor(name: string): (b: ClusterRoleBinding)
    ensures b.name == name && b.roleRef.name == name
    ensures b.roleRef.kind == "ClusterRole" && b.roleRef.apiGroup == "rbac.authorization.k8s.io"
    ensures |b.subjects| == 0
  {
    ClusterRoleBinding(name, RoleRef("ClusterRole", name, "rbac.authorization.k8s.io"), [])
  }
}
