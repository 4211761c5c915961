/** Deployments and services as the group reconciler builds them. */
module Deploy {
  import opened Options
  import opened Spec
  import opened Text
  import opened Pods

  datatype Key = Key(namespace: string, name: string)

  datatype Deployment = Deployment(
    namespace: string,
    name: string,
    labels: Labels,
    owners: seq<OwnerRef>,
    replicas: Option<int32>,
    selector: Labels,
    podLabels: Labels,
    container: Container)

  datatype Service = Service(namespace: string, name: string, labels: Labels, owners: seq<OwnerRef>, selector: Labels)

  /** MakeDeployment */
  function MakeDeployment(spec: SetSpec, name: string, namespace: string, operatorKey: string, groupKey: string,
                          leader: bool): Deployment
    requires spec.instance.Complete()
  {
    var labels := map[OPERATOR_LABEL := operatorKey, GROUP_LABEL := groupKey, ROLE_LABEL := Role(leader)];
    Deployment(namespace, name, labels, [], spec.replicas, labels, labels, MakeContainer(spec.instance))
  }

  /** metav1.NewControllerRef for a compute group. */
  function GroupRef(group: ComputeGroup): OwnerRef {
    OwnerRef("DatafuseComputeGroup", group.name, group.uid, true)
  }

  /** AddDeployOwnership */
  function AddDeployOwnership(d: Deployment, group: ComputeGroup): Deployment {
    if IsControlledBy(d.owners, group.uid) then d else d.(owners := d.owners + [GroupRef(group)])
  }

  /** MakeService: named after the group, selecting by all labels of its leader deployment. */
  function MakeService(name: string, d: Deployment): Service {
    Service(d.namespace, name, d.labels, d.owners, d.labels)
  }

  /** The API server stores a deployment without a replica count with one replica. */
  function Defaulted(d: Deployment): Deployment {
    if d.replicas.None? then d.(replicas := Some(1)) else d
  }

  /** One call of syncComputeGroup: a set of a group, its deployment name, and whether it is the leader set. */
  datatype Task = Task(group: ComputeGroup, spec: SetSpec, name: string, leader: bool) {
    function DeploymentKey(): Key {
      Key(group.namespace, name)
    }

    function ServiceKey(): Key {
      Key(group.namespace, group.name)
    }

    /** GetComputeGroupKeys succeeds. */
    predicate HasKeys() {
      group.name != "" && group.namespace != ""
    }

    function OperatorKey(): string {
      if OPERATOR_LABEL in group.labels then group.labels[OPERATOR_LABEL] else ""
    }

    /** The deployment the reconciler wants for the set, owned by the group. */
    function Wanted(): Deployment
      requires spec.instance.Complete()
    {
      AddDeployOwnership(
        MakeDeployment(spec, name, group.namespace, OperatorKey(), DashKey(group.namespace, group.name), leader), group)
    }

    function WantedService(): Service
      requires spec.instance.Complete()
    {
      MakeService(group.name, Wanted())
    }
  }

  lemma WantedIsOwned(t: Task)
    requires t.spec.instance.Complete()
    ensures IsControlledBy(t.Wanted().owners, t.group.uid) && t.Wanted().owners == [GroupRef(t.group)]
    ensures Key(t.Wanted().namespace, t.Wanted().name) == t.DeploymentKey()
    ensures t.Wanted().replicas == t.spec.replicas
  {
  }

  /** A selector selects pods that carry all of its labels. */
  predicate Selects(selector: Labels, podLabels: Labels) {
    forall l :: l in selector ==> l in podLabels && podLabels[l] == selector[l]
  }

  /** A pod made from a deployment's template. */
  function PodOf(d: Deployment, name: string, ip: string, ready: bool): Pod {
    Pod(d.namespace, name, d.podLabels, d.container, ip, ready)
  }

  /** What the pods of a group's set carry. */
  function SetLabels(group: ComputeGroup, leader: bool): Labels {
    map["datafuse-operator" := if "datafuse-operator" in group.labels then group.labels["datafuse-operator"] else "",
        "datafuse-computegroup" := group.namespace + "-" + group.name,
        "datafuse-computegrouprole" := if leader then "leader" else "follower"]
  }

  /** The codec joins the controllers: whatever the reconciler deploys for a set, a pod of it is registered under its
      own name with the ports and the priority of the set's spec, and its role tells it from the other kind. */
  lemma WantedRegisters(t: Task, name: string, ip: string, ready: bool)
    requires t.spec.instance.Complete()
    ensures var pod, instance := PodOf(t.Wanted(), name, ip, ready), t.spec.instance;
      && NodeOf(pod) == Some(Node(t.group.namespace + "/" + name, ip + ":" + Itoa(instance.rpcPort.value),
                                  instance.priority.value))
      && Receiver(pod) == Some(ip + ":" + Itoa(instance.httpPort.value))
      && (pod.IsLeader() <==> t.leader) && (pod.IsFollower() <==> !t.leader)
      && pod.labels == SetLabels(t.group, t.leader) && Selects(t.Wanted().selector, pod.labels)
      && pod.container.image == instance.image.value && pod.container.imagePullPolicy == instance.imagePullPolicy.value
      && EnvVar(NumCpus, Itoa(instance.cores.value)) in pod.container.env
      && EnvVar(HttpAddress, "0.0.0.0:" + Itoa(instance.httpPort.value)) in pod.container.env
      && EnvVar(MysqlHost, "0.0.0.0") in pod.container.env && EnvVar(ClickhouseHost, "0.0.0.0") in pod.container.env
  {
    InstanceRegisters(t.spec.instance, PodOf(t.Wanted(), name, ip, ready));
    EnvironmentShows(t.spec.instance);
  }

  /** The service of a leader set: named after the group, owned by it, selecting the set's pods. */
  lemma WantedServiceSelects(t: Task)
    requires t.spec.instance.Complete()
    ensures var s := t.WantedService();
      && Key(s.namespace, s.name) == Key(t.group.namespace, t.group.name) == t.ServiceKey()
      && s.owners == [OwnerRef("DatafuseComputeGroup", t.group.name, t.group.uid, true)]
      && s.labels == s.selector == SetLabels(t.group, t.leader)
  {
  }
}
