/** The v1alpha1 resources as values. A pointer or slice that may be nil is an Option. */
module Spec {
  import opened Options

  type int32 = x: int | -0x8000_0000 <= x < 0x8000_0000

  datatype InstanceSpec = InstanceSpec(
    name: Option<string>,
    cores: Option<int32>,
    coreLimit: Option<string>,
    memory: Option<string>,
    memoryLimit: Option<string>,
    labels: Option<map<string, string>>,
    image: Option<string>,
    imagePullPolicy: Option<string>,
    priority: Option<int32>,
    mysqlPort: Option<int32>,
    clickhousePort: Option<int32>,
    httpPort: Option<int32>,
    rpcPort: Option<int32>,
    metricsPort: Option<int32>)
  {
    /** Every pointer the pod builder dereferences without a test is set; on any other spec it panics. */
    predicate Complete() {
      cores.Some? && memory.Some? && memoryLimit.Some? && image.Some? && imagePullPolicy.Some? && priority.Some? &&
      mysqlPort.Some? && clickhousePort.Some? && httpPort.Some? && rpcPort.Some? && metricsPort.Some?
    }
  }

  datatype SetSpec = SetSpec(replicas: Option<int32>, instance: InstanceSpec)

  datatype GroupSpec = GroupSpec(
    leaders: Option<SetSpec>,
    workers: Option<seq<Option<SetSpec>>>,
    name: string,
    namespace: string)
  {
    function Workers(): seq<Option<SetSpec>> {
      if workers.Some? then workers.value else []
    }

    /** The set pointers are not nil: what naming the sets needs in order not to panic. */
    predicate HasSets() {
      leaders.Some? && forall i :: 0 <= i < |Workers()| ==> Workers()[i].Some?
    }

    /** And each set is complete: what the reconciler needs. */
    predicate Complete() {
      && HasSets() && leaders.value.instance.Complete()
      && forall i :: 0 <= i < |Workers()| ==> Workers()[i].value.instance.Complete()
    }
  }

  type StateMap = map<string, string>

  /** A map of states that may be nil has this entry as well, and is otherwise as it was. */
  ghost predicate Gains(was: Option<StateMap>, now: Option<StateMap>, key: string, state: string) {
    && now.Some? && key in now.value && now.value[key] == state
    && forall k :: k != key ==>
         if was.Some? && k in was.value then k in now.value && now.value[k] == was.value[k] else k !in now.value
  }

  const GROUP_DEPLOYED := "Ready"
  const GROUP_PENDING := "Pending"
  const GROUP_CREATED := "Created"
  const INSTANCE_READY := "READY"

  datatype GroupStatus = GroupStatus(
    readyLeaders: Option<StateMap>,
    readyWorkers: Option<StateMap>,
    status: string,
    serviceName: string)

  const OPERATOR_LABEL := "datafuse-operator"
  const GROUP_LABEL := "datafuse-computegroup"
  const ROLE_LABEL := "datafuse-computegrouprole"
  const ROLE_LEADER := "leader"
  const ROLE_FOLLOWER := "follower"

  type Labels = map<string, string>

  datatype OwnerRef = OwnerRef(kind: string, name: string, uid: string, controller: bool)

  /** metav1.GetControllerOf: the first reference marked as the controller. */
  function ControllerOf(owners: seq<OwnerRef>): Option<OwnerRef> {
    if owners == [] then None
    else if owners[0].controller then Some(owners[0])
    else ControllerOf(owners[1..])
  }

  /** metav1.IsControlledBy: ownership is by the owner's UID. */
  predicate IsControlledBy(owners: seq<OwnerRef>, uid: string) {
    ControllerOf(owners).Some? && ControllerOf(owners).value.uid == uid
  }

  datatype ComputeGroup = ComputeGroup(
    namespace: string,
    name: string,
    uid: string,
    version: nat,
    labels: Labels,
    owners: seq<OwnerRef>,
    spec: GroupSpec,
    status: GroupStatus)

  const OPERATOR_CREATED := "Created"
  const OPERATOR_READY := "Ready"

  datatype Operator = Operator(
    namespace: string,
    name: string,
    uid: string,
    version: nat,
    groups: Option<seq<GroupSpec>>,
    states: Option<StateMap>,
    status: string)
}
