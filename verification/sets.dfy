/** What reconciling and pruning mean for the sets of a spec, told from the spec alone: which deployment stands for a
    set, what goes on record for it, and when it is deleted. */
module Sets {
  import opened Options
  import opened Spec
  import opened Text
  import opened Deploy
  import opened Naming
  import opened Apis
  import opened Sync
  import opened Reconcile
  import opened Pruning
  import opened Healing
  import opened Outcomes

  /** The sets of a group by number, the leader set first. */
  function SetAt(spec: GroupSpec, i: nat): SetSpec
    requires spec.HasSets() && i <= |spec.Workers()|
  {
    if i == 0 then spec.leaders.value else spec.Workers()[i - 1].value
  }

  function DefaultName(group: string, i: nat): string {
    if i == 0 then group + "-leader" else group + "-worker" + Itoa(i - 1)
  }

  /** The i-th set has this name: the one the spec gives it, or else the default one. */
  ghost predicate HasName(group: ComputeGroup, i: nat, n: string)
    requires group.spec.HasSets()
  {
    i <= |group.spec.Workers()| &&
    match SetAt(group.spec, i).instance.name
    case Some(own) => n == own
    case None => n == DefaultName(group.name, i)
  }

  ghost predicate NamesSet(group: ComputeGroup, n: string)
    requires group.spec.HasSets()
  {
    exists i :: HasName(group, i, n)
  }

  /** No two sets have the same name. */
  ghost predicate NamesApart(group: ComputeGroup)
    requires group.spec.HasSets()
  {
    forall i, j, n :: HasName(group, i, n) && HasName(group, j, n) ==> i == j
  }

  lemma TaskOfSet(group: ComputeGroup, i: nat, n: string)
    requires group.spec.HasSets() && HasName(group, i, n)
    ensures |TasksOf(group)| == 1 + |group.spec.Workers()|
    ensures TasksOf(group)[i] == Task(group, SetAt(group.spec, i), n, i == 0)
  {
    if i > 0 {
      assert TasksOf(group)[i] == WorkerTask(group, i - 1);
    }
  }

  lemma SetOfTask(group: ComputeGroup, i: nat)
    requires group.spec.HasSets() && i < |TasksOf(group)|
    ensures HasName(group, i, TasksOf(group)[i].name)
  {
    if i > 0 {
      assert TasksOf(group)[i] == WorkerTask(group, i - 1);
    }
  }

  lemma SetNames(group: ComputeGroup, n: string)
    requires group.spec.HasSets()
    ensures n in TaskNames(TasksOf(group)) <==> NamesSet(group, n)
  {
    if n in TaskNames(TasksOf(group)) {
      var i :| 0 <= i < |TasksOf(group)| && TasksOf(group)[i].name == n;
      SetOfTask(group, i);
    } else if NamesSet(group, n) {
      var i :| HasName(group, i, n);
      TaskOfSet(group, i, n);
      assert false;
    }
  }

  lemma ApartIsDistinct(group: ComputeGroup)
    requires group.spec.HasSets() && NamesApart(group)
    ensures DistinctNames(TasksOf(group))
  {
    forall i, j | 0 <= i < j < |TasksOf(group)|
      ensures TasksOf(group)[i].name != TasksOf(group)[j].name
    {
      SetOfTask(group, i);
      SetOfTask(group, j);
    }
  }

  /* Deployments. */

  /** A pod of this deployment, whatever its name and address, is registered as the spec says. */
  ghost predicate PodsRegister(d: Deployment, spec: InstanceSpec, leader: bool)
    requires spec.Complete()
  {
    forall name, ip, ready {:trigger PodOf(d, name, ip, ready)} ::
      var pod := PodOf(d, name, ip, ready);
      && Pods.NodeOf(pod) == Some(Pods.Node(d.namespace + "/" + name, ip + ":" + Itoa(spec.rpcPort.value),
                                            spec.priority.value))
      && Pods.Receiver(pod) == Some(ip + ":" + Itoa(spec.httpPort.value))
      && (pod.IsLeader() <==> leader) && (pod.IsFollower() <==> !leader)
  }

  /** A deployment as the reconciler makes it for a set of a group. */
  ghost predicate BuiltFor(group: ComputeGroup, spec: SetSpec, leader: bool, name: string, d: Deployment)
    requires spec.instance.Complete()
  {
    && KeyOf(d) == Key(group.namespace, name)
    && d.owners == [OwnerRef("DatafuseComputeGroup", group.name, group.uid, true)]
    && d.replicas == (if spec.replicas.Some? then spec.replicas else Some(1))
    && d.labels == d.selector == d.podLabels == SetLabels(group, leader)
    && d.container.image == spec.instance.image.value
    && d.container.imagePullPolicy == spec.instance.imagePullPolicy.value
    && PodsRegister(d, spec.instance, leader)
  }

  lemma WantedIsBuilt(t: Task)
    requires t.spec.instance.Complete()
    ensures BuiltFor(t.group, t.spec, t.leader, t.name, Defaulted(t.Wanted()))
  {
    var d := Defaulted(t.Wanted());
    forall name, ip, ready
      ensures var pod := PodOf(d, name, ip, ready);
        && Pods.NodeOf(pod) == Some(Pods.Node(d.namespace + "/" + name, ip + ":" + Itoa(t.spec.instance.rpcPort.value),
                                              t.spec.instance.priority.value))
        && Pods.Receiver(pod) == Some(ip + ":" + Itoa(t.spec.instance.httpPort.value))
        && (pod.IsLeader() <==> t.leader) && (pod.IsFollower() <==> !t.leader)
    {
      WantedRegisters(t, name, ip, ready);
      assert PodOf(d, name, ip, ready) == PodOf(t.Wanted(), name, ip, ready);
    }
    WantedRegisters(t, "", "", true);
  }

  /** The deployment there is another owner's, or it has the replicas the set asks for, if it asks for any. */
  predicate LeftAlone(group: ComputeGroup, spec: SetSpec, d: Deployment) {
    !IsControlledBy(d.owners, group.uid) || spec.replicas.None? || d.replicas == spec.replicas
  }

  lemma DeploymentOfTask(t: Task, deployments: map<Key, Deployment>)
    requires t.spec.instance.Complete()
    ensures var k, d := t.DeploymentKey(), DeploymentFor(t, deployments);
      if k in deployments && LeftAlone(t.group, t.spec, deployments[k]) then d == deployments[k]
      else BuiltFor(t.group, t.spec, t.leader, t.name, d)
  {
    WantedIsBuilt(t);
  }

  /** Reconciling, set by set: under the name the spec gives a set, or the default one, stands a deployment. One that
      another owner holds, or that has the replicas asked for, is left as it was; any other is built for the set. So
      the group controls it, with the replicas asked for, exactly when no other owner held the name. */
  lemma SetsAreDeployed(group: ComputeGroup, h: History, wire: Wire, i: nat, n: string)
    requires group.spec.Complete() && HasKeys(group) && NamesApart(group) && Calm(wire, |h.log|)
    requires HasName(group, i, n)
    ensures var k, spec := Key(group.namespace, n), SetAt(group.spec, i);
      var before, after := h.Now().deployments, NewGroup(group, h, wire).Now().deployments;
      && k in after && spec.instance.Complete()
      && (if k in before && LeftAlone(group, spec, before[k]) then after[k] == before[k]
          else BuiltFor(group, spec, i == 0, n, after[k]))
      && ((k in before ==> IsControlledBy(before[k].owners, group.uid)) <==>
            && IsControlledBy(after[k].owners, group.uid)
            && (spec.replicas.Some? ==> after[k].replicas == spec.replicas))
  {
    var task := TasksOf(group)[i];
    TaskOfSet(group, i, n);
    ApartIsDistinct(group);
    NewGroupExact(group, h, wire);
    assert Slot(NewGroup(group, h, wire).Now().deployments, task.DeploymentKey()) ==
        Some(DeploymentFor(task, h.Now().deployments));
    DeploymentOfTask(task, h.Now().deployments);
  }

  /** All other deployments stay as they were. */
  lemma OtherNamesAreKept(group: ComputeGroup, h: History, wire: Wire, k: Key)
    requires group.spec.Complete() && HasKeys(group) && NamesApart(group) && Calm(wire, |h.log|)
    requires k.namespace != group.namespace || !NamesSet(group, k.name)
    ensures Slot(NewGroup(group, h, wire).Now().deployments, k) == Slot(h.Now().deployments, k)
  {
    ApartIsDistinct(group);
    NewGroupExact(group, h, wire);
    CoversByName(group, k);
    SetNames(group, k.name);
  }

  /** The service of a group is made if it is missing, named after the group, owned by it and selecting the pods of its
      leader set; one that is there stays, and so do all others. */
  lemma ServiceIsMade(group: ComputeGroup, h: History, wire: Wire)
    requires group.spec.Complete() && HasKeys(group) && NamesApart(group) && Calm(wire, |h.log|)
    ensures var k, before := Key(group.namespace, group.name), h.Now().services;
      var after := NewGroup(group, h, wire).Now().services;
      && k in after && after.Keys == before.Keys + {k}
      && (forall other :: other in before ==> after[other] == before[other])
      && (k !in before ==>
            && after[k].owners == [OwnerRef("DatafuseComputeGroup", group.name, group.uid, true)]
            && after[k].selector == SetLabels(group, true) && Key(after[k].namespace, after[k].name) == k)
  {
    ApartIsDistinct(group);
    NewGroupExact(group, h, wire);
    WantedServiceSelects(LeaderTask(group));
  }

  /* Pruning. */

  /** Since the n-th call the deletion of this deployment was asked for. */
  ghost predicate Deletes(h: History, n: nat, k: Key) {
    exists m :: n <= m < |h.log| && h.log[m].call == DeleteDeployment(k)
  }

  /** The deployments the pruning handler deletes are exactly those in the old group's namespace whose name the old spec
      gives to a set and the new spec to none. */
  lemma HandlerDeletesIff(was: ComputeGroup, now: ComputeGroup, names: seq<string>, h: History, wire: Wire, k: Key)
    requires was.spec.HasSets() && now.spec.HasSets() && VisitsOnce(names, Dropped(was, now))
    ensures Deletes(DeleteAll(was.namespace, names, h, wire), |h.log|, k) <==>
            k.namespace == was.namespace && NamesSet(was, k.name) && !NamesSet(now, k.name)
  {
    var log := DeleteAll(was.namespace, names, h, wire).log;
    SetNames(was, k.name);
    SetNames(now, k.name);
    forall i | 0 <= i < |names|
      ensures log[|h.log| + i].call == DeleteDeployment(Key(was.namespace, names[i]))
    {
      DeletesInOrder(was.namespace, names, h, wire, i);
    }
    if k.namespace == was.namespace && k.name in names {
      var i :| 0 <= i < |names| && names[i] == k.name;
      assert log[|h.log| + i].call == DeleteDeployment(k);
    } else if m :| |h.log| <= m < |log| && log[m].call == DeleteDeployment(k) {
      var i := m - |h.log|;
      assert log[m].call == log[|h.log| + i].call == DeleteDeployment(Key(was.namespace, names[i]));
    }
  }

  /* The record. */

  /** A recorded "namespace/name" stands for just that deployment, and is missing when that is. */
  lemma RecordStandsForDeployment(namespace: string, name: string, api: Api)
    requires '/' !in namespace
    ensures var record := namespace + "/" + name;
      && '/' in record && RecordKey(record) == Key(namespace, name)
      && (Missing(record, api) <==> Key(namespace, name) !in api.deployments)
  {
    SlashKeySplits(namespace, name);
    assert (namespace + "/" + name)[|namespace|] == '/';
  }

  /** What a calm reconciliation puts on record: if the i-th set's status write is the first to change anything, exactly
      the key of that set's deployment goes on record as ready, and from then on the key is missing just when that
      deployment is. */
  lemma RecordGainsSet(group: ComputeGroup, h: History, wire: Wire, i: nat, n: string, later: Api)
    requires group.spec.Complete() && HasKeys(group) && NamesApart(group) && Calm(wire, |h.log|) && Stored(h.Now())
    requires GroupKey(group) in h.Now().groups && h.Now().groups[GroupKey(group)].version == group.version
    requires Complete(TasksOf(group)) && HasName(group, i, n) && i < |TasksOf(group)|
    requires Changes(group, TasksOf(group), i, h.Now())
    requires forall j :: 0 <= j < i ==> !Changes(group, TasksOf(group), j, h.Now())
    ensures var after, record := NewGroup(group, h, wire).Now().groups, group.namespace + "/" + n;
      && GroupKey(group) in after
      && Records(group, after[GroupKey(group)].(version := group.version), record, i == 0)
      && ('/' !in group.namespace ==> (Missing(record, later) <==> Key(group.namespace, n) !in later.deployments))
  {
    ApartIsDistinct(group);
    TaskOfSet(group, i, n);
    FirstWriteStands(group, h, wire, i);
    RecordOfTask(TasksOf(group), i, h.Now());
    if '/' !in group.namespace {
      RecordStandsForDeployment(group.namespace, n, later);
    }
  }

  lemma RecordOfTask(tasks: seq<Task>, i: nat, before: Api)
    requires Complete(tasks) && i < |tasks| && Stored(before)
    ensures var t := tasks[i]; Records(t.group, RecordOf(tasks, i, before), t.group.namespace + "/" + t.name, t.leader)
  {
    WantedIsOwned(tasks[i]);
    MarkedReadyRecords(tasks[i].group, DeploymentFor(tasks[i], before.deployments), tasks[i].leader);
  }

  /** And whatever becomes of the calls, every status write of a reconciliation adds the key of one of the sets to the
      record the group was passed in with. */
  lemma EveryWriteRecordsASet(group: ComputeGroup, h: History, wire: Wire, m: nat) returns (i: nat, n: string)
    requires group.spec.Complete() && AllStored(h) && |h.log| <= m < |NewGroup(group, h, wire).log|
    requires NewGroup(group, h, wire).log[m].call.UpdateGroup?
    ensures HasName(group, i, n)
    ensures Records(group, NewGroup(group, h, wire).log[m].call.group, group.namespace + "/" + n, i == 0)
  {
    var tasks := TasksOf(group);
    i := SyncAllRecords(tasks, h, wire, m);
    n := tasks[i].name;
    SetOfTask(group, i);
    TaskOfSet(group, i, n);
  }
}
