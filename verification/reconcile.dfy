/** What reconciling a whole group comes to: its deployments, its service, and nothing else. */
module Reconcile {
  import opened Options
  import opened Spec
  import opened Deploy
  import opened Naming
  import opened Apis
  import opened Sync

  /** processNewComputeGroup: one sync for each set. Whatever the syncs answer, it reports success. */
  ghost function NewGroup(group: ComputeGroup, h: History, wire: Wire): (r: History)
    requires group.spec.Complete()
    ensures r.Continues(h)
  {
    SyncAll(TasksOf(group), h, wire)
  }

  ghost function SettledAll(tasks: seq<Task>, api: Api): Api
    requires Complete(tasks)
  {
    if tasks == [] then api else Settled(tasks[|tasks| - 1], SettledAll(tasks[..|tasks| - 1], api))
  }

  lemma {:induction false} SyncAllSettles(tasks: seq<Task>, h: History, wire: Wire)
    requires Complete(tasks) && Calm(wire, |h.log|)
    ensures SyncAll(tasks, h, wire).Now() == SettledAll(tasks, h.Now())
  {
    if tasks != [] {
      var init, last := tasks[..|tasks| - 1], tasks[|tasks| - 1];
      SyncAllSettles(init, h, wire);
      var before := SyncAll(init, h, wire);
      ConcludeIsCalm(last, Begin(last), before, wire);
      SyncSettles(last, before.Now());
    }
  }

  ghost predicate Apart(tasks: seq<Task>) {
    forall i, j :: 0 <= i < j < |tasks| ==> tasks[i].DeploymentKey() != tasks[j].DeploymentKey()
  }

  ghost predicate Covers(tasks: seq<Task>, k: Key) {
    exists i :: 0 <= i < |tasks| && tasks[i].DeploymentKey() == k
  }

  /** A deployment that no set names stays as it is, or stays absent. */
  lemma {:induction false} OthersKept(tasks: seq<Task>, api: Api, k: Key)
    requires Complete(tasks) && !Covers(tasks, k)
    ensures Slot(SettledAll(tasks, api).deployments, k) == Slot(api.deployments, k)
  {
    if tasks != [] {
      var init, last := tasks[..|tasks| - 1], tasks[|tasks| - 1];
      assert forall i :: 0 <= i < |init| ==> init[i] == tasks[i];
      OthersKept(init, api, k);
      assert last.DeploymentKey() != k;
      OtherSlot(last, SettledAll(init, api), k);
    }
  }

  lemma OtherSlot(task: Task, api: Api, k: Key)
    requires task.spec.instance.Complete() && task.DeploymentKey() != k
    ensures Slot(Settled(task, api).deployments, k) == Slot(api.deployments, k)
  {
  }

  lemma OwnSlot(task: Task, api: Api, before: map<Key, Deployment>)
    requires task.spec.instance.Complete() && task.HasKeys()
    requires Slot(api.deployments, task.DeploymentKey()) == Slot(before, task.DeploymentKey())
    ensures Slot(Settled(task, api).deployments, task.DeploymentKey()) == Some(DeploymentFor(task, before))
  {
  }

  /** The deployment of each set is settled from what was under its name, whatever the other sets did. */
  lemma {:induction false} EachSettled(tasks: seq<Task>, api: Api, i: nat)
    requires Complete(tasks) && Apart(tasks) && i < |tasks| && tasks[i].HasKeys()
    ensures Slot(SettledAll(tasks, api).deployments, tasks[i].DeploymentKey()) ==
              Some(DeploymentFor(tasks[i], api.deployments))
  {
    var init, last := tasks[..|tasks| - 1], tasks[|tasks| - 1];
    assert forall j :: 0 <= j < |init| ==> init[j] == tasks[j];
    if i == |init| {
      OthersKept(init, api, last.DeploymentKey());
      OwnSlot(last, SettledAll(init, api), api.deployments);
    } else {
      EachSettled(init, api, i);
      OtherSlot(last, SettledAll(init, api), tasks[i].DeploymentKey());
    }
  }

  /* Services and group objects. */

  lemma {:induction false} OtherServicesKept(tasks: seq<Task>, api: Api, k: Key)
    requires Complete(tasks) && forall i :: 0 <= i < |tasks| && tasks[i].leader ==> tasks[i].ServiceKey() != k
    ensures Slot(SettledAll(tasks, api).services, k) == Slot(api.services, k)
  {
    if tasks != [] {
      var init, last := tasks[..|tasks| - 1], tasks[|tasks| - 1];
      assert forall i :: 0 <= i < |init| ==> init[i] == tasks[i];
      OtherServicesKept(init, api, k);
      assert last == tasks[|init|];
    }
  }

  /** The one leader set that names a service gets it, unless it is there already. */
  lemma {:induction false} EachServed(tasks: seq<Task>, api: Api, i: nat)
    requires Complete(tasks) && i < |tasks| && tasks[i].HasKeys() && tasks[i].leader
    requires forall j :: 0 <= j < |tasks| && j != i && tasks[j].leader ==>
        tasks[j].ServiceKey() != tasks[i].ServiceKey()
    ensures Slot(SettledAll(tasks, api).services, tasks[i].ServiceKey()) ==
              Slot(ServicesFor(tasks[i], api.services), tasks[i].ServiceKey())
  {
    var init, last := tasks[..|tasks| - 1], tasks[|tasks| - 1];
    assert forall j :: 0 <= j < |init| ==> init[j] == tasks[j];
    if i == |init| {
      OtherServicesKept(init, api, last.ServiceKey());
    } else {
      EachServed(init, api, i);
      assert last == tasks[|init|];
    }
  }

  lemma {:induction false} OtherGroupsKept(tasks: seq<Task>, api: Api, k: Key)
    requires Complete(tasks) && forall i :: 0 <= i < |tasks| ==> tasks[i].ServiceKey() != k
    ensures Slot(SettledAll(tasks, api).groups, k) == Slot(api.groups, k)
  {
    if tasks != [] {
      var init, last := tasks[..|tasks| - 1], tasks[|tasks| - 1];
      assert forall i :: 0 <= i < |init| ==> init[i] == tasks[i];
      OtherGroupsKept(init, api, k);
      assert last == tasks[|init|];
    }
  }

  /* One group. */

  predicate HasKeys(group: ComputeGroup) {
    group.name != "" && group.namespace != ""
  }

  /** The deployment of a set is the group's and has the replicas the set asks for. */
  ghost predicate InPlace(task: Task, api: Api) {
    && task.DeploymentKey() in api.deployments
    && IsControlledBy(api.deployments[task.DeploymentKey()].owners, task.group.uid)
    && (task.spec.replicas.Some? ==> api.deployments[task.DeploymentKey()].replicas == task.spec.replicas)
  }

  lemma InPlaceIffFree(task: Task, api: Api, after: Api)
    requires task.spec.instance.Complete()
    requires Slot(after.deployments, task.DeploymentKey()) == Some(DeploymentFor(task, api.deployments))
    ensures InPlace(task, after) <==> Free(task, api)
  {
    WantedIsOwned(task);
  }

  /** The syncs of one group: a leader set first, then worker sets, each under a deployment name of its own. */
  ghost predicate SyncsOf(group: ComputeGroup, tasks: seq<Task>) {
    && HasKeys(group) && Complete(tasks) && Apart(tasks) && tasks != []
    && forall i :: 0 <= i < |tasks| ==> tasks[i].group == group && tasks[i].leader == (i == 0)
  }

  lemma TasksAreSyncs(group: ComputeGroup)
    requires group.spec.Complete() && HasKeys(group) && DistinctNames(TasksOf(group))
    ensures SyncsOf(group, TasksOf(group))
  {
    var tasks := TasksOf(group);
    assert forall i :: 0 <= i < |tasks| ==> tasks[i].DeploymentKey() == Key(group.namespace, tasks[i].name);
  }

  /** Each set's deployment is settled from what was under its name, and is the group's unless another owner held it. */
  ghost predicate SetsSettled(tasks: seq<Task>, before: Api, after: Api)
    requires Complete(tasks)
  {
    forall i :: 0 <= i < |tasks| ==>
      && Slot(after.deployments, tasks[i].DeploymentKey()) == Some(DeploymentFor(tasks[i], before.deployments))
      && (InPlace(tasks[i], after) <==> Free(tasks[i], before))
  }

  /** Deployments that no set names, and other groups, are as they were. */
  ghost predicate OthersUntouched(tasks: seq<Task>, group: Key, before: Api, after: Api) {
    && (forall k :: !Covers(tasks, k) ==> Slot(after.deployments, k) == Slot(before.deployments, k))
    && (forall k :: k != group ==> Slot(after.groups, k) == Slot(before.groups, k))
  }

  /** processNewComputeGroup, when calls succeed and the sets have distinct names: the sets' deployments and the
      service are settled, and nothing else changes but the group's own record. */
  lemma NewGroupExact(group: ComputeGroup, h: History, wire: Wire)
    requires group.spec.Complete() && HasKeys(group) && DistinctNames(TasksOf(group)) && Calm(wire, |h.log|)
    ensures var before, after := h.Now(), NewGroup(group, h, wire).Now();
      && Complete(TasksOf(group)) && SetsSettled(TasksOf(group), before, after)
      && OthersUntouched(TasksOf(group), GroupKey(group), before, after)
      && after.services == ServicesFor(LeaderTask(group), before.services)
  {
    var tasks := TasksOf(group);
    TasksAreSyncs(group);
    SyncAllSettles(tasks, h, wire);
    AllSettled(group, tasks, h.Now());
    GroupServed(group, tasks, h.Now());
    AllOthersUntouched(group, tasks, h.Now());
  }

  lemma AllSettled(group: ComputeGroup, tasks: seq<Task>, api: Api)
    requires SyncsOf(group, tasks)
    ensures SetsSettled(tasks, api, SettledAll(tasks, api))
  {
    forall i | 0 <= i < |tasks|
      ensures Slot(SettledAll(tasks, api).deployments, tasks[i].DeploymentKey()) ==
          Some(DeploymentFor(tasks[i], api.deployments))
      ensures InPlace(tasks[i], SettledAll(tasks, api)) <==> Free(tasks[i], api)
    {
      EachSettled(tasks, api, i);
      InPlaceIffFree(tasks[i], api, SettledAll(tasks, api));
    }
  }

  lemma AllOthersUntouched(group: ComputeGroup, tasks: seq<Task>, api: Api)
    requires SyncsOf(group, tasks)
    ensures OthersUntouched(tasks, GroupKey(group), api, SettledAll(tasks, api))
  {
    forall k | !Covers(tasks, k)
      ensures Slot(SettledAll(tasks, api).deployments, k) == Slot(api.deployments, k)
    {
      OthersKept(tasks, api, k);
    }
    forall k | k != GroupKey(group)
      ensures Slot(SettledAll(tasks, api).groups, k) == Slot(api.groups, k)
    {
      OtherGroupsKept(tasks, api, k);
    }
  }

  lemma GroupServed(group: ComputeGroup, tasks: seq<Task>, api: Api)
    requires SyncsOf(group, tasks)
    ensures SettledAll(tasks, api).services == ServicesFor(tasks[0], api.services)
  {
    var after, wanted := SettledAll(tasks, api).services, ServicesFor(tasks[0], api.services);
    EachServed(tasks, api, 0);
    forall k | k != GroupKey(group)
      ensures Slot(after, k) == Slot(wanted, k)
    {
      OtherServicesKept(tasks, api, k);
    }
    SameSlots(after, wanted);
  }

  lemma SameSlots<T>(m: map<Key, T>, n: map<Key, T>)
    requires forall k :: Slot(m, k) == Slot(n, k)
    ensures m == n
  {
    assert forall k :: k in m <==> Slot(m, k).Some?;
    assert forall k :: k in n <==> Slot(n, k).Some?;
    assert forall k :: k in m ==> Slot(m, k) == Some(m[k]);
  }

  /* The second run. */

  /** Nothing for a sync of this set to create or update. */
  ghost predicate AtRest(task: Task, api: Api) {
    && task.DeploymentKey() in api.deployments
    && (Free(task, api) && task.spec.replicas.Some? ==>
          api.deployments[task.DeploymentKey()].replicas == task.spec.replicas)
    && (task.leader ==> task.ServiceKey() in api.services)
  }

  /** Since the n-th call, no call but lookups and status writes, and the same deployments and services. */
  ghost predicate QuietSince(h: History, n: nat, api: Api) {
    && (forall i :: n <= i < |h.log| ==> h.log[i].call.Harmless())
    && h.Now().deployments == api.deployments && h.Now().services == api.services
  }

  /** A sync of a set at rest is about to look or to write the status. */
  ghost predicate AtRestPc(task: Task, pc: Pc, api: Api) {
    && task.DeploymentKey() in api.deployments
    && match pc
       case LookDeployment => true
       case LookService(d) => task.leader && d == api.deployments[task.DeploymentKey()]
       case WriteStatus(_) => true
       case Done(_) => true
       case _ => false
  }

  lemma RestingTurn(task: Task, pc: Pc, h: History, wire: Wire)
    requires task.spec.instance.Complete() && !pc.Done? && Calm(wire, |h.log|)
    requires AtRest(task, h.Now()) && AtRestPc(task, pc, h.Now())
    ensures var o := Turn(task, pc, h, wire);
      && o.history.log[|h.log|].call.Harmless()
      && o.history.Now().deployments == h.Now().deployments && o.history.Now().services == h.Now().services
      && AtRestPc(task, o.pc, h.Now())
  {
  }

  lemma {:induction false} RestingSync(task: Task, pc: Pc, h: History, wire: Wire)
    requires task.spec.instance.Complete() && Calm(wire, |h.log|)
    requires AtRest(task, h.Now()) && AtRestPc(task, pc, h.Now())
    ensures QuietSince(Conclude(task, pc, h, wire).history, |h.log|, h.Now())
    decreases Rank(pc)
  {
    if !pc.Done? {
      var o := Turn(task, pc, h, wire);
      RestingTurn(task, pc, h, wire);
      RestingSync(task, o.pc, o.history, wire);
    }
  }

  lemma {:induction false} RestingSyncs(tasks: seq<Task>, h: History, wire: Wire)
    requires Complete(tasks) && Calm(wire, |h.log|)
    requires forall i :: 0 <= i < |tasks| ==> AtRest(tasks[i], h.Now())
    ensures QuietSince(SyncAll(tasks, h, wire), |h.log|, h.Now())
  {
    if tasks != [] {
      var init, last := tasks[..|tasks| - 1], tasks[|tasks| - 1];
      RestingSyncs(init, h, wire);
      var before := SyncAll(init, h, wire);
      assert AtRest(last, before.Now());
      RestingSync(last, Begin(last), before, wire);
    }
  }

  lemma SettledIsAtRest(group: ComputeGroup, tasks: seq<Task>, before: Api, after: Api, i: nat)
    requires SyncsOf(group, tasks) && SetsSettled(tasks, before, after) && i < |tasks|
    requires after.services == ServicesFor(tasks[0], before.services)
    ensures AtRest(tasks[i], after)
  {
    WantedIsOwned(tasks[i]);
    assert Slot(after.deployments, tasks[i].DeploymentKey()) == Some(DeploymentFor(tasks[i], before.deployments));
  }

  /** Reconciling a group twice: the second time no deployment or service is created, updated or deleted. */
  lemma SecondRunIsQuiet(group: ComputeGroup, h: History, wire: Wire)
    requires group.spec.Complete() && HasKeys(group) && DistinctNames(TasksOf(group)) && Calm(wire, |h.log|)
    ensures var once := NewGroup(group, h, wire); QuietSince(NewGroup(group, once, wire), |once.log|, once.Now())
  {
    var tasks, once := TasksOf(group), NewGroup(group, h, wire);
    TasksAreSyncs(group);
    NewGroupExact(group, h, wire);
    forall i | 0 <= i < |tasks|
      ensures AtRest(tasks[i], once.Now())
    {
      SettledIsAtRest(group, tasks, h.Now(), once.Now(), i);
    }
    RestingSyncs(tasks, once, wire);
  }

  /* The group's record. */

  /** The record the i-th sync of a group would write. */
  ghost function RecordOf(tasks: seq<Task>, i: nat, before: Api): ComputeGroup
    requires Complete(tasks) && i < |tasks|
  {
    MarkedReady(tasks[i].group, DeploymentFor(tasks[i], before.deployments), tasks[i].leader)
  }

  /** The i-th sync gets as far as its status write, and would change the stored record by it. */
  ghost predicate Changes(group: ComputeGroup, tasks: seq<Task>, i: nat, before: Api)
    requires Complete(tasks) && i < |tasks|
  {
    Free(tasks[i], before) && Some(RecordOf(tasks, i, before)) != Slot(before.groups, GroupKey(group))
  }

  lemma SameSlotSameResult(task: Task, a: Api, b: Api)
    requires task.spec.instance.Complete()
    requires Slot(a.deployments, task.DeploymentKey()) == Slot(b.deployments, task.DeploymentKey())
    ensures DeploymentFor(task, a.deployments) == DeploymentFor(task, b.deployments)
    ensures Free(task, a) <==> Free(task, b)
  {
  }

  /** The group's object once the first n syncs are through. */
  ghost function RecordAfter(group: ComputeGroup, tasks: seq<Task>, n: nat, before: Api): Option<ComputeGroup>
    requires Complete(tasks) && n <= |tasks|
  {
    Slot(SettledAll(tasks[..n], before).groups, GroupKey(group))
  }

  /** What the next sync does to the group's object, told from what was there before all of them. */
  lemma NextWrite(group: ComputeGroup, tasks: seq<Task>, n: nat, before: Api)
    requires SyncsOf(group, tasks) && n < |tasks|
    ensures var sofar := RecordAfter(group, tasks, n, before);
      RecordAfter(group, tasks, n + 1, before) ==
        if Free(tasks[n], before) && sofar.Some? && sofar.value.version == group.version
        then Some(Written(sofar.value, RecordOf(tasks, n, before))) else sofar
  {
    NotCoveredBefore(tasks, n);
    OthersKept(tasks[..n], before, tasks[n].DeploymentKey());
    assert tasks[..n + 1][..n] == tasks[..n];
    WriteOf(tasks[n], SettledAll(tasks[..n], before), before);
  }

  lemma NotCoveredBefore(tasks: seq<Task>, n: nat)
    requires Apart(tasks) && n < |tasks|
    ensures !Covers(tasks[..n], tasks[n].DeploymentKey())
  {
  }

  /** What one sync does to its group's object, told from an earlier state of its deployment's name. */
  lemma WriteOf(task: Task, now: Api, before: Api)
    requires task.spec.instance.Complete() && task.HasKeys()
    requires Slot(now.deployments, task.DeploymentKey()) == Slot(before.deployments, task.DeploymentKey())
    ensures var sofar := Slot(now.groups, task.ServiceKey());
      Slot(Settled(task, now).groups, task.ServiceKey()) ==
        if Free(task, before) && sofar.Some? && sofar.value.version == task.group.version
        then Some(Written(sofar.value, MarkedReady(task.group, DeploymentFor(task, before.deployments), task.leader)))
        else sofar
  {
    SameSlotSameResult(task, now, before);
  }

  /** Up to the first sync that changes the record, it stays as it is. */
  lemma {:induction false} RecordUntouched(group: ComputeGroup, tasks: seq<Task>, n: nat, before: Api)
    requires SyncsOf(group, tasks) && n <= |tasks| && GroupKey(group) in before.groups
    requires before.groups[GroupKey(group)].version == group.version ==>
      forall j :: 0 <= j < n ==> !Changes(group, tasks, j, before)
    ensures RecordAfter(group, tasks, n, before) == Slot(before.groups, GroupKey(group))
  {
    if n > 0 {
      var m := n - 1;
      RecordUntouched(group, tasks, m, before);
      assert before.groups[GroupKey(group)].version == group.version ==> !Changes(group, tasks, m, before);
      NextWrite(group, tasks, m, before);
    }
  }

  lemma RefusedWrite(group: ComputeGroup, tasks: seq<Task>, n: nat, before: Api, record: ComputeGroup)
    requires SyncsOf(group, tasks) && n < |tasks|
    requires RecordAfter(group, tasks, n, before) == Some(record) && record.version != group.version
    ensures RecordAfter(group, tasks, n + 1, before) == Some(record)
  {
    NextWrite(group, tasks, n, before);
  }

  /** Once the stored version is another than the snapshot's, no later sync changes the record. */
  lemma {:induction false} LaterWritesRefused(group: ComputeGroup, tasks: seq<Task>, m: nat, n: nat, before: Api,
                                              record: ComputeGroup)
    requires SyncsOf(group, tasks) && m <= n <= |tasks|
    requires RecordAfter(group, tasks, m, before) == Some(record) && record.version != group.version
    ensures RecordAfter(group, tasks, n, before) == Some(record)
  {
    if m < n {
      LaterWritesRefused(group, tasks, m, n - 1, before, record);
      RefusedWrite(group, tasks, n - 1, before, record);
    }
  }

  /** The first sync that changes the record has the last word on it. */
  lemma FirstChangeStands(group: ComputeGroup, tasks: seq<Task>, i: nat, before: Api)
    requires SyncsOf(group, tasks) && i < |tasks|
    requires GroupKey(group) in before.groups && before.groups[GroupKey(group)].version == group.version
    requires Changes(group, tasks, i, before) && forall j :: 0 <= j < i ==> !Changes(group, tasks, j, before)
    ensures RecordAfter(group, tasks, |tasks|, before) ==
              Some(Written(before.groups[GroupKey(group)], RecordOf(tasks, i, before)))
  {
    var record := Written(before.groups[GroupKey(group)], RecordOf(tasks, i, before));
    RecordUntouched(group, tasks, i, before);
    NextWrite(group, tasks, i, before);
    LaterWritesRefused(group, tasks, i + 1, |tasks|, before, record);
  }

  /** What a calm reconciliation leaves of the record is what its syncs leave one after the other. */
  lemma RecordAfterAll(group: ComputeGroup, h: History, wire: Wire)
    requires group.spec.Complete() && HasKeys(group) && DistinctNames(TasksOf(group)) && Calm(wire, |h.log|)
    ensures SyncsOf(group, TasksOf(group))
    ensures NewGroup(group, h, wire).Now() == SettledAll(TasksOf(group), h.Now())
    ensures Slot(NewGroup(group, h, wire).Now().groups, GroupKey(group)) ==
              RecordAfter(group, TasksOf(group), |TasksOf(group)|, h.Now())
  {
    var tasks := TasksOf(group);
    TasksAreSyncs(group);
    SyncAllSettles(tasks, h, wire);
    assert tasks[..|tasks|] == tasks;
  }

  /** All status writes of one reconciliation start from the group as it was passed in, so the server takes the first
      that changes anything and refuses every later one: of all the sets just synced, the record gains one. */
  lemma FirstWriteStands(group: ComputeGroup, h: History, wire: Wire, i: nat)
    requires group.spec.Complete() && HasKeys(group) && DistinctNames(TasksOf(group)) && Calm(wire, |h.log|)
    requires GroupKey(group) in h.Now().groups && h.Now().groups[GroupKey(group)].version == group.version
    requires Complete(TasksOf(group)) && i < |TasksOf(group)|
    requires Changes(group, TasksOf(group), i, h.Now())
    requires forall j :: 0 <= j < i ==> !Changes(group, TasksOf(group), j, h.Now())
    ensures Slot(NewGroup(group, h, wire).Now().groups, GroupKey(group)) ==
              Some(Written(h.Now().groups[GroupKey(group)], RecordOf(TasksOf(group), i, h.Now())))
  {
    RecordAfterAll(group, h, wire);
    FirstChangeStands(group, TasksOf(group), i, h.Now());
  }

  /** If no write changes anything, or the snapshot is older than the stored group, the record stays as it is. */
  lemma NoWriteStands(group: ComputeGroup, h: History, wire: Wire)
    requires group.spec.Complete() && HasKeys(group) && DistinctNames(TasksOf(group)) && Calm(wire, |h.log|)
    requires GroupKey(group) in h.Now().groups && Complete(TasksOf(group))
    requires h.Now().groups[GroupKey(group)].version == group.version ==>
      forall j :: 0 <= j < |TasksOf(group)| ==> !Changes(group, TasksOf(group), j, h.Now())
    ensures NewGroup(group, h, wire).Now().groups == h.Now().groups
  {
    var tasks := TasksOf(group);
    RecordAfterAll(group, h, wire);
    RecordUntouched(group, tasks, |tasks|, h.Now());
    AllOthersUntouched(group, tasks, h.Now());
    SameSlots(NewGroup(group, h, wire).Now().groups, h.Now().groups);
  }

  lemma StaleSnapshotWritesNothing(group: ComputeGroup, h: History, wire: Wire)
    requires group.spec.Complete() && HasKeys(group) && DistinctNames(TasksOf(group)) && Calm(wire, |h.log|)
    requires GroupKey(group) in h.Now().groups && h.Now().groups[GroupKey(group)].version != group.version
    ensures NewGroup(group, h, wire).Now().groups == h.Now().groups
  {
    TasksAreSyncs(group);
    NoWriteStands(group, h, wire);
  }
}
