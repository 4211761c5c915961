/** The compute-group reconciler: how it brings the deployments and the service of a group in line with its spec. */
module Operator {
  import opened Options
  import opened Spec
  import opened Text
  import opened Deploy
  import opened Naming
  import opened Apis
  import opened Sync
  import opened Reconcile
  import opened Pruning
  import opened Healing
  import opened Outcomes
  import opened Sets
  import opened Rounds
  import opened Objects
  import opened Parents
  import opened WorkQueues

  /** Records a ready deployment in the maps of a status, making a map where there is none. */
  method MarkStatus(status: StatusStruct, deployKey: string, isLeader: bool, ghost was: GroupStatus)
    returns (marked: StatusStruct)
    requires status.Value() == was && (status.readyLeaders == null || status.readyLeaders != status.readyWorkers)
    modifies status.Reach()
    ensures marked.Value() == MarkedStatus(was, deployKey, isLeader)
    ensures fresh(marked.Reach() - status.Reach()) &&
        (marked.readyLeaders == null || marked.readyLeaders != marked.readyWorkers)
  {
    marked := status;
    if isLeader {
      if marked.status != GROUP_DEPLOYED {
        marked := marked.(status := GROUP_DEPLOYED);
      }
      if marked.readyLeaders == null {
        var states := new Ptr<StateMap>(map[]);
        marked := marked.(readyLeaders := states);
      }
      marked.readyLeaders.value := marked.readyLeaders.value[deployKey := INSTANCE_READY];
    } else {
      if marked.readyWorkers == null {
        var states := new Ptr<StateMap>(map[]);
        marked := marked.(readyWorkers := states);
      }
      marked.readyWorkers.value := marked.readyWorkers.value[deployKey := INSTANCE_READY];
    }
  }

  /** A queued group is told from others by its pointer. */
  datatype GroupItem = GroupItem(group: GroupObject) | OtherItem(id: nat)

  datatype OperatorItem = OperatorItem(op: OperatorObject) | NoOperator(id: nat)

  class OperatorController {
    const api: ApiServer
    const groupQueue: WorkQueue<GroupItem>
    const operatorQueue: WorkQueue<OperatorItem>

    constructor (api: ApiServer, groupQueue: WorkQueue<GroupItem>, operatorQueue: WorkQueue<OperatorItem>)
      ensures this.api == api && this.groupQueue == groupQueue && this.operatorQueue == operatorQueue
    {
      this.api := api;
      this.groupQueue := groupQueue;
      this.operatorQueue := operatorQueue;
    }

    /** A group this controller can be given: what it is worth, with the API server no part of it. */
    ghost predicate Given(cg: GroupObject, group: ComputeGroup)
      reads cg, cg.Repr
    {
      cg.Valid() && api !in cg.Repr && cg.Value() == group
    }

    /** What happens elsewhere leaves a group as it is. */
    twostate lemma StillGiven(cg: GroupObject)
      requires old(cg.Valid()) && api !in old(cg.Repr) && forall o :: o in old(cg.Repr) ==> unchanged(o)
      ensures Given(cg, old(cg.Value()))
    {
    }

    method UpdateComputeGroupStatus(cg: GroupObject, d: Deployment, isLeader: bool, ghost group: ComputeGroup)
      returns (ok: bool)
      requires api.Valid() && Given(cg, group)
      modifies api
      ensures api.Valid()
      ensures var call := UpdateGroup(MarkedReady(group, d, isLeader));
        && api.history == old(api.history.Plus(call, api.wire.fate(|api.history.log|)))
        && ok == old(Answered(api.history.Now(), call, api.wire.fate(|api.history.log|)))
        && Records(group, call.group, d.namespace + "/" + d.name, isLeader)
    {
      MarkedReadyRecords(group, d, isLeader);
      var cgCopy := cg.DeepCopy();
      MarkReady(cgCopy, d, isLeader);
      ok := api.Send(UpdateGroup(cgCopy.Value()));
    }

    /** From this point of a sync on, it comes to this outcome. */
    ghost predicate Underway(task: Task, pc: Pc, whole: Outcome)
      requires task.spec.instance.Complete()
      reads api
    {
      Conclude(task, pc, api.history, api.wire) == whole
    }

    /* syncComputeGroup, in its four parts. */

    /** Looks the deployment up, and creates it if the lookup does not find it. */
    method FindOrCreateDeployment(deploy: Deployment, ghost task: Task, ghost whole: Outcome)
      returns (d: Option<Deployment>)
      requires task.spec.instance.Complete() && deploy == task.Wanted()
      requires api.Valid() && Underway(task, LookDeployment, whole)
      modifies api
      ensures api.Valid() && (d.Some? ==> d.value.replicas.Some?)
      ensures Underway(task, if d.Some? then Found(task, d.value) else Done(false), whole)
    {
      d := api.LookDeployment(Key(deploy.namespace, deploy.name));
      if d.None? {
        assert Underway(task, Pc.MakeDeployment, whole);
        var created := api.Send(CreateDeployment(deploy));
        d := if created then Some(Defaulted(deploy)) else None;
      }
    }

    /** Looks the service up, and creates it if the lookup does not find it. */
    method FindOrCreateService(service: Service, d: Deployment, ghost task: Task, ghost whole: Outcome)
      returns (ok: bool)
      requires task.spec.instance.Complete() && service == task.WantedService()
      requires api.Valid() && Underway(task, LookService(d), whole)
      modifies api
      ensures api.Valid() && Underway(task, if ok then Judge(task, d) else Done(false), whole)
    {
      var s := api.LookService(Key(service.namespace, service.name));
      ok := true;
      if s.None? {
        assert Underway(task, Pc.MakeService(d), whole);
        ok := api.Send(CreateService(service));
      }
    }

    /** Replaces a deployment whose replicas differ. */
    method ReplaceDeployment(deploy: Deployment, ghost found: Deployment, ghost task: Task, ghost whole: Outcome)
      returns (d: Option<Deployment>)
      requires task.spec.instance.Complete() && deploy == task.Wanted()
      requires api.Valid() && Underway(task, FixReplicas(found), whole)
      modifies api
      ensures api.Valid() && Underway(task, if d.Some? then WriteStatus(d.value) else Done(false), whole)
      ensures |api.history.log| == old(|api.history.log|) + 1
      ensures d.Some? <==> api.history.WentThrough(|api.history.log| - 1, api.wire)
    {
      ConcludeTurns(task, FixReplicas(found), api.history, api.wire);
      FixTurns(task, found, api.history, api.wire);
      var updated := api.Send(UpdateDeployment(deploy));
      d := if updated then Some(Defaulted(deploy)) else None;
    }

    /** Checks the ownership and the replicas of the deployment in hand. */
    method CheckDeployment(group: ComputeGroup, deploy: Deployment, setSpec: SetSpec, found: Deployment,
                           ghost task: Task, ghost whole: Outcome) returns (d: Option<Deployment>)
      requires task.spec.instance.Complete() && deploy == task.Wanted() && group == task.group && setSpec == task.spec
      requires found.replicas.Some?
      requires api.Valid() && Underway(task, Judge(task, found), whole)
      modifies api
      ensures api.Valid() && Underway(task, if d.Some? then WriteStatus(d.value) else Done(false), whole)
      ensures api.history != old(api.history) ==>
        && |api.history.log| == old(|api.history.log|) + 1
        && (d.Some? <==> api.history.WentThrough(|api.history.log| - 1, api.wire))
    {
      d := Some(found);
      if !IsControlledBy(found.owners, group.uid) {
        d := None;
      } else if setSpec.replicas.Some? && setSpec.replicas.value != found.replicas.value {
        d := ReplaceDeployment(deploy, found, task, whole);
      }
    }

    /** All of a sync but the status write. */
    method SyncObjects(group: ComputeGroup, setSpec: SetSpec, name: string, isLeader: bool, ghost task: Task,
        ghost whole: Outcome)
      returns (d: Option<Deployment>)
      requires setSpec.instance.Complete() && task == Task(group, setSpec, name, isLeader)
      requires api.Valid() && Underway(task, Begin(task), whole)
      modifies api
      ensures api.Valid() && Underway(task, if d.Some? then WriteStatus(d.value) else Done(false), whole)
    {
      if group.name == "" || group.namespace == "" {
        return None;
      }
      var opKey := if OPERATOR_LABEL in group.labels then group.labels[OPERATOR_LABEL] else "";
      var groupKey := DashKey(group.namespace, group.name);
      var deploy := AddDeployOwnership(
        Deploy.MakeDeployment(setSpec, name, group.namespace, opKey, groupKey, isLeader), group);
      d := FindOrCreateDeployment(deploy, task, whole);
      if d.Some? {
        var ok := true;
        if isLeader {
          ok := FindOrCreateService(Deploy.MakeService(group.name, deploy), d.value, task, whole);
        }
        if ok {
          d := CheckDeployment(group, deploy, setSpec, d.value, task, whole);
        } else {
          d := None;
        }
      }
    }

    method SyncComputeGroup(cg: GroupObject, setSpec: SetSpec, name: string, isLeader: bool, ghost task: Task)
      returns (ok: bool)
      requires api.Valid() && Given(cg, task.group) && setSpec.instance.Complete()
      requires task == Task(task.group, setSpec, name, isLeader)
      modifies api
      ensures api.Valid()
      ensures Outcome(Done(ok), api.history) == old(Conclude(task, Begin(task), api.history, api.wire))
      ensures StopsAtFailure(api.history, old(|api.history.log|), api.wire)
      ensures ok <==> EndsWithStatus(api.history, old(|api.history.log|), api.wire)
    {
      ghost var whole := Conclude(task, Begin(task), api.history, api.wire);
      SyncStopsAtFailure(task, api.history, api.wire);
      var group := cg.Value();
      var d := SyncObjects(group, setSpec, name, isLeader, task, whole);
      ok := false;
      if d.Some? {
        StillGiven(cg);
        WriteConcludes(task, d.value, api.history, api.wire);
        ok := UpdateComputeGroupStatus(cg, d.value, isLeader, group);
      }
    }

    /** The sync of the i-th set of a group, on the copy the reconciliation works with, its answer dropped. */
    method SyncSet(cgCopy: GroupObject, setSpec: SetSpec, name: string, isLeader: bool,
                   ghost group: ComputeGroup, ghost tasks: seq<Task>, ghost i: nat, ghost h: History)
      requires i < |tasks| && Complete(tasks) && tasks[i] == Task(group, setSpec, name, isLeader)
      requires api.Valid() && Given(cgCopy, group) && api.history == SyncAll(tasks[..i], h, api.wire)
      modifies api
      ensures api.Valid() && api.history == SyncAll(tasks[..i + 1], h, api.wire)
      ensures Given(cgCopy, group)
    {
      assert tasks[..i + 1][..i] == tasks[..i];
      var _ := SyncComputeGroup(cgCopy, setSpec, name, isLeader, tasks[i]);
      StillGiven(cgCopy);
    }

    method ProcessNewComputeGroup(cg: GroupObject, ghost group: ComputeGroup) returns (ok: bool)
      requires api.Valid() && Given(cg, group) && group.spec.Complete()
      modifies api
      ensures ok && api.Valid() && api.history == NewGroup(group, old(api.history), api.wire)
    {
      var cgCopy := cg.DeepCopy();
      SyncSets(cgCopy, cgCopy.Value());
      ok := true;
    }

    /** The sync of each set of a group, the leader set first. */
    method SyncSets(cgCopy: GroupObject, group: ComputeGroup)
      requires api.Valid() && Given(cgCopy, group) && group.spec.Complete()
      modifies api
      ensures api.Valid() && api.history == NewGroup(group, old(api.history), api.wire)
    {
      var leaders, workers := group.spec.leaders.value, group.spec.Workers();
      ghost var tasks, h := TasksOf(group), api.history;
      SyncSet(cgCopy, leaders, NameOr(leaders, LeaderName(group.name)), true, group, tasks, 0, h);
      for i := 0 to |workers|
        invariant api.Valid() && Given(cgCopy, group) && api.history == SyncAll(tasks[..i + 1], h, api.wire)
      {
        var worker := workers[i].value;
        assert tasks[i + 1] == WorkerTask(group, i);
        SyncSet(cgCopy, worker, NameOr(worker, WorkerName(group.name, i)), false, group, tasks, i + 1, h);
      }
      assert tasks[..|workers| + 1] == tasks;
    }

    /** Deletes one deployment if its name left the spec, the answer dropped. */
    method DeleteIfUnneeded(namespace: string, name: string, newNames: set<string>,
                            ghost names: seq<string>, ghost done: set<string>, ghost h: History)
      returns (ghost more: seq<string>)
      requires api.Valid() && api.history == DeleteAll(namespace, names, h, api.wire)
      requires VisitsOnce(names, done - newNames) && name !in done
      modifies api
      ensures api.Valid() && api.history == DeleteAll(namespace, more, h, api.wire)
      ensures VisitsOnce(more, done + {name} - newNames)
    {
      more := names;
      if name in newNames {
        assert done + {name} - newNames == done - newNames;
      } else {
        assert done + {name} - newNames == done - newNames + {name};
        DeletesOneMore(namespace, names, h, api.wire, name);
        VisitsOneMore(names, done - newNames, name);
        var _ := api.Send(Deletion(namespace, name));
        more := names + [name];
      }
    }

    /** Deletes the deployments whose names left the spec, in an order of the map's choosing. */
    method HandleUnneededDeployments(was: ComputeGroup, now: ComputeGroup) returns (ghost names: seq<string>)
      requires was.spec.HasSets() && now.spec.HasSets() && api.Valid()
      modifies api
      ensures api.Valid() && VisitsOnce(names, Dropped(was, now))
      ensures api.history == DeleteAll(was.namespace, names, old(api.history), api.wire)
      ensures forall k :: Deletes(api.history, old(|api.history.log|), k) <==>
        k.namespace == was.namespace && NamesSet(was, k.name) && !NamesSet(now, k.name)
    {
      var oldNames := BuildNamedSpec(was);
      var newNames := BuildNamedSpec(now);
      ByNameNames(TasksOf(was));
      ByNameNames(TasksOf(now));
      names := [];
      var rest := oldNames.Keys;
      ghost var done: set<string> := {};
      while rest != {}
        invariant api.Valid() && rest + done == oldNames.Keys && rest !! done
        invariant VisitsOnce(names, done - newNames.Keys)
        invariant api.history == DeleteAll(was.namespace, names, old(api.history), api.wire)
      {
        var name :| name in rest;
        names := DeleteIfUnneeded(was.namespace, name, newNames.Keys, names, done, old(api.history));
        rest, done := rest - {name}, done + {name};
      }
      forall k
        ensures Deletes(api.history, old(|api.history.log|), k) <==>
                k.namespace == was.namespace && NamesSet(was, k.name) && !NamesSet(now, k.name)
      {
        HandlerDeletesIff(was, now, names, old(api.history), api.wire, k);
      }
    }

    /** Looks one recorded deployment up, and strikes its key off the copy of the record if it is not found. */
    method LookAndStrike(key: string, states: StatesPtr, ghost order: seq<string>, ghost h: History,
        ghost was: StateMap)
      returns (gone: bool)
      requires api.Valid() && Readable(order) && '/' in key && api.history == Looked(order, h, api.wire)
      requires states != null && states.value == was - Gone(order, h, api.wire)
      modifies api, states
      ensures api.Valid() && Readable(order + [key]) && api.history == Looked(order + [key], h, api.wire)
      ensures Gone(order + [key], h, api.wire) == Gone(order, h, api.wire) + if gone then {key} else {}
      ensures states.value == was - Gone(order + [key], h, api.wire)
    {
      LooksOnceMore(order, h, api.wire, key);
      StrikesMore(was, Gone(order, h, api.wire), key);
      var parts := SplitN2(key, '/');
      var d := api.LookDeployment(Key(parts[0], parts[1]));
      gone := d.None?;
      if gone {
        states.value := states.value - {key};
      }
    }

    /** Looks the recorded deployments up, in an order of the map's choosing, and strikes those it does not find off the
        copy of the record; pending says whether there were any. */
    method StrikeVanished(records: set<string>, states: StatesPtr, ghost h: History)
      returns (pending: bool, ghost order: seq<string>)
      requires api.Valid() && api.history == h && (states == null ==> records == {})
      requires forall r :: r in records ==> '/' in r
      modifies api, states
      ensures api.Valid() && Readable(order) && VisitsOnce(order, records)
      ensures api.history == Looked(order, h, api.wire)
      ensures states != null ==> states.value == old(states.value) - Gone(order, h, api.wire)
      ensures pending <==> Gone(order, h, api.wire) != {}
    {
      pending, order := false, [];
      var rest := records;
      ghost var was: StateMap := if states == null then map[] else states.value;
      StrikesMore(was, {}, "");
      ghost var done: set<string> := {};
      while rest != {}
        invariant api.Valid() && rest + done == records && rest !! done
        invariant Readable(order) && VisitsOnce(order, done)
        invariant api.history == Looked(order, h, api.wire)
        invariant states != null ==> states.value == was - Gone(order, h, api.wire)
        invariant pending <==> Gone(order, h, api.wire) != {}
      {
        var key :| key in rest;
        VisitsOneMore(order, done, key);
        var gone := LookAndStrike(key, states, order, h, was);
        pending := pending || gone;
        order := order + [key];
        rest, done := rest - {key}, done + {key};
      }
    }

    /** Strikes the vanished leaders and workers off the maps of a status. */
    method StrikeMaps(status: StatusStruct, leaderKeys: set<string>, workerKeys: set<string>, ghost was: GroupStatus)
      returns (pending: bool, ghost leaders: seq<string>, ghost workers: seq<string>)
      requires api.Valid() && status.Value() == was && api !in status.Reach()
      requires status.readyLeaders == null || status.readyLeaders != status.readyWorkers
      requires leaderKeys == Recorded(was.readyLeaders) && workerKeys == Recorded(was.readyWorkers)
      requires forall r :: r in leaderKeys + workerKeys ==> '/' in r
      modifies api, status.Reach()
      ensures api.Valid() && Readable(leaders) && Readable(workers)
      ensures VisitsOnce(leaders, leaderKeys) && VisitsOnce(workers, workerKeys)
      ensures var looked := Looked(leaders, old(api.history), api.wire);
        var goneLeaders, goneWorkers := Gone(leaders, old(api.history), api.wire), Gone(workers, looked, api.wire);
        && api.history == Looked(workers, looked, api.wire)
        && (pending <==> goneLeaders != {} || goneWorkers != {})
        && status.Value() == was.(readyLeaders := Struck(was.readyLeaders, goneLeaders),
                                  readyWorkers := Struck(was.readyWorkers, goneWorkers))
    {
      var leadersGone, workersGone;
      leadersGone, leaders := StrikeVanished(leaderKeys, status.readyLeaders, api.history);
      workersGone, workers := StrikeVanished(workerKeys, status.readyWorkers, api.history);
      pending := leadersGone || workersGone;
    }

    /** Strikes the vanished leaders and workers off the copy of the group, pending if there are any. */
    method StrikeGroup(opCopy: GroupObject, leaderKeys: set<string>, workerKeys: set<string>, ghost group: ComputeGroup)
      returns (ghost leaders: seq<string>, ghost workers: seq<string>)
      requires api.Valid() && Given(opCopy, group)
      requires leaderKeys == Recorded(group.status.readyLeaders) && workerKeys == Recorded(group.status.readyWorkers)
      requires forall r :: r in leaderKeys + workerKeys ==> '/' in r
      modifies api, opCopy.Repr
      ensures api.Valid() && Readable(leaders) && Readable(workers)
      ensures VisitsOnce(leaders, leaderKeys) && VisitsOnce(workers, workerKeys)
      ensures var looked := Looked(leaders, old(api.history), api.wire);
        && api.history == Looked(workers, looked, api.wire)
        && opCopy.Valid()
        && opCopy.Value() == Pruned(group, Gone(leaders, old(api.history), api.wire), Gone(workers, looked, api.wire))
    {
      var pending;
      pending, leaders, workers := StrikeMaps(opCopy.status, leaderKeys, workerKeys, group.status);
      if pending {
        opCopy.status := opCopy.status.(status := GROUP_PENDING);
      }
      BaseStays(opCopy);
    }

    /** Strikes the vanished keys off a copy of the group and sends it. */
    method StrikeAndSend(op: GroupObject, ghost group: ComputeGroup)
      returns (ghost leaders: seq<string>, ghost workers: seq<string>)
      requires api.Valid() && Given(op, group)
      requires RecordsReadable(group)
      modifies api
      ensures api.Valid() && InSomeOrder(group, leaders, workers)
      ensures var looked := Looked(workers, Looked(leaders, old(api.history), api.wire), api.wire);
        var write := StatusWrite(group, leaders, workers, old(api.history), api.wire);
        api.history == looked.Plus(write, api.wire.fate(|looked.log|))
    {
      var opCopy := op.DeepCopy();
      var leaderKeys := if op.status.readyLeaders == null then {} else op.status.readyLeaders.value.Keys;
      var workerKeys := if op.status.readyWorkers == null then {} else op.status.readyWorkers.value.Keys;
      leaders, workers := StrikeGroup(opCopy, leaderKeys, workerKeys, group);
      var _ := api.Send(UpdateGroup(opCopy.Value()));
    }

    /** Writes the status without the vanished keys, the answer dropped. */
    method WriteRecord(op: GroupObject, ghost group: ComputeGroup)
      returns (ghost leaders: seq<string>, ghost workers: seq<string>)
      requires api.Valid() && Given(op, group)
      requires RecordsReadable(group)
      modifies api
      ensures api.Valid() && Given(op, group) && InSomeOrder(group, leaders, workers)
      ensures var looked := Looked(workers, Looked(leaders, old(api.history), api.wire), api.wire);
        var write := StatusWrite(group, leaders, workers, old(api.history), api.wire);
        api.history == looked.Plus(write, api.wire.fate(|looked.log|))
    {
      leaders, workers := StrikeAndSend(op, group);
      StillGiven(op);
    }

    method ProcessUpdatedComputeGroup(op: GroupObject, ghost group: ComputeGroup)
      returns (ok: bool, ghost leaders: seq<string>, ghost workers: seq<string>)
      requires api.Valid() && Given(op, group) && group.spec.Complete()
      requires RecordsReadable(group)
      modifies api
      ensures ok && api.Valid() && InSomeOrder(group, leaders, workers)
      ensures api.history == Updated(group, leaders, workers, old(api.history), api.wire)
    {
      leaders, workers := [], [];
      if op.status.readyLeaders == null && op.status.readyWorkers == null {
        ok := ProcessNewComputeGroup(op, group);
      } else {
        leaders, workers := WriteRecord(op, group);
        ok := ProcessNewComputeGroup(op, group);
      }
    }

    method ProcessGroup(op: GroupObject, ghost group: ComputeGroup)
      returns (ok: bool, ghost leaders: seq<string>, ghost workers: seq<string>)
      requires api.Valid() && Given(op, group) && group.spec.Complete() && RecordsReadable(group)
      modifies api, op
      ensures ok && api.Valid() && Readable(leaders) && Readable(workers)
      ensures !IsNew(group) ==> InSomeOrder(group, leaders, workers)
      ensures api.history == Processed(group, leaders, workers, old(api.history), api.wire)
    {
      var created := IsComputeGroupCreated(op);
      leaders, workers := [], [];
      if created {
        ok := ProcessNewComputeGroup(op, Admitted(group));
      } else {
        ok, leaders, workers := ProcessUpdatedComputeGroup(op, group);
      }
    }

    /** A queued group that processing does not panic on. */
    ghost predicate Sound(op: GroupObject)
      reads op, op.Repr
    {
      && op.Valid() && api !in op.Repr && groupQueue !in op.Repr
      && op.Value().spec.Complete() && RecordsReadable(op.Value())
    }

    /** What an item off the queue comes to, given the value of its group: an item that is no group is dropped. */
    ghost predicate Handled(item: GroupItem, group: ComputeGroup, leaders: seq<string>, workers: seq<string>,
                            before: History, after: History)
    {
      && group.spec.Complete() && Readable(leaders) && Readable(workers)
      && (item.GroupItem? && !IsNew(group) ==> InSomeOrder(group, leaders, workers))
      && after == if item.GroupItem? then Processed(group, leaders, workers, before, api.wire) else before
    }

    /** An item taken is processed, then forgotten, then done. */
    method ProcessItem(item: GroupItem, ghost group: ComputeGroup)
      returns (ghost leaders: seq<string>, ghost workers: seq<string>)
      requires api.Valid() && group.spec.Complete() && groupQueue as object != api
      requires item.GroupItem? ==> Sound(item.group) && item.group.Value() == group
      modifies groupQueue, api, if item.GroupItem? then {item.group} else {}
      ensures api.Valid() && Handled(item, group, leaders, workers, old(api.history), api.history)
      ensures groupQueue.state == WorkQueues.Next(old(groupQueue.state), Finish(item, true))
      ensures groupQueue.calls == old(groupQueue.calls) + [Forgot(item), Finished(item)]
    {
      var ok := true;
      leaders, workers := [], [];
      if item.GroupItem? {
        ok, leaders, workers := ProcessGroup(item.group, group);
      }
      groupQueue.HandleError(item, ok);
      groupQueue.Done(item);
    }

    /** One round of a group worker. Processing always reports success, so every item is forgotten, none retried. */
    method ProcessNextComputeGroup(ghost groups: map<GroupItem, ComputeGroup>)
      returns (more: bool, ghost item: GroupItem, ghost leaders: seq<string>, ghost workers: seq<string>)
      requires api.Valid() && groupQueue as object != api
      requires groupQueue.state.ready - groupQueue.state.processing != {} || groupQueue.shuttingDown
      requires forall i :: i in groupQueue.state.ready ==> i in groups && groups[i].spec.Complete()
      requires forall i :: i in groupQueue.state.ready && i.GroupItem? ==>
        Sound(i.group) && i.group.Value() == groups[i]
      modifies groupQueue, api, set i | i in groupQueue.state.ready && i.GroupItem? :: i.group
      ensures api.Valid()
      ensures !more ==>
        groupQueue.shuttingDown && groupQueue.state == old(groupQueue.state) && api.history == old(api.history)
      ensures more ==>
        && Enabled(old(groupQueue.state), Start(item)) && item in groups
        && groupQueue.state == WorkQueues.Next(WorkQueues.Next(old(groupQueue.state), Start(item)), Finish(item, true))
        && groupQueue.calls == old(groupQueue.calls) + [Got(item), Forgot(item), Finished(item)]
        && Handled(item, groups[item], leaders, workers, old(api.history), api.history)
    {
      more, item, leaders, workers := false, OtherItem(0), [], [];
      var next := groupQueue.Get();
      if next.Some? {
        more, item := true, next.value;
        leaders, workers := ProcessItem(next.value, groups[next.value]);
      }
    }

    /* The operator resource. */

    method SyncGroup2(op: OperatorObject, groupSpec: GroupSpec) returns (ok: bool)
      requires api.Valid()
      modifies api
      ensures api.Valid() && Answer(ok, api.history) == SyncGroup(op.Value(), groupSpec, old(api.history), api.wire)
    {
      // A group that is created carries the UID the server is about to give it.
      var group := MakeComputeGroup(op, groupSpec, api.wire.uid(|api.history.log| + 1));
      SetDatafuseComputeGroupDefaults(op, group);
      var g := api.LookGroup(Key(groupSpec.namespace, groupSpec.name));
      if g.None? {
        var created := api.Send(CreateGroup(group.Value()));
        g := if created then Some(group.Value()) else None;
      }
      // After a failed creation what is in hand has no owner.
      if g.None? || !IsControlledBy(g.value.owners, op.uid) {
        return false;
      }
      ok := UpdateOperatorStatus(g.value, op);
    }

    method UpdateOperatorStatus(cg: ComputeGroup, op: OperatorObject) returns (ok: bool)
      requires api.Valid()
      modifies api
      ensures var call := UpdateOperator(WithGroup(op.Value(), cg));
        && api.Valid() && api.history == old(api.history.Plus(call, api.wire.fate(|api.history.log|)))
        && ok == old(Answered(api.history.Now(), call, api.wire.fate(|api.history.log|)))
    {
      var opCopy := new OperatorObject(op.Value());
      if opCopy.states.None? {
        opCopy.states := Some(map[]);
      }
      var cgKey := SlashKey(cg.namespace, cg.name);
      opCopy.states := Some(opCopy.states.value[cgKey := GROUP_DEPLOYED]);
      opCopy.status := OPERATOR_READY;
      ok := api.Send(UpdateOperator(opCopy.Value()));
    }

    method ProcessNewOperator(op: OperatorObject) returns (ok: bool)
      requires api.Valid()
      modifies api
      ensures ok && api.Valid() && api.history == SyncGroups(DefaultedOperator(op.Value()), old(api.history), api.wire)
    {
      var opCopy := new OperatorObject(op.Value());
      SetDatafuseOperatorDefault(opCopy);
      ghost var value := opCopy.Value();
      var specs := opCopy.groups.value;
      for i := 0 to |specs|
        invariant api.Valid() && opCopy.Value() == value
        invariant api.history == SyncSpecs(value, specs[..i], old(api.history), api.wire)
      {
        assert specs[..i + 1][..i] == specs[..i];
        var _ := SyncGroup2(opCopy, specs[i]);
      }
      assert specs[..|specs|] == specs;
      ok := true;
    }

    /** One round of an operator worker: the item is forgotten whatever its groups' syncs came to. */
    method ProcessNextOperator() returns (more: bool, ghost item: OperatorItem)
      requires api.Valid()
      requires operatorQueue.state.ready - operatorQueue.state.processing != {} || operatorQueue.shuttingDown
      modifies operatorQueue, api, set i | i in operatorQueue.state.ready && i.OperatorItem? :: i.op
      ensures api.Valid()
      ensures !more ==> operatorQueue.shuttingDown && operatorQueue.state == old(operatorQueue.state)
      ensures !more || item.NoOperator? ==> api.history == old(api.history)
      ensures more ==>
        && Enabled(old(operatorQueue.state), Start(item))
        && operatorQueue.state ==
            WorkQueues.Next(WorkQueues.Next(old(operatorQueue.state), Start(item)), Finish(item, true))
        && operatorQueue.calls == old(operatorQueue.calls) + [Got(item), Forgot(item), Finished(item)]
      ensures more && item.OperatorItem? ==>
        && old(allocated(item.op))
        && api.history == SyncGroups(DefaultedOperator(old(item.op.Value())), old(api.history), api.wire)
    {
      more, item := false, NoOperator(0);
      var next := operatorQueue.Get();
      if next.Some? {
        more, item := true, next.value;
        var ok := true;
        if next.value.OperatorItem? {
          AdmittingIsDefaulting(next.value.op.Value());
          var _ := IsOperatorCreated(next.value.op);
          ok := ProcessNewOperator(next.value.op);
        }
        operatorQueue.HandleError(next.value, ok);
        operatorQueue.Done(next.value);
      }
    }
  }

  method IsOperatorCreated(op: OperatorObject) returns (created: bool)
    modifies op
    ensures op.Value() == AdmittedOperator(old(op.Value()))
    ensures created <==> DefaultedOperator(old(op.Value())).status == OPERATOR_CREATED
  {
    if op.status == "" {
      op.status := OPERATOR_CREATED;
    }
    created := op.status == OPERATOR_CREATED;
  }

  method IsComputeGroupCreated(op: GroupObject) returns (created: bool)
    requires op.Valid()
    modifies op
    ensures op.Valid() && op.Value() == Admitted(old(op.Value())) && op.Repr == old(op.Repr)
    ensures created == (op.Value().status.status == GROUP_CREATED)
  {
    if op.status.status == "" {
      op.status := op.status.(status := GROUP_CREATED);
    }
    BaseStays(op);
    created := op.status.status == GROUP_CREATED;
  }

  /** The edit of the copy's status. */
  method MarkReady(cgCopy: GroupObject, d: Deployment, isLeader: bool)
    requires cgCopy.Valid()
    modifies cgCopy.Repr
    ensures cgCopy.Valid() && cgCopy.Value() == MarkedReady(old(cgCopy.Value()), d, isLeader)
    ensures Records(old(cgCopy.Value()), cgCopy.Value(), d.namespace + "/" + d.name, isLeader)
  {
    ghost var group := cgCopy.Value();
    ghost var was := cgCopy.status.Value();
    var marked := MarkStatus(cgCopy.status, SlashKey(d.namespace, d.name), isLeader, was);
    cgCopy.status := marked;
    cgCopy.Repr := {cgCopy} + cgCopy.BaseRepr + marked.Reach();
    BaseStays(cgCopy);
    assert cgCopy.Value() == group.(status := marked.Value());
    MarkedReadyRecords(group, d, isLeader);
  }
}
