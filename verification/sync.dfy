/** syncComputeGroup as a machine of single API calls, and what a whole sync comes to. */
module Sync {
  import opened Options
  import opened Spec
  import opened Text
  import opened Deploy
  import opened Apis

  /** Where a sync stands: its next call, and the deployment it has in hand. */
  datatype Pc =
    | LookDeployment
    | MakeDeployment
    | LookService(d: Deployment)
    | MakeService(d: Deployment)
    | FixReplicas(d: Deployment)
    | WriteStatus(d: Deployment)
    | Done(ok: bool)

  /** Nothing is called for a group without a name or a namespace. */
  function Begin(task: Task): Pc {
    if task.HasKeys() then LookDeployment else Done(false)
  }

  /** A deployment is in hand; the leader set sees to the service before ownership is checked. */
  function Found(task: Task, d: Deployment): Pc {
    if task.leader then LookService(d) else Judge(task, d)
  }

  function Judge(task: Task, d: Deployment): Pc {
    if !IsControlledBy(d.owners, task.group.uid) then Done(false)
    else if task.spec.replicas.Some? && task.spec.replicas != d.replicas then FixReplicas(d)
    else WriteStatus(d)
  }

  /** A status with one more ready deployment on record. */
  function MarkedStatus(s: GroupStatus, deployKey: string, leader: bool): GroupStatus {
    if leader then
      s.(status := GROUP_DEPLOYED,
         readyLeaders := Some((if s.readyLeaders.Some? then s.readyLeaders.value else map[])
                              [deployKey := INSTANCE_READY]))
    else
      s.(readyWorkers := Some((if s.readyWorkers.Some? then s.readyWorkers.value else map[])
                              [deployKey := INSTANCE_READY]))
  }

  /** The group as the status write sends it. */
  function MarkedReady(group: ComputeGroup, d: Deployment, leader: bool): ComputeGroup {
    group.(status := MarkedStatus(group.status, SlashKey(d.namespace, d.name), leader))
  }

  /** From this group to that one a deployment of its leader set, or of a worker set, went on record as ready: nothing
      else is different, but that a leader makes the whole group Ready. */
  ghost predicate Records(was: ComputeGroup, now: ComputeGroup, key: string, leader: bool) {
    && now.(status := was.status) == was && now.status.serviceName == was.status.serviceName
    && if leader then
         && Gains(was.status.readyLeaders, now.status.readyLeaders, key, "READY")
         && now.status.readyWorkers == was.status.readyWorkers && now.status.status == "Ready"
       else
         && Gains(was.status.readyWorkers, now.status.readyWorkers, key, "READY")
         && now.status.readyLeaders == was.status.readyLeaders && now.status.status == was.status.status
  }

  lemma MarkedReadyRecords(group: ComputeGroup, d: Deployment, leader: bool)
    ensures Records(group, MarkedReady(group, d, leader), d.namespace + "/" + d.name, leader)
  {
  }

  function Request(task: Task, pc: Pc): ApiCall
    requires task.spec.instance.Complete() && !pc.Done?
  {
    match pc
    case LookDeployment => GetDeployment(task.DeploymentKey())
    case MakeDeployment => CreateDeployment(task.Wanted())
    case LookService(_) => GetService(task.ServiceKey())
    case MakeService(_) => CreateService(task.WantedService())
    case FixReplicas(_) => UpdateDeployment(task.Wanted())
    case WriteStatus(d) => UpdateGroup(MarkedReady(task.group, d, task.leader))
  }

  /** Where the sync goes from a call: a lookup goes by what the cache shows, any other call by its answer. */
  function Next(task: Task, pc: Pc, seen: Api, ok: bool): Pc
    requires task.spec.instance.Complete() && !pc.Done?
  {
    match pc
    case LookDeployment =>
      if task.DeploymentKey() in seen.deployments then Found(task, seen.deployments[task.DeploymentKey()])
      else MakeDeployment
    case MakeDeployment => if ok then Found(task, Defaulted(task.Wanted())) else Done(false)
    case LookService(d) => if task.ServiceKey() in seen.services then Judge(task, d) else MakeService(d)
    case MakeService(d) => if ok then Judge(task, d) else Done(false)
    case FixReplicas(_) => if ok then WriteStatus(Defaulted(task.Wanted())) else Done(false)
    case WriteStatus(_) => Done(ok)
  }

  function Rank(pc: Pc): nat {
    match pc
    case LookDeployment => 6
    case MakeDeployment => 5
    case LookService(_) => 4
    case MakeService(_) => 3
    case FixReplicas(_) => 2
    case WriteStatus(_) => 1
    case Done(_) => 0
  }

  datatype Outcome = Outcome(pc: Pc, history: History)

  /** One call of a sync. */
  function Turn(task: Task, pc: Pc, h: History, wire: Wire): (o: Outcome)
    requires task.spec.instance.Complete() && !pc.Done?
    ensures Rank(o.pc) < Rank(pc) && |o.history.log| == |h.log| + 1 && o.history.Continues(h)
  {
    var call, n := Request(task, pc), |h.log|;
    Outcome(Next(task, pc, h.Ago(wire.lag(n)), Answered(h.Now(), call, wire.fate(n))), h.Plus(call, wire.fate(n)))
  }

  /** The rest of a sync, with nobody else calling. */
  function Conclude(task: Task, pc: Pc, h: History, wire: Wire): (o: Outcome)
    requires task.spec.instance.Complete()
    ensures o.pc.Done? && o.history.Continues(h)
    decreases Rank(pc)
  {
    if pc.Done? then Outcome(pc, h)
    else var o := Turn(task, pc, h, wire); Conclude(task, o.pc, o.history, wire)
  }

  lemma WriteConcludes(task: Task, d: Deployment, h: History, wire: Wire)
    requires task.spec.instance.Complete()
    ensures var call, fate := UpdateGroup(MarkedReady(task.group, d, task.leader)), wire.fate(|h.log|);
      Conclude(task, WriteStatus(d), h, wire) == Outcome(Done(Answered(h.Now(), call, fate)), h.Plus(call, fate))
  {
    var call, fate := UpdateGroup(MarkedReady(task.group, d, task.leader)), wire.fate(|h.log|);
    var o := Outcome(Done(Answered(h.Now(), call, fate)), h.Plus(call, fate));
    assert Turn(task, WriteStatus(d), h, wire) == o;
    assert Conclude(task, o.pc, o.history, wire) == o;
  }

  lemma ConcludeTurns(task: Task, pc: Pc, h: History, wire: Wire)
    requires task.spec.instance.Complete() && !pc.Done?
    ensures var o := Turn(task, pc, h, wire); Conclude(task, pc, h, wire) == Conclude(task, o.pc, o.history, wire)
  {
  }

  lemma FixTurns(task: Task, d: Deployment, h: History, wire: Wire)
    requires task.spec.instance.Complete()
    ensures var call, fate := UpdateDeployment(task.Wanted()), wire.fate(|h.log|);
      Turn(task, FixReplicas(d), h, wire) ==
        Outcome(if Answered(h.Now(), call, fate) then WriteStatus(Defaulted(task.Wanted())) else Done(false),
                h.Plus(call, fate))
  {
  }

  ghost predicate Complete(tasks: seq<Task>) {
    forall i :: 0 <= i < |tasks| ==> tasks[i].spec.instance.Complete()
  }

  /** A sequence of syncs, one after the other, errors dropped. */
  ghost function SyncAll(tasks: seq<Task>, h: History, wire: Wire): (r: History)
    requires Complete(tasks)
    ensures r.Continues(h)
  {
    if tasks == [] then h
    else
      var last := tasks[|tasks| - 1];
      Conclude(last, Begin(last), SyncAll(tasks[..|tasks| - 1], h, wire), wire).history
  }

  /* What a sync comes to when every call is answered and every lookup is current. */

  datatype State = State(pc: Pc, api: Api)

  function CalmTurn(task: Task, s: State): (r: State)
    requires task.spec.instance.Complete() && !s.pc.Done?
    ensures Rank(r.pc) < Rank(s.pc)
  {
    State(Next(task, s.pc, s.api, Accepts(s.api, Request(task, s.pc))), Perform(s.api, Request(task, s.pc)))
  }

  function CalmConclude(task: Task, s: State): (r: State)
    requires task.spec.instance.Complete()
    ensures r.pc.Done?
    decreases Rank(s.pc)
  {
    if s.pc.Done? then s else CalmConclude(task, CalmTurn(task, s))
  }

  lemma {:induction false} ConcludeIsCalm(task: Task, pc: Pc, h: History, wire: Wire)
    requires task.spec.instance.Complete() && Calm(wire, |h.log|)
    ensures var o := Conclude(task, pc, h, wire); State(o.pc, o.history.Now()) == CalmConclude(task, State(pc, h.Now()))
    decreases Rank(pc)
  {
    if !pc.Done? {
      var o := Turn(task, pc, h, wire);
      assert State(o.pc, o.history.Now()) == CalmTurn(task, State(pc, h.Now()));
      ConcludeIsCalm(task, o.pc, o.history, wire);
    }
  }

  function DeploymentFor(task: Task, deployments: map<Key, Deployment>): Deployment
    requires task.spec.instance.Complete()
  {
    var key := task.DeploymentKey();
    if key !in deployments then Defaulted(task.Wanted())
    else if IsControlledBy(deployments[key].owners, task.group.uid)
         && task.spec.replicas.Some? && deployments[key].replicas != task.spec.replicas then task.Wanted()
    else deployments[key]
  }

  function ServicesFor(task: Task, services: map<Key, Service>): map<Key, Service>
    requires task.spec.instance.Complete()
  {
    if task.leader && task.ServiceKey() !in services then services[task.ServiceKey() := task.WantedService()]
    else services
  }

  /** No other owner holds the deployment name of the set. */
  predicate Free(task: Task, api: Api) {
    task.DeploymentKey() in api.deployments ==>
      IsControlledBy(api.deployments[task.DeploymentKey()].owners, task.group.uid)
  }

  /** The group's object is there, at the version of the snapshot the sync works with. */
  predicate Writable(task: Task, api: Api) {
    task.ServiceKey() in api.groups && api.groups[task.ServiceKey()].version == task.group.version
  }

  function GroupsFor(task: Task, api: Api): map<Key, ComputeGroup>
    requires task.spec.instance.Complete()
  {
    if Free(task, api) && Writable(task, api) then
      var record := MarkedReady(task.group, DeploymentFor(task, api.deployments), task.leader);
      api.groups[task.ServiceKey() := Written(api.groups[task.ServiceKey()], record)]
    else api.groups
  }

  function Settled(task: Task, api: Api): Api
    requires task.spec.instance.Complete()
  {
    if !task.HasKeys() then api
    else
      Api(api.deployments[task.DeploymentKey() := DeploymentFor(task, api.deployments)],
          ServicesFor(task, api.services),
          GroupsFor(task, api),
          api.operators)
  }

  /** The last call records the deployment in hand. */
  lemma WriteSettles(task: Task, d: Deployment, api: Api)
    requires task.spec.instance.Complete()
    ensures CalmConclude(task, State(WriteStatus(d), api)) == State(
              Done(Writable(task, api)),
              if Writable(task, api)
              then api.(groups := api.groups[task.ServiceKey() :=
                          Written(api.groups[task.ServiceKey()], MarkedReady(task.group, d, task.leader))])
              else api)
  {
    var s := CalmTurn(task, State(WriteStatus(d), api));
    assert CalmConclude(task, s) == s;
  }

  /** With a deployment in hand that is the stored one: the ownership check, the replicas, the status. */
  lemma JudgeSettles(task: Task, api: Api)
    requires task.spec.instance.Complete() && task.DeploymentKey() in api.deployments
    ensures CalmConclude(task, State(Judge(task, api.deployments[task.DeploymentKey()]), api)) == State(
              Done(Free(task, api) && Writable(task, api)),
              Api(api.deployments[task.DeploymentKey() := DeploymentFor(task, api.deployments)],
                  api.services, GroupsFor(task, api), api.operators))
  {
    var d := api.deployments[task.DeploymentKey()];
    assert api.deployments[task.DeploymentKey() := d] == api.deployments;
    var pc := Judge(task, d);
    if pc.FixReplicas? {
      WantedIsOwned(task);
      var s := CalmTurn(task, State(pc, api));
      assert s == State(WriteStatus(task.Wanted()),
          api.(deployments := api.deployments[task.DeploymentKey() := task.Wanted()]));
      WriteSettles(task, task.Wanted(), s.api);
    } else if pc.WriteStatus? {
      WriteSettles(task, d, api);
    }
  }

  lemma FoundSettles(task: Task, api: Api)
    requires task.spec.instance.Complete() && task.DeploymentKey() in api.deployments
    ensures CalmConclude(task, State(Found(task, api.deployments[task.DeploymentKey()]), api)) == State(
              Done(Free(task, api) && Writable(task, api)),
              Api(api.deployments[task.DeploymentKey() := DeploymentFor(task, api.deployments)],
                  ServicesFor(task, api.services), GroupsFor(task, api), api.operators))
  {
    var d := api.deployments[task.DeploymentKey()];
    if task.leader {
      var s := CalmTurn(task, State(LookService(d), api));
      if task.ServiceKey() in api.services {
        assert s == State(Judge(task, d), api);
        JudgeSettles(task, api);
      } else {
        var served := api.(services := ServicesFor(task, api.services));
        assert CalmTurn(task, s) == State(Judge(task, d), served);
        JudgeSettles(task, served);
      }
    } else {
      JudgeSettles(task, api);
    }
  }

  /** A deployment that is missing is made, and then it is in hand. */
  lemma MakingSettles(task: Task, api: Api)
    requires task.spec.instance.Complete() && task.DeploymentKey() !in api.deployments
    ensures CalmConclude(task, State(MakeDeployment, api)) == State(
              Done(Writable(task, api)),
              Api(api.deployments[task.DeploymentKey() := Defaulted(task.Wanted())],
                  ServicesFor(task, api.services), GroupsFor(task, api), api.operators))
  {
    WantedIsOwned(task);
    var made := api.(deployments := api.deployments[task.DeploymentKey() := Defaulted(task.Wanted())]);
    assert CalmTurn(task, State(MakeDeployment, api)) == State(Found(task, Defaulted(task.Wanted())), made);
    FoundSettles(task, made);
    assert DeploymentFor(task, made.deployments) == Defaulted(task.Wanted());
  }

  /** A calm sync succeeds exactly when the group has its keys, its object is at the snapshot's version, and no other
      owner holds the name; either way it settles the deployment, the service and the status as described. */
  lemma SyncSettles(task: Task, api: Api)
    requires task.spec.instance.Complete()
    ensures CalmConclude(task, State(Begin(task), api)) ==
              State(Done(task.HasKeys() && Free(task, api) && Writable(task, api)), Settled(task, api))
  {
    if task.HasKeys() {
      var s := CalmTurn(task, State(LookDeployment, api));
      if task.DeploymentKey() in api.deployments {
        FoundSettles(task, api);
      } else {
        assert s == State(MakeDeployment, api);
        MakingSettles(task, api);
      }
    }
  }
}
