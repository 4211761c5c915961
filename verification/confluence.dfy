/** Syncs of any number of groups that want different deployments: their order does not matter. */
module Confluence {
  import opened Options
  import opened Spec
  import Nodes
  import opened Deploy
  import opened Naming
  import opened Apis
  import opened Sync
  import opened Reconcile
  import opened Interleaving

  /** The syncs want different deployments, and the leader sets among them different services. */
  ghost predicate Disjoint(tasks: seq<Task>) {
    && Complete(tasks) && Apart(tasks)
    && (forall i :: 0 <= i < |tasks| ==> tasks[i].HasKeys())
    && (forall i, j :: 0 <= i < |tasks| && 0 <= j < |tasks| && i != j && tasks[i].leader && tasks[j].leader ==>
          tasks[i].ServiceKey() != tasks[j].ServiceKey())
  }

  function Ready(tasks: seq<Task>): seq<Proc> {
    seq(|tasks|, i requires 0 <= i < |tasks| => Proc(tasks[i], Begin(tasks[i])))
  }

  /** The next call of the i-th sync, answered, its lookups current. */
  function Current(w: World, i: nat): Step
    requires w.states != []
  {
    Call(i, |w.states| - 1, Nodes.Delivered)
  }

  /** The world after the syncs made calls in this order; None if the order has a finished sync call again. */
  ghost function Scheduled(tasks: seq<Task>, api: Api, schedule: seq<nat>): Option<World> {
    if schedule == [] then Some(World([api], Ready(tasks)))
    else
      var before := Scheduled(tasks, api, schedule[..|schedule| - 1]);
      var i := schedule[|schedule| - 1];
      if before.Some? && before.value.states != [] && Enabled(before.value, Current(before.value, i))
      then Some(Move(before.value, Current(before.value, i)))
      else None
  }

  ghost predicate AllDone(w: World) {
    forall i :: 0 <= i < |w.procs| ==> w.procs[i].pc.Done?
  }

  /** Where a sync stands, by what is under its deployment name now and was at the start. */
  ghost predicate DeploymentFits(p: Proc, now: map<Key, Deployment>, start: map<Key, Deployment>)
    requires p.task.spec.instance.Complete()
  {
    var k := p.task.DeploymentKey();
    match p.pc
    case LookDeployment => Slot(now, k) == Slot(start, k)
    case MakeDeployment => k !in now && k !in start
    case LookService(d) => Slot(now, k) == Some(d) && InHandAt(p.task, d, start)
    case MakeService(d) => Slot(now, k) == Some(d) && InHandAt(p.task, d, start)
    case FixReplicas(d) =>
      Slot(now, k) == Some(d) && Slot(start, k) == Some(d) && DeploymentFor(p.task, start) == p.task.Wanted() &&
      p.task.spec.replicas.Some?
    case WriteStatus(_) => Slot(now, k) == Some(DeploymentFor(p.task, start))
    case Done(_) => Slot(now, k) == Some(DeploymentFor(p.task, start))
  }

  /** The deployment in hand was there from the start or is the one just created. */
  ghost predicate InHandAt(task: Task, d: Deployment, start: map<Key, Deployment>)
    requires task.spec.instance.Complete()
  {
    if task.DeploymentKey() in start then start[task.DeploymentKey()] == d else d == Defaulted(task.Wanted())
  }

  /** Where a leader sync stands, by what is under its service name. */
  ghost predicate ServiceFits(p: Proc, now: map<Key, Service>, start: map<Key, Service>)
    requires p.task.spec.instance.Complete()
  {
    var k := p.task.ServiceKey();
    p.task.leader ==>
      match p.pc
      case LookDeployment => Slot(now, k) == Slot(start, k)
      case MakeDeployment => Slot(now, k) == Slot(start, k)
      case LookService(_) => Slot(now, k) == Slot(start, k)
      case MakeService(_) => k !in now && k !in start
      case _ => Slot(now, k) == Slot(ServicesFor(p.task, start), k)
  }

  ghost predicate Fits(p: Proc, now: Api, start: Api) {
    && p.task.spec.instance.Complete()
    && DeploymentFits(p, now.deployments, start.deployments)
    && ServiceFits(p, now.services, start.services)
    && (p.pc.LookService? || p.pc.MakeService? ==> p.task.leader)
  }

  function Turned(p: Proc, now: Api): Proc
    requires p.task.spec.instance.Complete() && !p.pc.Done?
  {
    Proc(p.task, CalmTurn(p.task, State(p.pc, now)).pc)
  }

  function Served(p: Proc, now: Api): Api
    requires p.task.spec.instance.Complete() && !p.pc.Done?
  {
    CalmTurn(p.task, State(p.pc, now)).api
  }

  /** From having the deployment in hand to the end of the ownership check. */
  lemma JudgedFits(p: Proc, d: Deployment, now: Api, start: Api)
    requires p.task.spec.instance.Complete() && p.pc == Judge(p.task, d)
    requires Slot(now.deployments, p.task.DeploymentKey()) == Some(d) && InHandAt(p.task, d, start.deployments)
    requires p.task.leader ==>
      Slot(now.services, p.task.ServiceKey()) == Slot(ServicesFor(p.task, start.services), p.task.ServiceKey())
    ensures Fits(p, now, start)
  {
    WantedIsOwned(p.task);
  }

  lemma FoundFits(p: Proc, d: Deployment, now: Api, start: Api)
    requires p.task.spec.instance.Complete() && p.pc == Found(p.task, d)
    requires Slot(now.deployments, p.task.DeploymentKey()) == Some(d) && InHandAt(p.task, d, start.deployments)
    requires p.task.leader ==> Slot(now.services, p.task.ServiceKey()) == Slot(start.services, p.task.ServiceKey())
    ensures Fits(p, now, start)
  {
    if !p.task.leader {
      JudgedFits(p, d, now, start);
    }
  }

  lemma DeploymentCallFits(p: Proc, now: Api, start: Api)
    requires Fits(p, now, start) && (p.pc.LookDeployment? || p.pc.MakeDeployment?)
    ensures Fits(Turned(p, now), Served(p, now), start)
  {
    if p.pc.MakeDeployment? {
      WantedIsOwned(p.task);
      FoundFits(Turned(p, now), Defaulted(p.task.Wanted()), Served(p, now), start);
    } else if p.task.DeploymentKey() in now.deployments {
      FoundFits(Turned(p, now), now.deployments[p.task.DeploymentKey()], Served(p, now), start);
    }
  }

  lemma ServiceCallFits(p: Proc, now: Api, start: Api)
    requires Fits(p, now, start) && (p.pc.LookService? || p.pc.MakeService?)
    ensures Fits(Turned(p, now), Served(p, now), start)
  {
    if p.pc.MakeService? || p.task.ServiceKey() in now.services {
      JudgedFits(Turned(p, now), p.pc.d, Served(p, now), start);
    }
  }

  lemma LastCallsFit(p: Proc, now: Api, start: Api)
    requires Fits(p, now, start) && (p.pc.FixReplicas? || p.pc.WriteStatus?)
    ensures Fits(Turned(p, now), Served(p, now), start)
  {
    WantedIsOwned(p.task);
  }

  /** A sync's own call keeps it where it stands. */
  lemma OwnCallFits(p: Proc, now: Api, start: Api)
    requires Fits(p, now, start) && !p.pc.Done?
    ensures Fits(Turned(p, now), Served(p, now), start)
  {
    if p.pc.LookDeployment? || p.pc.MakeDeployment? {
      DeploymentCallFits(p, now, start);
    } else if p.pc.LookService? || p.pc.MakeService? {
      ServiceCallFits(p, now, start);
    } else {
      LastCallsFit(p, now, start);
    }
  }

  /** A call reaches its own sync's deployment and service and no other. */
  lemma CallReachesOwn(q: Proc, now: Api, k: Key)
    requires q.task.spec.instance.Complete() && !q.pc.Done? && (q.pc.MakeService? ==> q.task.leader)
    ensures k != q.task.DeploymentKey() ==> Slot(Served(q, now).deployments, k) == Slot(now.deployments, k)
    ensures (q.task.leader ==> k != q.task.ServiceKey()) ==> Slot(Served(q, now).services, k) == Slot(now.services, k)
  {
  }

  /** Another sync's call leaves a sync where it stands. */
  lemma OtherCallFits(p: Proc, q: Proc, now: Api, start: Api)
    requires Fits(p, now, start) && Fits(q, now, start) && !q.pc.Done?
    requires p.task.DeploymentKey() != q.task.DeploymentKey()
    requires p.task.leader && q.task.leader ==> p.task.ServiceKey() != q.task.ServiceKey()
    ensures Fits(p, Served(q, now), start)
  {
    CallReachesOwn(q, now, p.task.DeploymentKey());
    CallReachesOwn(q, now, p.task.ServiceKey());
    SameSlotsFit(p, now, Served(q, now), start);
  }

  lemma SameSlotsFit(p: Proc, now: Api, later: Api, start: Api)
    requires Fits(p, now, start)
    requires Slot(later.deployments, p.task.DeploymentKey()) == Slot(now.deployments, p.task.DeploymentKey())
    requires p.task.leader ==> Slot(later.services, p.task.ServiceKey()) == Slot(now.services, p.task.ServiceKey())
    ensures Fits(p, later, start)
  {
  }

  ghost predicate Serves(tasks: seq<Task>, k: Key) {
    exists i :: 0 <= i < |tasks| && tasks[i].leader && tasks[i].ServiceKey() == k
  }

  /** All syncs stand where they should, and nothing else has changed. */
  ghost predicate Along(tasks: seq<Task>, w: World, start: Api) {
    && w.states != [] && |w.procs| == |tasks|
    && (forall i :: 0 <= i < |tasks| ==> w.procs[i].task == tasks[i] && Fits(w.procs[i], w.Now(), start))
    && (forall k :: !Covers(tasks, k) ==> Slot(w.Now().deployments, k) == Slot(start.deployments, k))
    && (forall k :: !Serves(tasks, k) ==> Slot(w.Now().services, k) == Slot(start.services, k))
  }

  lemma MoveIsTurn(w: World, i: nat)
    requires w.states != [] && Enabled(w, Current(w, i))
    ensures Move(w, Current(w, i)) ==
              World(w.states + [Served(w.procs[i], w.Now())], w.procs[i := Turned(w.procs[i], w.Now())])
  {
  }

  lemma StepStaysAlong(tasks: seq<Task>, w: World, start: Api, i: nat)
    requires Disjoint(tasks) && Along(tasks, w, start) && Enabled(w, Current(w, i))
    ensures Along(tasks, Move(w, Current(w, i)), start)
  {
    MoveIsTurn(w, i);
    var w' := Move(w, Current(w, i));
    var p := w.procs[i];
    assert Fits(p, w.Now(), start);
    forall j | 0 <= j < |tasks|
      ensures w'.procs[j].task == tasks[j] && Fits(w'.procs[j], w'.Now(), start)
    {
      if j == i {
        OwnCallFits(p, w.Now(), start);
      } else {
        OtherCallFits(w.procs[j], p, w.Now(), start);
      }
    }
    forall k | !Covers(tasks, k)
      ensures Slot(w'.Now().deployments, k) == Slot(start.deployments, k)
    {
      assert tasks[i].DeploymentKey() != k;
      CallReachesOwn(p, w.Now(), k);
    }
    forall k | !Serves(tasks, k)
      ensures Slot(w'.Now().services, k) == Slot(start.services, k)
    {
      assert tasks[i].leader ==> tasks[i].ServiceKey() != k;
      CallReachesOwn(p, w.Now(), k);
    }
  }

  lemma {:induction false} ScheduleStaysAlong(tasks: seq<Task>, api: Api, schedule: seq<nat>)
    requires Disjoint(tasks) && Scheduled(tasks, api, schedule).Some?
    ensures Along(tasks, Scheduled(tasks, api, schedule).value, api)
  {
    if schedule != [] {
      var init := schedule[..|schedule| - 1];
      ScheduleStaysAlong(tasks, api, init);
      StepStaysAlong(tasks, Scheduled(tasks, api, init).value, api, schedule[|schedule| - 1]);
    }
  }

  /** Every order in which the syncs' calls can go through ends in the deployments and services that running them one
      after the other would leave. */
  lemma OrderDoesNotMatter(tasks: seq<Task>, api: Api, schedule: seq<nat>)
    requires Disjoint(tasks) && Scheduled(tasks, api, schedule).Some? && AllDone(Scheduled(tasks, api, schedule).value)
    requires Scheduled(tasks, api, schedule).value.states != []
    ensures var end := Scheduled(tasks, api, schedule).value.Now();
      && end.deployments == SettledAll(tasks, api).deployments
      && end.services == SettledAll(tasks, api).services
  {
    ScheduleStaysAlong(tasks, api, schedule);
    var w := Scheduled(tasks, api, schedule).value;
    forall k
      ensures Slot(w.Now().deployments, k) == Slot(SettledAll(tasks, api).deployments, k)
      ensures Slot(w.Now().services, k) == Slot(SettledAll(tasks, api).services, k)
    {
      EndsSettled(tasks, w, api, k);
      EndsServed(tasks, w, api, k);
    }
    SameSlots(w.Now().deployments, SettledAll(tasks, api).deployments);
    SameSlots(w.Now().services, SettledAll(tasks, api).services);
  }

  lemma EndsSettled(tasks: seq<Task>, w: World, api: Api, k: Key)
    requires Disjoint(tasks) && Along(tasks, w, api) && AllDone(w)
    ensures Slot(w.Now().deployments, k) == Slot(SettledAll(tasks, api).deployments, k)
  {
    if Covers(tasks, k) {
      var i :| 0 <= i < |tasks| && tasks[i].DeploymentKey() == k;
      EachSettled(tasks, api, i);
      assert Fits(w.procs[i], w.Now(), api) && w.procs[i].pc.Done?;
    } else {
      OthersKept(tasks, api, k);
    }
  }

  lemma EndsServed(tasks: seq<Task>, w: World, api: Api, k: Key)
    requires Disjoint(tasks) && Along(tasks, w, api) && AllDone(w)
    ensures Slot(w.Now().services, k) == Slot(SettledAll(tasks, api).services, k)
  {
    if Serves(tasks, k) {
      var i :| 0 <= i < |tasks| && tasks[i].leader && tasks[i].ServiceKey() == k;
      EachServed(tasks, api, i);
      assert Fits(w.procs[i], w.Now(), api) && w.procs[i].pc.Done?;
    } else {
      OtherServicesKept(tasks, api, k);
    }
  }

  /** How many calls the syncs still have before them, at most. */
  function CallsLeft(procs: seq<Proc>): nat {
    if procs == [] then 0 else CallsLeft(procs[..|procs| - 1]) + Rank(procs[|procs| - 1].pc)
  }

  lemma {:induction false} CallsLeftDrops(procs: seq<Proc>, i: nat, p: Proc)
    requires i < |procs| && Rank(p.pc) < Rank(procs[i].pc)
    ensures CallsLeft(procs[i := p]) < CallsLeft(procs)
  {
    var init, changed := procs[..|procs| - 1], procs[i := p];
    if i == |init| {
      assert changed[..|init|] == init;
    } else {
      CallsLeftDrops(init, i, p);
      assert changed[..|init|] == init[i := p];
    }
  }

  lemma {:induction false} CallsLeftBounded(procs: seq<Proc>)
    ensures CallsLeft(procs) <= 6 * |procs|
  {
    if procs != [] {
      CallsLeftBounded(procs[..|procs| - 1]);
    }
  }

  /** And every order comes to an end: six calls a sync at most. */
  lemma {:induction false} SchedulesEnd(tasks: seq<Task>, api: Api, schedule: seq<nat>)
    requires Scheduled(tasks, api, schedule).Some?
    ensures |schedule| + CallsLeft(Scheduled(tasks, api, schedule).value.procs) <= 6 * |tasks|
  {
    if schedule == [] {
      CallsLeftBounded(Ready(tasks));
    } else {
      var init, i := schedule[..|schedule| - 1], schedule[|schedule| - 1];
      SchedulesEnd(tasks, api, init);
      var w := Scheduled(tasks, api, init).value;
      MoveIsTurn(w, i);
      CallsLeftDrops(w.procs, i, Turned(w.procs[i], w.Now()));
    }
  }

  /* Groups. */

  /** The syncs of several groups. */
  ghost function AllTasks(groups: seq<ComputeGroup>): seq<Task>
    requires forall i :: 0 <= i < |groups| ==> groups[i].spec.HasSets()
  {
    if groups == [] then [] else AllTasks(groups[..|groups| - 1]) + TasksOf(groups[|groups| - 1])
  }

  /** Each group has its keys, is another than the rest, and has set names that are distinct and none of theirs. */
  ghost predicate Separate(groups: seq<ComputeGroup>) {
    && (forall i :: 0 <= i < |groups| ==>
          groups[i].spec.Complete() && HasKeys(groups[i]) && DistinctNames(TasksOf(groups[i])))
    && (forall i, j :: 0 <= i < j < |groups| ==>
          && GroupKey(groups[i]) != GroupKey(groups[j])
          && (groups[i].namespace == groups[j].namespace ==>
                TaskNames(TasksOf(groups[i])) !! TaskNames(TasksOf(groups[j]))))
  }

  lemma {:induction false} TasksComeFromGroups(groups: seq<ComputeGroup>, t: Task) returns (g: nat)
    requires Separate(groups) && t in AllTasks(groups)
    ensures g < |groups| && t.group == groups[g] && t.name in TaskNames(TasksOf(groups[g]))
  {
    var init, last := groups[..|groups| - 1], groups[|groups| - 1];
    if t in AllTasks(init) {
      g := TasksComeFromGroups(init, t);
    } else {
      g := |init|;
      TasksAreSyncs(last);
    }
  }

  lemma JoinedStayDisjoint(a: seq<Task>, b: seq<Task>)
    requires Disjoint(a) && Disjoint(b)
    requires forall i, j :: 0 <= i < |a| && 0 <= j < |b| ==>
      && a[i].DeploymentKey() != b[j].DeploymentKey()
      && (a[i].leader && b[j].leader ==> a[i].ServiceKey() != b[j].ServiceKey())
    ensures Disjoint(a + b)
  {
  }

  lemma LastGroupDiffers(groups: seq<ComputeGroup>, s: Task, j: nat)
    requires groups != [] && Separate(groups) && s in AllTasks(groups[..|groups| - 1])
    requires j < |TasksOf(groups[|groups| - 1])|
    ensures var t := TasksOf(groups[|groups| - 1])[j];
      s.DeploymentKey() != t.DeploymentKey() && s.ServiceKey() != t.ServiceKey()
  {
    var init, last := groups[..|groups| - 1], groups[|groups| - 1];
    var g := TasksComeFromGroups(init, s);
    assert init[g] == groups[g];
    TasksAreSyncs(last);
    assert TasksOf(last)[j].name in TaskNames(TasksOf(last));
  }

  /** So the theorem above is about any number of groups whose deployment names are disjoint. */
  lemma {:induction false} SeparateGroupsAreDisjoint(groups: seq<ComputeGroup>)
    requires Separate(groups)
    ensures Disjoint(AllTasks(groups))
  {
    if groups != [] {
      var init, last := groups[..|groups| - 1], groups[|groups| - 1];
      SeparateGroupsAreDisjoint(init);
      SyncsAreDisjoint(last);
      var a, b := AllTasks(init), TasksOf(last);
      forall i, j | 0 <= i < |a| && 0 <= j < |b|
        ensures a[i].DeploymentKey() != b[j].DeploymentKey() && a[i].ServiceKey() != b[j].ServiceKey()
      {
        LastGroupDiffers(groups, a[i], j);
      }
      JoinedStayDisjoint(a, b);
    }
  }

  lemma SyncsAreDisjoint(group: ComputeGroup)
    requires group.spec.Complete() && HasKeys(group) && DistinctNames(TasksOf(group))
    ensures Disjoint(TasksOf(group))
  {
    TasksAreSyncs(group);
  }
}
