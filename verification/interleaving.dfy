/** Any number of syncs at once, each call a step of its own, lookups as stale as they like, beside an environment that
    changes the API server's objects under them. */
module Interleaving {
  import opened Options
  import opened Spec
  import opened Text
  import opened Pods
  import Nodes
  import opened Deploy
  import opened Apis
  import opened Sync
  import opened Reconcile

  datatype Proc = Proc(task: Task, pc: Pc)

  datatype World = World(states: seq<Api>, procs: seq<Proc>) {
    function Now(): Api
      requires states != []
    {
      states[|states| - 1]
    }
  }

  /** A sync starts; the i-th sync makes its next call, its lookups answered from state number seen; or somebody else
      changes the objects. */
  datatype Step = Start(task: Task) | Call(i: nat, seen: nat, fate: Nodes.Fate) | Drift(api: Api)

  predicate Enabled(w: World, s: Step) {
    && w.states != []
    && match s
       case Start(task) => task.spec.instance.Complete()
       case Call(i, seen, _) =>
         i < |w.procs| && seen < |w.states| && !w.procs[i].pc.Done? && w.procs[i].task.spec.instance.Complete()
       case Drift(_) => true
  }

  function Move(w: World, s: Step): World
    requires Enabled(w, s)
  {
    match s
    case Start(task) => w.(procs := w.procs + [Proc(task, Begin(task))])
    case Call(i, seen, fate) =>
      var p := w.procs[i];
      var call := Request(p.task, p.pc);
      World(w.states + [After(w.Now(), call, fate)],
            w.procs[i := Proc(p.task, Next(p.task, p.pc, w.states[seen], Answered(w.Now(), call, fate)))])
    case Drift(api) => w.(states := w.states + [api])
  }

  /** The states of a history, oldest first. */
  function StatesOf(h: History): seq<Api> {
    [h.first] + seq(|h.log|, i requires 0 <= i < |h.log| => h.log[i].api)
  }

  /** The call a sync makes with nobody else calling, as the controller's methods make it, is a step of this machine:
      its lookup is answered from a state as old as the cache lags. */
  lemma TurnIsAStep(w: World, i: nat, h: History, wire: Wire)
    requires w.states == StatesOf(h) && i < |w.procs|
    requires w.procs[i].task.spec.instance.Complete() && !w.procs[i].pc.Done?
    ensures var n, p := |h.log|, w.procs[i];
      var s := Call(i, if wire.lag(n) < n then n - wire.lag(n) else 0, wire.fate(n));
      var o := Turn(p.task, p.pc, h, wire);
      Enabled(w, s) && Move(w, s) == World(StatesOf(o.history), w.procs[i := Proc(p.task, o.pc)])
  {
    var n, p := |h.log|, w.procs[i];
    var o := Turn(p.task, p.pc, h, wire);
    assert w.states[n] == h.Now();
    assert w.states[if wire.lag(n) < n then n - wire.lag(n) else 0] == h.Ago(wire.lag(n));
    assert StatesOf(o.history) == StatesOf(h) + [o.history.Now()];
  }

  function ControllerUid(d: Deployment): Option<string> {
    if ControllerOf(d.owners).Some? then Some(ControllerOf(d.owners).value.uid) else None
  }

  /** No deployment is gone, and none has changed hands. */
  ghost predicate Keeps(before: Api, after: Api) {
    forall k :: k in before.deployments ==>
      k in after.deployments && ControllerUid(after.deployments[k]) == ControllerUid(before.deployments[k])
  }

  /** No deployment or service is there that was not there before. */
  ghost predicate OnlyRemoves(before: Api, after: Api) {
    && (forall k :: k in after.deployments ==> Slot(before.deployments, k) == Some(after.deployments[k]))
    && (forall k :: k in after.services ==> Slot(before.services, k) == Some(after.services[k]))
  }

  /** What the environment is held to. */
  datatype Regime = Keeping | Removing

  ghost predicate Allowed(regime: Regime, w: World, s: Step) {
    && Enabled(w, s)
    && (s.Drift? ==> match regime
                     case Keeping => Keeps(w.Now(), s.api)
                     case Removing => OnlyRemoves(w.Now(), s.api))
  }

  /** The world after a run from the given objects and no syncs; None if the run breaks the regime. */
  ghost function Reached(regime: Regime, api: Api, run: seq<Step>): Option<World> {
    if run == [] then Some(World([api], []))
    else
      var before := Reached(regime, api, run[..|run| - 1]);
      if before.Some? && Allowed(regime, before.value, run[|run| - 1])
      then Some(Move(before.value, run[|run| - 1]))
      else None
  }

  /* Ownership. */

  /** A sync with a deployment in hand: it is there, under the controller it was seen with; and one about to be updated
      is the group's. */
  ghost predicate InHand(p: Proc, api: Api) {
    var k := p.task.DeploymentKey();
    match p.pc
    case LookService(d) => k in api.deployments && ControllerUid(api.deployments[k]) == ControllerUid(d)
    case MakeService(d) => k in api.deployments && ControllerUid(api.deployments[k]) == ControllerUid(d)
    case FixReplicas(d) => k in api.deployments && ControllerUid(api.deployments[k]) == Some(p.task.group.uid)
    case _ => true
  }

  ghost predicate OwnershipKept(w: World) {
    && w.states != []
    && (forall i :: 0 <= i < |w.states| ==> Keeps(w.states[i], w.Now()))
    && (forall i :: 0 <= i < |w.procs| ==> w.procs[i].task.spec.instance.Complete() && InHand(w.procs[i], w.Now()))
  }

  lemma WantedController(task: Task)
    requires task.spec.instance.Complete()
    ensures ControllerUid(task.Wanted()) == ControllerUid(Defaulted(task.Wanted())) == Some(task.group.uid)
  {
    WantedIsOwned(task);
  }

  /** A call of a sync changes no deployment but its own, and that only if it is not there or is the group's. */
  lemma CallTouchesOwn(p: Proc, now: Api, fate: Nodes.Fate)
    requires p.task.spec.instance.Complete() && !p.pc.Done? && InHand(p, now)
    ensures var k, after := p.task.DeploymentKey(), After(now, Request(p.task, p.pc), fate).deployments;
      || after == now.deployments
      || (&& after == now.deployments[k := Defaulted(p.task.Wanted())]
          && (k in now.deployments ==> ControllerUid(now.deployments[k]) == Some(p.task.group.uid)))
  {
  }

  /** A call of a sync keeps every deployment's controller, and leaves alone those that are not its group's. */
  lemma CallKeeps(p: Proc, now: Api, fate: Nodes.Fate)
    requires p.task.spec.instance.Complete() && !p.pc.Done? && InHand(p, now)
    ensures Keeps(now, After(now, Request(p.task, p.pc), fate))
    ensures forall k :: k in now.deployments && ControllerUid(now.deployments[k]) != Some(p.task.group.uid) ==>
              Slot(After(now, Request(p.task, p.pc), fate).deployments, k) == Some(now.deployments[k])
  {
    CallTouchesOwn(p, now, fate);
    WantedController(p.task);
  }

  /** The sync that made the call keeps hold of what it has. */
  lemma CallerKeepsHold(p: Proc, seen: Api, now: Api, fate: Nodes.Fate)
    requires p.task.spec.instance.Complete() && !p.pc.Done? && InHand(p, now) && Keeps(seen, now)
    ensures var call := Request(p.task, p.pc);
      InHand(Proc(p.task, Next(p.task, p.pc, seen, Answered(now, call, fate))), After(now, call, fate))
  {
    WantedController(p.task);
  }

  lemma HoldSurvives(p: Proc, now: Api, later: Api)
    requires InHand(p, now) && Keeps(now, later)
    ensures InHand(p, later)
  {
  }

  lemma StepKeepsOwnership(w: World, s: Step)
    requires OwnershipKept(w) && Allowed(Keeping, w, s)
    ensures OwnershipKept(Move(w, s))
  {
    var w' := Move(w, s);
    assert Keeps(w.Now(), w.Now());
    if s.Call? {
      CallKeeps(w.procs[s.i], w.Now(), s.fate);
      CallerKeepsHold(w.procs[s.i], w.states[s.seen], w.Now(), s.fate);
    }
    assert Keeps(w.Now(), w'.Now());
    forall i | 0 <= i < |w'.states|
      ensures Keeps(w'.states[i], w'.Now())
    {
      if i < |w.states| {
        assert Keeps(w.states[i], w.Now());
      }
    }
    forall i | 0 <= i < |w'.procs|
      ensures w'.procs[i].task.spec.instance.Complete() && InHand(w'.procs[i], w'.Now())
    {
      if i < |w.procs| && !(s.Call? && i == s.i) {
        HoldSurvives(w.procs[i], w.Now(), w'.Now());
      }
    }
  }

  lemma {:induction false} RunKeepsOwnership(api: Api, run: seq<Step>)
    requires Reached(Keeping, api, run).Some?
    ensures OwnershipKept(Reached(Keeping, api, run).value)
  {
    if run != [] {
      RunKeepsOwnership(api, run[..|run| - 1]);
      StepKeepsOwnership(Reached(Keeping, api, run[..|run| - 1]).value, run[|run| - 1]);
    }
  }

  /** Ownership never changes hands: whatever the interleaving, the staleness and the lost calls, as long as nobody
      deletes a deployment or reassigns one, a deployment that exists has the same controller ever after. */
  lemma OwnershipNeverChangesHands(api: Api, run: seq<Step>, n: nat, k: Key)
    requires n <= |run| && Reached(Keeping, api, run).Some? && Reached(Keeping, api, run[..n]).Some?
    requires k in Reached(Keeping, api, run[..n]).value.Now().deployments
    ensures var before, after := Reached(Keeping, api, run[..n]).value.Now(), Reached(Keeping, api, run).value.Now();
      k in after.deployments && ControllerUid(after.deployments[k]) == ControllerUid(before.deployments[k])
    decreases |run| - n
  {
    if n < |run| {
      PrefixReached(Keeping, api, run, n + 1);
      RunKeepsOwnership(api, run[..n + 1]);
      assert run[..n + 1][..n] == run[..n];
      var before, after := Reached(Keeping, api, run[..n]).value, Reached(Keeping, api, run[..n + 1]).value;
      assert before.Now() in after.states;
      OwnershipNeverChangesHands(api, run, n + 1, k);
    } else {
      assert run[..n] == run;
    }
  }

  lemma {:induction false} PrefixReached(regime: Regime, api: Api, run: seq<Step>, n: nat)
    requires n <= |run| && Reached(regime, api, run).Some?
    ensures Reached(regime, api, run[..n]).Some?
  {
    if n < |run| {
      assert run[..|run| - 1][..n] == run[..n];
      PrefixReached(regime, api, run[..|run| - 1], n);
    } else {
      assert run[..n] == run;
    }
  }

  /** And a sync never modifies a deployment that its group does not control. */
  lemma ForeignDeploymentsAreSpared(api: Api, run: seq<Step>, s: Step, k: Key)
    requires Reached(Keeping, api, run).Some? && s.Call? && Enabled(Reached(Keeping, api, run).value, s)
    requires k in Reached(Keeping, api, run).value.Now().deployments
    ensures var w := Reached(Keeping, api, run).value;
      ControllerUid(w.Now().deployments[k]) != Some(w.procs[s.i].task.group.uid) ==>
        Slot(Move(w, s).Now().deployments, k) == Some(w.Now().deployments[k])
  {
    RunKeepsOwnership(api, run);
    var w := Reached(Keeping, api, run).value;
    CallKeeps(w.procs[s.i], w.Now(), s.fate);
  }

  /** A lookup answered from when the deployment was the group's, with other replicas than wanted. */
  lemma StaleLookMisjudges(task: Task, mine: Deployment, w: World)
    requires task.spec.instance.Complete() && task.HasKeys() && !task.leader
    requires ControllerUid(mine) == Some(task.group.uid)
    requires task.spec.replicas.Some? && mine.replicas != task.spec.replicas
    requires w.states != [] && w.procs == [Proc(task, LookDeployment)]
    requires Slot(w.states[0].deployments, task.DeploymentKey()) == Some(mine)
    ensures Enabled(w, Call(0, 0, Nodes.Delivered))
    ensures Move(w, Call(0, 0, Nodes.Delivered)) == World(w.states + [w.Now()], [Proc(task, FixReplicas(mine))])
  {
  }

  lemma UpdateReplaces(d: Deployment, theirs: Deployment, api: Api)
    requires d.replicas.Some? && api.deployments == map[KeyOf(d) := theirs]
    ensures After(api, UpdateDeployment(d), Nodes.Delivered).deployments == map[KeyOf(d) := d]
  {
    assert map[KeyOf(d) := theirs][KeyOf(d) := d] == map[KeyOf(d) := d];
  }

  /** The update that follows does not ask whose the deployment is. */
  lemma FixOverwrites(task: Task, mine: Deployment, theirs: Deployment, w: World)
    requires task.spec.instance.Complete() && w.states != [] && w.procs == [Proc(task, FixReplicas(mine))]
    requires task.spec.replicas.Some? && w.Now().deployments == map[task.DeploymentKey() := theirs]
    ensures Enabled(w, Call(0, 0, Nodes.Delivered))
    ensures Move(w, Call(0, 0, Nodes.Delivered)).Now().deployments == map[task.DeploymentKey() := task.Wanted()]
  {
    WantedIsOwned(task);
    UpdateReplaces(task.Wanted(), theirs, w.Now());
  }

  lemma StaleCallsOverwrite(task: Task, mine: Deployment, theirs: Deployment, w: World)
    requires task.spec.instance.Complete() && task.HasKeys() && !task.leader
    requires ControllerUid(mine) == Some(task.group.uid)
    requires task.spec.replicas.Some? && mine.replicas != task.spec.replicas
    requires w.states != [] && w.procs == [Proc(task, LookDeployment)]
    requires Slot(w.states[0].deployments, task.DeploymentKey()) == Some(mine)
    requires w.Now().deployments == map[task.DeploymentKey() := theirs]
    ensures var call := Call(0, 0, Nodes.Delivered);
      && Enabled(w, call) && Enabled(Move(w, call), call)
      && Move(Move(w, call), call).Now().deployments == map[task.DeploymentKey() := task.Wanted()]
  {
    StaleLookMisjudges(task, mine, w);
    FixOverwrites(task, mine, theirs, World(w.states + [w.Now()], [Proc(task, FixReplicas(mine))]));
  }

  /** The condition on deletions is needed: a sync that saw its own deployment before it was deleted takes over the one
      another group has made under the same name since. */
  lemma StaleSyncTakesOver(task: Task, mine: Deployment, theirs: Deployment, services: map<Key, Service>)
    requires task.spec.instance.Complete() && task.HasKeys() && !task.leader
    requires ControllerUid(mine) == Some(task.group.uid) && ControllerUid(theirs) != Some(task.group.uid)
    requires task.spec.replicas.Some? && mine.replicas != task.spec.replicas
    ensures var k := task.DeploymentKey();
      var w0 := World([Api(map[k := mine], services, map[], map[])], [Proc(task, LookDeployment)]);
      var s1, s2 := Drift(Api(map[], services, map[], map[])), Drift(Api(map[k := theirs], services, map[], map[]));
      var w2 := Move(Move(w0, s1), s2);
      var look, fix := Call(0, 0, Nodes.Delivered), Call(0, 0, Nodes.Delivered);
      && Enabled(w2, look) && Enabled(Move(w2, look), fix)
      && w2.Now().deployments[k] == theirs
      && Move(Move(w2, look), fix).Now().deployments == map[k := task.Wanted()]
      && ControllerUid(task.Wanted()) == Some(task.group.uid)
  {
    WantedController(task);
    var k := task.DeploymentKey();
    var a0, a1 := Api(map[k := mine], services, map[], map[]), Api(map[], services, map[], map[]);
    var a2 := Api(map[k := theirs], services, map[], map[]);
    var w2 := World([a0, a1, a2], [Proc(task, LookDeployment)]);
    assert Move(Move(World([a0], [Proc(task, LookDeployment)]), Drift(a1)), Drift(a2)) == w2;
    StaleCallsOverwrite(task, mine, theirs, w2);
  }

  /* Which pods a service selects. */

  /** The labels of a set's pods. */
  function LabelsOf(namespace: string, operatorKey: string, group: string, leader: bool): Labels {
    map[OPERATOR_LABEL := operatorKey, GROUP_LABEL := DashKey(namespace, group), ROLE_LABEL := Role(leader)]
  }

  /** The pods of a deployment carry the labels of its controller's leader or worker sets, under some operator label. */
  ghost predicate WellMade(namespace: string, d: Deployment) {
    && ControllerOf(d.owners).Some? && OPERATOR_LABEL in d.podLabels
    && var group, op := ControllerOf(d.owners).value.name, d.podLabels[OPERATOR_LABEL];
       d.podLabels == LabelsOf(namespace, op, group, true) || d.podLabels == LabelsOf(namespace, op, group, false)
  }

  /** A service selects by the labels of its group's leader set, under some operator label. */
  ghost predicate WellServed(namespace: string, s: Service) {
    OPERATOR_LABEL in s.selector && s.selector == LabelsOf(namespace, s.selector[OPERATOR_LABEL], s.name, true)
  }

  ghost predicate AllWell(namespace: string, api: Api) {
    && (forall k :: k in api.deployments ==> WellMade(namespace, api.deployments[k]))
    && (forall k :: k in api.services ==> WellServed(namespace, api.services[k]))
  }

  /** A sync of a group of the namespace; only leader sets get to the service part. */
  ghost predicate Hosted(namespace: string, p: Proc) {
    && p.task.spec.instance.Complete() && p.task.group.namespace == namespace
    && (p.pc.LookService? || p.pc.MakeService? ==> p.task.leader)
  }

  lemma WantedIsWellMade(task: Task)
    requires task.spec.instance.Complete()
    ensures WellMade(task.group.namespace, Defaulted(task.Wanted()))
    ensures task.leader ==> WellServed(task.group.namespace, task.WantedService())
  {
    WantedIsOwned(task);
  }

  /** The call puts nothing but well-made objects into the API server. */
  ghost predicate PutsWell(namespace: string, call: ApiCall) {
    match call
    case CreateDeployment(d) => WellMade(namespace, Defaulted(d))
    case UpdateDeployment(d) => WellMade(namespace, Defaulted(d))
    case CreateService(s) => WellServed(namespace, s)
    case _ => true
  }

  lemma PuttingKeepsWell(namespace: string, now: Api, call: ApiCall, fate: Nodes.Fate)
    requires PutsWell(namespace, call) && AllWell(namespace, now)
    ensures AllWell(namespace, After(now, call, fate))
  {
  }

  lemma CallBuildsWell(namespace: string, p: Proc, now: Api, fate: Nodes.Fate)
    requires Hosted(namespace, p) && !p.pc.Done? && AllWell(namespace, now)
    ensures AllWell(namespace, After(now, Request(p.task, p.pc), fate))
  {
    WantedIsWellMade(p.task);
    PuttingKeepsWell(namespace, now, Request(p.task, p.pc), fate);
  }

  lemma StepBuildsWell(namespace: string, w: World, s: Step)
    requires Allowed(Removing, w, s) && (s.Start? ==> s.task.group.namespace == namespace)
    requires AllWell(namespace, w.Now()) && forall i :: 0 <= i < |w.procs| ==> Hosted(namespace, w.procs[i])
    ensures var w' := Move(w, s);
      AllWell(namespace, w'.Now()) && forall i :: 0 <= i < |w'.procs| ==> Hosted(namespace, w'.procs[i])
  {
    if s.Call? {
      CallBuildsWell(namespace, w.procs[s.i], w.Now(), s.fate);
    }
  }

  ghost predicate StartsIn(namespace: string, run: seq<Step>) {
    forall n :: 0 <= n < |run| && run[n].Start? ==> run[n].task.group.namespace == namespace
  }

  lemma {:induction false} RunBuildsWell(namespace: string, api: Api, run: seq<Step>)
    requires api.deployments == map[] && api.services == map[]
    requires Reached(Removing, api, run).Some? && StartsIn(namespace, run)
    ensures var w := Reached(Removing, api, run).value;
      w.states != [] && AllWell(namespace, w.Now()) && forall i :: 0 <= i < |w.procs| ==> Hosted(namespace, w.procs[i])
  {
    if run != [] {
      RunBuildsWell(namespace, api, run[..|run| - 1]);
      StepBuildsWell(namespace, Reached(Removing, api, run[..|run| - 1]).value, run[|run| - 1]);
    }
  }

  /** Whatever the syncs of one namespace have built, in any interleaving, with any staleness, losses and deletions,
      and however groups were changed between syncs: a service selects the pods of a deployment exactly when the
      deployment is a leader set of the service's own group, made under the same operator label as the service. */
  lemma ServicesSelectTheirLeaders(namespace: string, api: Api, run: seq<Step>, ks: Key, kd: Key)
    requires api.deployments == map[] && api.services == map[]
    requires Reached(Removing, api, run).Some? && StartsIn(namespace, run)
    requires Reached(Removing, api, run).value.states != []
    requires ks in Reached(Removing, api, run).value.Now().services
    requires kd in Reached(Removing, api, run).value.Now().deployments
    ensures var now := Reached(Removing, api, run).value.Now();
      var s, d := now.services[ks], now.deployments[kd];
      && ROLE_LABEL in d.podLabels && ControllerOf(d.owners).Some?
      && OPERATOR_LABEL in d.podLabels && OPERATOR_LABEL in s.selector
      && (Selects(s.selector, d.podLabels) <==>
            && ControllerOf(d.owners).value.name == s.name && d.podLabels[ROLE_LABEL] == ROLE_LEADER
            && d.podLabels[OPERATOR_LABEL] == s.selector[OPERATOR_LABEL])
  {
    RunBuildsWell(namespace, api, run);
    var now := Reached(Removing, api, run).value.Now();
    SelectsItsLeaders(namespace, now.services[ks], now.deployments[kd]);
  }

  lemma SelectsItsLeaders(namespace: string, s: Service, d: Deployment)
    requires WellServed(namespace, s) && WellMade(namespace, d)
    ensures Selects(s.selector, d.podLabels) <==>
              && ControllerOf(d.owners).value.name == s.name && d.podLabels[ROLE_LABEL] == ROLE_LEADER
              && d.podLabels[OPERATOR_LABEL] == s.selector[OPERATOR_LABEL]
  {
    var group := ControllerOf(d.owners).value.name;
    if Selects(s.selector, d.podLabels) {
      assert OPERATOR_LABEL in s.selector && GROUP_LABEL in s.selector && ROLE_LABEL in s.selector;
      DashKeyInjective(namespace, group, s.name);
    }
  }

  /** The last condition can fail: a group is synced, its operator label changes, and its leader set is synced under
      another name. The service, found, is left as it was, and does not select the new leader deployment's pods. */
  lemma RelabelledGroupIsNotSelected(was: Task, now: Task, groups: map<Key, ComputeGroup>, wire: Wire)
    requires was.spec.instance.Complete() && now.spec.instance.Complete() && was.leader && now.leader
    requires now.group.namespace == was.group.namespace && now.group.name == was.group.name && was.HasKeys()
    requires now.name != was.name && now.OperatorKey() != was.OperatorKey() && Calm(wire, 0)
    ensures var end := SyncAll([was, now], History(Api(map[], map[], groups, map[]), []), wire).Now();
      && was.ServiceKey() in end.services && now.DeploymentKey() in end.deployments
      && end.services[was.ServiceKey()] == was.WantedService()
      && end.deployments[now.DeploymentKey()] == Defaulted(now.Wanted())
      && !Selects(end.services[was.ServiceKey()].selector, end.deployments[now.DeploymentKey()].podLabels)
  {
    var start := Api(map[], map[], groups, map[]);
    SyncAllSettles([was, now], History(start, []), wire);
    PairSettles(was, now, start);
    OldSelectorMisses(was, now);
  }

  lemma PairSettles(was: Task, now: Task, start: Api)
    requires was.spec.instance.Complete() && now.spec.instance.Complete() && was.leader
    requires now.group.namespace == was.group.namespace && now.group.name == was.group.name && was.HasKeys()
    requires now.name != was.name && start.deployments == map[] && start.services == map[]
    ensures var end := SettledAll([was, now], start);
      && Slot(end.services, was.ServiceKey()) == Some(was.WantedService())
      && Slot(end.deployments, now.DeploymentKey()) == Some(Defaulted(now.Wanted()))
  {
    assert [was, now][..1] == [was] && [was][..0] == [];
    assert SettledAll([was], start) == Settled(was, start);
    assert SettledAll([was, now], start) == Settled(now, Settled(was, start));
  }

  lemma OldSelectorMisses(was: Task, now: Task)
    requires was.spec.instance.Complete() && now.spec.instance.Complete() && now.OperatorKey() != was.OperatorKey()
    ensures !Selects(was.WantedService().selector, Defaulted(now.Wanted()).podLabels)
  {
    assert OPERATOR_LABEL in was.WantedService().selector;
  }
}
