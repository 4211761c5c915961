/** The operator resource above the compute groups: its defaults, and the groups it creates and owns. */
module Parents {
  import opened Options
  import opened Spec
  import opened Text
  import opened Deploy
  import opened Apis

  const DEFAULT_NAMESPACE := "default"
  const DEFAULT_OPERATOR := "default-operator"

  /** SetDatafuseOperatorDefault */
  function DefaultedOperator(op: Operator): Operator {
    op.(namespace := if op.namespace == "" then DEFAULT_NAMESPACE else op.namespace,
        name := if op.name == "" then DEFAULT_OPERATOR else op.name,
        groups := if op.groups.None? then Some([]) else op.groups,
        status := if op.status == "" then OPERATOR_CREATED else op.status)
  }

  /** metav1.NewControllerRef for an operator. */
  function OperatorRef(op: Operator): OwnerRef {
    OwnerRef("DatafuseOperator", op.name, op.uid, true)
  }

  /** SetDatafuseComputeGroupDefaults */
  function GroupDefaults(op: Operator, group: ComputeGroup): ComputeGroup {
    group.(owners := if IsControlledBy(group.owners, op.uid) then group.owners else [OperatorRef(op)],
           namespace := if group.namespace == "" then DEFAULT_NAMESPACE else group.namespace)
  }

  const NO_STATUS := GroupStatus(None, None, "", "")

  /** MakeComputeGroup, with the UID the server will give the group. */
  function MadeGroup(op: Operator, spec: GroupSpec, uid: string): ComputeGroup {
    var bare := ComputeGroup(spec.namespace, spec.name, uid, 0, map[OPERATOR_LABEL := DashKey(op.namespace, op.name)],
                             [], GroupSpec(None, None, "", ""), NO_STATUS);
    GroupDefaults(op, bare).(spec := spec)
  }

  /** Where a group is looked up, and where it is created: not the same place when its spec names no namespace. */
  function LookupKey(spec: GroupSpec): Key {
    Key(spec.namespace, spec.name)
  }

  function CreationKey(spec: GroupSpec): Key {
    Key(if spec.namespace == "" then DEFAULT_NAMESPACE else spec.namespace, spec.name)
  }

  datatype Answer = Answer(ok: bool, history: History)

  /** The operator with one more group on record, as the status write sends it. */
  function WithGroup(op: Operator, g: ComputeGroup): Operator {
    var states := if op.states.Some? then op.states.value else map[];
    op.(states := Some(states[SlashKey(g.namespace, g.name) := GROUP_DEPLOYED]), status := OPERATOR_READY)
  }

  /** What syncGroup2 does once it has a group in hand: a foreign group is an error, else the operator's status is
      written. */
  function Adopt(op: Operator, g: ComputeGroup, h: History, wire: Wire): Answer {
    if !IsControlledBy(g.owners, op.uid) then Answer(false, h)
    else
      var call, fate := UpdateOperator(WithGroup(op, g)), wire.fate(|h.log|);
      Answer(Answered(h.Now(), call, fate), h.Plus(call, fate))
  }

  /** The operator's object is there, at the version of the snapshot the sync works with. */
  predicate Writable(op: Operator, api: Api) {
    KeyOfOperator(op) in api.operators && api.operators[KeyOfOperator(op)].version == op.version
  }

  /** syncGroup2 */
  function SyncGroup(op: Operator, spec: GroupSpec, h: History, wire: Wire): Answer {
    var seen := h.Ago(wire.lag(|h.log|)).groups;
    var looked := h.Plus(GetGroup(LookupKey(spec)), wire.fate(|h.log|));
    if LookupKey(spec) in seen then Adopt(op, seen[LookupKey(spec)], looked, wire)
    else
      var n := |looked.log|;
      var group := GroupDefaults(op, MadeGroup(op, spec, wire.uid(n)));
      var created := looked.Plus(CreateGroup(group), wire.fate(n));
      if Answered(looked.Now(), CreateGroup(group), wire.fate(n)) then Adopt(op, group, created, wire)
      else Answer(false, created)
  }

  function SyncSpecs(op: Operator, specs: seq<GroupSpec>, h: History, wire: Wire): History {
    if specs == [] then h
    else SyncGroup(op, specs[|specs| - 1], SyncSpecs(op, specs[..|specs| - 1], h, wire), wire).history
  }

  /** processNewOperator: one sync for each group of a defaulted operator, errors dropped. */
  function SyncGroups(op: Operator, h: History, wire: Wire): History {
    SyncSpecs(op, if op.groups.Some? then op.groups.value else [], h, wire)
  }

  lemma MadeForOperator(op: Operator, spec: GroupSpec, uid: string)
    ensures var group := GroupDefaults(op, MadeGroup(op, spec, uid));
      && group == MadeGroup(op, spec, uid) && group.spec == spec && group.uid == uid
      && GroupKey(group) == CreationKey(spec) && IsControlledBy(group.owners, op.uid)
  {
    assert ControllerOf([OperatorRef(op)]) == Some(OperatorRef(op));
  }

  /** A made group carries the name and the namespace of its spec, the operator's key as its label, the operator as its
      one owner, the spec, and no status. */
  lemma MadeGroupExact(op: Operator, spec: GroupSpec, uid: string)
    ensures var g := MadeGroup(op, spec, uid);
      && g.name == spec.name && g.namespace == (if spec.namespace == "" then "default" else spec.namespace)
      && g.labels == map["datafuse-operator" := op.namespace + "-" + op.name]
      && g.owners == [OwnerRef("DatafuseOperator", op.name, op.uid, true)]
      && g.spec == spec && g.uid == uid && g.status == GroupStatus(None, None, "", "")
  {
  }

  /** Defaulting a group sees to its controller and its namespace, and to nothing else. */
  lemma GroupDefaultsOnlyFill(op: Operator, g: ComputeGroup)
    ensures var d := GroupDefaults(op, g);
      && IsControlledBy(d.owners, op.uid)
      && d.owners == (if IsControlledBy(g.owners, op.uid) then g.owners
                      else [OwnerRef("DatafuseOperator", op.name, op.uid, true)])
      && d.namespace == (if g.namespace == "" then "default" else g.namespace)
      && d.(owners := g.owners, namespace := g.namespace) == g
  {
    assert ControllerOf([OperatorRef(op)]) == Some(OperatorRef(op));
  }

  /** From this operator to that one a group went on record as deployed: nothing else is different, but that the
      operator is Ready. */
  ghost predicate RecordsGroup(was: Operator, now: Operator, key: string) {
    && now.(states := was.states, status := was.status) == was
    && Gains(was.states, now.states, key, "Ready") && now.status == "Ready"
  }

  lemma WithGroupRecords(op: Operator, g: ComputeGroup)
    ensures RecordsGroup(op, WithGroup(op, g), g.namespace + "/" + g.name)
  {
  }

  /** The last call since the n-th was a write of the operator, and it went through. */
  ghost predicate EndsWithRecord(h: History, n: nat, wire: Wire) {
    n < |h.log| && h.log[|h.log| - 1].call.UpdateOperator? && h.WentThrough(|h.log| - 1, wire)
  }

  lemma AdoptStops(op: Operator, g: ComputeGroup, h: History, n: nat, wire: Wire)
    requires n < |h.log| && StopsAtFailure(h, n, wire) && !h.log[|h.log| - 1].call.UpdateOperator?
    requires h.log[|h.log| - 1].call.Looks() || h.WentThrough(|h.log| - 1, wire)
    ensures var a := Adopt(op, g, h, wire);
      a.history.Continues(h) && StopsAtFailure(a.history, n, wire) && (a.ok <==> EndsWithRecord(a.history, n, wire))
  {
    var later := Adopt(op, g, h, wire).history;
    forall i | n <= i < |later.log| - 1 && !later.log[i].call.Looks()
      ensures later.WentThrough(i, wire)
    {
      SameMoment(h, later, i);
    }
  }

  /** Whatever becomes of the calls of a group's sync: it goes on after a write only if the write went through, and
      succeeds exactly when the last thing it did was to write the operator and that went through. */
  lemma OperatorSyncStopsAtFailure(op: Operator, spec: GroupSpec, h: History, wire: Wire)
    ensures var a := SyncGroup(op, spec, h, wire);
      && a.history.Continues(h) && StopsAtFailure(a.history, |h.log|, wire)
      && (a.ok <==> EndsWithRecord(a.history, |h.log|, wire))
  {
    var seen, looked := h.Ago(wire.lag(|h.log|)).groups, h.Plus(GetGroup(LookupKey(spec)), wire.fate(|h.log|));
    if LookupKey(spec) in seen {
      AdoptStops(op, seen[LookupKey(spec)], looked, |h.log|, wire);
    } else {
      var n := |looked.log|;
      var group := GroupDefaults(op, MadeGroup(op, spec, wire.uid(n)));
      var created := looked.Plus(CreateGroup(group), wire.fate(n));
      assert created.Met(n) == looked.Now() && created.log[|h.log|].call.Looks();
      if created.WentThrough(n, wire) {
        AdoptStops(op, group, created, |h.log|, wire);
      }
    }
  }

  /** And what it writes puts just the group's "namespace/name" on the operator's record. */
  lemma OperatorSyncRecordsItsGroup(op: Operator, spec: GroupSpec, h: History, wire: Wire, i: nat)
    requires Placed(h.Ago(wire.lag(|h.log|)).groups)
    requires |h.log| <= i < |SyncGroup(op, spec, h, wire).history.log|
    ensures var call := SyncGroup(op, spec, h, wire).history.log[i].call;
      var namespace := if spec.namespace == "" then "default" else spec.namespace;
      call.UpdateOperator? ==> RecordsGroup(op, call.operator, namespace + "/" + spec.name)
  {
    var seen := h.Ago(wire.lag(|h.log|)).groups;
    if LookupKey(spec) in seen {
      WithGroupRecords(op, seen[LookupKey(spec)]);
    } else {
      var group := GroupDefaults(op, MadeGroup(op, spec, wire.uid(|h.log| + 1)));
      WithGroupRecords(op, group);
    }
  }

  /** Objects are stored under their own keys, which have namespaces. */
  ghost predicate Placed(groups: map<Key, ComputeGroup>) {
    forall k :: k in groups ==> GroupKey(groups[k]) == k && k.namespace != ""
  }

  predicate AddsGroup(op: Operator, spec: GroupSpec, uid: string, before: map<Key, ComputeGroup>,
                      after: map<Key, ComputeGroup>) {
    CreationKey(spec) !in before && after == before[CreationKey(spec) := MadeGroup(op, spec, uid)]
  }

  lemma AdoptChangesNothing(op: Operator, g: ComputeGroup, h: History, wire: Wire)
    ensures var now := Adopt(op, g, h, wire).history.Now();
      now.deployments == h.Now().deployments && now.services == h.Now().services && now.groups == h.Now().groups
  {
  }

  /** However stale its lookup and whatever becomes of its calls: a sync adds at most the one group its spec asks for,
      and changes no existing group, deployment or service. */
  lemma SyncOnlyAdds(op: Operator, spec: GroupSpec, h: History, wire: Wire)
    ensures var before, after := h.Now(), SyncGroup(op, spec, h, wire).history.Now();
      && after.deployments == before.deployments && after.services == before.services
      && (after.groups == before.groups || AddsGroup(op, spec, wire.uid(|h.log| + 1), before.groups, after.groups))
  {
    var seen := h.Ago(wire.lag(|h.log|)).groups;
    var looked := h.Plus(GetGroup(LookupKey(spec)), wire.fate(|h.log|));
    assert looked.Now() == h.Now();
    if LookupKey(spec) in seen {
      AdoptChangesNothing(op, seen[LookupKey(spec)], looked, wire);
    } else {
      var n := |looked.log|;
      MadeForOperator(op, spec, wire.uid(n));
      var group := MadeGroup(op, spec, wire.uid(n));
      var created := looked.Plus(CreateGroup(group), wire.fate(n));
      AdoptChangesNothing(op, group, created, wire);
    }
  }

  /** When calls succeed: the sync succeeds if the lookup finds the operator's own group, or finds none and the place
      it is created in is free, and if the operator's object is at the snapshot's version; the group is there
      afterwards. */
  lemma SyncGroupExact(op: Operator, spec: GroupSpec, h: History, wire: Wire)
    requires Calm(wire, |h.log|)
    ensures var before, a := h.Now().groups, SyncGroup(op, spec, h, wire);
      var found := LookupKey(spec) in before;
      var own := if found then IsControlledBy(before[LookupKey(spec)].owners, op.uid) else CreationKey(spec) !in before;
      && (a.ok <==> own && Writable(op, h.Now()))
      && (found || CreationKey(spec) in before ==> a.history.Now().groups == before)
      && (!found && CreationKey(spec) !in before ==>
            AddsGroup(op, spec, wire.uid(|h.log| + 1), before, a.history.Now().groups))
      && a.history.Continues(h)
  {
    var looked := h.Plus(GetGroup(LookupKey(spec)), wire.fate(|h.log|));
    assert looked.Now() == h.Now();
    if LookupKey(spec) in h.Now().groups {
      AdoptExact(op, h.Now().groups[LookupKey(spec)], looked, wire);
    } else {
      var n := |looked.log|;
      MadeForOperator(op, spec, wire.uid(n));
      var group := MadeGroup(op, spec, wire.uid(n));
      AdoptExact(op, group, looked.Plus(CreateGroup(group), wire.fate(n)), wire);
    }
  }

  lemma AdoptExact(op: Operator, g: ComputeGroup, h: History, wire: Wire)
    requires Calm(wire, |h.log|)
    ensures var a := Adopt(op, g, h, wire);
      && (a.ok <==> IsControlledBy(g.owners, op.uid) && Writable(op, h.Now()))
      && a.history.Now().groups == h.Now().groups && a.history.Continues(h)
  {
  }

  lemma AdoptStores(op: Operator, g: ComputeGroup, h: History, wire: Wire)
    requires Calm(wire, |h.log|) && Adopt(op, g, h, wire).ok
    ensures var stored := Slot(Adopt(op, g, h, wire).history.Now().operators, KeyOfOperator(op));
      && stored.Some? && KeyOfOperator(stored.value) == KeyOfOperator(op) && stored.value.uid == op.uid
  {
    assert KeyOfOperator(WithGroup(op, g)) == KeyOfOperator(op);
  }

  /** A sync that succeeds ends with a group in hand. */
  lemma SyncGroupAdopts(op: Operator, spec: GroupSpec, h: History, wire: Wire)
    returns (g: ComputeGroup, looked: History)
    requires SyncGroup(op, spec, h, wire).ok
    ensures SyncGroup(op, spec, h, wire) == Adopt(op, g, looked, wire) && looked.Continues(h)
  {
    looked := h.Plus(GetGroup(LookupKey(spec)), wire.fate(|h.log|));
    var seen := h.Ago(wire.lag(|h.log|)).groups;
    if LookupKey(spec) in seen {
      g := seen[LookupKey(spec)];
    } else {
      var n := |looked.log|;
      g := GroupDefaults(op, MadeGroup(op, spec, wire.uid(n)));
      looked := looked.Plus(CreateGroup(g), wire.fate(n));
    }
  }

  /** After a success the stored operator is the one that was synced, but for its status and version. */
  lemma StoredAfterSync(op: Operator, spec: GroupSpec, h: History, wire: Wire)
    requires Calm(wire, |h.log|) && SyncGroup(op, spec, h, wire).ok
    ensures var stored := Slot(SyncGroup(op, spec, h, wire).history.Now().operators, KeyOfOperator(op));
      && stored.Some? && KeyOfOperator(stored.value) == KeyOfOperator(op) && stored.value.uid == op.uid
  {
    var g, looked := SyncGroupAdopts(op, spec, h, wire);
    AdoptStores(op, g, looked, wire);
  }

  /** Syncing again after a success, with the operator as it is stored by then, changes no group, and succeeds again
      exactly when the spec names a namespace: without one the group is looked up where it never is. */
  lemma ResyncIff(op: Operator, spec: GroupSpec, h: History, wire: Wire)
    requires Calm(wire, |h.log|) && Placed(h.Now().groups) && SyncGroup(op, spec, h, wire).ok
    ensures var first := SyncGroup(op, spec, h, wire);
      && KeyOfOperator(op) in first.history.Now().operators
      && var second := SyncGroup(first.history.Now().operators[KeyOfOperator(op)], spec, first.history, wire);
      && second.history.Now().groups == first.history.Now().groups
      && (second.ok <==> spec.namespace != "")
  {
    var first := SyncGroup(op, spec, h, wire);
    SyncGroupExact(op, spec, h, wire);
    StoredAfterSync(op, spec, h, wire);
    SyncGroupExact(first.history.Now().operators[KeyOfOperator(op)], spec, first.history, wire);
    MadeForOperator(op, spec, wire.uid(|h.log| + 1));
  }

  /** The failure happens: on a server with nothing but the operator that defaults no field, for any operator and any
      spec without a namespace, the first sync creates the group and succeeds, and the second fails. */
  lemma ResyncFailsWithoutNamespace(op: Operator, spec: GroupSpec, wire: Wire)
    requires spec.namespace == "" && Calm(wire, 0)
    ensures var first := SyncGroup(op, spec, History(Api(map[], map[], map[], map[KeyOfOperator(op) := op]), []), wire);
      && first.ok && CreationKey(spec) in first.history.Now().groups &&
          KeyOfOperator(op) in first.history.Now().operators
      && !SyncGroup(first.history.Now().operators[KeyOfOperator(op)], spec, first.history, wire).ok
  {
    var h := History(Api(map[], map[], map[], map[KeyOfOperator(op) := op]), []);
    SyncGroupExact(op, spec, h, wire);
    ResyncIff(op, spec, h, wire);
  }

  /* A whole run over an operator's groups. */

  /** The group is the operator's, made for one of the specs. */
  ghost predicate MadeFor(op: Operator, specs: seq<GroupSpec>, g: ComputeGroup) {
    && IsControlledBy(g.owners, op.uid)
    && exists i :: 0 <= i < |specs| && g.spec == specs[i] && GroupKey(g) == CreationKey(specs[i])
  }

  lemma MadeForMore(op: Operator, specs: seq<GroupSpec>, g: ComputeGroup, spec: GroupSpec)
    requires MadeFor(op, specs, g)
    ensures MadeFor(op, specs + [spec], g)
  {
    var i :| 0 <= i < |specs| && g.spec == specs[i] && GroupKey(g) == CreationKey(specs[i]);
    assert (specs + [spec])[i] == specs[i];
  }

  /** Every group that was there is as it was, and every other is the operator's, made for one of the specs. */
  ghost predicate OnlyAdds(op: Operator, specs: seq<GroupSpec>, before: map<Key, ComputeGroup>,
                           after: map<Key, ComputeGroup>) {
    && (forall k :: k in before ==> k in after && after[k] == before[k])
    && (forall k :: k in after && k !in before ==> GroupKey(after[k]) == k && MadeFor(op, specs, after[k]))
  }

  lemma OneMoreAdded(op: Operator, specs: seq<GroupSpec>, spec: GroupSpec, uid: string, before: map<Key, ComputeGroup>,
                     mid: map<Key, ComputeGroup>, after: map<Key, ComputeGroup>)
    requires OnlyAdds(op, specs, before, mid) && (after == mid || AddsGroup(op, spec, uid, mid, after))
    ensures OnlyAdds(op, specs + [spec], before, after)
  {
    MadeForOperator(op, spec, uid);
    assert (specs + [spec])[|specs|] == spec;
    forall k | k in after && k !in before
      ensures GroupKey(after[k]) == k && MadeFor(op, specs + [spec], after[k])
    {
      if k in mid {
        MadeForMore(op, specs, mid[k], spec);
      }
    }
  }

  /** However stale the lookups and whatever becomes of the calls, a run over an operator's specs changes no existing
      group, deployment or service, and what it adds are groups of the operator's own, made for its specs. */
  lemma {:induction false} RunOnlyAdds(op: Operator, specs: seq<GroupSpec>, h: History, wire: Wire)
    ensures var before, after := h.Now(), SyncSpecs(op, specs, h, wire).Now();
      && after.deployments == before.deployments && after.services == before.services
      && OnlyAdds(op, specs, before.groups, after.groups)
  {
    if specs != [] {
      var init, last := specs[..|specs| - 1], specs[|specs| - 1];
      var mid := SyncSpecs(op, init, h, wire);
      assert specs == init + [last];
      RunOnlyAdds(op, init, h, wire);
      SyncOnlyAdds(op, last, mid, wire);
      OneMoreAdded(op, init, last, wire.uid(|mid.log| + 1), h.Now().groups, mid.Now().groups,
          SyncSpecs(op, specs, h, wire).Now().groups);
    }
  }

  ghost predicate AllThere(specs: seq<GroupSpec>, groups: map<Key, ComputeGroup>) {
    forall i :: 0 <= i < |specs| ==> CreationKey(specs[i]) in groups
  }

  lemma RunStaysPlaced(op: Operator, specs: seq<GroupSpec>, h: History, wire: Wire)
    requires Placed(h.Now().groups)
    ensures Placed(SyncSpecs(op, specs, h, wire).Now().groups)
  {
    RunOnlyAdds(op, specs, h, wire);
  }

  /** When calls succeed, a sync leaves the group of its spec there, error or not. */
  lemma SyncLeavesGroup(op: Operator, spec: GroupSpec, h: History, wire: Wire)
    requires Calm(wire, |h.log|) && Placed(h.Now().groups)
    ensures var later := SyncGroup(op, spec, h, wire).history;
      && later.Continues(h) && CreationKey(spec) in later.Now().groups
      && forall k :: k in h.Now().groups ==> k in later.Now().groups
  {
    SyncGroupExact(op, spec, h, wire);
  }

  lemma OneMoreThere(specs: seq<GroupSpec>, spec: GroupSpec, mid: map<Key, ComputeGroup>,
                     after: map<Key, ComputeGroup>)
    requires AllThere(specs, mid) && CreationKey(spec) in after && forall k :: k in mid ==> k in after
    ensures AllThere(specs + [spec], after)
  {
  }

  /** So every spec has its group after a run over them. */
  lemma {:induction false} RunMakesEach(op: Operator, specs: seq<GroupSpec>, h: History, wire: Wire)
    requires Calm(wire, |h.log|) && Placed(h.Now().groups)
    ensures SyncSpecs(op, specs, h, wire).Continues(h) && AllThere(specs, SyncSpecs(op, specs, h, wire).Now().groups)
  {
    if specs != [] {
      var init, last := specs[..|specs| - 1], specs[|specs| - 1];
      assert specs == init + [last];
      RunMakesEach(op, init, h, wire);
      RunStaysPlaced(op, init, h, wire);
      var mid := SyncSpecs(op, init, h, wire);
      SyncLeavesGroup(op, last, mid, wire);
      OneMoreThere(init, last, mid.Now().groups, SyncSpecs(op, specs, h, wire).Now().groups);
    }
  }

  /** Some spec names no namespace. */
  ghost predicate SomeNameless(specs: seq<GroupSpec>) {
    exists i :: 0 <= i < |specs| && specs[i].namespace == ""
  }

  lemma NamelessByLast(specs: seq<GroupSpec>)
    requires specs != []
    ensures SomeNameless(specs) <==> SomeNameless(specs[..|specs| - 1]) || specs[|specs| - 1].namespace == ""
  {
    assert forall i :: 0 <= i < |specs| - 1 ==> specs[..|specs| - 1][i] == specs[i];
  }

  /** The group was made for the first of the specs with its key. */
  ghost predicate MadeForFirst(specs: seq<GroupSpec>, g: ComputeGroup) {
    exists i :: 0 <= i < |specs| && g.spec == specs[i] && FirstWithKey(specs, i, GroupKey(g))
  }

  ghost predicate FirstWithKey(specs: seq<GroupSpec>, i: nat, k: Key)
    requires i < |specs|
  {
    CreationKey(specs[i]) == k && forall j :: 0 <= j < i ==> CreationKey(specs[j]) != k
  }

  lemma MadeForFirstOfMore(specs: seq<GroupSpec>, spec: GroupSpec, g: ComputeGroup)
    requires MadeForFirst(specs, g) || (g.spec == spec && GroupKey(g) == CreationKey(spec) &&
        forall j :: 0 <= j < |specs| ==> CreationKey(specs[j]) != GroupKey(g))
    ensures MadeForFirst(specs + [spec], g)
  {
    var all := specs + [spec];
    if MadeForFirst(specs, g) {
      var i :| 0 <= i < |specs| && g.spec == specs[i] && FirstWithKey(specs, i, GroupKey(g));
      assert all[i] == specs[i] && FirstWithKey(all, i, GroupKey(g));
    } else {
      assert all[|specs|] == spec && FirstWithKey(all, |specs|, GroupKey(g));
    }
  }

  /** When calls succeed, the specs are served in order: of several with the same key the first gets the group. */
  lemma {:induction false} FirstSpecsWin(op: Operator, specs: seq<GroupSpec>, h: History, wire: Wire)
    requires Calm(wire, |h.log|) && Placed(h.Now().groups)
    ensures var before, after := h.Now().groups, SyncSpecs(op, specs, h, wire).Now().groups;
      forall k :: k in after && k !in before ==> MadeForFirst(specs, after[k])
  {
    if specs != [] {
      var init, last := specs[..|specs| - 1], specs[|specs| - 1];
      assert specs == init + [last];
      var mid := SyncSpecs(op, init, h, wire);
      FirstSpecsWin(op, init, h, wire);
      RunMakesEach(op, init, h, wire);
      SyncOnlyAdds(op, last, mid, wire);
      MadeForOperator(op, last, wire.uid(|mid.log| + 1));
      var after := SyncSpecs(op, specs, h, wire).Now().groups;
      forall k | k in after && k !in h.Now().groups
        ensures MadeForFirst(specs, after[k])
      {
        MadeForFirstOfMore(init, last, after[k]);
      }
    }
  }

  /** Since the n-th call a group's creation was asked for. */
  ghost predicate AsksForGroup(h: History, n: nat) {
    exists i :: n <= i < |h.log| && h.log[i].call.CreateGroup?
  }

  lemma SyncAsksIff(op: Operator, spec: GroupSpec, h: History, wire: Wire)
    requires Calm(wire, |h.log|)
    ensures AsksForGroup(SyncGroup(op, spec, h, wire).history, |h.log|) <==> LookupKey(spec) !in h.Now().groups
  {
    if LookupKey(spec) !in h.Now().groups {
      assert SyncGroup(op, spec, h, wire).history.log[|h.log| + 1].call.CreateGroup?;
    }
  }

  /** A sync whose group is there asks for its creation just when its spec names no namespace. */
  lemma SyncAsksAgainIff(op: Operator, spec: GroupSpec, h: History, wire: Wire)
    requires Calm(wire, |h.log|) && Placed(h.Now().groups) && CreationKey(spec) in h.Now().groups
    ensures var a := SyncGroup(op, spec, h, wire);
      && a.history.Continues(h) && a.history.Now().groups == h.Now().groups
      && (AsksForGroup(a.history, |h.log|) <==> spec.namespace == "")
  {
    SyncGroupExact(op, spec, h, wire);
    SyncAsksIff(op, spec, h, wire);
  }

  lemma AsksLaterIff(a: History, b: History, n: nat)
    requires b.Continues(a) && n <= |a.log|
    ensures AsksForGroup(b, n) <==> AsksForGroup(a, n) || AsksForGroup(b, |a.log|)
  {
    assert forall i :: 0 <= i < |a.log| ==> b.log[i] == a.log[i];
  }

  lemma {:induction false} RerunAsksIff(op: Operator, specs: seq<GroupSpec>, h: History, wire: Wire)
    requires Calm(wire, |h.log|) && Placed(h.Now().groups) && AllThere(specs, h.Now().groups)
    ensures var r := SyncSpecs(op, specs, h, wire);
      && r.Continues(h) && r.Now().groups == h.Now().groups
      && (AsksForGroup(r, |h.log|) <==> SomeNameless(specs))
  {
    if specs != [] {
      var init, last := specs[..|specs| - 1], specs[|specs| - 1];
      var mid := SyncSpecs(op, init, h, wire);
      NamelessByLast(specs);
      assert forall i :: 0 <= i < |init| ==> specs[i] == init[i];
      RerunAsksIff(op, init, h, wire);
      SyncAsksAgainIff(op, last, mid, wire);
      AsksLaterIff(mid, SyncSpecs(op, specs, h, wire), |h.log|);
    }
  }

  /** What reconciling an operator achieves when calls succeed: each of its specs has its group, which is the one that
      was there or one made for the operator, and there are no others. Reconciling it again, whatever was written to
      the operator meanwhile, changes no group, and asks for one exactly when some spec names no namespace. */
  lemma GroupsAreMadeOnce(op: Operator, again: Operator, h: History, wire: Wire)
    requires Calm(wire, |h.log|) && Placed(h.Now().groups) && op.groups.Some? && again.groups == op.groups
    ensures var specs, once := op.groups.value, SyncGroups(op, h, wire);
      var twice := SyncGroups(again, once, wire);
      && AllThere(specs, once.Now().groups) && OnlyAdds(op, specs, h.Now().groups, once.Now().groups)
      && (forall k :: k in once.Now().groups && k !in h.Now().groups ==> MadeForFirst(specs, once.Now().groups[k]))
      && twice.Now().groups == once.Now().groups
      && (AsksForGroup(twice, |once.log|) <==> SomeNameless(specs))
  {
    RunOnlyAdds(op, op.groups.value, h, wire);
    RunMakesEach(op, op.groups.value, h, wire);
    FirstSpecsWin(op, op.groups.value, h, wire);
    RunStaysPlaced(op, op.groups.value, h, wire);
    RerunAsksIff(again, op.groups.value, SyncGroups(op, h, wire), wire);
  }

  /** What defaulting achieves: a namespace, a name, a group list and a status; what was there is kept, so that the
      groups made for the defaulted operator are the operator's own; and defaulting again changes nothing. */
  lemma DefaultingCompletes(op: Operator, spec: GroupSpec, uid: string)
    ensures var d := DefaultedOperator(op);
      && d.namespace != "" && d.name != "" && d.groups.Some? && d.status != ""
      && d.namespace == (if op.namespace == "" then "default" else op.namespace)
      && d.name == (if op.name == "" then "default-operator" else op.name)
      && d.groups == Some(if op.groups.Some? then op.groups.value else [])
      && d.status == (if op.status == "" then "Created" else op.status)
      && d.(namespace := op.namespace, name := op.name, groups := op.groups, status := op.status) == op
      && IsControlledBy(MadeGroup(d, spec, uid).owners, op.uid)
      && DefaultedOperator(d) == d
  {
    MadeForOperator(DefaultedOperator(op), spec, uid);
  }

  /** IsOperatorCreated takes an operator without a status for a created one. */
  function AdmittedOperator(op: Operator): Operator {
    op.(status := if op.status == "" then OPERATOR_CREATED else op.status)
  }

  /** It does nothing to an operator that defaulting would not do: what is reconciled afterwards is the same. */
  lemma AdmittingIsDefaulting(op: Operator)
    ensures DefaultedOperator(AdmittedOperator(op)) == DefaultedOperator(op)
    ensures AdmittedOperator(DefaultedOperator(op)) == DefaultedOperator(op)
    ensures AdmittedOperator(op).status == DefaultedOperator(op).status
  {
  }

  /* The same on the objects the controller holds. */

  class OperatorObject {
    var namespace: string
    var name: string
    var uid: string
    var version: nat
    var groups: Option<seq<GroupSpec>>
    var states: Option<StateMap>
    var status: string

    constructor (value: Operator)
      ensures Value() == value
    {
      namespace, name, uid, version := value.namespace, value.name, value.uid, value.version;
      groups, states, status := value.groups, value.states, value.status;
    }

    function Value(): Operator
      reads this
    {
      Operator(namespace, name, uid, version, groups, states, status)
    }
  }

  /** A compute group under construction. */
  class GroupDraft {
    var namespace: string
    var name: string
    var uid: string
    var labels: Labels
    var owners: seq<OwnerRef>
    var spec: GroupSpec

    constructor (uid: string)
      ensures Value() == ComputeGroup("", "", uid, 0, map[], [], GroupSpec(None, None, "", ""), NO_STATUS)
    {
      namespace, name, this.uid, labels, owners, spec := "", "", uid, map[], [], GroupSpec(None, None, "", "");
    }

    function Value(): ComputeGroup
      reads this
    {
      ComputeGroup(namespace, name, uid, 0, labels, owners, spec, NO_STATUS)
    }
  }

  method SetDatafuseOperatorDefault(operator: OperatorObject?)
    modifies operator
    ensures operator != null ==> operator.Value() == DefaultedOperator(old(operator.Value()))
  {
    if operator == null {
      return;
    }
    if operator.namespace == "" {
      operator.namespace := DEFAULT_NAMESPACE;
    }
    if operator.name == "" {
      operator.name := DEFAULT_OPERATOR;
    }
    if operator.groups == None {
      operator.groups := Some([]);
    }
    if operator.status == "" {
      operator.status := OPERATOR_CREATED;
    }
  }

  method SetDatafuseComputeGroupDefaults(parent: OperatorObject?, group: GroupDraft?)
    modifies group
    ensures group != null ==>
      group.Value() == if parent == null then old(group.Value()) else GroupDefaults(parent.Value(), old(group.Value()))
  {
    if parent == null || group == null {
      return;
    }
    if !IsControlledBy(group.owners, parent.uid) {
      group.owners := [OwnerRef("DatafuseOperator", parent.name, parent.uid, true)];
    }
    if group.namespace == "" {
      group.namespace := DEFAULT_NAMESPACE;
    }
  }

  method MakeComputeGroup(owner: OperatorObject, groupSpec: GroupSpec, uid: string) returns (group: GroupDraft)
    ensures fresh(group) && group.Value() == MadeGroup(owner.Value(), groupSpec, uid)
  {
    group := new GroupDraft(uid);
    group.name := groupSpec.name;
    group.namespace := groupSpec.namespace;
    group.labels := map[];
    group.labels := group.labels[OPERATOR_LABEL := DashKey(owner.namespace, owner.name)];
    SetDatafuseComputeGroupDefaults(owner, group);
    group.spec := groupSpec;
  }
}
