/** The handler of a changed group: it deletes the deployments whose names left the spec. */
module Pruning {
  import opened Options
  import opened Spec
  import opened Deploy
  import opened Naming
  import opened Apis
  import opened Sync
  import opened Reconcile

  function Deletion(namespace: string, name: string): ApiCall {
    DeleteDeployment(Key(namespace, name))
  }

  /** One deletion for each name, answers dropped. */
  function DeleteAll(namespace: string, names: seq<string>, h: History, wire: Wire): (r: History)
    ensures r.Continues(h) && |r.log| == |h.log| + |names|
  {
    if names == [] then h
    else
      var before := DeleteAll(namespace, names[..|names| - 1], h, wire);
      before.Plus(Deletion(namespace, names[|names| - 1]), wire.fate(|before.log|))
  }

  /** The names that were in the old spec and are not in the new one. */
  ghost function Dropped(was: ComputeGroup, now: ComputeGroup): set<string>
    requires was.spec.HasSets() && now.spec.HasSets()
  {
    TaskNames(TasksOf(was)) - TaskNames(TasksOf(now))
  }

  ghost predicate VisitsOnce(s: seq<string>, all: set<string>) {
    && (forall i, j :: 0 <= i < j < |s| ==> s[i] != s[j])
    && (forall x :: x in s <==> x in all)
  }

  lemma VisitsOneMore(s: seq<string>, all: set<string>, x: string)
    requires VisitsOnce(s, all) && x !in all
    ensures VisitsOnce(s + [x], all + {x})
  {
  }

  lemma DeletesOneMore(namespace: string, names: seq<string>, h: History, wire: Wire, name: string)
    ensures var before := DeleteAll(namespace, names, h, wire);
      DeleteAll(namespace, names + [name], h, wire) == before.Plus(Deletion(namespace, name), wire.fate(|before.log|))
  {
    assert (names + [name])[..|names|] == names;
  }

  /** However the deletions fare, they are for these names in this namespace, and touch nothing else. */
  lemma {:induction false} DeletesNothingElse(namespace: string, names: seq<string>, h: History, wire: Wire, k: Key)
    requires k.namespace != namespace || k.name !in names
    ensures Slot(DeleteAll(namespace, names, h, wire).Now().deployments, k) == Slot(h.Now().deployments, k)
  {
    if names != [] {
      DeletesNothingElse(namespace, names[..|names| - 1], h, wire, k);
    }
  }

  lemma {:induction false} DeletesOnlyDeployments(namespace: string, names: seq<string>, h: History, wire: Wire)
    ensures DeleteAll(namespace, names, h, wire).Now().services == h.Now().services
    ensures DeleteAll(namespace, names, h, wire).Now().groups == h.Now().groups
  {
    if names != [] {
      DeletesOnlyDeployments(namespace, names[..|names| - 1], h, wire);
    }
  }

  lemma {:induction false} DeletesEach(namespace: string, names: seq<string>, h: History, wire: Wire, name: string)
    requires name in names && Calm(wire, |h.log|)
    ensures Key(namespace, name) !in DeleteAll(namespace, names, h, wire).Now().deployments
  {
    var init, last := names[..|names| - 1], names[|names| - 1];
    if name != last {
      assert name in init;
      DeletesEach(namespace, init, h, wire, name);
    }
  }

  /** Once the deletions went through: nothing under the names that left the spec, all else as it was. */
  lemma PrunedSlot(was: ComputeGroup, now: ComputeGroup, names: seq<string>, h: History, wire: Wire, k: Key)
    requires was.spec.HasSets() && now.spec.HasSets() && Calm(wire, |h.log|) && VisitsOnce(names, Dropped(was, now))
    ensures Slot(DeleteAll(was.namespace, names, h, wire).Now().deployments, k) ==
              if k.namespace == was.namespace && k.name in Dropped(was, now) then None else Slot(h.Now().deployments, k)
  {
    if k.namespace == was.namespace && k.name in Dropped(was, now) {
      DeletesEach(was.namespace, names, h, wire, k.name);
    } else {
      DeletesNothingElse(was.namespace, names, h, wire, k);
    }
  }

  /** Pruning and then reconciling settles each set of the new spec from what was under its name before. */
  lemma PruneThenSync(was: ComputeGroup, now: ComputeGroup, names: seq<string>, h: History, wire: Wire, i: nat)
    requires was.spec.HasSets() && now.spec.Complete() && was.namespace == now.namespace
    requires HasKeys(now) && DistinctNames(TasksOf(now)) && Calm(wire, |h.log|) && VisitsOnce(names, Dropped(was, now))
    requires i < |TasksOf(now)| && TasksOf(now)[i].spec.instance.Complete()
    ensures var after := NewGroup(now, DeleteAll(was.namespace, names, h, wire), wire).Now();
      && Slot(after.deployments, TasksOf(now)[i].DeploymentKey()) ==
          Some(DeploymentFor(TasksOf(now)[i], h.Now().deployments))
      && (InPlace(TasksOf(now)[i], after) <==> Free(TasksOf(now)[i], h.Now()))
  {
    var pruned := DeleteAll(was.namespace, names, h, wire);
    NewGroupExact(now, pruned, wire);
    var task := TasksOf(now)[i];
    PrunedSlot(was, now, names, h, wire, task.DeploymentKey());
    assert task.name in TaskNames(TasksOf(now));
    SameSlotSameResult(task, pruned.Now(), h.Now());
  }

  /** Of the other deployments, those the old spec named are gone and all the rest are as they were. */
  lemma PruneSparesOthers(was: ComputeGroup, now: ComputeGroup, names: seq<string>, h: History, wire: Wire, k: Key)
    requires was.spec.HasSets() && now.spec.Complete() && was.namespace == now.namespace
    requires HasKeys(now) && DistinctNames(TasksOf(now)) && Calm(wire, |h.log|) && VisitsOnce(names, Dropped(was, now))
    requires !Covers(TasksOf(now), k)
    ensures Slot(NewGroup(now, DeleteAll(was.namespace, names, h, wire), wire).Now().deployments, k) ==
              if Covers(TasksOf(was), k) then None else Slot(h.Now().deployments, k)
  {
    NewGroupExact(now, DeleteAll(was.namespace, names, h, wire), wire);
    PrunedSlot(was, now, names, h, wire, k);
    CoversByName(was, k);
    CoversByName(now, k);
  }

  /** Starting from exactly the old spec's deployments, all of them the group's: exactly the new spec's are left, each
      in place. */
  lemma PruneLeavesExactlyNew(was: ComputeGroup, now: ComputeGroup, names: seq<string>, h: History, wire: Wire)
    requires was.spec.HasSets() && now.spec.Complete() && was.namespace == now.namespace
    requires HasKeys(now) && DistinctNames(TasksOf(now)) && Calm(wire, |h.log|) && VisitsOnce(names, Dropped(was, now))
    requires forall k :: k in h.Now().deployments <==> Covers(TasksOf(was), k)
    requires forall k :: k in h.Now().deployments ==> IsControlledBy(h.Now().deployments[k].owners, now.uid)
    ensures var after := NewGroup(now, DeleteAll(was.namespace, names, h, wire), wire).Now();
      && (forall k :: k in after.deployments <==> Covers(TasksOf(now), k))
      && (forall i :: 0 <= i < |TasksOf(now)| ==> InPlace(TasksOf(now)[i], after))
  {
    var tasks, after := TasksOf(now), NewGroup(now, DeleteAll(was.namespace, names, h, wire), wire).Now();
    TasksAreSyncs(now);
    forall i | 0 <= i < |tasks|
      ensures InPlace(tasks[i], after)
    {
      PruneThenSync(was, now, names, h, wire, i);
    }
    forall k
      ensures k in after.deployments <==> Covers(tasks, k)
    {
      if Covers(tasks, k) {
        var i :| 0 <= i < |tasks| && tasks[i].DeploymentKey() == k;
        assert InPlace(tasks[i], after);
      } else {
        PruneSparesOthers(was, now, names, h, wire, k);
      }
    }
  }

  /** Nothing else is touched but what reconciling the new spec touches: its service and its own record. */
  lemma PruneKeepsTheRest(was: ComputeGroup, now: ComputeGroup, names: seq<string>, h: History, wire: Wire)
    requires now.spec.Complete() && HasKeys(now) && DistinctNames(TasksOf(now)) && Calm(wire, |h.log|)
    ensures var after := NewGroup(now, DeleteAll(was.namespace, names, h, wire), wire).Now();
      && after.services == ServicesFor(LeaderTask(now), h.Now().services)
      && forall k :: k != GroupKey(now) ==> Slot(after.groups, k) == Slot(h.Now().groups, k)
  {
    NewGroupExact(now, DeleteAll(was.namespace, names, h, wire), wire);
    DeletesOnlyDeployments(was.namespace, names, h, wire);
  }

  lemma CoversByName(was: ComputeGroup, k: Key)
    requires was.spec.HasSets()
    ensures Covers(TasksOf(was), k) <==> k.namespace == was.namespace && k.name in TaskNames(TasksOf(was))
  {
    var tasks := TasksOf(was);
    assert forall i :: 0 <= i < |tasks| ==> tasks[i].DeploymentKey() == Key(was.namespace, tasks[i].name);
  }

  /** The handler deletes just the names that left the spec, in its order, whatever the answers. */
  lemma {:induction false} DeletesInOrder(namespace: string, names: seq<string>, h: History, wire: Wire, i: nat)
    requires i < |names|
    ensures DeleteAll(namespace, names, h, wire).log[|h.log| + i].call == Deletion(namespace, names[i])
  {
    if i < |names| - 1 {
      DeletesInOrder(namespace, names[..|names| - 1], h, wire, i);
    }
  }
}
