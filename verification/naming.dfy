/** The deployment names of a group's sets, as the reconciler and the pruning handler each compute them. */
module Naming {
  import opened Spec
  import opened Text
  import opened Deploy

  function NameOr(spec: SetSpec, basic: string): string {
    if spec.instance.name.None? then basic else spec.instance.name.value
  }

  function LeaderName(group: string): string {
    group + "-leader"
  }

  function WorkerName(group: string, i: nat): string {
    group + "-worker" + Itoa(i)
  }

  function LeaderTask(group: ComputeGroup): Task
    requires group.spec.leaders.Some?
  {
    Task(group, group.spec.leaders.value, NameOr(group.spec.leaders.value, LeaderName(group.name)), true)
  }

  function WorkerTask(group: ComputeGroup, i: nat): Task
    requires i < |group.spec.Workers()| && group.spec.Workers()[i].Some?
  {
    var worker := group.spec.Workers()[i].value;
    Task(group, worker, NameOr(worker, WorkerName(group.name, i)), false)
  }

  /** The syncs of one reconciliation, in order: the leader set, then the worker sets. */
  function TasksOf(group: ComputeGroup): (tasks: seq<Task>)
    requires group.spec.HasSets()
    ensures |tasks| == 1 + |group.spec.Workers()| && tasks[0] == LeaderTask(group)
    ensures forall i :: 0 <= i < |group.spec.Workers()| ==> tasks[1 + i] == WorkerTask(group, i)
  {
    [LeaderTask(group)] + seq(|group.spec.Workers()|,
        i requires 0 <= i < |group.spec.Workers()| => WorkerTask(group, i))
  }

  function TaskNames(tasks: seq<Task>): set<string> {
    set i | 0 <= i < |tasks| :: tasks[i].name
  }

  ghost predicate DistinctNames(tasks: seq<Task>) {
    forall i, j :: 0 <= i < j < |tasks| ==> tasks[i].name != tasks[j].name
  }

  /** The sets by name, a later set hiding an earlier one of the same name. */
  function ByName(tasks: seq<Task>): map<string, SetSpec> {
    if tasks == [] then map[] else ByName(tasks[..|tasks| - 1])[tasks[|tasks| - 1].name := tasks[|tasks| - 1].spec]
  }

  /** Exactly the names the reconciler syncs. */
  lemma {:induction false} ByNameNames(tasks: seq<Task>)
    ensures ByName(tasks).Keys == TaskNames(tasks)
  {
    if tasks != [] {
      var init, last := tasks[..|tasks| - 1], tasks[|tasks| - 1];
      ByNameNames(init);
      TaskNamesSnoc(init, last);
      assert tasks == init + [last];
    }
  }

  lemma TaskNamesSnoc(tasks: seq<Task>, t: Task)
    ensures TaskNames(tasks + [t]) == TaskNames(tasks) + {t.name}
  {
    var all := tasks + [t];
    assert forall i :: 0 <= i < |tasks| ==> all[i] == tasks[i];
    assert all[|tasks|] == t;
  }

  lemma ByNameGrows(tasks: seq<Task>, i: nat)
    requires i < |tasks|
    ensures ByName(tasks[..i + 1]) == ByName(tasks[..i])[tasks[i].name := tasks[i].spec]
  {
    assert tasks[..i + 1][..i] == tasks[..i];
  }

  /** buildNamedSpec of the pruning handler. */
  method BuildNamedSpec(group: ComputeGroup) returns (ans: map<string, SetSpec>)
    requires group.spec.HasSets()
    ensures ans == ByName(TasksOf(group))
  {
    ghost var tasks := TasksOf(group);
    var leaders := group.spec.leaders.value;
    ByNameGrows(tasks, 0);
    if leaders.instance.name.None? {
      ans := map[LeaderName(group.name) := leaders];
    } else {
      ans := map[leaders.instance.name.value := leaders];
    }
    var workers := group.spec.Workers();
    for i := 0 to |workers|
      invariant ans == ByName(tasks[..i + 1])
    {
      var worker := workers[i].value;
      ByNameGrows(tasks, i + 1);
      if worker.instance.name.None? {
        ans := ans[WorkerName(group.name, i) := worker];
      } else {
        ans := ans[worker.instance.name.value := worker];
      }
    }
    assert tasks[..|tasks|] == tasks;
  }

  /** Sets without names of their own get pairwise distinct ones, however many there are. */
  lemma DefaultNamesDistinct(group: ComputeGroup)
    requires group.spec.HasSets()
    requires group.spec.leaders.value.instance.name.None?
    requires forall i :: 0 <= i < |group.spec.Workers()| ==> group.spec.Workers()[i].value.instance.name.None?
    ensures DistinctNames(TasksOf(group))
  {
    var tasks := TasksOf(group);
    forall i, j | 0 <= i < j < |tasks|
      ensures tasks[i].name != tasks[j].name
    {
      if i == 0 {
        LeaderIsNoWorker(group.name, j - 1);
      } else {
        WorkersDiffer(group.name, i - 1, j - 1);
      }
    }
  }

  lemma LeaderIsNoWorker(group: string, i: nat)
    ensures LeaderName(group) != WorkerName(group, i)
  {
    assert LeaderName(group)[|group| + 1] == 'l' && WorkerName(group, i)[|group| + 1] == 'w';
  }

  lemma WorkersDiffer(group: string, i: nat, j: nat)
    requires i != j
    ensures WorkerName(group, i) != WorkerName(group, j)
  {
    var k := |group + "-worker"|;
    assert WorkerName(group, i)[k..] == Itoa(i) && WorkerName(group, j)[k..] == Itoa(j);
    if Itoa(i) == Itoa(j) {
      ItoaInjective(i, j);
    }
  }
}
