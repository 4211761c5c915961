/** What every sync does, whatever becomes of its calls and however stale its lookups, told from the log alone. */
module Outcomes {
  import opened Deploy
  import opened Apis
  import opened Sync

  /** The last call since the n-th was a status write, and it went through. */
  ghost predicate EndsWithStatus(h: History, n: nat, wire: Wire) {
    n < |h.log| && h.log[|h.log| - 1].call.UpdateGroup? && h.WentThrough(|h.log| - 1, wire)
  }

  /** One call: unless the sync ends with it, it looked or it went through. */
  lemma TurnWentThrough(task: Task, pc: Pc, h: History, wire: Wire)
    requires task.spec.instance.Complete() && !pc.Done?
    ensures var o, n := Turn(task, pc, h, wire), |h.log|;
      && (!o.pc.Done? ==> o.history.log[n].call.Looks() || o.history.WentThrough(n, wire))
      && (o.pc == Done(true) <==> o.history.log[n].call.UpdateGroup? && o.history.WentThrough(n, wire))
  {
  }

  lemma {:induction false} ConcludeStops(task: Task, pc: Pc, h: History, wire: Wire)
    requires task.spec.instance.Complete()
    ensures var o := Conclude(task, pc, h, wire);
      && StopsAtFailure(o.history, |h.log|, wire) && (pc.Done? <==> o.history == h)
      && (!pc.Done? ==> (o.pc == Done(true) <==> EndsWithStatus(o.history, |h.log|, wire)))
    decreases Rank(pc)
  {
    if !pc.Done? {
      var o, all := Turn(task, pc, h, wire), Conclude(task, pc, h, wire).history;
      TurnWentThrough(task, pc, h, wire);
      ConcludeStops(task, o.pc, o.history, wire);
      SameMoment(o.history, all, |h.log|);
    }
  }

  /** Whatever becomes of the calls of a sync: it goes on after a write only if the write went through, and succeeds
      exactly when the last thing it did was to write the status and that went through. A group without a name or a
      namespace, and only such a group, gets no call. */
  lemma SyncStopsAtFailure(task: Task, h: History, wire: Wire)
    requires task.spec.instance.Complete()
    ensures var o := Conclude(task, Begin(task), h, wire);
      && StopsAtFailure(o.history, |h.log|, wire)
      && (o.pc == Done(true) <==> EndsWithStatus(o.history, |h.log|, wire))
      && (o.history == h <==> task.group.name == "" || task.group.namespace == "")
  {
    ConcludeStops(task, Begin(task), h, wire);
  }

  /** The deployment in hand is under the name of the set. */
  ghost predicate InHandByName(task: Task, pc: Pc) {
    match pc
    case LookService(d) => KeyOf(d) == task.DeploymentKey()
    case MakeService(d) => KeyOf(d) == task.DeploymentKey()
    case FixReplicas(d) => KeyOf(d) == task.DeploymentKey()
    case WriteStatus(d) => KeyOf(d) == task.DeploymentKey()
    case _ => true
  }

  lemma TurnStored(task: Task, pc: Pc, h: History, wire: Wire)
    requires task.spec.instance.Complete() && !pc.Done? && AllStored(h)
    ensures AllStored(Turn(task, pc, h, wire).history)
  {
    PerformKeepsStored(h.Now(), Request(task, pc));
  }

  lemma NextKeepsName(task: Task, pc: Pc, seen: Api, ok: bool)
    requires task.spec.instance.Complete() && !pc.Done? && Stored(seen) && InHandByName(task, pc)
    ensures InHandByName(task, Next(task, pc, seen, ok))
  {
    WantedIsOwned(task);
  }

  lemma TurnKeepsName(task: Task, pc: Pc, h: History, wire: Wire)
    requires task.spec.instance.Complete() && !pc.Done? && AllStored(h) && InHandByName(task, pc)
    ensures AllStored(Turn(task, pc, h, wire).history) && InHandByName(task, Turn(task, pc, h, wire).pc)
  {
    TurnStored(task, pc, h, wire);
    var n := |h.log|;
    assert Stored(h.Ago(wire.lag(n)));
    NextKeepsName(task, pc, h.Ago(wire.lag(n)), Answered(h.Now(), Request(task, pc), wire.fate(n)));
  }

  lemma {:induction false} ConcludeRecords(task: Task, pc: Pc, h: History, wire: Wire, i: nat)
    requires task.spec.instance.Complete() && AllStored(h) && InHandByName(task, pc)
    requires |h.log| <= i < |Conclude(task, pc, h, wire).history.log|
    ensures var call := Conclude(task, pc, h, wire).history.log[i].call;
      call.UpdateGroup? ==> Records(task.group, call.group, task.group.namespace + "/" + task.name, task.leader)
    decreases Rank(pc)
  {
    var o := Turn(task, pc, h, wire);
    if i == |h.log| {
      SameMoment(o.history, Conclude(task, pc, h, wire).history, i);
      if pc.WriteStatus? {
        MarkedReadyRecords(task.group, pc.d, task.leader);
      }
    } else {
      TurnKeepsName(task, pc, h, wire);
      ConcludeRecords(task, o.pc, o.history, wire, i);
    }
  }

  lemma {:induction false} ConcludeStored(task: Task, pc: Pc, h: History, wire: Wire)
    requires task.spec.instance.Complete() && AllStored(h)
    ensures AllStored(Conclude(task, pc, h, wire).history)
    decreases Rank(pc)
  {
    if !pc.Done? {
      TurnStored(task, pc, h, wire);
      ConcludeStored(task, Turn(task, pc, h, wire).pc, Turn(task, pc, h, wire).history, wire);
    }
  }

  lemma {:induction false} SyncAllStored(tasks: seq<Task>, h: History, wire: Wire)
    requires Complete(tasks) && AllStored(h)
    ensures AllStored(SyncAll(tasks, h, wire))
  {
    if tasks != [] {
      var init, last := tasks[..|tasks| - 1], tasks[|tasks| - 1];
      SyncAllStored(init, h, wire);
      ConcludeStored(last, Begin(last), SyncAll(init, h, wire), wire);
    }
  }

  /** Every status write of a sequence of syncs is the record of one of them. */
  lemma {:induction false} SyncAllRecords(tasks: seq<Task>, h: History, wire: Wire, m: nat) returns (i: nat)
    requires Complete(tasks) && AllStored(h) && |h.log| <= m < |SyncAll(tasks, h, wire).log|
    requires SyncAll(tasks, h, wire).log[m].call.UpdateGroup?
    ensures i < |tasks|
    ensures var t := tasks[i];
      Records(t.group, SyncAll(tasks, h, wire).log[m].call.group, t.group.namespace + "/" + t.name, t.leader)
  {
    var init, last := tasks[..|tasks| - 1], tasks[|tasks| - 1];
    var before := SyncAll(init, h, wire);
    if m < |before.log| {
      SameMoment(before, SyncAll(tasks, h, wire), m);
      i := SyncAllRecords(init, h, wire, m);
    } else {
      i := |init|;
      SyncAllStored(init, h, wire);
      ConcludeRecords(last, Begin(last), before, wire, m);
    }
  }
}
