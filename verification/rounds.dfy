/** What processing a queued group comes to: which groups are reconciled at once, and which are first checked for
    deployments that vanished. */
module Rounds {
  import opened Spec
  import opened Deploy
  import opened Apis
  import opened Sync
  import opened Reconcile
  import opened Healing
  import opened Sets

  /** IsComputeGroupCreated takes a group without a status for a created one. */
  function Admitted(group: ComputeGroup): ComputeGroup {
    if group.status.status == "" then group.(status := group.status.(status := GROUP_CREATED)) else group
  }

  /** A created group is reconciled, any other is checked for vanished deployments first. */
  ghost function Processed(group: ComputeGroup, leaders: seq<string>, workers: seq<string>, h: History,
      wire: Wire): History
    requires group.spec.Complete() && Readable(leaders) && Readable(workers)
  {
    if Admitted(group).status.status == GROUP_CREATED then NewGroup(Admitted(group), h, wire)
    else Updated(Admitted(group), leaders, workers, h, wire)
  }

  predicate IsNew(group: ComputeGroup) {
    group.status.status == "" || group.status.status == "Created"
  }

  predicate HasRecord(group: ComputeGroup) {
    group.status.readyLeaders.Some? || group.status.readyWorkers.Some?
  }

  /** From the n-th call on: one lookup for each recorded key, then the write of the record. */
  ghost predicate ChecksFrom(log: seq<Moment>, n: nat, leaders: seq<string>, workers: seq<string>)
    requires Readable(leaders) && Readable(workers)
  {
    && LooksFrom(log, n, leaders) && LooksFrom(log, n + |leaders|, workers)
    && n + |leaders| + |workers| < |log| && log[n + |leaders| + |workers|].call.UpdateGroup?
  }

  /** A group that is new is reconciled as a created one; one with another status but nothing on record is reconciled as
      it is; one with a record is first looked up key by key, and the record is written before any sync. */
  lemma RecordsAreCheckedFirst(group: ComputeGroup, leaders: seq<string>, workers: seq<string>, h: History, wire: Wire)
    requires group.spec.Complete() && Readable(leaders) && Readable(workers)
    ensures var after, n := Processed(group, leaders, workers, h, wire), |h.log|;
      if IsNew(group) then after == NewGroup(group.(status := group.status.(status := "Created")), h, wire)
      else if !HasRecord(group) then after == NewGroup(group, h, wire)
      else
        && ChecksFrom(after.log, n, leaders, workers)
        && after.log[n + |leaders| + |workers|].call == StatusWrite(group, leaders, workers, h, wire)
  {
    if IsNew(group) {
      assert Admitted(group) == group.(status := group.status.(status := "Created"));
    } else if HasRecord(group) {
      WriteComesFirst(group, leaders, workers, h, wire);
    }
  }

  /** When calls succeed, the record so written has lost exactly the keys whose deployments are gone, is Pending exactly
      when there is one, and is otherwise the group's. */
  lemma RoundStrikesVanished(group: ComputeGroup, leaders: seq<string>, workers: seq<string>, h: History, wire: Wire)
    requires group.spec.Complete() && !IsNew(group) && HasRecord(group)
    requires InSomeOrder(group, leaders, workers) && Calm(wire, |h.log|)
    ensures var log, n := Processed(group, leaders, workers, h, wire).log, |h.log|;
      && ChecksFrom(log, n, leaders, workers)
      && var g := log[n + |leaders| + |workers|].call.group;
      && StrikesMissing(group.status.readyLeaders, g.status.readyLeaders, h.Now())
      && StrikesMissing(group.status.readyWorkers, g.status.readyWorkers, h.Now())
      && (if exists r :: (r in leaders || r in workers) && Missing(r, h.Now())
          then g.status.status == "Pending" else g.status.status == group.status.status)
      && g.(status := group.status) == group && g.status.serviceName == group.status.serviceName
  {
    RecordsAreCheckedFirst(group, leaders, workers, h, wire);
    WriteStrikesVanished(group, leaders, workers, h, wire);
  }

  /** The history the syncs of a round start from, and the group they work with. */
  ghost function SyncsStart(group: ComputeGroup, leaders: seq<string>, workers: seq<string>, h: History,
      wire: Wire): History
    requires Readable(leaders) && Readable(workers)
  {
    if IsNew(group) || !HasRecord(group) then h
    else
      var looked := Looked(workers, Looked(leaders, h, wire), wire);
      looked.Plus(StatusWrite(group, leaders, workers, h, wire), wire.fate(|looked.log|))
  }

  lemma RoundSyncs(group: ComputeGroup, leaders: seq<string>, workers: seq<string>, h: History, wire: Wire)
    requires group.spec.Complete() && Readable(leaders) && Readable(workers)
    ensures Processed(group, leaders, workers, h, wire) ==
            NewGroup(Admitted(group), SyncsStart(group, leaders, workers, h, wire), wire)
  {
  }

  lemma ChecksKeepDeployments(group: ComputeGroup, leaders: seq<string>, workers: seq<string>, h: History, wire: Wire)
    requires Readable(leaders) && Readable(workers)
    ensures SyncsStart(group, leaders, workers, h, wire).Now().deployments == h.Now().deployments
  {
  }

  lemma AdmittedKeepsNames(group: ComputeGroup)
    requires group.spec.HasSets()
    ensures NamesApart(Admitted(group)) <==> NamesApart(group)
    ensures forall i, n :: HasName(Admitted(group), i, n) <==> HasName(group, i, n)
  {
    assert forall i, n :: HasName(Admitted(group), i, n) <==> HasName(group, i, n);
  }

  /** When calls succeed, a round leaves every set of the spec deployed: what another owner holds, or has the replicas
      asked for, as it was, and anything else, what had vanished included, built for the set. */
  lemma RoundDeploys(group: ComputeGroup, leaders: seq<string>, workers: seq<string>, h: History, wire: Wire, i: nat,
                     n: string)
    requires group.spec.Complete() && HasKeys(group) && NamesApart(group) && Calm(wire, |h.log|)
    requires Readable(leaders) && Readable(workers) && HasName(group, i, n)
    ensures var k, spec := Key(group.namespace, n), SetAt(group.spec, i);
      var before, after := h.Now().deployments, Processed(group, leaders, workers, h, wire).Now().deployments;
      && k in after && spec.instance.Complete()
      && (if k in before && LeftAlone(group, spec, before[k]) then after[k] == before[k]
          else BuiltFor(group, spec, i == 0, n, after[k]))
  {
    var start, g := SyncsStart(group, leaders, workers, h, wire), Admitted(group);
    RoundSyncs(group, leaders, workers, h, wire);
    ChecksKeepDeployments(group, leaders, workers, h, wire);
    AdmittedKeepsNames(group);
    SetsAreDeployed(g, start, wire, i, n);
  }

  /** So a set whose key was on record, its deployment gone, has a deployment again. */
  lemma VanishedAreBuilt(group: ComputeGroup, leaders: seq<string>, workers: seq<string>, h: History, wire: Wire,
                         i: nat, n: string)
    requires group.spec.Complete() && HasKeys(group) && NamesApart(group) && Calm(wire, |h.log|)
    requires Readable(leaders) && Readable(workers) && HasName(group, i, n) && '/' !in group.namespace
    requires Missing(group.namespace + "/" + n, h.Now())
    ensures var after := Processed(group, leaders, workers, h, wire).Now();
      && SetAt(group.spec, i).instance.Complete() && Key(group.namespace, n) in after.deployments
      && BuiltFor(group, SetAt(group.spec, i), i == 0, n, after.deployments[Key(group.namespace, n)])
      && !Missing(group.namespace + "/" + n, after)
  {
    RoundDeploys(group, leaders, workers, h, wire, i, n);
    RecordStandsForDeployment(group.namespace, n, h.Now());
    RecordStandsForDeployment(group.namespace, n, Processed(group, leaders, workers, h, wire).Now());
  }

  lemma StartStored(group: ComputeGroup, leaders: seq<string>, workers: seq<string>, h: History, wire: Wire)
    requires Readable(leaders) && Readable(workers) && AllStored(h)
    ensures AllStored(SyncsStart(group, leaders, workers, h, wire))
  {
    LookedStored(leaders, h, wire);
    LookedStored(workers, Looked(leaders, h, wire), wire);
  }

  lemma {:induction false} LookedStored(records: seq<string>, h: History, wire: Wire)
    requires Readable(records) && AllStored(h)
    ensures AllStored(Looked(records, h, wire))
  {
    if records != [] {
      LookedStored(records[..|records| - 1], h, wire);
    }
  }

  /** And whatever becomes of the calls, the status writes of the syncs put their sets on record beside the whole record
      the group came with: vanished keys struck off before are back in them. */
  lemma SyncsWriteTheWholeRecord(group: ComputeGroup, leaders: seq<string>, workers: seq<string>, h: History,
                                 wire: Wire, m: nat)
    returns (i: nat, n: string)
    requires group.spec.Complete() && Readable(leaders) && Readable(workers) && AllStored(h)
    requires m < |Processed(group, leaders, workers, h, wire).log|
    requires Processed(group, leaders, workers, h, wire).log[m].call.UpdateGroup?
    requires m >= if IsNew(group) || !HasRecord(group) then |h.log| else |h.log| + |leaders| + |workers| + 1
    ensures HasName(group, i, n)
    ensures Records(Admitted(group), Processed(group, leaders, workers, h, wire).log[m].call.group,
                    group.namespace + "/" + n, i == 0)
  {
    RoundSyncs(group, leaders, workers, h, wire);
    StartStored(group, leaders, workers, h, wire);
    i, n := EveryWriteRecordsASet(Admitted(group), SyncsStart(group, leaders, workers, h, wire), wire, m);
    assert HasName(Admitted(group), i, n);
  }
}
