/** processUpdatedComputeGroup: it strikes vanished deployments off the group's record, then reconciles the group. */
module Healing {
  import opened Options
  import opened Spec
  import opened Text
  import opened Deploy
  import opened Naming
  import opened Apis
  import opened Sync
  import opened Reconcile
  import opened Pruning

  /** The deployment a recorded key stands for; a key without a slash makes the code panic. */
  function RecordKey(record: string): Key
    requires '/' in record
  {
    var parts := SplitN2(record, '/');
    Key(parts[0], parts[1])
  }

  ghost predicate Readable(records: seq<string>) {
    forall i :: 0 <= i < |records| ==> '/' in records[i]
  }

  function Recorded(states: Option<StateMap>): set<string> {
    if states.Some? then states.value.Keys else {}
  }

  /** Every key the group has on record has a slash. */
  ghost predicate RecordsReadable(group: ComputeGroup) {
    forall r :: r in Recorded(group.status.readyLeaders) + Recorded(group.status.readyWorkers) ==> '/' in r
  }

  /** The keys a group has on record, each once, in some order. */
  ghost predicate InSomeOrder(group: ComputeGroup, leaders: seq<string>, workers: seq<string>) {
    && Readable(leaders) && VisitsOnce(leaders, Recorded(group.status.readyLeaders))
    && Readable(workers) && VisitsOnce(workers, Recorded(group.status.readyWorkers))
  }

  /** One lookup for each recorded key. */
  ghost function Looked(records: seq<string>, h: History, wire: Wire): (r: History)
    requires Readable(records)
    ensures r.Continues(h) && |r.log| == |h.log| + |records| && r.Now() == h.Now()
  {
    if records == [] then h
    else
      var before := Looked(records[..|records| - 1], h, wire);
      before.Plus(GetDeployment(RecordKey(records[|records| - 1])), wire.fate(|before.log|))
  }

  /** The recorded keys that their lookups did not find. */
  ghost function Gone(records: seq<string>, h: History, wire: Wire): set<string>
    requires Readable(records)
  {
    if records == [] then {}
    else
      var init, last := records[..|records| - 1], records[|records| - 1];
      var before := Looked(init, h, wire);
      Gone(init, h, wire) + if RecordKey(last) in before.Ago(wire.lag(|before.log|)).deployments then {} else {last}
  }

  lemma LooksOnceMore(records: seq<string>, h: History, wire: Wire, r: string)
    requires Readable(records) && '/' in r
    ensures Readable(records + [r])
    ensures var before := Looked(records, h, wire);
      && Looked(records + [r], h, wire) == before.Plus(GetDeployment(RecordKey(r)), wire.fate(|before.log|))
      && Gone(records + [r], h, wire) == Gone(records, h, wire) +
           if RecordKey(r) in before.Ago(wire.lag(|before.log|)).deployments then {} else {r}
  {
    assert (records + [r])[..|records|] == records;
  }

  function Struck(states: Option<StateMap>, gone: set<string>): Option<StateMap> {
    if states.Some? then Some(states.value - gone) else None
  }

  lemma StrikesMore(states: StateMap, gone: set<string>, r: string)
    ensures states - gone - {r} == states - (gone + {r}) && states - {} == states
  {
  }

  /** The group with the vanished keys struck off its record, pending if there are any. */
  function Pruned(group: ComputeGroup, goneLeaders: set<string>, goneWorkers: set<string>): ComputeGroup {
    var s := group.status;
    group.(status := s.(
      status := if goneLeaders == {} && goneWorkers == {} then s.status else GROUP_PENDING,
      readyLeaders := Struck(s.readyLeaders, goneLeaders),
      readyWorkers := Struck(s.readyWorkers, goneWorkers)))
  }

  /** The status write that comes after the lookups. */
  ghost function StatusWrite(group: ComputeGroup, leaders: seq<string>, workers: seq<string>, h: History,
      wire: Wire): ApiCall
    requires Readable(leaders) && Readable(workers)
  {
    UpdateGroup(Pruned(group, Gone(leaders, h, wire), Gone(workers, Looked(leaders, h, wire), wire)))
  }

  /** processUpdatedComputeGroup, its recorded keys visited in the orders given. */
  ghost function Updated(group: ComputeGroup, leaders: seq<string>, workers: seq<string>, h: History,
      wire: Wire): (r: History)
    requires group.spec.Complete() && Readable(leaders) && Readable(workers)
    ensures r.Continues(h)
  {
    if group.status.readyLeaders.None? && group.status.readyWorkers.None? then NewGroup(group, h, wire)
    else
      var looked := Looked(workers, Looked(leaders, h, wire), wire);
      NewGroup(group, looked.Plus(StatusWrite(group, leaders, workers, h, wire), wire.fate(|looked.log|)), wire)
  }

  lemma {:induction false} OnlyLooks(records: seq<string>, h: History, wire: Wire, i: nat)
    requires Readable(records) && i < |records|
    ensures Looked(records, h, wire).log[|h.log| + i].call == GetDeployment(RecordKey(records[i]))
  {
    if i < |records| - 1 {
      OnlyLooks(records[..|records| - 1], h, wire, i);
    }
  }

  lemma InByLast(s: seq<string>)
    requires s != []
    ensures forall x :: x in s <==> x in s[..|s| - 1] || x == s[|s| - 1]
  {
    assert s == s[..|s| - 1] + [s[|s| - 1]];
  }

  /** When lookups are current, the keys gone are those without a deployment. */
  lemma {:induction false} GoneIsMissing(records: seq<string>, h: History, wire: Wire)
    requires Readable(records) && Calm(wire, |h.log|)
    ensures forall r :: r in Gone(records, h, wire) <==> r in records && RecordKey(r) !in h.Now().deployments
  {
    if records != [] {
      GoneIsMissing(records[..|records| - 1], h, wire);
      InByLast(records);
    }
  }

  ghost predicate Missing(record: string, api: Api) {
    '/' in record && RecordKey(record) !in api.deployments
  }

  /** From this record to that one, exactly the vanished keys were struck off. */
  ghost predicate StrikesMissing(states: Option<StateMap>, after: Option<StateMap>, api: Api) {
    && (after.Some? <==> states.Some?)
    && (states.Some? ==>
          forall r :: (r in after.value <==> r in states.value && !Missing(r, api))
                      && (r in after.value ==> after.value[r] == states.value[r]))
  }

  /** The status write drops exactly the vanished keys, sets Pending exactly when there is one, and keeps all else. */
  lemma WriteStrikesVanished(group: ComputeGroup, leaders: seq<string>, workers: seq<string>, h: History, wire: Wire)
    requires InSomeOrder(group, leaders, workers) && Calm(wire, |h.log|)
    ensures var g := StatusWrite(group, leaders, workers, h, wire).group;
      && StrikesMissing(group.status.readyLeaders, g.status.readyLeaders, h.Now())
      && StrikesMissing(group.status.readyWorkers, g.status.readyWorkers, h.Now())
      && (if exists r :: (r in leaders || r in workers) && Missing(r, h.Now())
          then g.status.status == GROUP_PENDING else g.status.status == group.status.status)
      && g.(status := group.status) == group && g.status.serviceName == group.status.serviceName
  {
    GoneIsMissing(leaders, h, wire);
    GoneIsMissing(workers, Looked(leaders, h, wire), wire);
    var goneLeaders, goneWorkers := Gone(leaders, h, wire), Gone(workers, Looked(leaders, h, wire), wire);
    assert forall r :: r in goneLeaders <==> r in leaders && Missing(r, h.Now());
    assert forall r :: r in goneWorkers <==> r in workers && Missing(r, h.Now());
    if goneLeaders == {} && goneWorkers == {} {
      assert !exists r :: (r in leaders || r in workers) && Missing(r, h.Now());
    } else {
      var r :| r in goneLeaders || r in goneWorkers;
      assert (r in leaders || r in workers) && Missing(r, h.Now());
    }
  }

  ghost predicate SetKey(group: ComputeGroup, i: int, record: string)
    requires group.spec.Complete()
  {
    0 <= i < |TasksOf(group)| && record == SlashKey(group.namespace, TasksOf(group)[i].name)
  }

  /** Every recorded key is the key of one of the group's sets. */
  ghost predicate RecordsSets(records: seq<string>, group: ComputeGroup): (all: bool)
    requires group.spec.Complete()
    ensures all ==> Readable(records)
  {
    SetKeysAreReadable(records, group);
    '/' !in group.namespace && forall r :: r in records ==> exists i :: SetKey(group, i, r)
  }

  lemma SetKeysAreReadable(records: seq<string>, group: ComputeGroup)
    requires group.spec.Complete()
    ensures (forall r :: r in records ==> exists i :: SetKey(group, i, r)) ==> Readable(records)
  {
    if forall r :: r in records ==> exists i :: SetKey(group, i, r) {
      forall n | 0 <= n < |records|
        ensures '/' in records[n]
      {
        assert records[n] in records;
        var i :| SetKey(group, i, records[n]);
        assert records[n][|group.namespace|] == '/';
      }
    }
  }

  lemma RecordSplits(group: ComputeGroup, i: int, record: string)
    requires group.spec.Complete() && '/' !in group.namespace && SetKey(group, i, record)
    ensures '/' in record && RecordKey(record) == TasksOf(group)[i].DeploymentKey()
  {
    SlashKeySplits(group.namespace, TasksOf(group)[i].name);
    assert record[|group.namespace|] == '/';
  }

  /** Every recorded deployment that had vanished is there again, in place; of those that had not, all but another
      owner's are in place as well. */
  lemma VanishedAreHealed(group: ComputeGroup, leaders: seq<string>, workers: seq<string>, h: History, wire: Wire,
      record: string)
    returns (i: nat)
    requires group.spec.Complete() && HasKeys(group) && DistinctNames(TasksOf(group)) && Calm(wire, |h.log|)
    requires RecordsSets(leaders, group) && RecordsSets(workers, group)
    requires record in leaders || record in workers
    ensures SetKey(group, i, record) && '/' in record && RecordKey(record) == TasksOf(group)[i].DeploymentKey()
    ensures var after := Updated(group, leaders, workers, h, wire).Now();
      && (Missing(record, h.Now()) ==> InPlace(TasksOf(group)[i], after))
      && (InPlace(TasksOf(group)[i], after) <==> Free(TasksOf(group)[i], h.Now()))
  {
    i :| SetKey(group, i, record);
    RecordSplits(group, i, record);
    UpdatedSettles(group, leaders, workers, h, wire, i);
  }

  lemma UpdatedSettles(group: ComputeGroup, leaders: seq<string>, workers: seq<string>, h: History, wire: Wire, i: nat)
    requires group.spec.Complete() && HasKeys(group) && DistinctNames(TasksOf(group)) && Calm(wire, |h.log|)
    requires Readable(leaders) && Readable(workers) && i < |TasksOf(group)|
    ensures InPlace(TasksOf(group)[i], Updated(group, leaders, workers, h, wire).Now()) <==>
        Free(TasksOf(group)[i], h.Now())
  {
    if group.status.readyLeaders.None? && group.status.readyWorkers.None? {
      NewGroupExact(group, h, wire);
    } else {
      var looked := Looked(workers, Looked(leaders, h, wire), wire);
      var written := looked.Plus(StatusWrite(group, leaders, workers, h, wire), wire.fate(|looked.log|));
      assert written.Now().deployments == h.Now().deployments;
      NewGroupExact(group, written, wire);
    }
  }

  /** The write of the pruned record, if it changes anything, is the last word on the record: the syncs that follow
      start from the unpruned group, whose version it has replaced, so what they heal is not put on record again. */
  lemma PrunedRecordStands(group: ComputeGroup, leaders: seq<string>, workers: seq<string>, h: History, wire: Wire)
    requires group.spec.Complete() && HasKeys(group) && DistinctNames(TasksOf(group)) && Calm(wire, |h.log|)
    requires Readable(leaders) && Readable(workers)
    requires group.status.readyLeaders.Some? || group.status.readyWorkers.Some?
    requires GroupKey(group) in h.Now().groups && h.Now().groups[GroupKey(group)].version == group.version
    requires StatusWrite(group, leaders, workers, h, wire).group != h.Now().groups[GroupKey(group)]
    ensures Slot(Updated(group, leaders, workers, h, wire).Now().groups, GroupKey(group)) ==
              Some(Written(h.Now().groups[GroupKey(group)], StatusWrite(group, leaders, workers, h, wire).group))
  {
    var looked := Looked(workers, Looked(leaders, h, wire), wire);
    var write := StatusWrite(group, leaders, workers, h, wire);
    LastWrite(group, looked, write.group, wire);
  }

  /** A write of the group's record that changes something, with the group's syncs after it. */
  lemma LastWrite(group: ComputeGroup, h: History, g: ComputeGroup, wire: Wire)
    requires group.spec.Complete() && HasKeys(group) && DistinctNames(TasksOf(group)) && Calm(wire, |h.log|)
    requires GroupKey(g) == GroupKey(group) && g.version == group.version
    requires GroupKey(g) in h.Now().groups && h.Now().groups[GroupKey(g)].version == g.version
    requires g != h.Now().groups[GroupKey(g)]
    ensures var written := h.Plus(UpdateGroup(g), wire.fate(|h.log|));
      Slot(NewGroup(group, written, wire).Now().groups, GroupKey(group)) ==
        Some(Written(h.Now().groups[GroupKey(group)], g))
  {
    ChangingWrite(h, g, wire);
    StaleSnapshotWritesNothing(group, h.Plus(UpdateGroup(g), wire.fate(|h.log|)), wire);
  }

  lemma ChangingWrite(h: History, g: ComputeGroup, wire: Wire)
    requires Calm(wire, |h.log|) && GroupKey(g) in h.Now().groups && h.Now().groups[GroupKey(g)].version == g.version
    requires g != h.Now().groups[GroupKey(g)]
    ensures var written := Written(h.Now().groups[GroupKey(g)], g);
      && Slot(h.Plus(UpdateGroup(g), wire.fate(|h.log|)).Now().groups, GroupKey(g)) == Some(written)
      && written.version != g.version
  {
  }

  /** From the n-th call on, one lookup for each of these recorded keys. */
  ghost predicate LooksFrom(log: seq<Moment>, n: nat, records: seq<string>)
    requires Readable(records)
  {
    && n + |records| <= |log|
    && forall i :: n <= i < n + |records| ==> log[i].call == GetDeployment(RecordKey(records[i - n]))
  }

  /** The calls before the syncs: one lookup for each recorded key, then the status write. */
  lemma WriteComesFirst(group: ComputeGroup, leaders: seq<string>, workers: seq<string>, h: History, wire: Wire)
    requires group.spec.Complete() && Readable(leaders) && Readable(workers)
    requires group.status.readyLeaders.Some? || group.status.readyWorkers.Some?
    ensures var log, n, m := Updated(group, leaders, workers, h, wire).log, |h.log|, |h.log| + |leaders|;
      && LooksFrom(log, n, leaders) && LooksFrom(log, m, workers) && m + |workers| < |log|
      && log[m + |workers|].call == StatusWrite(group, leaders, workers, h, wire)
  {
    LooksThenWrites(Looked(workers, Looked(leaders, h, wire), wire), StatusWrite(group, leaders, workers, h, wire),
        group, wire);
    BothLookedUp(leaders, workers, h, wire, Updated(group, leaders, workers, h, wire));
  }

  lemma BothLookedUp(leaders: seq<string>, workers: seq<string>, h: History, wire: Wire, later: History)
    requires Readable(leaders) && Readable(workers)
    requires later.Continues(Looked(workers, Looked(leaders, h, wire), wire))
    ensures LooksFrom(later.log, |h.log|, leaders) && LooksFrom(later.log, |h.log| + |leaders|, workers)
  {
    var first := Looked(leaders, h, wire);
    LooksStay(workers, first, wire, later);
    Later(first, Looked(workers, first, wire), later);
    LooksStay(leaders, h, wire, later);
  }

  lemma LooksThenWrites(looked: History, write: ApiCall, group: ComputeGroup, wire: Wire)
    requires group.spec.Complete()
    ensures var all := NewGroup(group, looked.Plus(write, wire.fate(|looked.log|)), wire);
      all.Continues(looked) && |looked.log| < |all.log| && all.log[|looked.log|].call == write
  {
    var written := looked.Plus(write, wire.fate(|looked.log|));
    SameMoment(written, NewGroup(group, written, wire), |looked.log|);
    Later(looked, written, NewGroup(group, written, wire));
  }

  lemma LooksStay(records: seq<string>, h: History, wire: Wire, later: History)
    requires Readable(records) && later.Continues(Looked(records, h, wire))
    ensures LooksFrom(later.log, |h.log|, records)
  {
    var looked := Looked(records, h, wire);
    forall i | |h.log| <= i < |h.log| + |records|
      ensures later.log[i].call == GetDeployment(RecordKey(records[i - |h.log|]))
    {
      OnlyLooks(records, h, wire, i - |h.log|);
      SameMoment(looked, later, i);
    }
  }
}
