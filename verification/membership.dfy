/** The registration protocol over whole runs: pod events change the store and are handled one after the other. */
module Membership {
  import opened Options
  import opened Spec
  import opened Pods
  import opened Deploy
  import opened Nodes
  import opened Stores
  import opened Traces
  import opened LeaderPass
  import opened Sending

  /** What the informer reports, or a snapshot that comes off the queue again after its handling failed. */
  datatype Event =
    | Upsert(pod: Pod)
    | Delete(key: string, tombstone: bool)
    | Retry(pod: Pod)

  datatype World = World(store: Store, lists: Lists)

  function StoreAfter(store: Store, e: Event): Store {
    match e
    case Upsert(pod) => store[pod.Key() := pod]
    case Delete(key, _) => store - {key}
    case Retry(_) => store
  }

  /** The snapshot the event leaves on the queue: a deleted pod's last one, unless the informer only has a tombstone. */
  function Snapshot(store: Store, e: Event): Option<Pod> {
    match e
    case Upsert(pod) => Some(pod)
    case Delete(key, tombstone) => if tombstone then None else Lookup(store, key)
    case Retry(pod) => Some(pod)
  }

  /** Where a leader's list lives. */
  function Home(leader: Pod): string {
    if Receiver(leader).Some? then Receiver(leader).value else ""
  }

  /** The pods the informer selects carry both labels; the operator made them, so their environments can be read;
      leaders that are ready have servers of their own. */
  ghost predicate Orderly(w: World) {
    && Keyed(w.store)
    && (forall k :: k in w.store ==> GROUP_LABEL in w.store[k].labels && Codable(w.store[k]))
    && (forall k :: k in ReadyLeaders(w.store) ==> Home(w.store[k]) in w.lists)
    && (forall j, k {:trigger Home(w.store[j]), Home(w.store[k])} ::
          j in ReadyLeaders(w.store) && k in ReadyLeaders(w.store) && j != k ==> Home(w.store[j]) != Home(w.store[k]))
  }

  /** A pod of this key, if there is one, has the same role. */
  predicate KeepsRole(store: Store, pod: Pod) {
    pod.Key() in store ==>
      store[pod.Key()].IsLeader() == pod.IsLeader() && store[pod.Key()].IsFollower() == pod.IsFollower()
  }

  /** No other ready leader lives where this one does. */
  ghost predicate LivesAlone(store: Store, leader: Pod) {
    forall k :: k in ReadyLeaders(store) && Home(store[k]) == Home(leader) ==> k == leader.Key()
  }

  /** A pod keeps its role, and what is deleted was there; addresses may come and change as they like, but a retried
      leader's is not another's by then. A retried snapshot may be as old as it likes, its pod gone or changed. */
  ghost predicate Permitted(w: World, e: Event) {
    && Orderly(World(StoreAfter(w.store, e), w.lists))
    && match e
       case Upsert(pod) => KeepsRole(w.store, pod)
       case Delete(key, _) => key in w.store
       case Retry(pod) =>
         && KeepsRole(w.store, pod) && GROUP_LABEL in pod.labels && Codable(pod)
         && (pod.IsLeader() && pod.ready ==> LivesAlone(w.store, pod))
  }

  /** Every request to a leader of the store that is ready was answered. */
  ghost predicate LeadersAnswer(t: seq<Request>, store: Store) {
    forall i :: 0 <= i < |t| && t[i].to in LeaderAddresses(store) ==> t[i].fate.Delivered?
  }

  /** The event happens and its snapshot is handled before anything else changes. The leaders that are ready by then
      answer; requests to anybody else, such as a leader just deleted, may be lost. */
  ghost predicate Step(w: World, e: Event, t: seq<Request>, p: PassLog, w': World) {
    && w' == World(StoreAfter(w.store, e), Replay(w.lists, t))
    && LeadersAnswer(t, w'.store)
    && match Snapshot(w.store, e)
       case None => t == []
       case Some(pod) =>
         && (exists ok :: Handled(pod, w'.store, t, p, ok))
         && (pod.IsLeader() && pod.ready && Home(pod) in LeaderAddresses(w'.store) ==>
               Settled(p) && p.store == w'.store && ReadFrom(p, pod, w.lists))
  }

  lemma SnapshotIsOrderly(w: World, e: Event, pod: Pod)
    requires Orderly(w) && Permitted(w, e) && Snapshot(w.store, e) == Some(pod)
    ensures GROUP_LABEL in pod.labels && Codable(pod)
  {
    assert e.Retry? || Lookup(if e.Upsert? then StoreAfter(w.store, e) else w.store, pod.Key()) == Some(pod);
  }

  /** A pod handled by the controller while nothing else changes, the ready leaders answering, is such a step: here t, p
      and ok are what processing it sends, logs and answers, its store reads counted from the given clock. */
  lemma ProcessingIsAStep(w: World, e: Event, pod: Pod, view: nat -> Store, clock: nat, t: seq<Request>, p: PassLog,
      ok: bool)
    requires Orderly(w) && Permitted(w, e) && Snapshot(w.store, e) == Some(pod)
    requires forall n :: clock <= n ==> view(n) == StoreAfter(w.store, e)
    requires Handled(pod, view(clock), t, p, ok) && LeadersAnswer(t, StoreAfter(w.store, e))
    requires pod.ready && pod.IsLeader() ==>
      PassReads(p, if Home(pod) in w.lists then w.lists[Home(pod)] else [], view, clock)
    ensures Step(w, e, t, p, World(StoreAfter(w.store, e), Replay(w.lists, t)))
  {
    assert view(clock) == StoreAfter(w.store, e);
    SnapshotIsOrderly(w, e, pod);
    if pod.ready && pod.IsLeader() && Home(pod) in LeaderAddresses(StoreAfter(w.store, e)) {
      assert Receiver(pod).Some? && Home(pod) in w.lists;
    }
  }

  /** The pod under this key, if it is a ready leader, lists exactly the ready followers and itself. */
  ghost predicate ListsDesired(w: World, k: string) {
    k in ReadyLeaders(w.store) ==> NamesAt(w.lists, Home(w.store[k])) == Desired(w.store, w.store[k])
  }

  /** Every ready leader does. */
  ghost predicate Synced(w: World) {
    forall k :: k in ReadyLeaders(w.store) ==> ListsDesired(w, k)
  }

  /** A full pass over the pod under this key follows, if it is a ready leader: it is reported by the informer, or
      retried from a snapshot with the address it still has. */
  predicate Reports(store: Store, e: Event, k: string) {
    match e
    case Upsert(pod) => pod.Key() == k
    case Delete(_, _) => false
    case Retry(pod) =>
      pod.IsLeader() && pod.ready && pod.Key() == k && k in store && Home(pod) == Home(store[k])
  }

  /** Answered by all ready leaders, a fan-out gets to each of them. */
  lemma FanOutArrives(lists: Lists, store: Store, update: Update, pod: Pod, t: seq<Request>, ok: bool, k: string)
    returns (i: nat)
    requires Orderly(World(store, lists)) && GROUP_LABEL in pod.labels && Codable(pod)
    requires FanOut(t, update, pod, store, ok) && LeadersAnswer(t, store) && k in ReadyLeaders(store)
    ensures i < |t| && t[i].to == Home(store[k]) && AllDelivered(t)
  {
    assert LeadersReachable(store);
    var leaders :| InTurn(t, store, leaders) && (ok ==> forall k :: k in ReadyLeaders(store) ==> k in leaders);
    forall i | 0 <= i < |t|
      ensures t[i].fate.Delivered?
    {
      assert leaders[i] in ReadyLeaders(store) && Receiver(store[leaders[i]]) == Some(t[i].to);
    }
    i :| 0 <= i < |leaders| && leaders[i] == k;
  }

  lemma FanOutReachesLeaders(lists: Lists, store: Store, update: Update, pod: Pod, t: seq<Request>, ok: bool, k: string)
    requires Orderly(World(store, lists)) && k in ReadyLeaders(store)
    requires GROUP_LABEL in pod.labels && Codable(pod)
    requires FanOut(t, update, pod, store, ok) && LeadersAnswer(t, store)
    ensures NamesAt(Replay(lists, t), Home(store[k])) ==
            if update.Adding? then NamesAt(lists, Home(store[k])) + {pod.Key()}
            else NamesAt(lists, Home(store[k])) - {pod.Key()}
  {
    var to, name := Home(store[k]), pod.Key();
    var i := FanOutArrives(lists, store, update, pod, t, ok, k);
    forall n
      ensures n in NamesAt(Replay(lists, t), to) <==>
              if n == name then update.Adding? else n in NamesAt(lists, to)
    {
      NameAfter(lists, t, to, n);
    }
  }

  /** A pass addresses its leader only. */
  lemma PassAddresses(p: PassLog, leader: Pod, ok: bool)
    requires Pass(p, leader, ok)
    ensures forall i :: 0 <= i < |p.Trace()| ==> p.Trace()[i].to == Home(leader)
  {
    if GROUP_LABEL in leader.labels {
      FirstPartCalls(p.first, leader, p.list, p.found, p.existed);
    }
  }

  lemma PassReachesLeader(lists: Lists, p: PassLog, leader: Pod, ok: bool)
    requires Orderly(World(p.store, lists)) && GROUP_LABEL in leader.labels && Codable(leader)
    requires Pass(p, leader, ok) && Settled(p) && ReadFrom(p, leader, lists) && AllDelivered(p.Trace())
    ensures NamesAt(Replay(lists, p.Trace()), Home(leader)) == Desired(p.store, leader)
  {
    SettledNames(p);
    DeliveredAppend(p.first, p.updates);
    assert AllCodable(p, leader);
    PassLinearises(p, leader, ok, lists);
  }

  ghost predicate DeletesReadyFollower(store: Store, e: Event) {
    e.Delete? && e.key in ReadyFollowers(store)
  }

  /** The handling says of a follower what is not so: one is deleted while it is ready, and its last snapshot announces
      it again or a tombstone says nothing; or a snapshot is retried whose readiness is not the pod's any more. */
  ghost predicate Misleads(store: Store, e: Event) {
    || DeletesReadyFollower(store, e)
    || (e.Retry? && e.pod.IsFollower() && e.pod.ready != (e.pod.Key() in ReadyFollowers(store)))
  }

  /** What becomes of the names a leader should list. */
  ghost function Left(store: Store, e: Event, desired: set<string>): set<string> {
    if DeletesReadyFollower(store, e) then desired + {e.key}
    else if e.Retry? && e.pod.IsFollower() then
      if e.pod.ready then desired + {e.pod.Key()} else desired - {e.pod.Key()}
    else desired
  }

  lemma LeftIffMisleads(w: World, e: Event, k: string)
    requires Orderly(w) && Permitted(w, e) && k in ReadyLeaders(StoreAfter(w.store, e))
    ensures var after := StoreAfter(w.store, e);
      Left(w.store, e, Desired(after, after[k])) == Desired(after, after[k]) <==> !Misleads(w.store, e)
  {
    FollowersAfter(w.store, e);
    var after := StoreAfter(w.store, e);
    var desired := Desired(after, after[k]);
    if DeletesReadyFollower(w.store, e) {
      assert e.key !in desired && e.key in Left(w.store, e, desired);
    } else if Misleads(w.store, e) {
      assert e.pod.Key() != k;
      assert e.pod.Key() in desired <==> !e.pod.ready;
      assert e.pod.Key() in Left(w.store, e, desired) <==> e.pod.ready;
    }
  }

  /** One step from a synced world ends in a synced one, except when it misleads while some leader is ready: every ready
      leader then lists a deleted follower, or lacks a ready one. */
  lemma StepSyncedIff(w: World, e: Event, t: seq<Request>, p: PassLog, w': World)
    requires Orderly(w) && Permitted(w, e) && Step(w, e, t, p, w') && Synced(w)
    ensures Synced(w') <==> !(Misleads(w.store, e) && ReadyLeaders(w'.store) != {})
  {
    forall k | k in ReadyLeaders(w'.store)
      ensures ListsDesired(w', k) <==> !Misleads(w.store, e)
    {
      if !Reports(w.store, e, k) {
        LeaderWasThere(w.store, e, k);
      }
      LeaderRightIff(w, e, t, p, w', k);
    }
  }

  /** The same leader by leader, from any state: a leader whose list is right, or whose ready pod the event reports,
      ends with the right list if and only if the event does not mislead. */
  lemma LeaderRightIff(w: World, e: Event, t: seq<Request>, p: PassLog, w': World, k: string)
    requires Orderly(w) && Permitted(w, e) && Step(w, e, t, p, w')
    requires k in ReadyLeaders(w'.store) && (Reports(w.store, e, k) || ListsDesired(w, k))
    ensures ListsDesired(w', k) <==> !Misleads(w.store, e)
  {
    StepReachesLeader(w, e, t, p, w', k);
    LeftIffMisleads(w, e, k);
  }

  lemma FollowersAfter(store: Store, e: Event)
    requires Keyed(store)
    ensures ReadyFollowers(StoreAfter(store, e)) ==
      match e
      case Upsert(pod) =>
        if pod.ready && pod.IsFollower() then ReadyFollowers(store) + {pod.Key()}
        else ReadyFollowers(store) - {pod.Key()}
      case Delete(key, _) => ReadyFollowers(store) - {key}
      case Retry(_) => ReadyFollowers(store)
  {
  }

  /** A ready leader that the event did not report was there before. */
  lemma LeaderWasThere(store: Store, e: Event, k: string)
    requires k in ReadyLeaders(StoreAfter(store, e)) && !(e.Upsert? && e.pod.Key() == k)
    ensures k in ReadyLeaders(store) && store[k] == StoreAfter(store, e)[k]
  {
  }

  lemma FollowersStand(w: World, e: Event)
    requires Orderly(w) && Permitted(w, e)
    requires Snapshot(w.store, e).None? || !Snapshot(w.store, e).value.IsFollower()
    ensures Left(w.store, e, ReadyFollowers(StoreAfter(w.store, e))) == ReadyFollowers(w.store)
  {
    FollowersAfter(w.store, e);
  }

  /** What becomes of the followers becomes of the names of a leader that the event is not about. */
  lemma LeftWithLeader(store: Store, e: Event, followers: set<string>, k: string)
    requires e.Retry? && e.pod.IsFollower() ==> e.pod.Key() != k
    ensures Left(store, e, followers + {k}) == Left(store, e, followers) + {k}
  {
  }

  /** An event about no follower, or one without a snapshot, leaves a right list in need of no request. */
  lemma RolesLeave(w: World, e: Event, k: string)
    requires Orderly(w) && Permitted(w, e) && k in ReadyLeaders(StoreAfter(w.store, e)) && ListsDesired(w, k)
    requires Snapshot(w.store, e).None? || !Snapshot(w.store, e).value.IsFollower()
    requires !(e.Upsert? && e.pod.Key() == k)
    ensures var after := StoreAfter(w.store, e);
      NamesAt(w.lists, Home(after[k])) == Left(w.store, e, Desired(after, after[k]))
  {
    FollowersStand(w, e);
    LeftWithLeader(w.store, e, ReadyFollowers(StoreAfter(w.store, e)), k);
    LeaderWasThere(w.store, e, k);
  }

  lemma StepReachesLeader(w: World, e: Event, t: seq<Request>, p: PassLog, w': World, k: string)
    requires Orderly(w) && Permitted(w, e) && Step(w, e, t, p, w')
    requires k in ReadyLeaders(w'.store) && (Reports(w.store, e, k) || ListsDesired(w, k))
    ensures NamesAt(w'.lists, Home(w'.store[k])) == Left(w.store, e, Desired(w'.store, w'.store[k]))
  {
    var snapshot := Snapshot(w.store, e);
    if snapshot.None? {
      RolesLeave(w, e, k);
    } else {
      var pod := snapshot.value;
      var ok :| Handled(pod, w'.store, t, p, ok);
      if pod.IsLeader() && pod.ready {
        LeaderStep(w, e, t, p, w', pod, ok, k);
      } else if pod.IsFollower() {
        FollowerEvent(w, e, t, p, w', pod, ok, k);
      } else {
        RolesLeave(w, e, k);
      }
    }
  }

  lemma FollowerEvent(w: World, e: Event, t: seq<Request>, p: PassLog, w': World, pod: Pod, ok: bool, k: string)
    requires Orderly(w) && Permitted(w, e) && Step(w, e, t, p, w')
    requires k in ReadyLeaders(w'.store) && (Reports(w.store, e, k) || ListsDesired(w, k))
    requires Snapshot(w.store, e) == Some(pod) && pod.IsFollower() && Handled(pod, w'.store, t, p, ok)
    ensures NamesAt(w'.lists, Home(w'.store[k])) == Left(w.store, e, Desired(w'.store, w'.store[k]))
  {
    SnapshotIsOrderly(w, e, pod);
    LeaderWasThere(w.store, e, k);
    FanOutReachesLeaders(w.lists, w'.store, if pod.ready then Adding else Removing, pod, t, ok, k);
    FollowerNames(w.store, e, pod, k);
  }

  /** What the fan-out does to the names a synced leader lists is what the event does to the names it should list. */
  lemma FollowerNames(store: Store, e: Event, pod: Pod, k: string)
    requires Keyed(store) && Snapshot(store, e) == Some(pod) && pod.IsFollower() && pod.Key() != k
    ensures (if pod.ready then ReadyFollowers(store) + {k} + {pod.Key()}
             else ReadyFollowers(store) + {k} - {pod.Key()}) ==
            Left(store, e, ReadyFollowers(StoreAfter(store, e)) + {k})
  {
    FollowersAfter(store, e);
  }

  lemma LeaderStep(w: World, e: Event, t: seq<Request>, p: PassLog, w': World, pod: Pod, ok: bool, k: string)
    requires Orderly(w) && Permitted(w, e) && Step(w, e, t, p, w')
    requires k in ReadyLeaders(w'.store) && (Reports(w.store, e, k) || ListsDesired(w, k))
    requires Snapshot(w.store, e) == Some(pod) && pod.IsLeader() && pod.ready && Handled(pod, w'.store, t, p, ok)
    ensures NamesAt(w'.lists, Home(w'.store[k])) == Left(w.store, e, Desired(w'.store, w'.store[k]))
  {
    PassAddresses(p, pod, ok);
    if Home(pod) == Home(w'.store[k]) {
      SnapshotIsOrderly(w, e, pod);
      HomeTellsLeader(w, e, pod, k);
      PassReachesLeader(w.lists, p, pod, ok);
    } else {
      LeaderElsewhere(w, e, p, pod, k);
    }
  }

  /** A leader handled at the address of a ready one is that one. */
  lemma HomeTellsLeader(w: World, e: Event, pod: Pod, k: string)
    requires Orderly(w) && Permitted(w, e) && Snapshot(w.store, e) == Some(pod) && pod.IsLeader() && pod.ready
    requires k in ReadyLeaders(StoreAfter(w.store, e)) && Home(pod) == Home(StoreAfter(w.store, e)[k])
    ensures pod.Key() == k && !e.Delete? && Home(pod) in LeaderAddresses(StoreAfter(w.store, e))
  {
    var after := StoreAfter(w.store, e);
    assert Receiver(after[k]).Some?;
    if e.Delete? {
      LeaderWasThere(w.store, e, k);
    } else if e.Upsert? {
      assert pod.Key() in ReadyLeaders(after) && after[pod.Key()] == pod;
    }
  }

  /** The pass over a leader that lives elsewhere changes nothing here, nor does the event. */
  lemma LeaderElsewhere(w: World, e: Event, p: PassLog, pod: Pod, k: string)
    requires Orderly(w) && Permitted(w, e) && Snapshot(w.store, e) == Some(pod) && pod.IsLeader() && pod.ready
    requires k in ReadyLeaders(StoreAfter(w.store, e)) && (Reports(w.store, e, k) || ListsDesired(w, k))
    requires Home(pod) != Home(StoreAfter(w.store, e)[k])
    requires forall i :: 0 <= i < |p.Trace()| ==> p.Trace()[i].to == Home(pod)
    ensures var after := StoreAfter(w.store, e);
      NamesAt(Replay(w.lists, p.Trace()), Home(after[k])) == Left(w.store, e, Desired(after, after[k]))
  {
    RolesLeave(w, e, k);
    Untouched(w.lists, p.Trace(), Home(StoreAfter(w.store, e)[k]));
  }

  /** Both exceptions happen. A leader and a follower deployed for any group and spec, synced, and the follower deleted
      while it is ready: its last snapshot is handled as a ready worker, and the leader still lists it. */
  lemma DeletedReadyFollowerStays(group: ComputeGroup, spec: SetSpec)
    returns (w: World, e: Event, t: seq<Request>, p: PassLog, w': World)
    requires spec.instance.Complete()
    ensures Orderly(w) && Synced(w) && Permitted(w, e) && Step(w, e, t, p, w')
    ensures DeletesReadyFollower(w.store, e) && ReadyLeaders(w'.store) != {} && !Synced(w')
    ensures forall k :: k in w.store ==> w.store[k].container == MakeContainer(spec.instance)
  {
    var leader, follower := MadePair(group, spec);
    e, t, p, w, w' := DeletionFor(leader, follower);
  }

  /** A leader alone and synced, and a snapshot of a follower that is gone, retried: the leader lists it. */
  lemma OutdatedRetryStays(group: ComputeGroup, spec: SetSpec)
    returns (w: World, e: Event, t: seq<Request>, p: PassLog, w': World)
    requires spec.instance.Complete()
    ensures Orderly(w) && Synced(w) && Permitted(w, e) && Step(w, e, t, p, w')
    ensures e.Retry? && e.pod.Key() !in w.store && ReadyLeaders(w'.store) != {} && !Synced(w')
    ensures e.pod.container == MakeContainer(spec.instance)
  {
    var leader, follower := MadePair(group, spec);
    e, t, p, w, w' := RetryFor(leader, follower);
  }

  /** Pods the reconciler deploys for a leader set and a worker set of a group. */
  lemma MadePair(group: ComputeGroup, spec: SetSpec) returns (leader: Pod, follower: Pod)
    requires spec.instance.Complete()
    ensures leader.ready && leader.IsLeader() && Codable(leader) && GROUP_LABEL in leader.labels
    ensures follower.ready && follower.IsFollower() && Codable(follower) && GROUP_LABEL in follower.labels
    ensures leader.Key() != follower.Key()
    ensures leader.container == follower.container == MakeContainer(spec.instance)
  {
    var leaders, workers := Task(group, spec, "l", true), Task(group, spec, "w", false);
    leader := PodOf(leaders.Wanted(), "l", "1.1.1.1", true);
    follower := PodOf(workers.Wanted(), "w", "1.1.1.2", true);
    WantedRegisters(leaders, "l", "1.1.1.1", true);
    WantedRegisters(workers, "w", "1.1.1.2", true);
    assert leader.Key()[|group.namespace| + 1] == 'l' && follower.Key()[|group.namespace| + 1] == 'w';
  }

  /** A ready leader and a ready follower, registered as they should be. */
  function SyncedPair(leader: Pod, follower: Pod): World
    requires Codable(leader) && Codable(follower)
  {
    World(map[leader.Key() := leader, follower.Key() := follower],
          map[Home(leader) := [NodeOf(leader).value, NodeOf(follower).value]])
  }

  lemma SyncedPairIsSynced(leader: Pod, follower: Pod)
    requires leader.ready && leader.IsLeader() && Codable(leader) && GROUP_LABEL in leader.labels
    requires follower.ready && follower.IsFollower() && Codable(follower) && GROUP_LABEL in follower.labels
    requires leader.Key() != follower.Key()
    ensures Orderly(SyncedPair(leader, follower)) && Synced(SyncedPair(leader, follower))
    ensures ReadyFollowers(SyncedPair(leader, follower).store) == {follower.Key()}
  {
    var w := SyncedPair(leader, follower);
    PairRoles(leader, follower);
    PairNames(leader, follower);
    assert Desired(w.store, leader) == {leader.Key(), follower.Key()};
  }

  lemma PairRoles(leader: Pod, follower: Pod)
    requires leader.ready && leader.IsLeader() && Codable(leader)
    requires follower.ready && follower.IsFollower() && Codable(follower) && leader.Key() != follower.Key()
    ensures ReadyFollowers(SyncedPair(leader, follower).store) == {follower.Key()}
    ensures ReadyLeaders(SyncedPair(leader, follower).store) == {leader.Key()}
  {
  }

  lemma PairNames(leader: Pod, follower: Pod)
    requires Codable(leader) && Codable(follower)
    ensures NamesAt(SyncedPair(leader, follower).lists, Home(leader)) == {leader.Key(), follower.Key()}
  {
    var list := SyncedPair(leader, follower).lists[Home(leader)];
    assert list[0].name == leader.Key() && list[1].name == follower.Key();
  }

  lemma DeletionFor(leader: Pod, follower: Pod)
    returns (e: Event, t: seq<Request>, p: PassLog, w: World, w': World)
    requires leader.ready && leader.IsLeader() && Codable(leader) && GROUP_LABEL in leader.labels
    requires follower.ready && follower.IsFollower() && Codable(follower) && GROUP_LABEL in follower.labels
    requires leader.Key() != follower.Key()
    ensures Orderly(w) && Synced(w) && Permitted(w, e) && Step(w, e, t, p, w')
    ensures DeletesReadyFollower(w.store, e) && ReadyLeaders(w'.store) != {} && !Synced(w')
    ensures w == SyncedPair(leader, follower)
  {
    SyncedPairIsSynced(leader, follower);
    w := SyncedPair(leader, follower);
    e := Delete(follower.Key(), false);
    assert StoreAfter(w.store, e) == map[leader.Key() := leader];
    t, p, w' := AnnouncedToOne(leader, follower, w, e);
    StepSyncedIff(w, e, t, p, w');
  }

  lemma RetryFor(leader: Pod, follower: Pod)
    returns (e: Event, t: seq<Request>, p: PassLog, w: World, w': World)
    requires leader.ready && leader.IsLeader() && Codable(leader) && GROUP_LABEL in leader.labels
    requires follower.ready && follower.IsFollower() && Codable(follower) && GROUP_LABEL in follower.labels
    requires leader.Key() != follower.Key()
    ensures Orderly(w) && Synced(w) && Permitted(w, e) && Step(w, e, t, p, w')
    ensures e == Retry(follower) && e.pod.Key() !in w.store && ReadyLeaders(w'.store) != {} && !Synced(w')
  {
    w := World(map[leader.Key() := leader], map[Home(leader) := [NodeOf(leader).value]]);
    e := Retry(follower);
    assert Names([NodeOf(leader).value]) == {leader.Key()} by {
      assert [NodeOf(leader).value][0].name == leader.Key();
    }
    assert Desired(w.store, leader) == {leader.Key()};
    t, p, w' := AnnouncedToOne(leader, follower, w, e);
    StepSyncedIff(w, e, t, p, w');
  }

  /** An event after which a ready leader is alone in the store, its snapshot announcing a ready follower. */
  lemma AnnouncedToOne(leader: Pod, follower: Pod, w: World, e: Event) returns (t: seq<Request>, p: PassLog, w': World)
    requires leader.ready && leader.IsLeader() && Codable(leader)
    requires follower.ready && follower.IsFollower() && Codable(follower) && GROUP_LABEL in follower.labels
    requires StoreAfter(w.store, e) == map[leader.Key() := leader] && Snapshot(w.store, e) == Some(follower)
    ensures Step(w, e, t, p, w') && leader.Key() in ReadyLeaders(w'.store)
  {
    t := [Request(Home(leader), AddCall(NodeOf(follower).value), Delivered)];
    p := PassLog([], [], None, map[], [], []);
    w' := World(StoreAfter(w.store, e), Replay(w.lists, t));
    SingleFanOut(leader, follower, t);
    assert Handled(follower, w'.store, t, p, true);
  }

  lemma SingleFanOut(leader: Pod, pod: Pod, t: seq<Request>)
    requires leader.ready && leader.IsLeader() && Codable(leader) && Codable(pod) && GROUP_LABEL in pod.labels
    requires t == [Request(Home(leader), AddCall(NodeOf(pod).value), Delivered)]
    ensures FanOut(t, Adding, pod, map[leader.Key() := leader], true)
  {
    var store := map[leader.Key() := leader];
    assert ReadyLeaders(store) == {leader.Key()};
    assert leader.Key() in ReadyLeaders(store) && Receiver(store[leader.Key()]) == Some(Home(leader));
    assert InTurn(t, store, [leader.Key()]);
    assert EachOnce(t, store, true);
  }

  /** Pod events, each handled before the next one happens. */
  ghost predicate IsRun(worlds: seq<World>, events: seq<Event>, traces: seq<seq<Request>>, passes: seq<PassLog>) {
    && |worlds| == |events| + 1 == |traces| + 1 == |passes| + 1
    && Orderly(worlds[0])
    && forall i :: 0 <= i < |events| ==>
         Permitted(worlds[i], events[i]) && Step(worlds[i], events[i], traces[i], passes[i], worlds[i + 1])
  }

  lemma {:induction false} RunStaysOrderly(worlds: seq<World>, events: seq<Event>, traces: seq<seq<Request>>,
                                           passes: seq<PassLog>, n: nat)
    requires IsRun(worlds, events, traces, passes) && n < |worlds|
    ensures Orderly(worlds[n])
  {
    if n > 0 {
      RunStaysOrderly(worlds, events, traces, passes, n - 1);
      assert Step(worlds[n - 1], events[n - 1], traces[n - 1], passes[n - 1], worlds[n]);
      ReplayKeys(worlds[n - 1].lists, traces[n - 1]);
    }
  }

  /** Whole runs: from a synced world (say, an empty store), the leaders stay synced at every point of every run that
      never misleads while some leader is ready. */
  lemma RunStaysSynced(worlds: seq<World>, events: seq<Event>, traces: seq<seq<Request>>, passes: seq<PassLog>)
    requires IsRun(worlds, events, traces, passes) && Synced(worlds[0])
    requires forall i :: 0 <= i < |events| ==>
      Misleads(worlds[i].store, events[i]) ==> ReadyLeaders(worlds[i + 1].store) == {}
    ensures forall i :: 0 <= i < |worlds| ==> Synced(worlds[i])
  {
    for n := 0 to |events|
      invariant forall i :: 0 <= i <= n ==> Synced(worlds[i])
    {
      RunStaysOrderly(worlds, events, traces, passes, n);
      StepSyncedIff(worlds[n], events[n], traces[n], passes[n], worlds[n + 1]);
    }
  }

  lemma StepOfRunRepairs(worlds: seq<World>, events: seq<Event>, traces: seq<seq<Request>>, passes: seq<PassLog>,
                         k: string, n: nat)
    requires IsRun(worlds, events, traces, passes) && n < |events| && !Misleads(worlds[n].store, events[n])
    requires Reports(worlds[n].store, events[n], k) || ListsDesired(worlds[n], k)
    ensures ListsDesired(worlds[n + 1], k)
  {
    RunStaysOrderly(worlds, events, traces, passes, n);
    if k in ReadyLeaders(worlds[n + 1].store) {
      LeaderRightIff(worlds[n], events[n], traces[n], passes[n], worlds[n + 1], k);
    }
  }

  lemma {:induction false} RunStaysRight(worlds: seq<World>, events: seq<Event>, traces: seq<seq<Request>>,
                                         passes: seq<PassLog>, k: string, m: nat, n: nat)
    requires IsRun(worlds, events, traces, passes) && m <= n < |worlds| && ListsDesired(worlds[m], k)
    requires forall i :: m <= i < n ==> !Misleads(worlds[i].store, events[i])
    ensures ListsDesired(worlds[n], k)
    decreases n - m
  {
    if m < n {
      StepOfRunRepairs(worlds, events, traces, passes, k, m);
      RunStaysRight(worlds, events, traces, passes, k, m + 1, n);
    }
  }

  /** Recovery: from any orderly world whatever, once a leader has been reported, or its failed handling retried, its
      list is right at every later point at which it is ready, as long as no event misleads. */
  lemma RunRepairsLeader(worlds: seq<World>, events: seq<Event>, traces: seq<seq<Request>>, passes: seq<PassLog>,
                         k: string, reported: nat, n: nat)
    requires IsRun(worlds, events, traces, passes) && reported < n < |worlds|
    requires Reports(worlds[reported].store, events[reported], k)
    requires forall i :: reported <= i < n ==> !Misleads(worlds[i].store, events[i])
    ensures ListsDesired(worlds[n], k)
  {
    StepOfRunRepairs(worlds, events, traces, passes, k, reported);
    RunStaysRight(worlds, events, traces, passes, k, reported + 1, n);
  }

  /** The incremental form agrees with the recompute: on a synced world a full pass over a leader changes no name, and
      on a duplicate-free list it sends nothing but its read. */
  lemma RecomputeAgrees(w: World, k: string, p: PassLog, ok: bool)
    requires Orderly(w) && Synced(w) && k in ReadyLeaders(w.store)
    requires Pass(p, w.store[k], ok) && Settled(p) && p.store == w.store && ReadFrom(p, w.store[k], w.lists)
    requires AllDelivered(p.Trace())
    ensures NamesAt(Replay(w.lists, p.Trace()), Home(w.store[k])) == NamesAt(w.lists, Home(w.store[k]))
    ensures Unique(p.list) ==> |p.Trace()| == 1
  {
    PassReachesLeader(w.lists, p, w.store[k], ok);
    DeliveredAppend(p.first, p.updates);
    SettledNames(p);
    PassLinearises(p, w.store[k], ok, w.lists);
    if Unique(p.list) {
      PassIsMinimal(p, w.store[k]);
    }
  }

  /** The ready followers of one group. */
  function GroupFollowers(store: Store, groupKey: string): set<string> {
    set k | k in ReadyFollowers(store) && GROUP_LABEL in store[k].labels && store[k].labels[GROUP_LABEL] == groupKey
  }

  /** The listers ignore their group key, so a leader lists exactly its own group just when every ready follower
      anywhere carries the leader's group label. */
  lemma GroupExactIff(store: Store, leader: Pod)
    requires GROUP_LABEL in leader.labels && leader.Key() !in ReadyFollowers(store)
    ensures Desired(store, leader) == GroupFollowers(store, leader.labels[GROUP_LABEL]) + {leader.Key()} <==>
            forall k :: k in ReadyFollowers(store) ==>
              GROUP_LABEL in store[k].labels && store[k].labels[GROUP_LABEL] == leader.labels[GROUP_LABEL]
  {
    var own := GroupFollowers(store, leader.labels[GROUP_LABEL]);
    if Desired(store, leader) == own + {leader.Key()} {
      assert forall k :: k in ReadyFollowers(store) ==> k in Desired(store, leader) && k in own;
    }
  }
}
