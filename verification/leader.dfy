/** One pass of the registration controller over a ready leader, as the requests it sends: what each request may be,
    what the whole pass achieves, and how much it costs. */
module LeaderPass {
  import opened Options
  import opened Spec
  import opened Pods
  import opened Nodes
  import opened Stores
  import opened Traces

  /** The keys of all ready followers of the store, of whatever group. */
  function ReadyFollowers(store: Store): set<string> {
    set k | k in store && store[k].ready && store[k].IsFollower()
  }

  /** What a leader's list should name: every ready follower and the leader itself. */
  function Desired(store: Store, leader: Pod): set<string> {
    ReadyFollowers(store) + {leader.Key()}
  }

  predicate Codable(pod: Pod) {
    NodeOf(pod).Some?
  }

  /** The listed nodes whose lookup missed, in order. */
  function Stale(list: seq<Node>, found: seq<Option<Pod>>): seq<Node>
    requires |list| == |found|
  {
    if list == [] then []
    else
      var n := |list| - 1;
      var rest := Stale(list[..n], found[..n]);
      if found[n].None? then rest + [list[n]] else rest
  }

  /** The pods whose lookup hit, by listed name. */
  function Existed(list: seq<Node>, found: seq<Option<Pod>>): Store
    requires |list| == |found|
  {
    if list == [] then map[]
    else
      var n := |list| - 1;
      var rest := Existed(list[..n], found[..n]);
      if found[n].Some? then rest[list[n].name := found[n].value] else rest
  }

  function MissedNames(list: seq<Node>, found: seq<Option<Pod>>): set<string>
    requires |list| == |found|
  {
    set k | 0 <= k < |list| && found[k].None? :: list[k].name
  }

  function FoundNames(list: seq<Node>, found: seq<Option<Pod>>): set<string>
    requires |list| == |found|
  {
    set k | 0 <= k < |list| && found[k].Some? :: list[k].name
  }

  lemma NamesByLookup(list: seq<Node>, found: seq<Option<Pod>>)
    requires |list| == |found| > 0
    ensures var n := |list| - 1;
      && MissedNames(list, found) ==
         MissedNames(list[..n], found[..n]) + (if found[n].None? then {list[n].name} else {})
      && FoundNames(list, found) ==
         FoundNames(list[..n], found[..n]) + (if found[n].Some? then {list[n].name} else {})
  {
    var n := |list| - 1;
    assert forall k :: 0 <= k < n ==> list[k] == list[..n][k] && found[k] == found[..n][k];
  }

  lemma {:induction false} StaleOutcome(list: seq<Node>, found: seq<Option<Pod>>)
    requires |list| == |found|
    ensures Names(Stale(list, found)) == MissedNames(list, found)
    ensures Unique(list) ==> Unique(Stale(list, found))
  {
    if list != [] {
      var n := |list| - 1;
      StaleOutcome(list[..n], found[..n]);
      NamesByLookup(list, found);
      var rest := Stale(list[..n], found[..n]);
      NamesSnoc(rest, list[n]);
      if Unique(list) && found[n].None? {
        assert forall i :: 0 <= i < |rest| ==> rest[i].name in Names(rest);
      }
    }
  }

  lemma {:induction false} ExistedOutcome(list: seq<Node>, found: seq<Option<Pod>>)
    requires |list| == |found|
    ensures Existed(list, found).Keys == FoundNames(list, found)
    ensures forall name :: name in Existed(list, found) ==> Some(Existed(list, found)[name]) in found
  {
    if list != [] {
      var n := |list| - 1;
      ExistedOutcome(list[..n], found[..n]);
      NamesByLookup(list, found);
      assert forall f :: f in found[..n] ==> f in found;
    }
  }

  /** The node is the registration of the leader or of a ready follower of the store. */
  predicate Announces(store: Store, leader: Pod, node: Node) {
    || NodeOf(leader) == Some(node)
    || (node.name in ReadyFollowers(store) && NodeOf(store[node.name]) == Some(node))
  }

  /** The updates a pass sends after its reads: an add registers a desired pod that was not found listed, a remove takes
      out a found pod that is not desired. When the pass succeeds it has sent all of them; it fails only at a request
      that is not answered, and sends nothing after that, or at a pod whose environment cannot be read. */
  ghost predicate Updates(u: seq<Request>, to: string, leader: Pod, existed: Store, store: Store, ok: bool) {
    && (forall i :: 0 <= i < |u| ==>
          u[i].to == to && !u[i].call.ListCall? &&
          match u[i].call
          case ListCall => false
          case AddCall(node) => Announces(store, leader, node) && node.name !in existed
          case RemoveCall(node) =>
            node.name in existed && node.name !in Desired(store, leader) && NodeOf(existed[node.name]) == Some(node))
    && StopsAtFailure(u)
    && (ok ==> AllDelivered(u) && AddNames(u) == Desired(store, leader) - existed.Keys
               && RemoveNames(u) == existed.Keys - Desired(store, leader))
    && (!ok ==> !AllDelivered(u) || !Codable(leader) || (exists k :: k in store && !Codable(store[k]))
                || (exists k :: k in existed && !Codable(existed[k])))
    && (leader.Key() !in ReadyFollowers(store) ==> DistinctCalls(u))
  }

  ghost predicate StaleRemovals(t: seq<Request>, to: string, stale: seq<Node>) {
    && |t| == |stale|
    && forall i :: 0 <= i < |t| ==> t[i].to == to && t[i].call == RemoveCall(stale[i])
  }

  /** The reads a pass begins with and its stale removals, sent whatever the answers; None is the read that failed. */
  ghost predicate ReadPart(t: seq<Request>, leader: Pod, list: seq<Node>, found: seq<Option<Pod>>,
      existed: Option<Store>)
    requires |list| == |found|
  {
    if Receiver(leader).None? then existed.None? && t == []
    else
      && t != [] && t[0].to == Receiver(leader).value && t[0].call.ListCall?
      && if !t[0].fate.Delivered? then existed.None? && |t| == 1
         else existed == Some(Existed(list, found)) && StaleRemovals(t[1..], Receiver(leader).value, Stale(list, found))
  }

  /** The record of one pass: the list it read, what each entry's lookup found, the pods existing under listed names
      (None if the list could not be read), the store its last read saw, and the requests of its two halves. */
  datatype PassLog = PassLog(list: seq<Node>, found: seq<Option<Pod>>, existed: Option<Store>, store: Store,
                             first: seq<Request>, updates: seq<Request>)
  {
    function Trace(): seq<Request> {
      first + updates
    }
  }

  /** The whole pass: its first part as above, then its updates, sent only if the read succeeded. */
  ghost predicate Pass(p: PassLog, leader: Pod, ok: bool) {
    && |p.list| == |p.found|
    && (if GROUP_LABEL in leader.labels then ReadPart(p.first, leader, p.list, p.found, p.existed)
        else p.existed.None? && p.first == [])
    && (if p.existed.None? then !ok && p.updates == []
        else Updates(p.updates, Receiver(leader).value, leader, p.existed.value, p.store, ok))
  }

  /** The lists the pass worked on held the list it read. */
  ghost predicate ReadFrom(p: PassLog, leader: Pod, lists: Lists) {
    Receiver(leader).Some? && Receiver(leader).value in lists && lists[Receiver(leader).value] == p.list
  }

  /** Every lookup of the pass saw the store its listing of followers saw. */
  ghost predicate Settled(p: PassLog) {
    && |p.list| == |p.found|
    && forall k :: 0 <= k < |p.list| ==> p.found[k] == Lookup(p.store, p.list[k].name)
  }

  lemma SettledNames(p: PassLog)
    requires Settled(p)
    ensures MissedNames(p.list, p.found) == Names(p.list) - p.store.Keys
    ensures FoundNames(p.list, p.found) == Names(p.list) * p.store.Keys
  {
  }

  lemma FirstPartCalls(first: seq<Request>, leader: Pod, list: seq<Node>, found: seq<Option<Pod>>,
                       existed: Option<Store>)
    requires |list| == |found| && ReadPart(first, leader, list, found, existed)
    ensures forall i :: 0 <= i < |first| ==> Receiver(leader) == Some(first[i].to)
    ensures AddNames(first) == {}
    ensures RemoveNames(first) == if existed.Some? then MissedNames(list, found) else {}
  {
    if existed.Some? {
      var stale := Stale(list, found);
      StaleOutcome(list, found);
      forall i | 0 <= i < |stale|
        ensures first[1 + i].to == Receiver(leader).value && first[1 + i].call == RemoveCall(stale[i])
      {
        assert first[1 + i] == first[1..][i];
      }
      assert forall i :: 1 <= i < |first| ==> first[i] == first[1 + (i - 1)];
      forall i | 0 <= i < |stale|
        ensures stale[i].name in RemoveNames(first)
      {
        assert first[1 + i].call.RemoveCall?;
      }
    }
  }

  /** On a settled store that holds the leader, no request of a pass adds an undesired name or removes a desired one. */
  lemma PassPointsAtDesired(p: PassLog, leader: Pod, ok: bool)
    requires Pass(p, leader, ok) && Settled(p) && leader.Key() in p.store
    ensures forall i :: 0 <= i < |p.Trace()| ==> Towards(p.Trace()[i], Desired(p.store, leader))
  {
    SettledNames(p);
    if GROUP_LABEL in leader.labels {
      var first := p.first;
      FirstPartCalls(first, leader, p.list, p.found, p.existed);
      assert forall i :: 0 <= i < |first| && first[i].call.RemoveCall? ==>
          first[i].call.node.name in RemoveNames(first);
      assert forall i :: 0 <= i < |first| ==> !first[i].call.AddCall? by {
        assert forall i :: 0 <= i < |first| && first[i].call.AddCall? ==> first[i].call.node.name in AddNames(first);
      }
    }
  }

  /** What the stale removals leave: they take out only missed names, and a name survives only if every removal of it
      was lost. */
  lemma StaleStage(lists: Lists, first: seq<Request>, leader: Pod, list: seq<Node>, found: seq<Option<Pod>>,
                   existed: Option<Store>)
    requires |list| == |found| && ReadPart(first, leader, list, found, existed) && existed.Some?
    requires Receiver(leader).value in lists && lists[Receiver(leader).value] == list
    ensures var to := Receiver(leader).value;
      && Names(list) - MissedNames(list, found) <= NamesAt(Replay(lists, first), to) <= Names(list)
      && (AllDelivered(first) ==> NamesAt(Replay(lists, first), to) == Names(list) - MissedNames(list, found))
      && (forall name :: name in NamesAt(Replay(lists, first), to) ==> EveryRemovalLost(first, to, name))
  {
    var to := Receiver(leader).value;
    FirstPartCalls(first, leader, list, found, existed);
    forall name
      ensures var after := NamesAt(Replay(lists, first), to);
        && (name in after <==> name in Names(list) && EveryRemovalLost(first, to, name))
        && (name in MissedNames(list, found) && AllDelivered(first) ==> !EveryRemovalLost(first, to, name))
        && (name !in MissedNames(list, found) ==> EveryRemovalLost(first, to, name))
    {
      NameAfter(lists, first, to, name);
      if name in RemoveNames(first) && AllDelivered(first) {
        var i :| 0 <= i < |first| && RemovesName(first[i], to, name);
        assert !first[i].fate.Lost?;
      }
    }
  }

  /** What the updates of a successful pass leave, from what its stale removals left. */
  lemma UpdateStage(lists: Lists, first: seq<Request>, u: seq<Request>, leader: Pod, existed: Store, store: Store)
    requires Receiver(leader).Some? && Receiver(leader).value in lists
    requires Updates(u, Receiver(leader).value, leader, existed, store, true)
    ensures var to, desired := Receiver(leader).value, Desired(store, leader);
      NamesAt(Replay(lists, first + u), to) ==
      NamesAt(Replay(lists, first), to) + (desired - existed.Keys) - (existed.Keys - desired)
  {
    ReplayAppends(lists, first, u);
    ReplayKeys(lists, first);
    DeliveredRequests(Replay(lists, first), u, Receiver(leader).value);
  }

  /** For every pattern of lost or unacknowledged requests: a pass over a settled store that holds the leader keeps
      every desired name, lets in no undesired one, and never enlarges the symmetric difference with those. */
  lemma FailureNeverMovesAway(p: PassLog, leader: Pod, ok: bool, lists: Lists)
    requires Pass(p, leader, ok) && Settled(p) && ReadFrom(p, leader, lists)
    requires leader.Key() in p.store
    ensures var desired, after := Desired(p.store, leader), NamesAt(Replay(lists, p.Trace()), Receiver(leader).value);
      && desired * Names(p.list) <= after <= desired + Names(p.list)
      && SymmetricDifference(after, desired) <= SymmetricDifference(Names(p.list), desired)
  {
    PassPointsAtDesired(p, leader, ok);
    TowardsNeverMovesAway(lists, p.Trace(), Receiver(leader).value, Desired(p.store, leader));
  }

  /** A pass over a settled store that reports success has put in every desired name, and an undesired name is left only
      where it is a key no pod has any more and each of its silent removals was lost. */
  lemma SuccessReachesDesired(p: PassLog, leader: Pod, lists: Lists)
    requires Pass(p, leader, true) && Settled(p) && ReadFrom(p, leader, lists)
    requires leader.Key() in p.store
    ensures var desired, after := Desired(p.store, leader), NamesAt(Replay(lists, p.Trace()), Receiver(leader).value);
      && desired <= after
      && forall name :: name in after - desired ==>
           name in Names(p.list) && name !in p.store && EveryRemovalLost(p.Trace(), Receiver(leader).value, name)
  {
    var to, desired := Receiver(leader).value, Desired(p.store, leader);
    ExistedOutcome(p.list, p.found);
    SettledNames(p);
    StaleStage(lists, p.first, leader, p.list, p.found, p.existed);
    UpdateStage(lists, p.first, p.updates, leader, p.existed.value, p.store);
    assert ReadyFollowers(p.store) <= p.store.Keys;
    forall name | name in NamesAt(Replay(lists, p.Trace()), to) - desired
      ensures EveryRemovalLost(p.Trace(), to, name)
    {
      RemovalLostAppend(p.first, p.updates, to, name);
    }
  }

  /** Every pod the pass met has a readable environment. */
  ghost predicate AllCodable(p: PassLog, leader: Pod) {
    && Codable(leader)
    && (forall k :: k in p.store ==> Codable(p.store[k]))
    && (forall k :: 0 <= k < |p.found| && p.found[k].Some? ==> Codable(p.found[k].value))
  }

  /** Linearisation: when every request is delivered, the list ends at exactly what the store desired at the pass's last
      read, however the store changed between the earlier reads -- unless a desired name was listed twice and looked up
      once with and once without success, which is the only way to miss. */
  lemma PassLinearises(p: PassLog, leader: Pod, ok: bool, lists: Lists)
    requires Pass(p, leader, ok) && ReadFrom(p, leader, lists)
    requires AllDelivered(p.first) && AllDelivered(p.updates)
    requires GROUP_LABEL in leader.labels && AllCodable(p, leader)
    ensures ok
    ensures NamesAt(Replay(lists, p.Trace()), Receiver(leader).value) == Desired(p.store, leader) <==>
            Desired(p.store, leader) * MissedNames(p.list, p.found) * FoundNames(p.list, p.found) == {}
  {
    ExistedOutcome(p.list, p.found);
    StaleStage(lists, p.first, leader, p.list, p.found, p.existed);
    UpdateStage(lists, p.first, p.updates, leader, p.existed.value, p.store);
    assert Names(p.list) == MissedNames(p.list, p.found) + FoundNames(p.list, p.found);
    ExactlyWhenNotSplit(Desired(p.store, leader), MissedNames(p.list, p.found), FoundNames(p.list, p.found));
  }

  lemma ExactlyWhenNotSplit(desired: set<string>, missed: set<string>, found: set<string>)
    ensures (missed + found) - missed + (desired - found) - (found - desired) == desired <==>
            desired * missed * found == {}
  {
    var after := (missed + found) - missed + (desired - found) - (found - desired);
    assert after <= desired && desired - after == desired * missed * found;
    if desired - after == {} {
      assert forall name :: name in desired ==> name !in desired - after && name in after;
    }
  }

  /** A duplicate-free list cannot be looked up both ways, so the pass always ends at the desired names. */
  lemma UniqueListsNeverSplit(list: seq<Node>, found: seq<Option<Pod>>)
    requires |list| == |found| && Unique(list)
    ensures MissedNames(list, found) * FoundNames(list, found) == {}
  {
    forall j, k | 0 <= j < |list| && 0 <= k < |list| && found[j].None? && found[k].Some?
      ensures list[j].name != list[k].name
    {
      assert j < k || k < j;
    }
  }

  /** The pass over a list that names a follower twice, the first lookup too early to find the pod, the second not. */
  function SplitPass(leader: Pod, follower: Pod): PassLog
    requires Receiver(leader).Some? && Codable(leader) && Codable(follower)
  {
    var to, twice := Receiver(leader).value, NodeOf(follower).value;
    PassLog([twice, twice], [None, Some(follower)], Some(map[follower.Key() := follower]),
            map[leader.Key() := leader, follower.Key() := follower],
            [Request(to, ListCall, Delivered), Request(to, RemoveCall(twice), Delivered)],
            [Request(to, AddCall(NodeOf(leader).value), Delivered)])
  }

  /** The miss happens: on a list that names a ready follower twice, with the pod appearing in the store between the two
      lookups, every request delivered and success reported, the pass takes the follower off and leaves it off. */
  lemma DuplicatesCanMiss(leader: Pod, follower: Pod)
    requires leader.ready && leader.IsLeader() && Codable(leader) && GROUP_LABEL in leader.labels
    requires follower.ready && follower.IsFollower() && Codable(follower) && leader.Key() != follower.Key()
    ensures var p := SplitPass(leader, follower);
      var to, lists := Receiver(leader).value, map[Receiver(leader).value := p.list];
      && Pass(p, leader, true) && ReadFrom(p, leader, lists) && AllCodable(p, leader) && AllDelivered(p.Trace())
      && follower.Key() in Desired(p.store, leader)
      && NamesAt(Replay(lists, p.Trace()), to) == {leader.Key()}
  {
    SplitUpdates(leader, follower);
    SplitLeaves(leader, follower);
    SplitIsPass(leader, follower);
  }

  lemma SplitIsPass(leader: Pod, follower: Pod)
    requires leader.IsLeader() && Codable(leader) && Receiver(leader).Some? && GROUP_LABEL in leader.labels
    requires follower.ready && follower.IsFollower() && Codable(follower) && leader.Key() != follower.Key()
    ensures var p := SplitPass(leader, follower);
      Pass(p, leader, true) && AllCodable(p, leader) && AllDelivered(p.Trace())
  {
    var p := SplitPass(leader, follower);
    SplitReads(leader, follower);
    SplitUpdates(leader, follower);
    DeliveredAppend(p.first, p.updates);
  }

  lemma SplitLeaves(leader: Pod, follower: Pod)
    requires leader.IsLeader() && Codable(leader) && Receiver(leader).Some?
    requires follower.ready && follower.IsFollower() && Codable(follower) && leader.Key() != follower.Key()
    ensures var p := SplitPass(leader, follower);
      var to, lists := Receiver(leader).value, map[Receiver(leader).value := p.list];
      NamesAt(Replay(lists, p.Trace()), to) == {leader.Key()}
  {
    var p := SplitPass(leader, follower);
    var lists := map[Receiver(leader).value := p.list];
    SplitReads(leader, follower);
    SplitUpdates(leader, follower);
    StaleStage(lists, p.first, leader, p.list, p.found, p.existed);
    UpdateStage(lists, p.first, p.updates, leader, p.existed.value, p.store);
  }

  lemma SplitReads(leader: Pod, follower: Pod)
    requires Codable(leader) && Codable(follower) && Receiver(leader).Some?
    ensures var p := SplitPass(leader, follower);
      && ReadPart(p.first, leader, p.list, p.found, p.existed)
      && Names(p.list) == MissedNames(p.list, p.found) == {follower.Key()}
  {
    var p := SplitPass(leader, follower);
    var twice := NodeOf(follower).value;
    assert twice.name == follower.Key();
    var one: seq<Option<Pod>> := [None];
    assert p.list[..1] == [twice] && p.found[..1] == one && [twice][..0] == [] && one[..0] == [];
    assert Existed([twice][..0], one[..0]) == map[] && Stale([twice][..0], one[..0]) == [];
    assert Stale([twice], one) == [twice] && Existed([twice], one) == map[];
    assert p.first[1..] == [Request(Receiver(leader).value, RemoveCall(twice), Delivered)];
    assert p.list[0].name == p.list[1].name == follower.Key();
  }

  lemma SplitUpdates(leader: Pod, follower: Pod)
    requires leader.IsLeader() && Codable(leader) && Receiver(leader).Some?
    requires follower.ready && follower.IsFollower() && Codable(follower) && leader.Key() != follower.Key()
    ensures var p := SplitPass(leader, follower);
      && Desired(p.store, leader) == {leader.Key(), follower.Key()}
      && Updates(p.updates, Receiver(leader).value, leader, p.existed.value, p.store, true)
  {
    var p := SplitPass(leader, follower);
    assert NodeOf(leader).value.name == leader.Key();
    assert p.updates[0].call.node.name == leader.Key();
    assert AddNames(p.updates) == {leader.Key()} && RemoveNames(p.updates) == {};
    assert ReadyFollowers(p.store) == {follower.Key()};
    assert Desired(p.store, leader) - p.existed.value.Keys == {leader.Key()};
  }

  /** Minimality: a successful pass over a duplicate-free list sends one request for each name in the symmetric
      difference and nothing else. */
  lemma PassIsMinimal(p: PassLog, leader: Pod)
    requires Pass(p, leader, true) && Settled(p) && leader.Key() in p.store
    requires leader.Key() !in ReadyFollowers(p.store) && Unique(p.list)
    ensures AddNames(p.Trace()) == Desired(p.store, leader) - Names(p.list)
    ensures RemoveNames(p.Trace()) == Names(p.list) - Desired(p.store, leader)
    ensures |p.Trace()| == 1 + |SymmetricDifference(Names(p.list), Desired(p.store, leader))|
    ensures Names(p.list) == Desired(p.store, leader) ==> |p.Trace()| == 1
  {
    PassCalls(p, leader);
    StaleCalls(p.first[1..], Receiver(leader).value, p);
    UpdateCalls(p.updates, Receiver(leader).value, leader, p.existed.value, p.store);
    CountAfterRead(p.first, p.updates, p.store.Keys);
    SameDifference(AddNames(p.Trace()), RemoveNames(p.Trace()), Names(p.list), Desired(p.store, leader));
  }

  /** Idempotence: after a pass over a duplicate-free list whose requests were delivered, a second pass over the store
      of the first one's last read sends its read and nothing else, and succeeds. */
  lemma SecondPassOnlyReads(p: PassLog, q: PassLog, leader: Pod, lists: Lists, ok: bool, okAgain: bool)
    requires GROUP_LABEL in leader.labels && AllCodable(p, leader) && Unique(p.list)
    requires leader.Key() in p.store && leader.Key() !in ReadyFollowers(p.store)
    requires Pass(p, leader, ok) && ReadFrom(p, leader, lists) && AllDelivered(p.Trace())
    requires Pass(q, leader, okAgain) && ReadFrom(q, leader, Replay(lists, p.Trace())) && AllDelivered(q.Trace())
    requires Settled(q) && q.store == p.store
    ensures ok && okAgain && |q.Trace()| == 1 && q.Trace()[0].call.ListCall?
  {
    DeliveredAppend(p.first, p.updates);
    DeliveredAppend(q.first, q.updates);
    UniqueListsNeverSplit(p.list, p.found);
    PassLinearises(p, leader, ok, lists);
    ReplayKeepsUnique(lists, p.Trace(), Receiver(leader).value);
    RereadSucceeds(q, leader, okAgain, Replay(lists, p.Trace()));
    PassIsMinimal(q, leader);
    PassCalls(q, leader);
  }

  lemma RereadSucceeds(q: PassLog, leader: Pod, ok: bool, lists: Lists)
    requires GROUP_LABEL in leader.labels && Codable(leader) && forall k :: k in q.store ==> Codable(q.store[k])
    requires Pass(q, leader, ok) && ReadFrom(q, leader, lists) && Settled(q)
    requires AllDelivered(q.first) && AllDelivered(q.updates)
    ensures ok
  {
    assert AllCodable(q, leader);
    PassLinearises(q, leader, ok, lists);
  }

  lemma PassCalls(p: PassLog, leader: Pod)
    requires Pass(p, leader, true) && Settled(p) && leader.Key() in p.store
    ensures p.first != [] && p.first[0].call.ListCall?
    ensures p.existed.Some? && p.existed.value.Keys <= p.store.Keys
    ensures AddNames(p.Trace()) == Desired(p.store, leader) - Names(p.list)
    ensures RemoveNames(p.Trace()) == Names(p.list) - Desired(p.store, leader)
  {
    FirstPartCalls(p.first, leader, p.list, p.found, p.existed);
    ExistedOutcome(p.list, p.found);
    SettledNames(p);
    CallNamesAppend(p.first, p.updates);
  }

  lemma StaleCalls(t: seq<Request>, to: string, p: PassLog)
    requires Settled(p) && StaleRemovals(t, to, Stale(p.list, p.found)) && Unique(p.list)
    ensures DistinctCalls(t)
    ensures forall i :: 0 <= i < |t| ==> !t[i].call.ListCall? && t[i].call.node.name !in p.store
  {
    StaleOutcome(p.list, p.found);
    SettledNames(p);
    assert forall i :: 0 <= i < |t| ==> Stale(p.list, p.found)[i].name in Names(Stale(p.list, p.found));
  }

  lemma UpdateCalls(u: seq<Request>, to: string, leader: Pod, existed: Store, store: Store)
    requires Updates(u, to, leader, existed, store, true)
    requires leader.Key() in store && existed.Keys <= store.Keys
    ensures forall i :: 0 <= i < |u| ==> !u[i].call.ListCall? && u[i].call.node.name in store
  {
  }

  /** Updates of unknown names, then of known ones, carry each name once. */
  lemma CountByKeys(t: seq<Request>, u: seq<Request>, keys: set<string>)
    requires forall i :: 0 <= i < |t| ==> !t[i].call.ListCall? && t[i].call.node.name !in keys
    requires forall i :: 0 <= i < |u| ==> !u[i].call.ListCall? && u[i].call.node.name in keys
    requires DistinctCalls(t) && DistinctCalls(u)
    ensures |t + u| == |CallNames(t + u)|
  {
    forall i, j | 0 <= i < j < |t + u|
      ensures (t + u)[i].call.node.name != (t + u)[j].call.node.name
    {
      assert (t + u)[i] == if i < |t| then t[i] else u[i - |t|];
      assert (t + u)[j] == if j < |t| then t[j] else u[j - |t|];
    }
    DistinctCallsCount(t + u);
  }

  lemma HeadOff(first: seq<Request>, u: seq<Request>)
    requires first != []
    ensures first + u == [first[0]] + (first[1..] + u)
  {
    assert first == [first[0]] + first[1..];
  }

  lemma CountAfterRead(first: seq<Request>, u: seq<Request>, keys: set<string>)
    requires first != [] && first[0].call.ListCall?
    requires forall i :: 0 <= i < |first[1..]| ==>
      !first[1..][i].call.ListCall? && first[1..][i].call.node.name !in keys
    requires forall i :: 0 <= i < |u| ==> !u[i].call.ListCall? && u[i].call.node.name in keys
    requires DistinctCalls(first[1..]) && DistinctCalls(u)
    ensures |first + u| == 1 + |CallNames(first + u)|
  {
    var t := first[1..] + u;
    CountByKeys(first[1..], u, keys);
    HeadOff(first, u);
    CallNamesAppend([first[0]], t);
    assert AddNames([first[0]]) == {} && RemoveNames([first[0]]) == {};
  }

  lemma SameDifference(added: set<string>, removed: set<string>, names: set<string>, desired: set<string>)
    requires added == desired - names && removed == names - desired
    ensures added + removed == SymmetricDifference(names, desired)
    ensures names == desired ==> SymmetricDifference(names, desired) == {}
  {
  }
}
