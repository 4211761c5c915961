/** The registration controller: what it does with each pod it takes off its queue. */
module Register {
  import opened Options
  import opened Spec
  import opened Pods
  import opened Nodes
  import opened Stores
  import opened LeaderPass
  import opened Sending
  import opened WorkQueues

  /** A queued object is told from others by its pointer: two snapshots of one pod are two items. */
  datatype Item = PodItem(id: nat, pod: Pod) | OtherItem(id: nat)

  class RegisterController {
    const allNs: bool
    const queue: WorkQueue<Item>
    const store: PodStore
    const net: Network

    constructor (allNs: bool, queue: WorkQueue<Item>, store: PodStore, net: Network)
      requires store.Valid() && net.Valid()
      ensures this.allNs == allNs && this.queue == queue && this.store == store && this.net == net && Valid()
    {
      this.allNs := allNs;
      this.queue := queue;
      this.store := store;
      this.net := net;
    }

    ghost predicate Valid()
      reads net, net.servers.Values
    {
      store.Valid() && net.Valid()
    }

    /** The pods the controller sees at read number clock: none unless it watches all namespaces. */
    function View(clock: nat): Store {
      if allNs then store.version(clock) else map[]
    }

    /** The list of a leader as far as the controller looks its entries up. */
    ghost function ListOf(leader: Pod): seq<Node>
      reads net
    {
      if allNs && Receiver(leader).Some? && Receiver(leader).value in net.lists
      then net.lists[Receiver(leader).value] else []
    }

    method AddNode(leader: Pod, follower: Pod) returns (ok: bool, ghost t: seq<Request>)
      requires Valid()
      modifies net, net.servers.Values
      ensures Valid() && net.sent == old(net.sent) + t
      ensures Attempt(t, leader, CallFor(Adding, follower), ok)
      ensures net.lists == Replay(old(net.lists), t)
    {
      var leaderConfig := BuildPodConfig(leader);
      if leaderConfig.None? {
        return false, [];
      }
      var followerConfig := BuildPodConfig(follower);
      if followerConfig.None? || Text.Atoi(followerConfig.value.priority).None? {
        return false, [];
      }
      var node := Node(follower.Key(), follower.ip + ":" + followerConfig.value.rpcPort,
                       Text.Atoi(followerConfig.value.priority).value);
      ghost var r;
      ok, r := net.Post(leader.ip + ":" + leaderConfig.value.httpPort, AddCall(node));
      t := [r];
    }

    method RemoveNode(leader: Pod, follower: Pod) returns (ok: bool, ghost t: seq<Request>)
      requires Valid()
      modifies net, net.servers.Values
      ensures Valid() && net.sent == old(net.sent) + t
      ensures Attempt(t, leader, CallFor(Removing, follower), ok)
      ensures net.lists == Replay(old(net.lists), t)
    {
      var followerConfig := BuildPodConfig(follower);
      if followerConfig.None? || Text.Atoi(followerConfig.value.priority).None? {
        return false, [];
      }
      var node := Node(follower.Key(), follower.ip + ":" + followerConfig.value.rpcPort,
                       Text.Atoi(followerConfig.value.priority).value);
      ok, t := RemoveConfig(leader, node);
    }

    method RemoveConfig(leader: Pod, node: Node) returns (ok: bool, ghost t: seq<Request>)
      requires Valid()
      modifies net, net.servers.Values
      ensures Valid() && net.sent == old(net.sent) + t
      ensures Attempt(t, leader, Some(RemoveCall(node)), ok)
      ensures net.lists == Replay(old(net.lists), t)
    {
      var leaderConfig := BuildPodConfig(leader);
      if leaderConfig.None? {
        return false, [];
      }
      ghost var r;
      ok, r := net.Post(leader.ip + ":" + leaderConfig.value.httpPort, RemoveCall(node));
      t := [r];
    }

    method ListReadyWorkers() returns (workers: seq<Pod>)
      requires Valid()
      modifies store
      ensures Enumerates(workers, View(old(store.clock)), ReadyFollowers(View(old(store.clock))))
    {
      workers := [];
      if allNs {
        ghost var view := View(store.clock);
        var pods := store.List();
        for i := 0 to |pods|
          invariant Enumerates(workers, view, ReadyFollowers(view) * KeysOf(pods[..i]))
        {
          assert pods[..i + 1] == pods[..i] + [pods[i]];
          KeysOfSnoc(pods[..i], pods[i]);
          assert pods[i].Key() !in KeysOf(pods[..i]);
          if pods[i].ready && pods[i].IsFollower() {
            EnumeratesMore(workers, view, ReadyFollowers(view) * KeysOf(pods[..i]), pods[i]);
            workers := workers + [pods[i]];
          }
          assert ReadyFollowers(view) * KeysOf(pods[..i + 1]) == ReadyFollowers(view) * KeysOf(pods[..i]) +
            if pods[i].ready && pods[i].IsFollower() then {pods[i].Key()} else {};
        }
        assert pods[..|pods|] == pods;
        assert ReadyFollowers(view) * KeysOf(pods) == ReadyFollowers(view);
      }
    }

    method ListReadyLeaders() returns (leaders: seq<Pod>)
      requires Valid()
      modifies store
      ensures Enumerates(leaders, View(old(store.clock)), ReadyLeaders(View(old(store.clock))))
    {
      leaders := [];
      if allNs {
        ghost var view := View(store.clock);
        var pods := store.List();
        for i := 0 to |pods|
          invariant Enumerates(leaders, view, ReadyLeaders(view) * KeysOf(pods[..i]))
        {
          assert pods[..i + 1] == pods[..i] + [pods[i]];
          KeysOfSnoc(pods[..i], pods[i]);
          assert pods[i].Key() !in KeysOf(pods[..i]);
          if pods[i].ready && pods[i].IsLeader() {
            EnumeratesMore(leaders, view, ReadyLeaders(view) * KeysOf(pods[..i]), pods[i]);
            leaders := leaders + [pods[i]];
          }
          assert ReadyLeaders(view) * KeysOf(pods[..i + 1]) == ReadyLeaders(view) * KeysOf(pods[..i]) +
            if pods[i].ready && pods[i].IsLeader() then {pods[i].Key()} else {};
        }
        assert pods[..|pods|] == pods;
        assert ReadyLeaders(view) * KeysOf(pods) == ReadyLeaders(view);
      }
    }

    /** Withdraws an unready worker from every ready leader, of whatever group. */
    method ProcessUnreadyWorker(pod: Pod) returns (ok: bool, ghost t: seq<Request>)
      requires Valid()
      modifies net, net.servers.Values, store
      ensures Valid() && net.sent == old(net.sent) + t
      ensures net.lists == Replay(old(net.lists), t)
      ensures FanOut(t, Removing, pod, View(old(store.clock)), ok)
    {
      ghost var view := View(store.clock);
      if GROUP_LABEL !in pod.labels {
        NothingToSend(Removing, pod, view, false);
        return false, [];
      }
      ok, t := true, [];
      if allNs {
        var leaders := ListReadyLeaders();
        for i := 0 to |leaders|
          invariant Valid() && ok && net.sent == old(net.sent) + t
          invariant net.lists == Replay(old(net.lists), t)
          invariant SentTo(t, Removing, pod, leaders[..i])
        {
          ghost var attempt;
          ok, attempt := RemoveNode(leaders[i], pod);
          LogGrows(old(net.sent), old(net.lists), t, attempt);
          FanOutExtends(t, attempt, Removing, pod, leaders, i, view, ok);
          t := t + attempt;
          if !ok {
            return;
          }
        }
        assert leaders[..|leaders|] == leaders;
        FanOutCompletes(t, Removing, pod, leaders, view);
      } else {
        NothingToSend(Removing, pod, view, true);
      }
    }

    /** Announces a ready worker to every ready leader, of whatever group. */
    method ProcessReadyWorker(pod: Pod) returns (ok: bool, ghost t: seq<Request>)
      requires Valid()
      modifies net, net.servers.Values, store
      ensures Valid() && net.sent == old(net.sent) + t
      ensures net.lists == Replay(old(net.lists), t)
      ensures FanOut(t, Adding, pod, View(old(store.clock)), ok)
    {
      ghost var view := View(store.clock);
      if GROUP_LABEL !in pod.labels {
        NothingToSend(Adding, pod, view, false);
        return false, [];
      }
      ok, t := true, [];
      if allNs {
        var leaders := ListReadyLeaders();
        for i := 0 to |leaders|
          invariant Valid() && ok && net.sent == old(net.sent) + t
          invariant net.lists == Replay(old(net.lists), t)
          invariant SentTo(t, Adding, pod, leaders[..i])
        {
          ghost var attempt;
          ok, attempt := AddNode(leaders[i], pod);
          LogGrows(old(net.sent), old(net.lists), t, attempt);
          FanOutExtends(t, attempt, Adding, pod, leaders, i, view, ok);
          t := t + attempt;
          if !ok {
            return;
          }
        }
        assert leaders[..|leaders|] == leaders;
        FanOutCompletes(t, Adding, pod, leaders, view);
      } else {
        NothingToSend(Adding, pod, view, true);
      }
    }

    /** Looks the entries of a list up, one store read each: the entries without a pod, and the pods by entry name. */
    method LookUp(workers: seq<Node>) returns (needToRemove: seq<Node>, existedWorkers: Store)
      requires store.Valid()
      modifies store
      ensures Keyed(existedWorkers)
      ensures store.clock == old(store.clock) + |workers|
      ensures var found := Lookups(store.version, old(store.clock), workers);
        needToRemove == Stale(workers, found) && existedWorkers == Existed(workers, found)
    {
      needToRemove, existedWorkers := [], map[];
      ghost var found := Lookups(store.version, store.clock, workers);
      for i := 0 to |workers|
        invariant store.clock == old(store.clock) + i
        invariant needToRemove == Stale(workers[..i], found[..i])
        invariant existedWorkers == Existed(workers[..i], found[..i]) && Keyed(existedWorkers)
      {
        var worker := workers[i];
        assert Keyed(store.version(store.clock));
        var pod := store.GetByKey(worker.name);
        assert workers[..i + 1][..i] == workers[..i] && found[..i + 1][..i] == found[..i] && found[i] == pod;
        if pod.None? {
          needToRemove := needToRemove + [worker];
        } else {
          existedWorkers := existedWorkers[worker.name := pod.value];
        }
      }
      assert workers[..|workers|] == workers && found[..|workers|] == found;
    }

    /** One removal for each stale entry, errors dropped. */
    method RemoveStale(leader: Pod, needToRemove: seq<Node>) returns (ghost t: seq<Request>)
      requires Valid() && Receiver(leader).Some?
      modifies net, net.servers.Values
      ensures Valid() && net.sent == old(net.sent) + t
      ensures net.lists == Replay(old(net.lists), t)
      ensures StaleRemovals(t, Receiver(leader).value, needToRemove)
    {
      t := [];
      for i := 0 to |needToRemove|
        invariant Valid() && net.sent == old(net.sent) + t
        invariant net.lists == Replay(old(net.lists), t)
        invariant StaleRemovals(t, Receiver(leader).value, needToRemove[..i])
      {
        var _, attempt := RemoveConfig(leader, needToRemove[i]);
        StaleRemovalsExtend(t, attempt, leader, needToRemove, i);
        LogGrows(old(net.sent), old(net.lists), t, attempt);
        t := t + attempt;
      }
      assert needToRemove[..|needToRemove|] == needToRemove;
    }

    method GetClusterList(leader: Pod) returns (nodes: Option<seq<Node>>, ghost t: seq<Request>)
      requires Valid()
      modifies net
      ensures Valid() && net.sent == old(net.sent) + t && net.lists == old(net.lists)
      ensures Attempt(t, leader, Some(ListCall), nodes.Some?)
      ensures nodes.Some? && allNs ==> nodes.value == ListOf(leader)
    {
      var config := BuildPodConfig(leader);
      if config.None? {
        return None, [];
      }
      ghost var r;
      nodes, r := net.Get(leader.ip + ":" + config.value.httpPort);
      t := [r];
    }

    /** Reads a leader's list, looks each entry up, and removes the entries without a pod, whatever the answers. */
    method ListExistedWorkers(leader: Pod) returns (existed: Option<Store>, ghost t: seq<Request>)
      requires Valid()
      modifies net, net.servers.Values, store
      ensures Valid() && net.sent == old(net.sent) + t
      ensures net.lists == Replay(old(net.lists), t)
      ensures ReadPart(t, leader, old(ListOf(leader)),
                       Lookups(store.version, old(store.clock), old(ListOf(leader))), existed)
      ensures existed.Some? ==> store.clock == old(store.clock) + |old(ListOf(leader))|
      ensures existed.Some? ==> Receiver(leader).Some? && Keyed(existed.value)
    {
      ghost var list, found := ListOf(leader), Lookups(store.version, store.clock, ListOf(leader));
      existed := None;
      var workers;
      workers, t := GetClusterList(leader);
      ListingChangesNothing(net.lists, t, leader, workers.Some?);
      if workers.Some? {
        var needToRemove, existedWorkers := LookUp(if allNs then workers.value else []);
        ghost var removals := RemoveStale(leader, needToRemove);
        LogGrows(old(net.sent), old(net.lists), t, removals);
        ReadPartCompletes(t[0], removals, leader, list, found);
        t := t + removals;
        existed := Some(existedWorkers);
      }
    }

    /** Splits the workers a leader should list and the pods it does list into those to add and those to remove. */
    method Compare(workers: seq<Pod>, existedWorkers: Store) returns (neededToAdd: seq<Pod>, neededToRemove: seq<Pod>)
      requires Keyed(existedWorkers)
      ensures neededToAdd == Unlisted(workers, existedWorkers)
      ensures Enumerates(neededToRemove, existedWorkers, existedWorkers.Keys - KeysOf(workers))
    {
      neededToAdd, neededToRemove := [], [];
      var removeHelper: Store := map[];
      for i := 0 to |workers|
        invariant neededToAdd == Unlisted(workers[..i], existedWorkers)
        invariant removeHelper.Keys == existedWorkers.Keys * KeysOf(workers[..i])
      {
        assert workers[..i + 1] == workers[..i] + [workers[i]];
        KeysOfSnoc(workers[..i], workers[i]);
        var key := workers[i].Key();
        if key in existedWorkers {
          removeHelper := removeHelper[key := workers[i]];
        } else {
          neededToAdd := neededToAdd + [workers[i]];
        }
      }
      assert workers[..|workers|] == workers;
      var rest := existedWorkers.Keys;
      ghost var done: set<string> := {};
      while rest != {}
        invariant rest + done == existedWorkers.Keys && rest !! done
        invariant removeHelper.Keys == rest * KeysOf(workers)
        invariant Enumerates(neededToRemove, existedWorkers, done - KeysOf(workers))
      {
        var key :| key in rest;
        if key in removeHelper {
          removeHelper := removeHelper - {key};
          assert done + {key} - KeysOf(workers) == done - KeysOf(workers);
        } else {
          EnumeratesMore(neededToRemove, existedWorkers, done - KeysOf(workers), existedWorkers[key]);
          neededToRemove := neededToRemove + [existedWorkers[key]];
          assert done + {key} - KeysOf(workers) == done - KeysOf(workers) + {key};
        }
        rest, done := rest - {key}, done + {key};
      }
    }

    /** Sends the next update of a sequence, after those already answered. */
    method SendNext(leader: Pod, update: Update, pod: Pod, ghost t: seq<Request>, ghost calls: seq<Option<Call>>,
                    ghost sent: seq<Request>, ghost lists: Lists) returns (ok: bool, ghost more: seq<Request>)
      requires Valid() && net.sent == sent + t && net.lists == Replay(lists, t)
      requires Confirmed(t, leader, calls) && |t| < |calls| && calls[|t|] == CallFor(update, pod)
      modifies net, net.servers.Values
      ensures Valid() && net.sent == sent + more && net.lists == Replay(lists, more)
      ensures if ok then |more| == |t| + 1 && Confirmed(more, leader, calls)
              else UntilFailure(more, leader, calls, false)
    {
      ghost var attempt;
      if update.Adding? {
        ok, attempt := AddNode(leader, pod);
      } else {
        ok, attempt := RemoveNode(leader, pod);
      }
      LogGrows(sent, lists, t, attempt);
      ConfirmedGrows(t, attempt, leader, calls, ok);
      more := t + attempt;
    }

    /** Sends one update for each pod, up to the first error. */
    method SendEach(leader: Pod, update: Update, pods: seq<Pod>, ghost t: seq<Request>, ghost calls: seq<Option<Call>>,
                    ghost sent: seq<Request>, ghost lists: Lists) returns (ok: bool, ghost more: seq<Request>)
      requires Valid() && net.sent == sent + t && net.lists == Replay(lists, t)
      requires Confirmed(t, leader, calls) && |t| + |pods| <= |calls|
      requires forall i :: 0 <= i < |pods| ==> calls[|t| + i] == CallFor(update, pods[i])
      modifies net, net.servers.Values
      ensures Valid() && net.sent == sent + more && net.lists == Replay(lists, more)
      ensures if ok then |more| == |t| + |pods| && Confirmed(more, leader, calls)
              else UntilFailure(more, leader, calls, false)
    {
      ok, more := true, t;
      for i := 0 to |pods|
        invariant Valid() && net.sent == sent + more && net.lists == Replay(lists, more)
        invariant |more| == |t| + i && ok && Confirmed(more, leader, calls)
      {
        ok, more := SendNext(leader, update, pods[i], more, calls, sent, lists);
        if !ok {
          return;
        }
      }
    }

    /** Sends the adds, then the removes, up to the first error. */
    method SendUpdates(leader: Pod, neededToAdd: seq<Pod>, neededToRemove: seq<Pod>)
      returns (ok: bool, ghost t: seq<Request>)
      requires Valid()
      modifies net, net.servers.Values
      ensures Valid() && net.sent == old(net.sent) + t
      ensures net.lists == Replay(old(net.lists), t)
      ensures UntilFailure(t, leader, CallsFor(Adding, neededToAdd) + CallsFor(Removing, neededToRemove), ok)
    {
      ghost var calls := CallsFor(Adding, neededToAdd) + CallsFor(Removing, neededToRemove);
      ghost var sent, lists := net.sent, net.lists;
      CallsJoined(neededToAdd, neededToRemove);
      ok, t := SendEach(leader, Adding, neededToAdd, [], calls, sent, lists);
      if ok {
        ok, t := SendEach(leader, Removing, neededToRemove, t, calls, sent, lists);
      }
    }

    /** The second half of a pass: reads the ready followers and sends what is missing and what is too much. */
    method UpdateLeader(pod: Pod, existedWorkers: Store, ghost view: Store) returns (ok: bool, ghost t: seq<Request>)
      requires Valid() && view == View(store.clock) && GROUP_LABEL in pod.labels && Receiver(pod).Some? &&
          Keyed(existedWorkers)
      modifies net, net.servers.Values, store
      ensures Valid() && net.sent == old(net.sent) + t
      ensures net.lists == Replay(old(net.lists), t)
      ensures Updates(t, Receiver(pod).value, pod, existedWorkers, view, ok)
    {
      var workers := ListReadyWorkers();
      var neededToAdd, neededToRemove := Compare(workers + [pod], existedWorkers);
      ComparedWorkers(pod, existedWorkers, view, workers, neededToRemove);
      ok, t := SendUpdates(pod, neededToAdd, neededToRemove);
      UpdatesSent(t, pod, existedWorkers, view, neededToAdd, neededToRemove, ok);
    }

    /** Makes a ready leader's list name exactly the ready followers and the leader itself. */
    method ProcessLeader(pod: Pod) returns (ok: bool, ghost p: PassLog)
      requires Valid()
      modifies net, net.servers.Values, store
      ensures Valid() && net.sent == old(net.sent) + p.Trace()
      ensures net.lists == Replay(old(net.lists), p.Trace())
      ensures p.list == old(ListOf(pod)) && p.found == Lookups(store.version, old(store.clock), p.list)
      ensures p.store == View(old(store.clock) + |p.list|)
      ensures Pass(p, pod, ok)
    {
      ghost var list, found := ListOf(pod), Lookups(store.version, store.clock, ListOf(pod));
      ghost var after := store.clock + |list|;
      ghost var view, first, updates := View(after), [], [];
      var existedWorkers := None;
      ok := false;
      if GROUP_LABEL in pod.labels {
        existedWorkers, first := ListExistedWorkers(pod);
        if existedWorkers.Some? {
          assert store.clock == after;
          ok, updates := UpdateLeader(pod, existedWorkers.value, view);
        }
        LogGrows(old(net.sent), old(net.lists), first, updates);
      }
      p := PassLog(list, found, existedWorkers, view, first, updates);
    }

    /** What is done with a pod off the queue, by readiness and role; ok says that the error handler sees no error. */
    method ProcessPod(pod: Pod) returns (ok: bool, ghost t: seq<Request>, ghost p: PassLog)
      requires Valid()
      modifies net, net.servers.Values, store
      ensures Valid() && net.sent == old(net.sent) + t
      ensures net.lists == Replay(old(net.lists), t)
      ensures Handled(pod, View(old(store.clock)), t, p, ok)
      ensures pod.ready && pod.IsLeader() && allNs ==> PassReads(p, old(ListOf(pod)), store.version, old(store.clock))
    {
      ok, t, p := true, [], PassLog([], [], None, map[], [], []);
      if !pod.ready {
        if pod.IsLeader() {
          ok := false;
        } else if pod.IsFollower() {
          ok, t := ProcessUnreadyWorker(pod);
        }
      } else {
        if pod.IsLeader() {
          ok, p := ProcessLeader(pod);
          t := p.Trace();
        } else if pod.IsFollower() {
          ok, t := ProcessReadyWorker(pod);
        }
      }
    }

    /** The informer's handlers: whatever happened to a pod, its snapshot, be it the last, goes on the queue. */
    method Observe(item: Item)
      modifies queue
      ensures queue.state == Next(old(queue.state), Enqueue(item)) && queue.shuttingDown == old(queue.shuttingDown)
      ensures queue.calls == old(queue.calls) + [Requeued(item)]
    {
      queue.AddRateLimited(item);
    }

    /** What comes of an item, given the store and the leader's list as processing finds them: an item that is no pod is
        dropped, a pod is handled. */
    ghost predicate ItemHandled(item: Item, list: seq<Node>, clock: nat, t: seq<Request>, p: PassLog, ok: bool) {
      if item.OtherItem? then ok && t == []
      else
        && Handled(item.pod, View(clock), t, p, ok)
        && (item.pod.ready && item.pod.IsLeader() && allNs ==> PassReads(p, list, store.version, clock))
    }

    /** The list an item's pod has, if it is a leader's. */
    ghost function ItemList(item: Item): seq<Node>
      reads net
    {
      if item.PodItem? then ListOf(item.pod) else []
    }

    /** An item taken is processed, then forgotten or retried, then done. */
    method ProcessItem(item: Item) returns (ghost ok: bool, ghost t: seq<Request>, ghost p: PassLog)
      requires Valid()
      modifies queue, net, net.servers.Values, store
      ensures Valid() && net.sent == old(net.sent) + t
      ensures queue.state == Next(old(queue.state), Finish(item, ok)) && queue.shuttingDown == old(queue.shuttingDown)
      ensures queue.calls == old(queue.calls) + [
                if !ok && old(queue.state).NumRequeues(item) < REQUEUE_LIMIT then Requeued(item) else Forgot(item),
                Finished(item)]
      ensures net.lists == Replay(old(net.lists), t)
      ensures ItemHandled(item, old(ItemList(item)), old(store.clock), t, p, ok)
    {
      var succeeded;
      succeeded, t, p := true, [], PassLog([], [], None, map[], [], []);
      if item.PodItem? {
        succeeded, t, p := ProcessPod(item.pod);
      }
      ok := succeeded;
      queue.HandleError(item, succeeded);
      queue.Done(item);
    }

    /** One round of the worker: an item off the queue is processed, then forgotten or retried, then done. */
    method ProcessNextItem()
      returns (more: bool, ghost item: Item, ghost ok: bool, ghost t: seq<Request>, ghost p: PassLog)
      requires Valid()
      requires queue.state.ready - queue.state.processing != {} || queue.shuttingDown
      modifies queue, net, net.servers.Values, store
      ensures Valid() && net.sent == old(net.sent) + t
      ensures net.lists == Replay(old(net.lists), t)
      ensures !more ==> t == [] && queue.shuttingDown
      ensures !more ==> queue.state == old(queue.state) && queue.calls == old(queue.calls)
      ensures more ==>
        && Enabled(old(queue.state), Start(item))
        && var started := Next(old(queue.state), Start(item));
        && Enabled(started, Finish(item, ok))
        && queue.state == Next(started, Finish(item, ok))
        && queue.calls == old(queue.calls) + [
             Got(item),
             if !ok && old(queue.state).NumRequeues(item) < REQUEUE_LIMIT then Requeued(item) else Forgot(item),
             Finished(item)]
      ensures more ==> ItemHandled(item, old(ItemList(item)), old(store.clock), t, p, ok)
    {
      more, ok, t := false, true, [];
      p := PassLog([], [], None, map[], [], []);
      item := OtherItem(0);
      var next := queue.Get();
      if next.Some? {
        more, item := true, next.value;
        ok, t, p := ProcessItem(next.value);
      }
    }
  }
}
