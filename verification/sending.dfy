/** The requests the registration controller sends for one pod, step by step: what each step may add to the trace. */
module Sending {
  import opened Options
  import opened Spec
  import opened Pods
  import opened Nodes
  import opened Stores
  import opened Traces
  import opened LeaderPass

  datatype Update = Adding | Removing

  function CallFor(update: Update, pod: Pod): Option<Call> {
    if NodeOf(pod).None? then None
    else if update.Adding? then Some(AddCall(NodeOf(pod).value))
    else Some(RemoveCall(NodeOf(pod).value))
  }

  /** At most one request was sent: none if the leader's address or the node cannot be read. */
  ghost predicate Attempt(t: seq<Request>, leader: Pod, call: Option<Call>, ok: bool) {
    if Receiver(leader).None? || call.None? then !ok && t == []
    else |t| == 1 && Receiver(leader) == Some(t[0].to) && call == Some(t[0].call) && (ok <==> t[0].fate.Delivered?)
  }

  /** What the lookups of a list's names see when the first of them is read number clock. */
  function Lookups(version: nat -> Store, clock: nat, list: seq<Node>): (found: seq<Option<Pod>>)
    ensures |found| == |list|
  {
    seq(|list|, k requires 0 <= k < |list| => Lookup(version(clock + k), list[k].name))
  }

  function ReadyLeaders(store: Store): set<string> {
    set k | k in store && store[k].ready && store[k].IsLeader()
  }

  function LeaderAddresses(store: Store): set<string> {
    set k | k in ReadyLeaders(store) && Receiver(store[k]).Some? :: Receiver(store[k]).value
  }

  ghost predicate LeadersReachable(store: Store) {
    forall k :: k in ReadyLeaders(store) ==> Receiver(store[k]).Some?
  }

  /** The requests went to different ready leaders of the store, to these in this order. */
  ghost predicate InTurn(t: seq<Request>, store: Store, leaders: seq<string>) {
    && |t| == |leaders|
    && (forall i, j :: 0 <= i < j < |leaders| ==> leaders[i] != leaders[j])
    && forall i :: 0 <= i < |t| ==> leaders[i] in ReadyLeaders(store) && Receiver(store[leaders[i]]) == Some(t[i].to)
  }

  /** No ready leader got two requests, and each got one if it is to be all of them. */
  ghost predicate EachOnce(t: seq<Request>, store: Store, all: bool) {
    exists leaders :: InTurn(t, store, leaders) && (all ==> forall k :: k in ReadyLeaders(store) ==> k in leaders)
  }

  /** One worker announced to, or withdrawn from, the ready leaders of the store: one request each, up to the first that
      is not answered. */
  ghost predicate FanOut(t: seq<Request>, update: Update, pod: Pod, store: Store, ok: bool) {
    && (forall i :: 0 <= i < |t| ==> Some(t[i].call) == CallFor(update, pod))
    && StopsAtFailure(t)
    && EachOnce(t, store, ok)
    && (GROUP_LABEL !in pod.labels ==> !ok && t == [])
    && (ok ==> AllDelivered(t))
    && (!ok && AllDelivered(t) && GROUP_LABEL in pod.labels ==>
          ReadyLeaders(store) != {} && (!Codable(pod) || !LeadersReachable(store)))
  }

  /** One delivered request of the pod to each of the leaders, in order. */
  ghost predicate SentTo(t: seq<Request>, update: Update, pod: Pod, leaders: seq<Pod>) {
    && |t| == |leaders|
    && forall i :: 0 <= i < |t| ==>
         Receiver(leaders[i]) == Some(t[i].to) && CallFor(update, pod) == Some(t[i].call) && t[i].fate.Delivered?
  }

  /** A pod that cannot be announced, or no leader to announce it to. */
  lemma NothingToSend(update: Update, pod: Pod, store: Store, ok: bool)
    requires ok <==> GROUP_LABEL in pod.labels
    requires ok ==> ReadyLeaders(store) == {}
    ensures FanOut([], update, pod, store, ok)
  {
    assert InTurn([], store, []);
  }

  lemma SentInTurn(t: seq<Request>, leaders: seq<Pod>, store: Store)
    requires |t| <= |leaders| && Enumerates(leaders, store, ReadyLeaders(store))
    requires forall i :: 0 <= i < |t| ==> Receiver(leaders[i]) == Some(t[i].to)
    ensures InTurn(t, store, seq(|t|, i requires 0 <= i < |t| => leaders[i].Key()))
  {
    assert forall i :: 0 <= i < |t| ==> leaders[i].Key() in KeysOf(leaders);
  }

  /** The requests answered so far, and then one that is not or cannot be made. */
  lemma SentThenFailed(t: seq<Request>, attempt: seq<Request>, update: Update, pod: Pod, leaders: seq<Pod>, i: nat)
    requires i < |leaders|
    requires SentTo(t, update, pod, leaders[..i]) && Attempt(attempt, leaders[i], CallFor(update, pod), false)
    ensures |t + attempt| <= |leaders| && StopsAtFailure(t + attempt)
    ensures forall j :: 0 <= j < |t + attempt| ==>
              Receiver(leaders[j]) == Some((t + attempt)[j].to) && CallFor(update, pod) == Some((t + attempt)[j].call)
    ensures attempt != [] ==> !AllDelivered(t + attempt)
  {
    assert forall j :: 0 <= j < i ==> leaders[..i][j] == leaders[j];
    if attempt != [] {
      assert (t + attempt)[|t|] == attempt[0];
    }
  }

  lemma FanOutStops(t: seq<Request>, attempt: seq<Request>, update: Update, pod: Pod, leaders: seq<Pod>, i: nat,
                    store: Store)
    requires GROUP_LABEL in pod.labels
    requires i < |leaders| && Enumerates(leaders, store, ReadyLeaders(store))
    requires SentTo(t, update, pod, leaders[..i]) && Attempt(attempt, leaders[i], CallFor(update, pod), false)
    ensures FanOut(t + attempt, update, pod, store, false)
  {
    SentThenFailed(t, attempt, update, pod, leaders, i);
    SentInTurn(t + attempt, leaders, store);
    assert EachOnce(t + attempt, store, false);
    assert leaders[i].Key() in KeysOf(leaders);
  }

  lemma FanOutExtends(t: seq<Request>, attempt: seq<Request>, update: Update, pod: Pod, leaders: seq<Pod>, i: nat,
                      store: Store, ok: bool)
    requires GROUP_LABEL in pod.labels
    requires i < |leaders| && Enumerates(leaders, store, ReadyLeaders(store))
    requires SentTo(t, update, pod, leaders[..i]) && Attempt(attempt, leaders[i], CallFor(update, pod), ok)
    ensures ok ==> SentTo(t + attempt, update, pod, leaders[..i + 1])
    ensures !ok ==> FanOut(t + attempt, update, pod, store, false)
  {
    assert forall j :: 0 <= j < i ==> leaders[..i][j] == leaders[j];
    if !ok {
      FanOutStops(t, attempt, update, pod, leaders, i, store);
    }
  }

  lemma FanOutCompletes(t: seq<Request>, update: Update, pod: Pod, leaders: seq<Pod>, store: Store)
    requires GROUP_LABEL in pod.labels
    requires Enumerates(leaders, store, ReadyLeaders(store)) && SentTo(t, update, pod, leaders)
    ensures FanOut(t, update, pod, store, true)
  {
    SentInTurn(t, leaders, store);
    var keys := seq(|t|, i requires 0 <= i < |t| => leaders[i].Key());
    forall k | k in ReadyLeaders(store)
      ensures k in keys
    {
      var i :| 0 <= i < |leaders| && leaders[i].Key() == k;
      assert keys[i] == k;
    }
  }

  lemma StaleRemovalsExtend(t: seq<Request>, attempt: seq<Request>, leader: Pod, stale: seq<Node>, i: nat)
    requires i < |stale| && Receiver(leader).Some?
    requires StaleRemovals(t, Receiver(leader).value, stale[..i])
    requires |attempt| == 1 && Receiver(leader) == Some(attempt[0].to) && attempt[0].call == RemoveCall(stale[i])
    ensures StaleRemovals(t + attempt, Receiver(leader).value, stale[..i + 1])
  {
  }

  lemma ListingChangesNothing(lists: Lists, t: seq<Request>, leader: Pod, ok: bool)
    requires Attempt(t, leader, Some(ListCall), ok)
    ensures Replay(lists, t) == lists
  {
    if t != [] {
      assert t[..0] == [];
    }
  }

  lemma ReadPartCompletes(r: Request, removals: seq<Request>, leader: Pod, list: seq<Node>, found: seq<Option<Pod>>)
    requires |list| == |found|
    requires Receiver(leader) == Some(r.to) && r.call.ListCall? && r.fate.Delivered?
    requires StaleRemovals(removals, r.to, Stale(list, found))
    ensures ReadPart([r] + removals, leader, list, found, Some(Existed(list, found)))
  {
    assert ([r] + removals)[1..] == removals;
  }

  /** The pods whose key is not listed, in order. */
  function Unlisted(pods: seq<Pod>, listed: Store): seq<Pod> {
    if pods == [] then []
    else
      var rest, last := Unlisted(pods[..|pods| - 1], listed), pods[|pods| - 1];
      if last.Key() in listed then rest else rest + [last]
  }

  function CallsFor(update: Update, pods: seq<Pod>): (calls: seq<Option<Call>>)
    ensures |calls| == |pods| && forall i :: 0 <= i < |pods| ==> calls[i] == CallFor(update, pods[i])
  {
    seq(|pods|, i requires 0 <= i < |pods| => CallFor(update, pods[i]))
  }

  lemma CallsJoined(adds: seq<Pod>, removes: seq<Pod>)
    ensures var calls := CallsFor(Adding, adds) + CallsFor(Removing, removes);
      && |calls| == |adds| + |removes|
      && (forall i :: 0 <= i < |adds| ==> calls[i] == CallFor(Adding, adds[i]))
      && (forall i :: 0 <= i < |removes| ==> calls[|adds| + i] == CallFor(Removing, removes[i]))
  {
    var first, second := CallsFor(Adding, adds), CallsFor(Removing, removes);
    forall i | 0 <= i < |removes|
      ensures (first + second)[|adds| + i] == CallFor(Removing, removes[i])
    {
      assert (first + second)[|first| + i] == second[i];
    }
  }

  /** The first calls went to the leader and were answered. */
  ghost predicate Confirmed(t: seq<Request>, leader: Pod, calls: seq<Option<Call>>) {
    && |t| <= |calls|
    && forall i :: 0 <= i < |t| ==>
         Receiver(leader) == Some(t[i].to) && calls[i] == Some(t[i].call) && t[i].fate.Delivered?
  }

  /** The calls went to the leader in order, up to the first that could not be made or was not answered. */
  ghost predicate UntilFailure(t: seq<Request>, leader: Pod, calls: seq<Option<Call>>, ok: bool) {
    && |t| <= |calls|
    && (forall i :: 0 <= i < |t| ==> Receiver(leader) == Some(t[i].to) && calls[i] == Some(t[i].call))
    && StopsAtFailure(t)
    && (ok ==> |t| == |calls| && AllDelivered(t))
    && (!ok ==> !AllDelivered(t) || (|t| < |calls| && (Receiver(leader).None? || calls[|t|].None?)))
  }

  lemma ConfirmedGrows(t: seq<Request>, attempt: seq<Request>, leader: Pod, calls: seq<Option<Call>>, ok: bool)
    requires Confirmed(t, leader, calls) && |t| < |calls| && Attempt(attempt, leader, calls[|t|], ok)
    ensures ok ==> |t + attempt| == |t| + 1 && Confirmed(t + attempt, leader, calls)
    ensures !ok ==> UntilFailure(t + attempt, leader, calls, false)
  {
    if attempt != [] {
      assert (t + attempt)[|t|] == attempt[0];
    }
  }

  lemma {:induction false} UnlistedOutcome(pods: seq<Pod>, listed: Store)
    ensures forall p :: p in Unlisted(pods, listed) <==> p in pods && p.Key() !in listed
    ensures DistinctKeys(pods) ==> DistinctKeys(Unlisted(pods, listed))
  {
    if pods != [] {
      var init, last := pods[..|pods| - 1], pods[|pods| - 1];
      UnlistedOutcome(init, listed);
      assert pods == init + [last];
    }
  }

  /** The pods of a pass: the ready followers of the store and the leader, cut into those to add and those to remove. */
  ghost predicate Compared(leader: Pod, existed: Store, store: Store, toAdd: seq<Pod>, toRemove: seq<Pod>) {
    && Keyed(existed)
    && (forall i :: 0 <= i < |toAdd| ==>
          && toAdd[i].Key() in Desired(store, leader) - existed.Keys
          && (toAdd[i] == leader || (toAdd[i].Key() in ReadyFollowers(store) && toAdd[i] == store[toAdd[i].Key()])))
    && KeysOf(toAdd) == Desired(store, leader) - existed.Keys
    && Enumerates(toRemove, existed, existed.Keys - Desired(store, leader))
    && (leader.Key() !in ReadyFollowers(store) ==> DistinctKeys(toAdd))
  }

  lemma MissingWorkers(leader: Pod, existed: Store, store: Store, workers: seq<Pod>)
    requires KeysOf(workers) == Desired(store, leader)
    ensures KeysOf(Unlisted(workers, existed)) == Desired(store, leader) - existed.Keys
  {
    UnlistedOutcome(workers, existed);
    var toAdd := Unlisted(workers, existed);
    assert forall i :: 0 <= i < |toAdd| ==> toAdd[i] in toAdd;
    forall k | k in Desired(store, leader) - existed.Keys
      ensures k in KeysOf(toAdd)
    {
      var i :| 0 <= i < |workers| && workers[i].Key() == k;
      assert workers[i] in toAdd;
    }
  }

  lemma ComparedWorkers(leader: Pod, existed: Store, store: Store, ready: seq<Pod>, toRemove: seq<Pod>)
    requires Keyed(existed) && Enumerates(ready, store, ReadyFollowers(store))
    requires Enumerates(toRemove, existed, existed.Keys - KeysOf(ready + [leader]))
    ensures Compared(leader, existed, store, Unlisted(ready + [leader], existed), toRemove)
  {
    var workers := ready + [leader];
    KeysOfSnoc(ready, leader);
    UnlistedOutcome(workers, existed);
    MissingWorkers(leader, existed, store, workers);
    var toAdd := Unlisted(workers, existed);
    forall i | 0 <= i < |toAdd|
      ensures toAdd[i].Key() in Desired(store, leader) - existed.Keys
      ensures toAdd[i] == leader || Lookup(store, toAdd[i].Key()) == Some(toAdd[i])
    {
      assert toAdd[i] in toAdd && toAdd[i] in workers;
      assert toAdd[i].Key() in KeysOf(toAdd);
    }
    if leader.Key() !in ReadyFollowers(store) {
      DistinctWithLast(ready, leader);
    }
  }

  lemma DistinctWithLast(pods: seq<Pod>, pod: Pod)
    requires DistinctKeys(pods) && pod.Key() !in KeysOf(pods)
    ensures DistinctKeys(pods + [pod])
  {
    assert forall i :: 0 <= i < |pods| ==> pods[i].Key() in KeysOf(pods);
  }

  /** Request number i is the add of toAdd[i], or past those the remove of the next of toRemove. */
  ghost predicate InOrder(u: seq<Request>, leader: Pod, toAdd: seq<Pod>, toRemove: seq<Pod>) {
    && |u| <= |toAdd| + |toRemove|
    && forall i :: 0 <= i < |u| ==>
         var pod := if i < |toAdd| then toAdd[i] else toRemove[i - |toAdd|];
         && Receiver(leader) == Some(u[i].to)
         && u[i].call.AddCall? == (i < |toAdd|) && u[i].call.RemoveCall? == (i >= |toAdd|)
         && NodeOf(pod) == Some(u[i].call.node) && pod.Key() == u[i].call.node.name
  }

  lemma CallsInOrder(u: seq<Request>, leader: Pod, toAdd: seq<Pod>, toRemove: seq<Pod>, ok: bool)
    requires UntilFailure(u, leader, CallsFor(Adding, toAdd) + CallsFor(Removing, toRemove), ok)
    ensures InOrder(u, leader, toAdd, toRemove)
    ensures ok ==> |u| == |toAdd| + |toRemove|
    ensures !ok ==> !AllDelivered(u) || Receiver(leader).None? ||
                    (exists i :: 0 <= i < |toAdd| && !Codable(toAdd[i])) ||
                        (exists i :: 0 <= i < |toRemove| && !Codable(toRemove[i]))
  {
    CallsByPod(toAdd, toRemove);
  }

  lemma CallsByPod(toAdd: seq<Pod>, toRemove: seq<Pod>)
    ensures var calls := CallsFor(Adding, toAdd) + CallsFor(Removing, toRemove);
      && |calls| == |toAdd| + |toRemove|
      && forall i :: 0 <= i < |calls| ==>
           calls[i] == if i < |toAdd| then CallFor(Adding, toAdd[i]) else CallFor(Removing, toRemove[i - |toAdd|])
  {
  }

  lemma NamesInOrder(u: seq<Request>, leader: Pod, toAdd: seq<Pod>, toRemove: seq<Pod>)
    requires InOrder(u, leader, toAdd, toRemove) && |u| == |toAdd| + |toRemove|
    ensures AddNames(u) == KeysOf(toAdd) && RemoveNames(u) == KeysOf(toRemove)
  {
    var n := |toAdd|;
    forall i | 0 <= i < n
      ensures toAdd[i].Key() in AddNames(u)
    {
      assert u[i].call.node.name == toAdd[i].Key();
    }
    forall i | 0 <= i < |toRemove|
      ensures toRemove[i].Key() in RemoveNames(u)
    {
      assert u[n + i].call.node.name == toRemove[i].Key();
    }
  }

  lemma DistinctInOrder(u: seq<Request>, leader: Pod, toAdd: seq<Pod>, toRemove: seq<Pod>)
    requires InOrder(u, leader, toAdd, toRemove)
    requires DistinctKeys(toAdd) && DistinctKeys(toRemove) && KeysOf(toAdd) !! KeysOf(toRemove)
    ensures DistinctCalls(u)
  {
    assert forall i :: 0 <= i < |toAdd| ==> toAdd[i].Key() in KeysOf(toAdd);
    assert forall i :: 0 <= i < |toRemove| ==> toRemove[i].Key() in KeysOf(toRemove);
  }

  lemma UpdatesSent(u: seq<Request>, leader: Pod, existed: Store, store: Store, toAdd: seq<Pod>, toRemove: seq<Pod>,
                    ok: bool)
    requires Receiver(leader).Some? && Compared(leader, existed, store, toAdd, toRemove)
    requires UntilFailure(u, leader, CallsFor(Adding, toAdd) + CallsFor(Removing, toRemove), ok)
    ensures Updates(u, Receiver(leader).value, leader, existed, store, ok)
  {
    CallsInOrder(u, leader, toAdd, toRemove, ok);
    OrderedUpdates(u, leader, existed, store, toAdd, toRemove, ok);
  }

  lemma OrderedUpdates(u: seq<Request>, leader: Pod, existed: Store, store: Store, toAdd: seq<Pod>, toRemove: seq<Pod>,
                       ok: bool)
    requires Receiver(leader).Some? && Compared(leader, existed, store, toAdd, toRemove) &&
        InOrder(u, leader, toAdd, toRemove)
    requires StopsAtFailure(u) && (ok ==> |u| == |toAdd| + |toRemove| && AllDelivered(u))
    requires !ok ==> !AllDelivered(u) ||
                     (exists i :: 0 <= i < |toAdd| && !Codable(toAdd[i])) ||
                         (exists i :: 0 <= i < |toRemove| && !Codable(toRemove[i]))
    ensures Updates(u, Receiver(leader).value, leader, existed, store, ok)
  {
    if ok {
      NamesInOrder(u, leader, toAdd, toRemove);
    }
    if leader.Key() !in ReadyFollowers(store) {
      DistinctInOrder(u, leader, toAdd, toRemove);
    }
    assert forall i :: 0 <= i < |toRemove| ==> toRemove[i].Key() in KeysOf(toRemove);
  }

  /** What processing a pod sends and how it ends, by the pod's readiness and role. A leader that is not ready is an
      error, a pod of another role is dropped without one. */
  ghost predicate Handled(pod: Pod, view: Store, t: seq<Request>, p: PassLog, ok: bool) {
    if pod.IsLeader() then
      if pod.ready then Pass(p, pod, ok) && t == p.Trace() else !ok && t == []
    else if pod.IsFollower() then FanOut(t, if pod.ready then Adding else Removing, pod, view, ok)
    else ok && t == []
  }

  lemma SuccessNeedsAddresses(t: seq<Request>, update: Update, pod: Pod, store: Store)
    requires FanOut(t, update, pod, store, true) && ReadyLeaders(store) != {}
    ensures Codable(pod) && LeadersReachable(store)
  {
    forall k | k in ReadyLeaders(store)
      ensures Codable(pod) && Receiver(store[k]).Some?
    {
      var leaders :| InTurn(t, store, leaders) && forall k :: k in ReadyLeaders(store) ==> k in leaders;
      var i :| 0 <= i < |leaders| && leaders[i] == k;
      assert Some(t[i].call) == CallFor(update, pod);
    }
    var k :| k in ReadyLeaders(store);
  }

  /** What a handling answers, and so what is retried. A leader that is not ready fails without a request. A follower
      succeeds exactly when it carries the group label and every ready leader could be addressed and answered. A pod of
      another role succeeds without a request. */
  lemma HandlingAnswers(pod: Pod, view: Store, t: seq<Request>, p: PassLog, ok: bool)
    requires Handled(pod, view, t, p, ok)
    ensures pod.IsLeader() && !pod.ready ==> !ok && t == []
    ensures pod.IsFollower() ==>
      (ok <==> && GROUP_LABEL in pod.labels && AllDelivered(t)
               && (ReadyLeaders(view) == {} || (Codable(pod) && LeadersReachable(view))))
    ensures !pod.IsLeader() && !pod.IsFollower() ==> ok && t == []
  {
    if pod.IsFollower() && ok && ReadyLeaders(view) != {} {
      SuccessNeedsAddresses(t, if pod.ready then Adding else Removing, pod, view);
    }
  }

  /** What the pass over a ready leader started from: its list, looked up from one store read on, then the listing. */
  ghost predicate PassReads(p: PassLog, list: seq<Node>, view: nat -> Store, clock: nat) {
    p.list == list && p.found == Lookups(view, clock, list) && p.store == view(clock + |list|)
  }
}
