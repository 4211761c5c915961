/** What holds of the node lists after any run whatever: stale snapshots, stores that change at any time, requests that
    are lost, in any order. */
module History {
  import opened Spec
  import opened Pods
  import opened Nodes
  import opened Stores
  import opened Traces
  import opened LeaderPass
  import opened Sending

  /** One pod handled: the store its fan-out saw, what it sent, and, for a leader, its pass. */
  datatype Handling = Handling(pod: Pod, view: Store, t: seq<Request>, p: PassLog, ok: bool)

  ghost predicate Happened(h: Handling) {
    Handled(h.pod, h.view, h.t, h.p, h.ok)
  }

  /** The keys under which the run has seen a ready follower. */
  function Observed(run: seq<Handling>): set<string> {
    if run == [] then {}
    else
      var h := run[|run| - 1];
      Observed(run[..|run| - 1])
        + (if h.pod.ready && h.pod.IsFollower() then {h.pod.Key()} else {})
        + (if h.pod.ready && h.pod.IsLeader() then ReadyFollowers(h.p.store) else {})
  }

  function Sent(run: seq<Handling>): seq<Request> {
    if run == [] then [] else Sent(run[..|run| - 1]) + run[|run| - 1].t
  }

  /** Each ready leader handled in the run is the one that lives at its address. */
  ghost predicate Residents(run: seq<Handling>, resident: map<string, string>) {
    forall i :: 0 <= i < |run| && run[i].pod.IsLeader() && run[i].pod.ready && Receiver(run[i].pod).Some? ==>
      Receiver(run[i].pod).value in resident && resident[Receiver(run[i].pod).value] == run[i].pod.Key()
  }

  /** The names a list may hold: the observed followers, and the leader that lives there. */
  function Legitimate(observed: set<string>, resident: map<string, string>, to: string): set<string> {
    observed + if to in resident then {resident[to]} else {}
  }

  ghost predicate AddsLegitimately(t: seq<Request>, observed: set<string>, resident: map<string, string>) {
    forall i :: 0 <= i < |t| && t[i].call.AddCall? ==> t[i].call.node.name in Legitimate(observed, resident, t[i].to)
  }

  lemma HandlingAddsLegitimately(h: Handling, observed: set<string>, resident: map<string, string>)
    requires Happened(h) && Residents([h], resident)
    requires h.pod.ready && h.pod.IsFollower() ==> h.pod.Key() in observed
    requires h.pod.ready && h.pod.IsLeader() ==> ReadyFollowers(h.p.store) <= observed
    ensures AddsLegitimately(h.t, observed, resident)
  {
    if h.pod.IsLeader() && h.pod.ready && GROUP_LABEL in h.pod.labels {
      var first, u := h.p.first, h.p.updates;
      assert [h][0] == h;
      FirstPartCalls(first, h.pod, h.p.list, h.p.found, h.p.existed);
      assert forall i :: 0 <= i < |first| && first[i].call.AddCall? ==> first[i].call.node.name in AddNames(first);
    }
  }

  lemma {:induction false} RunAddsLegitimately(run: seq<Handling>, resident: map<string, string>)
    requires forall i :: 0 <= i < |run| ==> Happened(run[i])
    requires Residents(run, resident)
    ensures AddsLegitimately(Sent(run), Observed(run), resident)
  {
    if run != [] {
      var init, h := run[..|run| - 1], run[|run| - 1];
      RunAddsLegitimately(init, resident);
      HandlingAddsLegitimately(h, Observed(run), resident);
    }
  }

  lemma {:induction false} LegitimateLists(lists: Lists, t: seq<Request>, observed: set<string>,
                                           resident: map<string, string>, to: string)
    requires to in lists && lists[to] == [] && AddsLegitimately(t, observed, resident)
    ensures to in Replay(lists, t)
    ensures Names(Replay(lists, t)[to]) <= Legitimate(observed, resident, to)
  {
    ReplayKeys(lists, t);
    if t != [] {
      var init, r := t[..|t| - 1], t[|t| - 1];
      ReplayKeys(lists, init);
      LegitimateLists(lists, init, observed, resident, to);
      var list := Replay(lists, init)[to];
      if r.to == to && !r.call.ListCall? {
        AddedNames(list, r.call.node);
        WithoutNames(list, r.call.node.name);
      }
    }
  }

  /** From empty lists, after any run: no list names anything twice, and it names only followers once seen ready and the
      leader living at its address. */
  lemma HistoryInvariant(run: seq<Handling>, lists: Lists, resident: map<string, string>, to: string)
    requires forall i :: 0 <= i < |run| ==> Happened(run[i])
    requires Residents(run, resident) && to in lists && lists[to] == []
    ensures to in Replay(lists, Sent(run)) && Unique(Replay(lists, Sent(run))[to])
    ensures NamesAt(Replay(lists, Sent(run)), to) <= Legitimate(Observed(run), resident, to)
  {
    RunAddsLegitimately(run, resident);
    LegitimateLists(lists, Sent(run), Observed(run), resident, to);
    ReplayKeepsUnique(lists, Sent(run), to);
  }

  /** So, roles being fixed, no leader ever lists another leader. */
  lemma NoLeaderListsAnother(run: seq<Handling>, lists: Lists, resident: map<string, string>, to: string,
      leader: string)
    requires forall i :: 0 <= i < |run| ==> Happened(run[i])
    requires Residents(run, resident) && to in lists && lists[to] == []
    requires leader !in Observed(run)
    requires leader in NamesAt(Replay(lists, Sent(run)), to)
    ensures to in resident && resident[to] == leader
  {
    HistoryInvariant(run, lists, resident, to);
  }
}
