/** What a sequence of requests, each delivered or not, does to the set of names a leader lists. */
module Traces {
  import opened Nodes

  function AddNames(t: seq<Request>): set<string> {
    set i | 0 <= i < |t| && t[i].call.AddCall? :: t[i].call.node.name
  }

  function RemoveNames(t: seq<Request>): set<string> {
    set i | 0 <= i < |t| && t[i].call.RemoveCall? :: t[i].call.node.name
  }

  /** The names listed at an address. */
  function NamesAt(lists: Lists, to: string): set<string> {
    if to in lists then Names(lists[to]) else {}
  }

  predicate AddsName(r: Request, to: string, name: string) {
    r.to == to && r.call.AddCall? && r.call.node.name == name
  }

  predicate RemovesName(r: Request, to: string, name: string) {
    r.to == to && r.call.RemoveCall? && r.call.node.name == name
  }

  lemma ApplyNames(lists: Lists, r: Request, to: string, name: string)
    requires to in lists
    ensures AddsName(r, to, name) && !r.fate.Lost? ==> name in NamesAt(Apply(lists, r), to)
    ensures RemovesName(r, to, name) && !r.fate.Lost? ==> name !in NamesAt(Apply(lists, r), to)
    ensures (!AddsName(r, to, name) && !RemovesName(r, to, name)) || r.fate.Lost? ==>
              (name in NamesAt(Apply(lists, r), to) <==> name in NamesAt(lists, to))
  {
    if r.to == to {
      match r.call
      case ListCall =>
      case AddCall(node) => AddedNames(lists[to], node);
      case RemoveCall(node) => WithoutNames(lists[to], node.name);
    }
  }

  /** The fate of one name: present names stay unless removed, absent names stay out unless added, and one arrived add
      or remove decides when no request of the other kind carries the name. */
  lemma {:induction false} NameAfter(lists: Lists, t: seq<Request>, to: string, name: string)
    requires to in lists
    ensures to in Replay(lists, t)
    ensures (forall i :: 0 <= i < |t| ==> !RemovesName(t[i], to, name)) ==>
              (name in NamesAt(Replay(lists, t), to) <==>
               name in NamesAt(lists, to) || (exists i :: 0 <= i < |t| && AddsName(t[i], to, name) && !t[i].fate.Lost?))
    ensures (forall i :: 0 <= i < |t| ==> !AddsName(t[i], to, name)) ==>
              (name in NamesAt(Replay(lists, t), to) <==>
               name in NamesAt(lists, to) && EveryRemovalLost(t, to, name))
  {
    ReplayKeys(lists, t);
    if t != [] {
      var init, r := t[..|t| - 1], t[|t| - 1];
      assert forall i :: 0 <= i < |init| ==> t[i] == init[i];
      NameAfter(lists, init, to, name);
      ApplyNames(Replay(lists, init), r, to, name);
    }
  }

  /** Lists no request is sent to keep their contents. */
  lemma {:induction false} Untouched(lists: Lists, t: seq<Request>, to: string)
    requires to in lists && forall i :: 0 <= i < |t| ==> t[i].to != to
    ensures to in Replay(lists, t) && Replay(lists, t)[to] == lists[to]
  {
    if t != [] {
      Untouched(lists, t[..|t| - 1], to);
    }
  }

  function SymmetricDifference(a: set<string>, b: set<string>): set<string> {
    (a - b) + (b - a)
  }

  /** The request adds only desired names and removes only undesired ones. */
  predicate Towards(r: Request, desired: set<string>) {
    match r.call
    case ListCall => true
    case AddCall(node) => node.name in desired
    case RemoveCall(node) => node.name !in desired
  }

  /** Requests that point towards a goal never move a list away from it, whichever of them arrive. */
  lemma TowardsNeverMovesAway(lists: Lists, t: seq<Request>, to: string, desired: set<string>)
    requires to in lists && forall i :: 0 <= i < |t| ==> Towards(t[i], desired)
    ensures desired * NamesAt(lists, to) <= NamesAt(Replay(lists, t), to) <= desired + NamesAt(lists, to)
    ensures SymmetricDifference(NamesAt(Replay(lists, t), to), desired) <=
            SymmetricDifference(NamesAt(lists, to), desired)
  {
    forall name
      ensures name in desired && name in NamesAt(lists, to) ==> name in NamesAt(Replay(lists, t), to)
      ensures name !in desired && name !in NamesAt(lists, to) ==> name !in NamesAt(Replay(lists, t), to)
    {
      NameAfter(lists, t, to, name);
    }
  }

  /** The removals of a name sent to an address never arrived. */
  ghost predicate EveryRemovalLost(t: seq<Request>, to: string, name: string) {
    forall i :: 0 <= i < |t| && RemovesName(t[i], to, name) ==> t[i].fate.Lost?
  }

  lemma RemovalLostAppend(t1: seq<Request>, t2: seq<Request>, to: string, name: string)
    requires EveryRemovalLost(t1, to, name) && name !in RemoveNames(t2)
    ensures EveryRemovalLost(t1 + t2, to, name)
  {
    var t := t1 + t2;
    assert forall i :: |t1| <= i < |t| ==> t[i] == t2[i - |t1|];
  }

  lemma DeliveredAppend(t1: seq<Request>, t2: seq<Request>)
    ensures AllDelivered(t1 + t2) <==> AllDelivered(t1) && AllDelivered(t2)
  {
    var t := t1 + t2;
    assert forall i :: 0 <= i < |t1| ==> t[i] == t1[i];
    assert forall i :: 0 <= i < |t2| ==> t[|t1| + i] == t2[i];
  }

  lemma CallNamesAppend(t1: seq<Request>, t2: seq<Request>)
    ensures AddNames(t1 + t2) == AddNames(t1) + AddNames(t2)
    ensures RemoveNames(t1 + t2) == RemoveNames(t1) + RemoveNames(t2)
  {
    var t := t1 + t2;
    assert forall i :: 0 <= i < |t1| ==> t[i] == t1[i];
    assert forall i :: 0 <= i < |t2| ==> t[|t1| + i] == t2[i];
  }

  /** Delivered requests to one address, none of them both added and removed, add and remove exactly what they name. */
  lemma DeliveredRequests(lists: Lists, t: seq<Request>, to: string)
    requires to in lists && AllDelivered(t) && AddNames(t) !! RemoveNames(t)
    requires forall i :: 0 <= i < |t| ==> t[i].to == to
    ensures NamesAt(Replay(lists, t), to) == NamesAt(lists, to) + AddNames(t) - RemoveNames(t)
  {
    forall name
      ensures name in NamesAt(Replay(lists, t), to) <==> name in NamesAt(lists, to) + AddNames(t) - RemoveNames(t)
    {
      NameAfter(lists, t, to, name);
      if name in AddNames(t) {
        var i :| 0 <= i < |t| && AddsName(t[i], to, name);
        assert !t[i].fate.Lost?;
      } else if name in RemoveNames(t) {
        var i :| 0 <= i < |t| && RemovesName(t[i], to, name);
        assert !t[i].fate.Lost?;
      }
    }
  }

  /** The names carried by updates. */
  function CallNames(t: seq<Request>): set<string> {
    AddNames(t) + RemoveNames(t)
  }

  ghost predicate DistinctCalls(t: seq<Request>) {
    forall i, j :: 0 <= i < j < |t| && !t[i].call.ListCall? && !t[j].call.ListCall? ==>
      t[i].call.node.name != t[j].call.node.name
  }

  lemma CallNamesSnoc(t: seq<Request>, r: Request)
    requires !r.call.ListCall?
    ensures CallNames(t + [r]) == CallNames(t) + {r.call.node.name}
  {
    CallNamesAppend(t, [r]);
    assert [r][0] == r;
  }

  lemma LastCallIsNew(t: seq<Request>, r: Request)
    requires DistinctCalls(t + [r]) && forall i :: 0 <= i < |t + [r]| ==> !(t + [r])[i].call.ListCall?
    requires !r.call.ListCall?
    ensures DistinctCalls(t) && r.call.node.name !in CallNames(t)
  {
    assert forall i :: 0 <= i < |t| ==> t[i] == (t + [r])[i];
    assert r == (t + [r])[|t|];
  }

  lemma {:induction false} DistinctCallsCount(t: seq<Request>)
    requires DistinctCalls(t) && forall i :: 0 <= i < |t| ==> !t[i].call.ListCall?
    ensures |CallNames(t)| == |t|
  {
    if t == [] {
      assert CallNames(t) == {};
    } else {
      var init, r := t[..|t| - 1], t[|t| - 1];
      assert t == init + [r];
      LastCallIsNew(init, r);
      DistinctCallsCount(init);
      CallNamesSnoc(init, r);
    }
  }
}
