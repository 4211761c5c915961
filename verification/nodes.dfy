/** The remote node lists, one per leader, and the requests that read and change them. */
module Nodes {
  import opened Options
  import opened Pods

  function Names(list: seq<Node>): set<string> {
    set i | 0 <= i < |list| :: list[i].name
  }

  ghost predicate Unique(list: seq<Node>) {
    forall i, j :: 0 <= i < j < |list| ==> list[i].name != list[j].name
  }

  /** What an add leaves: an entry whose name is present is not refreshed. */
  function Added(list: seq<Node>, node: Node): seq<Node> {
    if node.name in Names(list) then list else list + [node]
  }

  /** What a remove leaves: every entry but those of the name, in order. */
  function Without(list: seq<Node>, name: string): seq<Node> {
    if list == [] then []
    else
      var rest := Without(list[..|list| - 1], name);
      if list[|list| - 1].name == name then rest else rest + [list[|list| - 1]]
  }

  lemma AddedNames(list: seq<Node>, node: Node)
    ensures Names(Added(list, node)) == Names(list) + {node.name}
    ensures Unique(list) ==> Unique(Added(list, node))
  {
    var after := Added(list, node);
    assert forall i :: 0 <= i < |list| ==> after[i] == list[i] && list[i].name in Names(list);
    if node.name !in Names(list) {
      assert after[|list|].name in Names(after);
    }
  }

  lemma {:induction false} WithoutNames(list: seq<Node>, name: string)
    ensures Names(Without(list, name)) == Names(list) - {name}
    ensures Unique(list) ==> Unique(Without(list, name))
    ensures name !in Names(list) ==> Without(list, name) == list
  {
    if list != [] {
      var init, last := list[..|list| - 1], list[|list| - 1];
      WithoutNames(init, name);
      NamesSnoc(init, last);
      assert list == init + [last];
      var rest := Without(init, name);
      if last.name != name {
        NamesSnoc(rest, last);
        if Unique(list) {
          assert last.name !in Names(init);
          assert forall i :: 0 <= i < |rest| ==> rest[i].name in Names(rest);
        }
      }
    }
  }

  lemma NamesSnoc(list: seq<Node>, node: Node)
    ensures Names(list + [node]) == Names(list) + {node.name}
  {
    var after := list + [node];
    assert forall i :: 0 <= i < |list| ==> after[i] == list[i];
    assert after[|list|].name in Names(after);
  }

  datatype Call = ListCall | AddCall(node: Node) | RemoveCall(node: Node)

  /** Removing takes entries out where they stand: the others keep their order. */
  lemma {:induction false} WithoutJoins(a: seq<Node>, b: seq<Node>, name: string)
    ensures Without(a + b, name) == Without(a, name) + Without(b, name)
  {
    if b == [] {
      assert a + b == a;
    } else {
      var all, init := a + b, b[..|b| - 1];
      assert all[..|all| - 1] == a + init && all[|all| - 1] == b[|b| - 1];
      WithoutJoins(a, init, name);
    }
  }

  lemma WithoutOne(node: Node, name: string)
    ensures Without([node], name) == if node.name == name then [] else [node]
  {
    assert [node][..0] == [];
  }

  /** The node-list server of one leader. */
  class NodeServer {
    var nodes: seq<Node>

    constructor ()
      ensures nodes == []
    {
      nodes := [];
    }

    method HandleAdd(node: Node)
      modifies this
      ensures nodes == Added(old(nodes), node)
      ensures if exists i :: 0 <= i < |old(nodes)| && old(nodes)[i].name == node.name then nodes == old(nodes)
              else nodes == old(nodes) + [node]
    {
      for i := 0 to |nodes|
        invariant nodes == old(nodes) && node.name !in Names(nodes[..i])
      {
        assert nodes[..i + 1] == nodes[..i] + [nodes[i]];
        NamesSnoc(nodes[..i], nodes[i]);
        if nodes[i].name == node.name {
          return;
        }
      }
      assert nodes[..|nodes|] == nodes;
      nodes := nodes + [node];
    }

    method HandleRemove(node: Node)
      modifies this
      ensures nodes == Without(old(nodes), node.name)
    {
      var updatedList := [];
      for i := 0 to |nodes|
        invariant nodes == old(nodes) && updatedList == Without(nodes[..i], node.name)
      {
        assert nodes[..i + 1][..i] == nodes[..i];
        if nodes[i].name != node.name {
          updatedList := updatedList + [nodes[i]];
        }
      }
      assert nodes[..|nodes|] == nodes;
      nodes := updatedList;
    }

    /** The route of a request. */
    method Handle(call: Call)
      modifies this
      ensures nodes == match call
                       case ListCall => old(nodes)
                       case AddCall(node) => Added(old(nodes), node)
                       case RemoveCall(node) => Without(old(nodes), node.name)
    {
      match call {
        case AddCall(node) => HandleAdd(node);
        case RemoveCall(node) => HandleRemove(node);
        case ListCall =>
      }
    }
  }

  /** A request is answered, or carried out without the answer coming back, or never arrives. */
  datatype Fate = Delivered | Unacknowledged | Lost

  datatype Request = Request(to: string, call: Call, fate: Fate)

  type Lists = map<string, seq<Node>>

  function Apply(lists: Lists, r: Request): Lists {
    if r.to !in lists || r.fate.Lost? then lists
    else match r.call
      case ListCall => lists
      case AddCall(node) => lists[r.to := Added(lists[r.to], node)]
      case RemoveCall(node) => lists[r.to := Without(lists[r.to], node.name)]
  }

  /** The node lists after a sequence of requests. */
  function Replay(lists: Lists, trace: seq<Request>): Lists {
    if trace == [] then lists else Apply(Replay(lists, trace[..|trace| - 1]), trace[|trace| - 1])
  }

  lemma {:induction false} ReplayAppends(lists: Lists, t1: seq<Request>, t2: seq<Request>)
    ensures Replay(lists, t1 + t2) == Replay(Replay(lists, t1), t2)
  {
    if t2 == [] {
      assert t1 + t2 == t1;
    } else {
      ReplayAppends(lists, t1, t2[..|t2| - 1]);
      assert (t1 + t2)[..|t1 + t2| - 1] == t1 + t2[..|t2| - 1];
    }
  }

  /** How a log and the lists it accounts for grow by one more stretch of requests. */
  lemma LogGrows(sent: seq<Request>, lists: Lists, t1: seq<Request>, t2: seq<Request>)
    ensures sent + (t1 + t2) == (sent + t1) + t2
    ensures Replay(lists, t1 + t2) == Replay(Replay(lists, t1), t2)
  {
    ReplayAppends(lists, t1, t2);
  }

  lemma {:induction false} ReplayKeys(lists: Lists, trace: seq<Request>)
    ensures Replay(lists, trace).Keys == lists.Keys
  {
    if trace != [] {
      ReplayKeys(lists, trace[..|trace| - 1]);
    }
  }

  /** No request makes a list name anything twice. */
  lemma {:induction false} ReplayKeepsUnique(lists: Lists, trace: seq<Request>, to: string)
    requires to in lists && Unique(lists[to])
    ensures to in Replay(lists, trace) && Unique(Replay(lists, trace)[to])
  {
    ReplayKeys(lists, trace);
    if trace != [] {
      var init, r := trace[..|trace| - 1], trace[|trace| - 1];
      ReplayKeys(lists, init);
      ReplayKeepsUnique(lists, init, to);
      if !r.call.ListCall? {
        AddedNames(Replay(lists, init)[to], r.call.node);
        WithoutNames(Replay(lists, init)[to], r.call.node.name);
      }
    }
  }

  predicate AllDelivered(trace: seq<Request>) {
    forall i :: 0 <= i < |trace| ==> trace[i].fate.Delivered?
  }

  /** Nothing was sent after the first request that was not answered. */
  ghost predicate StopsAtFailure(trace: seq<Request>) {
    forall i :: 0 <= i < |trace| - 1 ==> trace[i].fate.Delivered?
  }

  /** The leaders' servers, each at its own address, behind a network that decides the fate of the k-th request. */
  class Network {
    const servers: map<string, NodeServer>
    const fate: nat -> Fate
    var sent: seq<Request>
    /** What the servers hold, by address. */
    ghost var lists: Lists

    constructor (servers: map<string, NodeServer>, fate: nat -> Fate)
      requires forall a, b :: a in servers && b in servers && a != b ==> servers[a] != servers[b]
      ensures this.servers == servers && this.fate == fate && sent == [] && Valid()
    {
      this.servers := servers;
      this.fate := fate;
      sent := [];
      lists := map a | a in servers :: servers[a].nodes;
    }

    /** Addresses are distinct servers, and each request met the fate the network had for it. */
    ghost predicate Valid()
      reads this, servers.Values
    {
      && (forall a, b :: a in servers && b in servers && a != b ==> servers[a] != servers[b])
      && lists.Keys == servers.Keys
      && (forall a :: a in servers ==> lists[a] == servers[a].nodes)
      && (forall i :: 0 <= i < |sent| ==> sent[i].fate == if sent[i].to in servers then fate(i) else Lost)
    }

    /** Nothing answers at an address without a server. */
    function FateOf(to: string): Fate
      reads this
    {
      if to in servers then fate(|sent|) else Lost
    }

    /** postHTTP: any answer counts as success. */
    method Post(to: string, call: Call) returns (ok: bool, ghost r: Request)
      requires Valid()
      modifies this, servers.Values
      ensures Valid() && sent == old(sent) + [r]
      ensures r == Request(to, call, old(FateOf(to)))
      ensures ok <==> r.fate.Delivered?
      ensures lists == Apply(old(lists), r)
    {
      var f := FateOf(to);
      r := Request(to, call, f);
      sent := sent + [Request(to, call, f)];
      if !f.Lost? {
        assert servers[to] in servers.Values;
        servers[to].Handle(call);
      }
      lists := Apply(lists, r);
      ok := f.Delivered?;
    }

    /** getHTTP on the list path. */
    method Get(to: string) returns (nodes: Option<seq<Node>>, ghost r: Request)
      requires Valid()
      modifies this
      ensures Valid() && sent == old(sent) + [r] && lists == old(lists)
      ensures r == Request(to, ListCall, old(FateOf(to)))
      ensures nodes.Some? <==> r.fate.Delivered?
      ensures nodes.Some? ==> to in lists && nodes.value == lists[to]
    {
      var f := FateOf(to);
      r := Request(to, ListCall, f);
      sent := sent + [Request(to, ListCall, f)];
      nodes := if f.Delivered? then Some(servers[to].nodes) else None;
    }
  }
}
