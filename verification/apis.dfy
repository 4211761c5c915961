/** The API server as the group reconciler sees it: the objects, the calls on them, and what can become of a call. */
module Apis {
  import opened Options
  import opened Spec
  import opened Deploy
  import opened Nodes

  datatype Api = Api(
    deployments: map<Key, Deployment>,
    services: map<Key, Service>,
    groups: map<Key, ComputeGroup>,
    operators: map<Key, Operator>)

  function Slot<T>(m: map<Key, T>, k: Key): Option<T> {
    if k in m then Some(m[k]) else None
  }

  function KeyOf(d: Deployment): Key {
    Key(d.namespace, d.name)
  }

  function GroupKey(g: ComputeGroup): Key {
    Key(g.namespace, g.name)
  }

  function KeyOfOperator(op: Operator): Key {
    Key(op.namespace, op.name)
  }

  /** Deployments are stored under their own keys, with a replica count. */
  ghost predicate Stored(api: Api) {
    forall k :: k in api.deployments ==> KeyOf(api.deployments[k]) == k && api.deployments[k].replicas.Some?
  }

  datatype ApiCall =
    | GetDeployment(key: Key)
    | GetService(key: Key)
    | CreateDeployment(deployment: Deployment)
    | CreateService(service: Service)
    | UpdateDeployment(deployment: Deployment)
    | DeleteDeployment(key: Key)
    | GetGroup(key: Key)
    | CreateGroup(group: ComputeGroup)
    | UpdateGroup(group: ComputeGroup)
    | UpdateOperator(operator: Operator)
  {
    predicate Looks() {
      GetDeployment? || GetService? || GetGroup?
    }

    /** Calls that leave deployments and services alone. */
    predicate Harmless() {
      GetDeployment? || GetService? || GetGroup? || CreateGroup? || UpdateGroup? || UpdateOperator?
    }
  }

  /** Creating needs a free name; updating and deleting need the object. A deployment is updated unconditionally, as
      the reconciler sends one without a resource version; a group or an operator carries the version it was read at,
      which must be current. */
  predicate Accepts(api: Api, call: ApiCall) {
    match call
    case GetDeployment(_) => true
    case GetService(_) => true
    case CreateDeployment(d) => KeyOf(d) !in api.deployments
    case CreateService(s) => Key(s.namespace, s.name) !in api.services
    case UpdateDeployment(d) => KeyOf(d) in api.deployments
    case DeleteDeployment(key) => key in api.deployments
    case GetGroup(_) => true
    case CreateGroup(g) => GroupKey(g) !in api.groups
    case UpdateGroup(g) => GroupKey(g) in api.groups && api.groups[GroupKey(g)].version == g.version
    case UpdateOperator(op) =>
      KeyOfOperator(op) in api.operators && api.operators[KeyOfOperator(op)].version == op.version
  }

  /** What an accepted write leaves: one that changes nothing is no write, any other gets a new resource version. */
  function Written(stored: ComputeGroup, g: ComputeGroup): ComputeGroup {
    if g == stored then stored else g.(version := stored.version + 1)
  }

  function WrittenOperator(stored: Operator, op: Operator): Operator {
    if op == stored then stored else op.(version := stored.version + 1)
  }

  function Perform(api: Api, call: ApiCall): Api {
    if !Accepts(api, call) then api
    else match call
      case GetDeployment(_) => api
      case GetService(_) => api
      case CreateDeployment(d) => api.(deployments := api.deployments[KeyOf(d) := Defaulted(d)])
      case CreateService(s) => api.(services := api.services[Key(s.namespace, s.name) := s])
      case UpdateDeployment(d) => api.(deployments := api.deployments[KeyOf(d) := Defaulted(d)])
      case DeleteDeployment(key) => api.(deployments := api.deployments - {key})
      case GetGroup(_) => api
      case CreateGroup(g) => api.(groups := api.groups[GroupKey(g) := g])
      case UpdateGroup(g) => api.(groups := api.groups[GroupKey(g) := Written(api.groups[GroupKey(g)], g)])
      case UpdateOperator(op) =>
        api.(operators := api.operators[KeyOfOperator(op) := WrittenOperator(api.operators[KeyOfOperator(op)], op)])
  }

  function After(api: Api, call: ApiCall, fate: Fate): Api {
    if fate.Lost? then api else Perform(api, call)
  }

  /** The caller sees no error. */
  predicate Answered(api: Api, call: ApiCall, fate: Fate) {
    fate.Delivered? && Accepts(api, call)
  }

  datatype Moment = Moment(call: ApiCall, api: Api)

  /** The states of the API server so far, with the calls that led from each to the next. */
  datatype History = History(first: Api, log: seq<Moment>) {
    function Now(): Api {
      if log == [] then first else log[|log| - 1].api
    }

    /** The state k calls ago. */
    function Ago(k: nat): Api {
      if k < |log| then log[|log| - 1 - k].api else first
    }

    function Plus(call: ApiCall, fate: Fate): History {
      this.(log := log + [Moment(call, After(Now(), call, fate))])
    }

    /** The state the i-th call met. */
    function Met(i: nat): Api
      requires i <= |log|
    {
      if i == 0 then first else log[i - 1].api
    }

    /** The i-th call went through and its caller saw no error. */
    predicate WentThrough(i: nat, wire: Wire)
      requires i < |log|
    {
      Answered(Met(i), log[i].call, wire.fate(i))
    }

    /** Nothing that happened is forgotten. */
    predicate Continues(h: History) {
      first == h.first && h.log <= log
    }
  }

  /** What the n-th call meets: its fate, by how many calls the informer's cache lags the server, and the UID the server
      gives to what the call creates. */
  datatype Wire = Wire(fate: nat -> Fate, lag: nat -> nat, uid: nat -> string)

  /** From the n-th call on, every call arrives, every answer comes back, and every lookup is current. */
  ghost predicate Calm(wire: Wire, n: nat) {
    forall k :: n <= k ==> wire.fate(k).Delivered? && wire.lag(k) == 0
  }

  /** All writes since the n-th call went through, but perhaps the very last call. */
  ghost predicate StopsAtFailure(h: History, n: nat, wire: Wire) {
    forall i :: n <= i < |h.log| - 1 && !h.log[i].call.Looks() ==> h.WentThrough(i, wire)
  }

  lemma PerformKeepsStored(api: Api, call: ApiCall)
    requires Stored(api)
    ensures Stored(Perform(api, call))
  {
  }

  /** All states so far were stored properly. */
  ghost predicate AllStored(h: History) {
    Stored(h.first) && forall i :: 0 <= i < |h.log| ==> Stored(h.log[i].api)
  }

  lemma SameMoment(h: History, later: History, i: nat)
    requires later.Continues(h) && i < |h.log|
    ensures i < |later.log| && later.log[i] == h.log[i] && later.Met(i) == h.Met(i)
  {
  }

  lemma Later(a: History, b: History, c: History)
    requires b.Continues(a) && c.Continues(b)
    ensures c.Continues(a)
  {
  }

  /** The clients and the listers of the controller, in front of one API server. */
  class ApiServer {
    const wire: Wire
    var history: History

    constructor (wire: Wire, first: Api)
      requires Stored(first)
      ensures this.wire == wire && history == History(first, []) && Valid()
    {
      this.wire := wire;
      history := History(first, []);
    }

    ghost predicate Valid()
      reads this
    {
      AllStored(history)
    }

    /** What the informers' caches show to the next lookup. */
    function Seen(): Api
      reads this
    {
      history.Ago(wire.lag(|history.log|))
    }

    method Send(call: ApiCall) returns (ok: bool)
      requires Valid()
      modifies this
      ensures Valid() && history == old(history.Plus(call, wire.fate(|history.log|)))
      ensures ok == old(Answered(history.Now(), call, wire.fate(|history.log|)))
    {
      var fate := wire.fate(|history.log|);
      ok := Answered(history.Now(), call, fate);
      PerformKeepsStored(history.Now(), call);
      history := history.Plus(call, fate);
    }

    method LookDeployment(key: Key) returns (d: Option<Deployment>)
      requires Valid()
      modifies this
      ensures Valid() && history == old(history.Plus(GetDeployment(key), wire.fate(|history.log|)))
      ensures d == Slot(old(Seen()).deployments, key) && (d.Some? ==> d.value.replicas.Some?)
    {
      d := Slot(Seen().deployments, key);
      var _ := Send(GetDeployment(key));
    }

    method LookGroup(key: Key) returns (g: Option<ComputeGroup>)
      requires Valid()
      modifies this
      ensures Valid() && history == old(history.Plus(GetGroup(key), wire.fate(|history.log|)))
      ensures g == Slot(old(Seen()).groups, key)
    {
      g := Slot(Seen().groups, key);
      var _ := Send(GetGroup(key));
    }

    method LookService(key: Key) returns (s: Option<Service>)
      requires Valid()
      modifies this
      ensures Valid() && history == old(history.Plus(GetService(key), wire.fate(|history.log|)))
      ensures s == Slot(old(Seen()).services, key)
    {
      s := Slot(Seen().services, key);
      var _ := Send(GetService(key));
    }
  }
}
