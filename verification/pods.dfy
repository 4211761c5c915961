/** Pods as the registration controller sees them, the printer that writes a compute instance's ports and priority
    into a pod's environment, and the parser that reads them back. */
module Pods {
  import opened Options
  import opened Spec
  import opened Text

  /** The environment variable names the operator knows; OtherEnv is any other name. */
  datatype EnvName =
    | NumCpus | MysqlHost | MysqlPort | ClickhouseHost | ClickhousePort
    | HttpAddress | MetricAddress | RpcAddress | Priority
    | OtherEnv(text: string)

  datatype EnvVar = EnvVar(name: EnvName, value: string)

  /** The one container of a pod. */
  datatype Container = Container(image: string, imagePullPolicy: string, env: seq<EnvVar>)

  datatype Pod = Pod(namespace: string, name: string, labels: Labels, container: Container, ip: string, ready: bool) {
    function Key(): string {
      SlashKey(namespace, name)
    }

    predicate IsLeader() {
      ROLE_LABEL in labels && labels[ROLE_LABEL] == ROLE_LEADER
    }

    predicate IsFollower() {
      ROLE_LABEL in labels && labels[ROLE_LABEL] == ROLE_FOLLOWER
    }
  }

  const ANY_HOST := "0.0.0.0"

  /** The text "0.0.0.0:port". */
  function AnyAddress(port: string): string {
    ANY_HOST + [':'] + port
  }

  function Environment(cpus: string, mysql: string, clickhouse: string, http: string, metrics: string, rpc: string,
                       priority: string): seq<EnvVar>
  {
    [ EnvVar(NumCpus, cpus),
      EnvVar(MysqlHost, ANY_HOST),
      EnvVar(MysqlPort, mysql),
      EnvVar(ClickhouseHost, ANY_HOST),
      EnvVar(ClickhousePort, clickhouse),
      EnvVar(HttpAddress, AnyAddress(http)),
      EnvVar(MetricAddress, AnyAddress(metrics)),
      EnvVar(RpcAddress, AnyAddress(rpc)),
      EnvVar(Priority, priority) ]
  }

  /** makeEnvs */
  function MakeEnvs(spec: InstanceSpec): seq<EnvVar>
    requires spec.Complete()
  {
    Environment(Itoa(spec.cores.value), Itoa(spec.mysqlPort.value), Itoa(spec.clickhousePort.value),
                Itoa(spec.httpPort.value), Itoa(spec.metricsPort.value), Itoa(spec.rpcPort.value),
                Itoa(spec.priority.value))
  }

  /** convertInstanceSpecToPodSpec, without ports, probes and resource quantities. */
  function MakeContainer(spec: InstanceSpec): Container
    requires spec.Complete()
  {
    Container(spec.image.value, spec.imagePullPolicy.value, MakeEnvs(spec))
  }

  function Role(leader: bool): string {
    if leader then ROLE_LEADER else ROLE_FOLLOWER
  }

  /** MakeFuseQueryPod: a pod starts without an address and not ready. */
  function MakeFuseQueryPod(spec: SetSpec, name: string, namespace: string, groupKey: string, leader: bool): Pod
    requires spec.instance.Complete()
  {
    Pod(namespace, name, map[GROUP_LABEL := groupKey, ROLE_LABEL := Role(leader)],
        MakeContainer(spec.instance), "", false)
  }

  datatype Config = Config(mysqlPort: string, httpPort: string, rpcPort: string, clickhousePort: string,
                           metricsPort: string, priority: string)

  const EMPTY_CONFIG := Config("", "", "", "", "", "")

  predicate IsAddress(name: EnvName) {
    name.HttpAddress? || name.RpcAddress? || name.MetricAddress?
  }

  predicate IsParsed(name: EnvName) {
    IsAddress(name) || name.MysqlPort? || name.ClickhousePort? || name.Priority?
  }

  /** What one environment entry contributes: the text after an address's first colon, the whole value otherwise. */
  function Decode(e: EnvVar): Option<string> {
    if IsAddress(e.name) then
      var pieces := SplitN2(e.value, ':');
      if |pieces| == 2 then Some(pieces[1]) else None
    else Some(e.value)
  }

  function Field(c: Config, name: EnvName): string
    requires IsParsed(name)
  {
    match name
    case HttpAddress => c.httpPort
    case MysqlPort => c.mysqlPort
    case ClickhousePort => c.clickhousePort
    case RpcAddress => c.rpcPort
    case MetricAddress => c.metricsPort
    case Priority => c.priority
  }

  function WithField(c: Config, name: EnvName, text: string): Config {
    match name
    case HttpAddress => c.(httpPort := text)
    case MysqlPort => c.(mysqlPort := text)
    case ClickhousePort => c.(clickhousePort := text)
    case RpcAddress => c.(rpcPort := text)
    case MetricAddress => c.(metricsPort := text)
    case Priority => c.(priority := text)
    case _ => c
  }

  /** The configuration an environment stands for: the entries absorbed from first to last, or None at a bad address. */
  function ParseEnv(env: seq<EnvVar>): Option<Config> {
    if env == [] then Some(EMPTY_CONFIG)
    else
      var rest := ParseEnv(env[..|env| - 1]);
      var e := env[|env| - 1];
      if rest.None? || Decode(e).None? then None else Some(WithField(rest.value, e.name, Decode(e).value))
  }

  predicate WellFormed(e: EnvVar) {
    IsAddress(e.name) ==> ':' in e.value
  }

  /** Parsing succeeds exactly when no occurrence of an address variable lacks its colon. */
  lemma {:induction false} ParseSucceedsIff(env: seq<EnvVar>)
    ensures ParseEnv(env).Some? <==> forall i :: 0 <= i < |env| ==> WellFormed(env[i])
  {
    if env != [] {
      var init := env[..|env| - 1];
      ParseSucceedsIff(init);
      assert forall i :: 0 <= i < |init| ==> env[i] == init[i];
    }
  }

  /** The index of the last entry of a name, or -1. */
  function LastIndex(env: seq<EnvVar>, name: EnvName): (i: int)
    ensures -1 <= i < |env|
  {
    if env == [] then -1
    else if env[|env| - 1].name == name then |env| - 1
    else LastIndex(env[..|env| - 1], name)
  }

  lemma {:induction false} LastIndexIsLast(env: seq<EnvVar>, name: EnvName)
    ensures LastIndex(env, name) >= 0 ==> env[LastIndex(env, name)].name == name
    ensures forall j :: LastIndex(env, name) < j < |env| ==> env[j].name != name
  {
    if env != [] {
      var init := env[..|env| - 1];
      LastIndexIsLast(init, name);
      assert forall j :: 0 <= j < |init| ==> init[j] == env[j];
    }
  }

  /** Each field comes from the last entry of its name, and stays empty when there is none. */
  lemma {:induction false} LastEntryWins(env: seq<EnvVar>, name: EnvName)
    requires IsParsed(name) && ParseEnv(env).Some?
    ensures var i := LastIndex(env, name);
      if i < 0 then Field(ParseEnv(env).value, name) == ""
      else Some(Field(ParseEnv(env).value, name)) == Decode(env[i])
  {
    if env != [] {
      LastEntryWins(env[..|env| - 1], name);
    }
  }

  predicate DistinctNames(env: seq<EnvVar>) {
    forall i, j :: 0 <= i < j < |env| ==> env[i].name != env[j].name
  }

  lemma FieldOfEntry(env: seq<EnvVar>, i: nat)
    requires i < |env| && IsParsed(env[i].name) && DistinctNames(env) && ParseEnv(env).Some?
    ensures Some(Field(ParseEnv(env).value, env[i].name)) == Decode(env[i])
  {
    LastEntryWins(env, env[i].name);
    LastIndexIsLast(env, env[i].name);
  }

  lemma {:induction false} DistinctEntryOnce(env: seq<EnvVar>, e: EnvVar)
    requires DistinctNames(env)
    ensures multiset(env)[e] <= 1
  {
    if env != [] {
      var init, last := env[..|env| - 1], env[|env| - 1];
      DistinctEntryOnce(init, e);
      assert env == init + [last];
      if last == e {
        assert e !in init;
      }
    }
  }

  lemma CountedTwice(env: seq<EnvVar>, i: nat, j: nat)
    requires i < j < |env|
    ensures env[i] == env[j] ==> multiset(env)[env[i]] >= 2
  {
    assert env == env[..j] + env[j..];
    assert env[..j][i] == env[i] && env[j..][0] == env[j];
    assert env[i] in multiset(env[..j]) && env[j] in multiset(env[j..]);
    assert multiset(env) == multiset(env[..j]) + multiset(env[j..]);
  }

  lemma PermutedNamesDistinct(env1: seq<EnvVar>, env2: seq<EnvVar>)
    requires multiset(env1) == multiset(env2) && DistinctNames(env1)
    ensures DistinctNames(env2)
  {
    forall i, j | 0 <= i < j < |env2|
      ensures env2[i].name != env2[j].name
    {
      assert env2[i] in multiset(env2) && env2[j] in multiset(env2);
      assert env2[i] in env1 && env2[j] in env1;
      DistinctEntryOnce(env1, env2[i]);
      CountedTwice(env2, i, j);
    }
  }

  /** With distinct names, success and result do not depend on the order of the entries. */
  lemma OrderDoesNotMatter(env1: seq<EnvVar>, env2: seq<EnvVar>)
    requires multiset(env1) == multiset(env2) && DistinctNames(env1)
    ensures ParseEnv(env1) == ParseEnv(env2)
  {
    PermutedNamesDistinct(env1, env2);
    SameEntries(env1, env2);
    SameEntries(env2, env1);
    ParseSucceedsIff(env1);
    ParseSucceedsIff(env2);
    if ParseEnv(env1).Some? {
      SameField(env1, env2, HttpAddress);
      SameField(env1, env2, MysqlPort);
      SameField(env1, env2, ClickhousePort);
      SameField(env1, env2, RpcAddress);
      SameField(env1, env2, MetricAddress);
      SameField(env1, env2, Priority);
    }
  }

  lemma SameEntries(env1: seq<EnvVar>, env2: seq<EnvVar>)
    requires multiset(env1) == multiset(env2)
    ensures forall i :: 0 <= i < |env1| ==> env1[i] in env2
  {
    forall i | 0 <= i < |env1|
      ensures env1[i] in env2
    {
      assert env1[i] in multiset(env1);
    }
  }

  lemma SameField(env1: seq<EnvVar>, env2: seq<EnvVar>, name: EnvName)
    requires IsParsed(name) && DistinctNames(env1) && DistinctNames(env2)
    requires forall i :: 0 <= i < |env1| ==> env1[i] in env2
    requires forall i :: 0 <= i < |env2| ==> env2[i] in env1
    requires ParseEnv(env1).Some? && ParseEnv(env2).Some?
    ensures Field(ParseEnv(env1).value, name) == Field(ParseEnv(env2).value, name)
  {
    if i :| 0 <= i < |env1| && env1[i].name == name {
      var j :| 0 <= j < |env2| && env2[j] == env1[i];
      FieldOfEntry(env1, i);
      FieldOfEntry(env2, j);
    } else {
      LastEntryWins(env1, name);
      LastEntryWins(env2, name);
      LastIndexIsLast(env1, name);
      LastIndexIsLast(env2, name);
    }
  }

  /** BuildPodConfig: one pass over the environment, stopping at the first malformed address. */
  method BuildPodConfig(pod: Pod) returns (config: Option<Config>)
    ensures config == ParseEnv(pod.container.env)
  {
    var env := pod.container.env;
    var c := EMPTY_CONFIG;
    for i := 0 to |env|
      invariant ParseEnv(env[..i]) == Some(c)
    {
      assert env[..i + 1][..i] == env[..i];
      match env[i].name {
        case HttpAddress | RpcAddress | MetricAddress =>
          var str := SplitN2(env[i].value, ':');
          if |str| != 2 {
            ParseSucceedsIff(env);
            assert !WellFormed(env[i]);
            return None;
          }
          c := WithField(c, env[i].name, str[1]);
        case MysqlPort | ClickhousePort | Priority =>
          c := WithField(c, env[i].name, env[i].value);
        case _ =>
      }
    }
    assert env[..|env|] == env;
    return Some(c);
  }

  /** The registration a pod is announced with, when its environment can be read. */
  datatype Node = Node(name: string, address: string, priority: int)

  function NodeOf(pod: Pod): Option<Node> {
    var config := ParseEnv(pod.container.env);
    if config.None? || Atoi(config.value.priority).None? then None
    else Some(Node(pod.Key(), pod.ip + ":" + config.value.rpcPort, Atoi(config.value.priority).value))
  }

  /** Where a leader's node list is reached. */
  function Receiver(leader: Pod): Option<string> {
    var config := ParseEnv(leader.container.env);
    if config.None? then None else Some(leader.ip + ":" + config.value.httpPort)
  }

  /** Parsing inverts printing: a made pod is read back with the decimal ports and the original priority. */
  lemma EnvRoundTrip(spec: InstanceSpec)
    requires spec.Complete()
    ensures ParseEnv(MakeEnvs(spec)) == Some(Config(
              Itoa(spec.mysqlPort.value), Itoa(spec.httpPort.value), Itoa(spec.rpcPort.value),
              Itoa(spec.clickhousePort.value), Itoa(spec.metricsPort.value), Itoa(spec.priority.value)))
    ensures Atoi(Itoa(spec.priority.value)) == Some(spec.priority.value)
  {
    EnvironmentParses(Itoa(spec.cores.value), Itoa(spec.mysqlPort.value), Itoa(spec.clickhousePort.value),
                      Itoa(spec.httpPort.value), Itoa(spec.metricsPort.value), Itoa(spec.rpcPort.value),
                      Itoa(spec.priority.value));
    AtoiItoa(spec.priority.value);
  }

  lemma EnvironmentParses(cpus: string, mysql: string, clickhouse: string, http: string, metrics: string, rpc: string,
                          priority: string)
    ensures ParseEnv(Environment(cpus, mysql, clickhouse, http, metrics, rpc, priority)) ==
            Some(Config(mysql, http, rpc, clickhouse, metrics, priority))
  {
    EntriesParse(Environment(cpus, mysql, clickhouse, http, metrics, rpc, priority),
                 cpus, mysql, clickhouse, http, metrics, rpc, priority);
  }

  lemma EntriesParse(env: seq<EnvVar>, cpus: string, mysql: string, clickhouse: string, http: string, metrics: string,
                     rpc: string, priority: string)
    requires |env| == 9 && env[0] == EnvVar(NumCpus, cpus) && env[1] == EnvVar(MysqlHost, ANY_HOST)
    requires env[2] == EnvVar(MysqlPort, mysql) && env[3] == EnvVar(ClickhouseHost, ANY_HOST)
    requires env[4] == EnvVar(ClickhousePort, clickhouse) && env[5] == EnvVar(HttpAddress, AnyAddress(http))
    requires env[6] == EnvVar(MetricAddress, AnyAddress(metrics)) && env[7] == EnvVar(RpcAddress, AnyAddress(rpc))
    requires env[8] == EnvVar(Priority, priority)
    ensures ParseEnv(env) == Some(Config(mysql, http, rpc, clickhouse, metrics, priority))
  {
    EnvironmentDecodes(env, http, metrics, rpc);
    EnvironmentFields(env);
  }

  lemma EnvironmentFields(env: seq<EnvVar>)
    requires |env| == 9 && WellFormed(env[5]) && WellFormed(env[6]) && WellFormed(env[7])
    requires env[0].name == NumCpus && env[1].name == MysqlHost && env[2].name == MysqlPort
    requires env[3].name == ClickhouseHost && env[4].name == ClickhousePort && env[5].name == HttpAddress
    requires env[6].name == MetricAddress && env[7].name == RpcAddress && env[8].name == Priority
    ensures ParseEnv(env).Some?
    ensures var c := ParseEnv(env).value;
      && Some(c.mysqlPort) == Decode(env[2]) && Some(c.clickhousePort) == Decode(env[4])
      && Some(c.httpPort) == Decode(env[5]) && Some(c.metricsPort) == Decode(env[6])
      && Some(c.rpcPort) == Decode(env[7]) && Some(c.priority) == Decode(env[8])
  {
    EnvironmentSucceeds(env);
    FieldOfEntry(env, 2);
    FieldOfEntry(env, 4);
    FieldOfEntry(env, 5);
    FieldOfEntry(env, 6);
    FieldOfEntry(env, 7);
    FieldOfEntry(env, 8);
  }

  lemma EnvironmentSucceeds(env: seq<EnvVar>)
    requires |env| == 9 && WellFormed(env[5]) && WellFormed(env[6]) && WellFormed(env[7])
    requires env[0].name == NumCpus && env[1].name == MysqlHost && env[2].name == MysqlPort
    requires env[3].name == ClickhouseHost && env[4].name == ClickhousePort && env[5].name == HttpAddress
    requires env[6].name == MetricAddress && env[7].name == RpcAddress && env[8].name == Priority
    ensures DistinctNames(env) && ParseEnv(env).Some?
  {
    ParseSucceedsIff(env);
  }

  lemma EnvironmentDecodes(env: seq<EnvVar>, http: string, metrics: string, rpc: string)
    requires |env| == 9
    requires env[5] == EnvVar(HttpAddress, AnyAddress(http))
    requires env[6] == EnvVar(MetricAddress, AnyAddress(metrics))
    requires env[7] == EnvVar(RpcAddress, AnyAddress(rpc))
    ensures WellFormed(env[5]) && WellFormed(env[6]) && WellFormed(env[7])
    ensures Decode(env[5]) == Some(http) && Decode(env[6]) == Some(metrics) && Decode(env[7]) == Some(rpc)
  {
    AddressDecodes(http);
    AddressDecodes(metrics);
    AddressDecodes(rpc);
  }

  lemma AddressDecodes(port: string)
    ensures SplitN2(AnyAddress(port), ':') == [ANY_HOST, port] && ':' in AnyAddress(port)
  {
    SplitN2Join(ANY_HOST, ':', port);
    assert AnyAddress(port)[7] == ':';
  }

  /** The parts of the printed environment that the parser skips or cuts off. */
  lemma EnvironmentShows(spec: InstanceSpec)
    requires spec.Complete()
    ensures var env := MakeEnvs(spec);
      && EnvVar(NumCpus, Itoa(spec.cores.value)) in env
      && EnvVar(HttpAddress, "0.0.0.0:" + Itoa(spec.httpPort.value)) in env
      && EnvVar(MysqlHost, "0.0.0.0") in env && EnvVar(ClickhouseHost, "0.0.0.0") in env
  {
    var env, port := MakeEnvs(spec), Itoa(spec.httpPort.value);
    assert AnyAddress(port) == "0.0.0.0:" + port;
    assert env[0] == EnvVar(NumCpus, Itoa(spec.cores.value)) && env[5] == EnvVar(HttpAddress, AnyAddress(port));
    assert env[1] == EnvVar(MysqlHost, ANY_HOST) && env[3] == EnvVar(ClickhouseHost, ANY_HOST);
  }

  /** A pod that runs an instance is announced under "namespace/name", at "ip:rpcPort", with the priority of its spec,
      and reached as a leader at "ip:httpPort", wherever and whenever it runs. */
  lemma InstanceRegisters(spec: InstanceSpec, pod: Pod)
    requires spec.Complete() && pod.container == MakeContainer(spec)
    ensures NodeOf(pod) == Some(Node(pod.namespace + "/" + pod.name, pod.ip + ":" + Itoa(spec.rpcPort.value),
                                     spec.priority.value))
    ensures Receiver(pod) == Some(pod.ip + ":" + Itoa(spec.httpPort.value))
  {
    EnvRoundTrip(spec);
  }

  /** The same of a pod made by itself; its role label tells leaders and followers apart. */
  lemma RegistrationRoundTrip(spec: SetSpec, name: string, namespace: string, groupKey: string, leader: bool,
      ip: string, ready: bool)
    requires spec.instance.Complete()
    ensures var pod := MakeFuseQueryPod(spec, name, namespace, groupKey, leader).(ip := ip, ready := ready);
      && NodeOf(pod) == Some(Node(namespace + "/" + name, ip + ":" + Itoa(spec.instance.rpcPort.value),
                                  spec.instance.priority.value))
      && Receiver(pod) == Some(ip + ":" + Itoa(spec.instance.httpPort.value))
      && (leader <==> pod.IsLeader()) && (!leader <==> pod.IsFollower())
  {
    InstanceRegisters(spec.instance,
        MakeFuseQueryPod(spec, name, namespace, groupKey, leader).(ip := ip, ready := ready));
  }
}
