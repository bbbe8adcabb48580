/** The records of the BurstNodePool API and the parts of Pods that the controllers read. */
module Api {
  datatype Option<+T> = None | Some(value: T)

  // ----- 32-bit arithmetic -----

  const INT32_MAX: int := 0x7fff_ffff

  type Int32 = x: int | -0x8000_0000 <= x <= 0x7fff_ffff

  predicate InInt32(x: int) {
    -0x8000_0000 <= x <= 0x7fff_ffff
  }

  /** Two's complement truncation to 32 bits. */
  function Wrap(x: int): (r: Int32)
    ensures InInt32(x) ==> r == x
    ensures (r - x) % 0x1_0000_0000 == 0
  {
    if InInt32(x) then x else (x + 0x8000_0000) % 0x1_0000_0000 - 0x8000_0000
  }

  /** Wrapping once at the end is the same as wrapping after each addition. */
  lemma WrapAdd(x: int, y: int)
    ensures Wrap(Wrap(x) + y) == Wrap(x + y)
  {
    var k := (Wrap(x) - x) / 0x1_0000_0000;
    assert Wrap(x) == x + k * 0x1_0000_0000;
  }

  // ----- Time, in nanoseconds -----

  type Time = nat

  const SECOND: nat := 1_000_000_000
  const DEFAULT_TIMEOUT: int := 300 * SECOND

  /** A timestamp as it comes back from the API server: stored with whole seconds. */
  function Stored(t: Time): (r: Time)
    ensures r <= t < r + SECOND
    ensures r % SECOND == 0
  {
    t / SECOND * SECOND
  }

  /** A zero duration in the spec stands for the five-minute default. */
  function OrDefault(d: int): int {
    if d == 0 then DEFAULT_TIMEOUT else d
  }

  // ----- BurstNodePool -----

  datatype NodeState = Pending | Running | Cordoned | Draining | Terminating

  datatype Entry = Entry(
    name: string,
    instanceId: string,
    instanceType: string,
    state: NodeState,
    launchedAt: Time,
    readyAt: Option<Time>,
    lastPodFinished: Option<Time>)

  datatype InstanceType = InstanceType(name: string, ami: string, architecture: string)

  datatype AwsConfig = AwsConfig(ami: string, instanceType: string, instanceTypes: seq<InstanceType>)

  datatype Scaling = Scaling(maxNodes: Int32, cooldownPeriod: int, bootTimeout: int)

  datatype TolerationRule = TolerationRule(key: string, operator: string, value: string)

  datatype ResourceRule = ResourceRule(resourceName: string, operator: string)

  datatype MatchRules = MatchRules(
    tolerations: seq<TolerationRule>,
    nodeAffinityLabels: map<string, string>,
    resources: seq<ResourceRule>)

  datatype Spec = Spec(aws: Option<AwsConfig>, scaling: Scaling, rules: MatchRules)

  datatype Pool = Pool(
    name: string,
    spec: Spec,
    activeNodes: Int32,
    pendingNodes: Int32,
    nodes: seq<Entry>)

  // ----- Pods -----

  /** A resource quantity, in billionths of its base unit (the finest precision Kubernetes keeps). */
  type Quantity = nat

  datatype Container = Container(requests: map<string, Quantity>, limits: map<string, Quantity>)

  datatype Toleration = Toleration(key: string, value: string)

  datatype Requirement = Requirement(key: string, operator: string, values: seq<string>)

  datatype Condition = Condition(kind: string, status: string, reason: string, since: Option<Time>)

  datatype Pod = Pod(
    name: string,
    labels: map<string, string>,
    annotations: map<string, string>,
    owners: seq<string>,
    phase: string,
    conditions: seq<Condition>,
    containers: seq<Container>,
    tolerations: seq<Toleration>,
    requiredTerms: Option<seq<seq<Requirement>>>)

  /** The entry of a label or annotation map; empty where there is none. */
  function Lookup(m: map<string, string>, key: string): string {
    if key in m then m[key] else ""
  }

  datatype Node = Node(name: string, labels: map<string, string>, conditions: seq<Condition>)
}
