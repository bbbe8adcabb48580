/**
 The edits that the controllers make to their copy of a pool before they write it back,
 and the conditions that the code checks on that copy first.
 */
module PoolEdits {
  import opened Api

  // ----- Node idleness -----

  predicate IsDaemonSetPod(pod: Pod) {
    "DaemonSet" in pod.owners
  }

  /** A pod that keeps its node busy. */
  predicate KeepsBusy(pod: Pod) {
    !IsDaemonSetPod(pod) && pod.phase != "Succeeded" && pod.phase != "Failed"
  }

  predicate Idle(pods: seq<Pod>) {
    forall i | 0 <= i < |pods| :: !KeepsBusy(pods[i])
  }

  // ----- Edits -----

  datatype Edit =
    | Created
    | SetSpec(spec: Spec)
    | Record(entries: seq<Entry>)
    | Ready(j: nat, at: Time)
    | BootDrop(j: nat, at: Time)
    | IdleReset(j: nat, pods: seq<Pod>)
    | IdleStart(j: nat, at: Time, pods: seq<Pod>)
    | Cordon(j: nat, at: Time, pods: seq<Pod>)
    | Drain(j: nat)
    | MarkTerminating(j: nat)
    | Remove(j: nat)
    | OrphanDrop(j: nat)
  {
    /** The edit takes one entry out of the list. */
    predicate Drops() {
      BootDrop? || Remove? || OrphanDrop?
    }

    /** The edit changes one entry and leaves it in the list. */
    predicate Touches() {
      Ready? || IdleReset? || IdleStart? || Cordon? || Drain? || MarkTerminating?
    }
  }

  function CurrentNodes(o: Pool): Int32 {
    Wrap(o.activeNodes + o.pendingNodes)
  }

  predicate NewEntry(e: Entry) {
    e.state == Pending && e.readyAt == None && e.lastPodFinished == None
  }

  predicate Enabled(o: Pool, e: Edit) {
    match e
    case Created => false
    case SetSpec(_) => true
    case Record(entries) =>
      && CurrentNodes(o) < o.spec.scaling.maxNodes
      && |entries| <= Wrap(o.spec.scaling.maxNodes - CurrentNodes(o))
      && forall i | 0 <= i < |entries| :: NewEntry(entries[i])
    case Ready(j, _) => j < |o.nodes| && o.nodes[j].state == Pending
    case BootDrop(j, at) =>
      && j < |o.nodes| && o.nodes[j].state == Pending
      && at - o.nodes[j].launchedAt > OrDefault(o.spec.scaling.bootTimeout)
    case IdleReset(j, pods) => j < |o.nodes| && o.nodes[j].state == Running && !Idle(pods)
    case IdleStart(j, _, pods) =>
      j < |o.nodes| && o.nodes[j].state == Running && Idle(pods) && o.nodes[j].lastPodFinished == None
    case Cordon(j, at, pods) =>
      && j < |o.nodes| && o.nodes[j].state == Running && Idle(pods)
      && o.nodes[j].lastPodFinished.Some?
      && at - o.nodes[j].lastPodFinished.value >= OrDefault(o.spec.scaling.cooldownPeriod)
    case Drain(j) => j < |o.nodes| && o.nodes[j].state == Cordoned
    case MarkTerminating(j) => j < |o.nodes| && o.nodes[j].state == Draining
    case Remove(j) => j < |o.nodes| && o.nodes[j].state == Terminating
    case OrphanDrop(j) => j < |o.nodes|
  }

  function Without<T>(s: seq<T>, j: nat): seq<T>
    requires j < |s|
  {
    s[..j] + s[j + 1..]
  }

  function ClampZero(x: Int32): Int32 {
    if x < 0 then 0 else x
  }

  /** The entry as an edit that touches it leaves it. */
  function Touched(x: Entry, e: Edit): Entry
    requires e.Touches()
  {
    match e
    case Ready(_, at) => x.(state := Running, readyAt := Some(Stored(at)))
    case IdleReset(_, _) => x.(lastPodFinished := None)
    case IdleStart(_, at, _) => x.(lastPodFinished := Some(Stored(at)))
    case Cordon(_, _, _) => x.(state := Cordoned)
    case Drain(_) => x.(state := Draining)
    case MarkTerminating(_) => x.(state := Terminating)
  }

  /** The pool as the edit leaves it, with the code's 32-bit counters and clamps. */
  function Apply(o: Pool, e: Edit): Pool
    requires Enabled(o, e)
  {
    if e.Touches() then
      var nodes := o.nodes[e.j := Touched(o.nodes[e.j], e)];
      if e.Ready? then
        o.(nodes := nodes, pendingNodes := Wrap(o.pendingNodes - 1), activeNodes := Wrap(o.activeNodes + 1))
      else
        o.(nodes := nodes)
    else if e.Record? then
      o.(nodes := o.nodes + e.entries, pendingNodes := Wrap(o.pendingNodes + |e.entries|))
    else if e.BootDrop? then
      o.(nodes := Without(o.nodes, e.j), pendingNodes := Wrap(o.pendingNodes - 1))
    else if e.Remove? then
      o.(nodes := Without(o.nodes, e.j), activeNodes := ClampZero(Wrap(o.activeNodes - 1)))
    else if e.OrphanDrop? then
      OrphanDropped(o, e.j)
    else
      o.(spec := e.spec)
  }

  /** The provisioner's in-place append of one launched node. */
  function Append(o: Pool, x: Entry): Pool {
    o.(nodes := o.nodes + [x], pendingNodes := Wrap(o.pendingNodes + 1))
  }

  function AppendAll(o: Pool, xs: seq<Entry>): Pool {
    if xs == [] then o else Append(AppendAll(o, xs[..|xs| - 1]), xs[|xs| - 1])
  }

  /** Appending one node at a time is recording them all. */
  lemma {:induction false} AppendAllRecords(o: Pool, xs: seq<Entry>)
    ensures AppendAll(o, xs) == o.(nodes := o.nodes + xs, pendingNodes := Wrap(o.pendingNodes + |xs|))
  {
    if xs == [] {
      assert o.nodes + xs == o.nodes;
    } else {
      var rest := xs[..|xs| - 1];
      AppendAllRecords(o, rest);
      assert o.nodes + xs == o.nodes + rest + [xs[|xs| - 1]];
      WrapAdd(o.pendingNodes + |rest|, 1);
    }
  }

  /** So with new entries and room for them, the appends are one Record edit. */
  lemma AppendAllIsRecord(o: Pool, xs: seq<Entry>)
    requires forall i | 0 <= i < |xs| :: NewEntry(xs[i])
    requires CurrentNodes(o) < o.spec.scaling.maxNodes
    requires |xs| <= Wrap(o.spec.scaling.maxNodes - CurrentNodes(o))
    ensures Enabled(o, Record(xs)) && AppendAll(o, xs) == Apply(o, Record(xs))
  {
    hide Wrap, AppendAll, NewEntry;
    AppendAllRecords(o, xs);
  }

  /** Orphan cleanup: a Terminating entry leaves both counters alone. */
  function OrphanDropped(o: Pool, j: nat): Pool
    requires j < |o.nodes|
  {
    var state := o.nodes[j].state;
    var active := if state in {Running, Cordoned, Draining} then Wrap(o.activeNodes - 1) else o.activeNodes;
    var pending := if state == Pending then Wrap(o.pendingNodes - 1) else o.pendingNodes;
    o.(nodes := Without(o.nodes, j), activeNodes := ClampZero(active), pendingNodes := ClampZero(pending))
  }

  // ----- What the reaper does with a Running entry -----

  /** The first edit of a reaper pass over entry `j`; none within the cooldown. */
  function ReaperStart(o: Pool, j: nat, pods: seq<Pod>, now: Time): (r: Option<Edit>)
    requires j < |o.nodes|
    ensures r.Some? ==> Enabled(o, r.value) && r.value.Touches() && r.value.j == j
    ensures r.Some? ==> match r.value
      case IdleReset(_, seen) => seen == pods && !Idle(pods)
      case IdleStart(_, at, seen) => at == now && seen == pods && Idle(pods) && o.nodes[j].lastPodFinished == None
      case Cordon(_, at, seen) => at == now && seen == pods && Idle(pods) && o.nodes[j].lastPodFinished.Some?
      case _ => false
    ensures r == None <==>
      || o.nodes[j].state != Running
      || (Idle(pods) && o.nodes[j].lastPodFinished.Some?
          && now - o.nodes[j].lastPodFinished.value
               < if o.spec.scaling.cooldownPeriod == 0 then 300_000_000_000 else o.spec.scaling.cooldownPeriod)
  {
    if o.nodes[j].state != Running then None
    else if !Idle(pods) then Some(IdleReset(j, pods))
    else if o.nodes[j].lastPodFinished == None then Some(IdleStart(j, now, pods))
    else if now - o.nodes[j].lastPodFinished.value < OrDefault(o.spec.scaling.cooldownPeriod) then None
    else Some(Cordon(j, now, pods))
  }

  /** The edit that follows an acknowledged write in the same pass. */
  function NextEdit(e: Edit): Option<Edit> {
    match e
    case Cordon(j, _, _) => Some(Drain(j))
    case Drain(j) => Some(MarkTerminating(j))
    case MarkTerminating(j) => Some(Remove(j))
    case _ => None
  }

  /** Each edit of a teardown enables the next one on the pool it has just written. */
  lemma NextEditEnabled(o: Pool, e: Edit)
    requires Enabled(o, e) && NextEdit(e).Some?
    ensures Enabled(Apply(o, e), NextEdit(e).value)
  {
  }

  // ----- Names and instance IDs -----

  function Elems<T(==)>(s: seq<T>): set<T> {
    set x | x in s
  }

  ghost predicate NoDup<T>(s: seq<T>) {
    forall i, k | 0 <= i < k < |s| :: s[i] != s[k]
  }

  function IdSeq(nodes: seq<Entry>): (r: seq<string>)
    ensures |r| == |nodes|
    ensures forall i | 0 <= i < |nodes| :: r[i] == nodes[i].instanceId
  {
    seq(|nodes|, i requires 0 <= i < |nodes| => nodes[i].instanceId)
  }

  function NameSeq(nodes: seq<Entry>): (r: seq<string>)
    ensures |r| == |nodes|
    ensures forall i | 0 <= i < |nodes| :: r[i] == nodes[i].name
  {
    seq(|nodes|, i requires 0 <= i < |nodes| => nodes[i].name)
  }

  function Ids(nodes: seq<Entry>): set<string> {
    Elems(IdSeq(nodes))
  }

  function Names(nodes: seq<Entry>): set<string> {
    Elems(NameSeq(nodes))
  }

  ghost predicate Distinct(nodes: seq<Entry>) {
    NoDup(IdSeq(nodes)) && NoDup(NameSeq(nodes))
  }

  lemma EntryInSets(nodes: seq<Entry>, i: nat)
    requires i < |nodes|
    ensures nodes[i].instanceId in Ids(nodes) && nodes[i].name in Names(nodes)
  {
    assert nodes[i].instanceId == IdSeq(nodes)[i];
    assert nodes[i].name == NameSeq(nodes)[i];
  }

  lemma SameEntry(nodes: seq<Entry>, i: nat, k: nat)
    requires i < |nodes| && k < |nodes| && Distinct(nodes)
    requires nodes[i].instanceId == nodes[k].instanceId || nodes[i].name == nodes[k].name
    ensures i == k
  {
    assert IdSeq(nodes)[i] == nodes[i].instanceId && NameSeq(nodes)[i] == nodes[i].name;
  }

  lemma IdOfSome(nodes: seq<Entry>, id: string) returns (i: nat)
    requires id in Ids(nodes)
    ensures i < |nodes| && nodes[i].instanceId == id
  {
    i :| 0 <= i < |nodes| && IdSeq(nodes)[i] == id;
  }
}
