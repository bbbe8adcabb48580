/** One pass of orphan detection over the cloud, the managed nodes and the pool statuses. */
module OrphanPass {
  import opened Api
  import opened PoolEdits
  import opened CommitLog
  import opened Controllers

  datatype CloudNode = CloudNode(instanceId: string, name: string, launchedAt: Time)

  // ----- Lists without some of their members -----

  function NotIn(s: seq<CloudNode>, ids: set<string>): seq<CloudNode> {
    if s == [] then []
    else NotIn(s[..|s| - 1], ids) + if s[|s| - 1].instanceId in ids then [] else [s[|s| - 1]]
  }

  function NamesNotIn(s: seq<string>, names: set<string>): seq<string> {
    if s == [] then []
    else NamesNotIn(s[..|s| - 1], names) + if s[|s| - 1] in names then [] else [s[|s| - 1]]
  }

  function EntriesNotIn(s: seq<Entry>, names: set<string>): seq<Entry> {
    if s == [] then []
    else EntriesNotIn(s[..|s| - 1], names) + if s[|s| - 1].name in names then [] else [s[|s| - 1]]
  }

  lemma {:induction false} NotInTwice(s: seq<CloudNode>, a: set<string>, b: set<string>)
    ensures NotIn(NotIn(s, a), b) == NotIn(s, a + b)
  {
    if s != [] {
      var x, rest := s[|s| - 1], NotIn(s[..|s| - 1], a);
      NotInTwice(s[..|s| - 1], a, b);
      if x.instanceId !in a {
        assert (rest + [x])[..|rest|] == rest;
      } else {
        assert rest + [] == rest;
      }
    }
  }

  lemma {:induction false} NamesNotInTwice(s: seq<string>, a: set<string>, b: set<string>)
    ensures NamesNotIn(NamesNotIn(s, a), b) == NamesNotIn(s, a + b)
  {
    if s != [] {
      var x, rest := s[|s| - 1], NamesNotIn(s[..|s| - 1], a);
      NamesNotInTwice(s[..|s| - 1], a, b);
      if x !in a {
        assert (rest + [x])[..|rest|] == rest;
      } else {
        assert rest + [] == rest;
      }
    }
  }

  lemma {:induction false} NotInHolds(s: seq<CloudNode>, ids: set<string>)
    ensures forall x :: x in NotIn(s, ids) <==> x in s && x.instanceId !in ids
    ensures ids == {} ==> NotIn(s, ids) == s
  {
    if s != [] {
      NotInHolds(s[..|s| - 1], ids);
      assert s == s[..|s| - 1] + [s[|s| - 1]];
    }
  }

  lemma {:induction false} NamesNotInHolds(s: seq<string>, names: set<string>)
    ensures forall x :: x in NamesNotIn(s, names) <==> x in s && x !in names
    ensures names == {} ==> NamesNotIn(s, names) == s
  {
    if s != [] {
      NamesNotInHolds(s[..|s| - 1], names);
      assert s == s[..|s| - 1] + [s[|s| - 1]];
    }
  }

  // ----- What the pass looks for -----

  predicate HasInstance(cloud: seq<CloudNode>, name: string) {
    exists i :: 0 <= i < |cloud| && cloud[i].name == name
  }

  /** No managed node of its name, and past the boot timeout. */
  predicate Orphaned(x: CloudNode, nodes: seq<string>, now: Time, timeout: int) {
    x.name !in nodes && now - x.launchedAt >= timeout
  }

  // ----- The calls of a pass -----

  /** A call and how it went: a termination, the deletion of a node, or taking a name out of the statuses. */
  datatype Call = Terminate(target: string, ok: bool) | Delete(target: string, ok: bool) | Clean(target: string, ok: bool)

  /** The calls as they are meant, whatever came of them. */
  function Meant(calls: seq<Call>): (r: seq<Call>)
    ensures |r| == |calls| && forall i | 0 <= i < |calls| :: r[i] == calls[i].(ok := true)
  {
    seq(|calls|, i requires 0 <= i < |calls| => calls[i].(ok := true))
  }

  /** For each orphaned instance in turn, its termination and then, whatever came of that, its name. */
  function InstancePlan(cloud: seq<CloudNode>, nodes: seq<string>, now: Time, timeout: int): seq<Call> {
    if cloud == [] then []
    else
      var x := cloud[|cloud| - 1];
      InstancePlan(cloud[..|cloud| - 1], nodes, now, timeout) +
      if Orphaned(x, nodes, now, timeout) then [Terminate(x.instanceId, true), Clean(x.name, true)] else []
  }

  /** For each node without an instance in turn, its deletion and then, whatever came of that, its name. */
  function NodePlan(nodes: seq<string>, cloud: seq<CloudNode>): seq<Call> {
    if nodes == [] then []
    else
      var x := nodes[|nodes| - 1];
      NodePlan(nodes[..|nodes| - 1], cloud) + if HasInstance(cloud, x) then [] else [Delete(x, true), Clean(x, true)]
  }

  ghost function TerminatedIds(calls: seq<Call>): set<string> {
    set c | c in calls && c.Terminate? && c.ok :: c.target
  }

  ghost function DeletedNames(calls: seq<Call>): set<string> {
    set c | c in calls && c.Delete? && c.ok :: c.target
  }

  /** The names that were taken out of the statuses, in order. */
  function CleanedNames(calls: seq<Call>): seq<string> {
    if calls == [] then []
    else
      var c := calls[|calls| - 1];
      CleanedNames(calls[..|calls| - 1]) + if c.Clean? && c.ok then [c.target] else []
  }

  lemma MeantConcat(a: seq<Call>, b: seq<Call>)
    ensures Meant(a + b) == Meant(a) + Meant(b)
  {
  }

  lemma {:induction false} CleanedConcat(a: seq<Call>, b: seq<Call>)
    ensures CleanedNames(a + b) == CleanedNames(a) + CleanedNames(b)
  {
    if b == [] {
      assert a + b == a;
    } else {
      assert (a + b)[..|a + b| - 1] == a + b[..|b| - 1];
      CleanedConcat(a, b[..|b| - 1]);
    }
  }

  lemma SetsConcat(a: seq<Call>, b: seq<Call>)
    ensures TerminatedIds(a + b) == TerminatedIds(a) + TerminatedIds(b)
    ensures DeletedNames(a + b) == DeletedNames(a) + DeletedNames(b)
  {
  }

  lemma {:induction false} InstancePlanKinds(cloud: seq<CloudNode>, nodes: seq<string>, now: Time, timeout: int)
    ensures forall c | c in InstancePlan(cloud, nodes, now, timeout) :: !c.Delete?
    decreases |cloud|
  {
    if cloud != [] {
      InstancePlanKinds(cloud[..|cloud| - 1], nodes, now, timeout);
    }
  }

  lemma {:induction false} NodePlanKinds(nodes: seq<string>, cloud: seq<CloudNode>)
    ensures forall c | c in NodePlan(nodes, cloud) :: !c.Terminate?
    decreases |nodes|
  {
    if nodes != [] {
      NodePlanKinds(nodes[..|nodes| - 1], cloud);
    }
  }

  lemma {:induction false} InInstancePlan(cloud: seq<CloudNode>, nodes: seq<string>, now: Time, timeout: int, c: Call)
    ensures c in InstancePlan(cloud, nodes, now, timeout) <==>
      exists x :: x in cloud && x.name !in nodes && now - x.launchedAt >= timeout
        && (c == Terminate(x.instanceId, true) || c == Clean(x.name, true))
    decreases |cloud|
  {
    if cloud != [] {
      var init, last := cloud[..|cloud| - 1], cloud[|cloud| - 1];
      InInstancePlan(init, nodes, now, timeout, c);
      assert cloud == init + [last];
    }
  }

  lemma {:induction false} InNodePlan(nodes: seq<string>, cloud: seq<CloudNode>, c: Call)
    ensures c in NodePlan(nodes, cloud) <==>
      exists n :: n in nodes && (forall x | x in cloud :: x.name != n) && (c == Delete(n, true) || c == Clean(n, true))
    decreases |nodes|
  {
    if nodes != [] {
      var init, last := nodes[..|nodes| - 1], nodes[|nodes| - 1];
      InNodePlan(init, cloud, c);
      assert nodes == init + [last];
      HasInstanceMeans(cloud, last);
    }
  }

  lemma HasInstanceMeans(cloud: seq<CloudNode>, n: string)
    ensures HasInstance(cloud, n) <==> exists x :: x in cloud && x.name == n
  {
    if HasInstance(cloud, n) {
      var i :| 0 <= i < |cloud| && cloud[i].name == n;
      assert cloud[i] in cloud;
    }
  }

  /** The call was made, whatever came of it. */
  predicate Made(calls: seq<Call>, c: Call) {
    c.(ok := true) in calls || c.(ok := false) in calls
  }

  /** The call terminates an instance without a node that was launched the boot timeout ago, or takes out its name. */
  ghost predicate ForInstance(cloud: seq<CloudNode>, nodes: seq<string>, now: Time, timeout: int, c: Call) {
    exists x ::
      && x in cloud && x.name !in nodes && now - x.launchedAt >= timeout
      && (c == Terminate(x.instanceId, c.ok) || c == Clean(x.name, c.ok))
  }

  /** The call deletes a node without an instance, or takes out its name. */
  ghost predicate ForNode(nodes: seq<string>, cloud: seq<CloudNode>, c: Call) {
    && (c.Delete? || c.Clean?)
    && c.target in nodes && forall x | x in cloud :: x.name != c.target
  }

  lemma InstancesCalled(cloud: seq<CloudNode>, nodes: seq<string>, now: Time, timeout: int, calls: seq<Call>)
    requires Meant(calls) == InstancePlan(cloud, nodes, now, timeout)
    ensures forall c :: Made(calls, c) <==> ForInstance(cloud, nodes, now, timeout, c)
  {
    hide Meant, InstancePlan, Made;
    forall c
      ensures Made(calls, c) <==> ForInstance(cloud, nodes, now, timeout, c)
    {
      InInstancePlan(cloud, nodes, now, timeout, c.(ok := true));
      MeantMade(calls, c);
    }
  }

  lemma NodesCalled(nodes: seq<string>, cloud: seq<CloudNode>, calls: seq<Call>)
    requires Meant(calls) == NodePlan(nodes, cloud)
    ensures forall c :: Made(calls, c) <==> ForNode(nodes, cloud, c)
  {
    hide Meant, NodePlan, Made;
    forall c
      ensures Made(calls, c) <==> ForNode(nodes, cloud, c)
    {
      InNodePlan(nodes, cloud, c.(ok := true));
      MeantMade(calls, c);
    }
  }

  lemma MeantMade(calls: seq<Call>, c: Call)
    ensures c.(ok := true) in Meant(calls) <==> Made(calls, c)
  {
    if Made(calls, c) {
      MeantHas(calls, if c.(ok := true) in calls then c.(ok := true) else c.(ok := false));
    }
    if c.(ok := true) in Meant(calls) {
      var i :| 0 <= i < |calls| && Meant(calls)[i] == c.(ok := true);
      assert calls[i] in calls;
    }
  }

  lemma MadeConcat(a: seq<Call>, b: seq<Call>)
    ensures forall c :: Made(a + b, c) <==> Made(a, c) || Made(b, c)
  {
  }

  /** Two more calls, the second of which takes a name out of the statuses. */
  lemma TwoCalls(calls: seq<Call>, a: Call, b: Call)
    requires !a.Clean? && b.Clean?
    ensures Meant(calls + [a, b]) == Meant(calls) + [a.(ok := true), b.(ok := true)]
    ensures TerminatedIds(calls + [a, b]) == TerminatedIds(calls) + if a.Terminate? && a.ok then {a.target} else {}
    ensures DeletedNames(calls + [a, b]) == DeletedNames(calls) + if a.Delete? && a.ok then {a.target} else {}
    ensures CleanedNames(calls + [a, b]) == CleanedNames(calls) + if b.ok then [b.target] else []
  {
    hide *;
    MeantConcat(calls, [a, b]);
    SetsConcat(calls, [a, b]);
    CleanedConcat(calls, [a, b]);
    OnlyTwo(a, b);
  }

  lemma OnlyTwo(a: Call, b: Call)
    requires !a.Clean? && b.Clean?
    ensures Meant([a, b]) == [a.(ok := true), b.(ok := true)]
    ensures TerminatedIds([a, b]) == if a.Terminate? && a.ok then {a.target} else {}
    ensures DeletedNames([a, b]) == if a.Delete? && a.ok then {a.target} else {}
    ensures CleanedNames([a, b]) == if b.ok then [b.target] else []
  {
    assert [a, b][..1] == [a];
    assert CleanedNames([a]) == [];
  }

  // ----- Taking a name out of the statuses -----

  predicate HasName(nodes: seq<Entry>, name: string) {
    exists i :: 0 <= i < |nodes| && nodes[i].name == name
  }

  function IndexOf(nodes: seq<Entry>, name: string): (r: nat)
    requires HasName(nodes, name)
    ensures r < |nodes| && nodes[r].name == name
    ensures forall i | 0 <= i < r :: nodes[i].name != name
  {
    if nodes[0].name == name then 0
    else
      assert HasName(nodes[1..], name) by {
        var i :| 0 <= i < |nodes| && nodes[i].name == name;
        assert nodes[1..][i - 1].name == name;
      }
      1 + IndexOf(nodes[1..], name)
  }

  function DropOne(o: Pool, name: string): Pool {
    if HasName(o.nodes, name) then OrphanDropped(o, IndexOf(o.nodes, name)) else o
  }

  /** The first entry of that name, in the first pool that has one, is dropped. */
  function DropFirst(pools: seq<Pool>, name: string): seq<Pool> {
    if pools == [] then []
    else if HasName(pools[0].nodes, name) then [DropOne(pools[0], name)] + pools[1..]
    else [pools[0]] + DropFirst(pools[1..], name)
  }

  function DropEach(pools: seq<Pool>, names: seq<string>): seq<Pool> {
    if names == [] then pools else DropFirst(DropEach(pools, names[..|names| - 1]), names[|names| - 1])
  }

  lemma {:induction false} DropFirstAt(pools: seq<Pool>, name: string, i: nat)
    requires i < |pools| && HasName(pools[i].nodes, name)
    requires forall k | 0 <= k < i :: !HasName(pools[k].nodes, name)
    ensures DropFirst(pools, name) == pools[i := DropOne(pools[i], name)]
  {
    if i > 0 {
      DropFirstAt(pools[1..], name, i - 1);
    }
  }

  lemma {:induction false} DropFirstNone(pools: seq<Pool>, name: string)
    requires forall k | 0 <= k < |pools| :: !HasName(pools[k].nodes, name)
    ensures DropFirst(pools, name) == pools
  {
    if pools != [] {
      DropFirstNone(pools[1..], name);
    }
  }

  // ----- The cluster -----

  class Cluster {
    var cloud: seq<CloudNode>   // the running instances tagged as managed
    var nodes: seq<string>      // the Kubernetes nodes labelled as managed
    var pools: seq<Pool>
    ghost var calls: seq<Call>  // the calls made so far, in order

    constructor (cloud: seq<CloudNode>, nodes: seq<string>, pools: seq<Pool>)
      ensures this.cloud == cloud && this.nodes == nodes && this.pools == pools && calls == []
    {
      this.cloud, this.nodes, this.pools, this.calls := cloud, nodes, pools, [];
    }

    method TerminateNode(id: string) returns (ok: bool)
      modifies this`cloud, this`calls
      ensures calls == old(calls) + [Terminate(id, ok)]
      ensures cloud == if ok then NotIn(old(cloud), {id}) else old(cloud)
    {
      ok := *;
      calls := calls + [Terminate(id, ok)];
      if ok {
        cloud := NotIn(cloud, {id});
      }
    }

    method DeleteNode(name: string) returns (ok: bool)
      modifies this`nodes, this`calls
      ensures calls == old(calls) + [Delete(name, ok)]
      ensures nodes == if ok then NamesNotIn(old(nodes), {name}) else old(nodes)
    {
      ok := *;
      calls := calls + [Delete(name, ok)];
      if ok {
        nodes := NamesNotIn(nodes, {name});
      }
    }

    method UpdateStatus(i: nat, o: Pool) returns (ok: bool)
      requires i < |pools|
      modifies this`pools
      ensures pools == if ok then old(pools)[i := o] else old(pools)
    {
      ok := *;
      if ok {
        pools := pools[i := o];
      }
    }

    /** Takes the first entry of that name out of the statuses; a failed write leaves them as they were. */
    method RemoveFromPoolStatus(name: string) returns (ok: bool)
      modifies this`pools, this`calls
      ensures calls == old(calls) + [Clean(name, ok)]
      ensures pools == if ok then DropFirst(old(pools), name) else old(pools)
    {
      var listed: bool := *;
      if !listed {
        calls := calls + [Clean(name, false)];
        return false;
      }
      for i := 0 to |pools|
        invariant pools == old(pools) && calls == old(calls)
        invariant forall k | 0 <= k < i :: !HasName(pools[k].nodes, name)
      {
        var copy := new PoolCopy(pools[i]);
        for j := 0 to |copy.nodes|
          invariant pools == old(pools) && calls == old(calls) && copy.Value() == pools[i]
          invariant forall k | 0 <= k < j :: copy.nodes[k].name != name
        {
          if copy.nodes[j].name == name {
            assert IndexOf(pools[i].nodes, name) == j;
            DropFirstAt(pools, name, i);
            DropEntry(copy, j);
            ok := UpdateStatus(i, copy.Value());
            calls := calls + [Clean(name, ok)];
            return;
          }
        }
      }
      DropFirstNone(pools, name);
      calls := calls + [Clean(name, true)];
      ok := true;
    }
  }

  /** Splices the entry out of the copy and adjusts the counters by its state. */
  method DropEntry(copy: PoolCopy, j: nat)
    requires j < |copy.nodes|
    modifies copy
    ensures copy.Value() == OrphanDropped(old(copy.Value()), j)
    ensures copy.nodes == old(copy.nodes)[..j] + old(copy.nodes)[j + 1..]
    ensures var state := old(copy.nodes)[j].state;
      var active := if state == Pending || state == Terminating then old(copy.activeNodes) else Wrap(old(copy.activeNodes) - 1);
      var pending := if state == Pending then Wrap(old(copy.pendingNodes) - 1) else old(copy.pendingNodes);
      && copy.activeNodes == (if active < 0 then 0 else active)
      && copy.pendingNodes == (if pending < 0 then 0 else pending)
  {
    var state := copy.nodes[j].state;
    copy.Splice(j);
    match state {
      case Pending => copy.pendingNodes := Wrap(copy.pendingNodes - 1);
      case Running => copy.activeNodes := Wrap(copy.activeNodes - 1);
      case Cordoned => copy.activeNodes := Wrap(copy.activeNodes - 1);
      case Draining => copy.activeNodes := Wrap(copy.activeNodes - 1);
      case Terminating =>
    }
    if copy.activeNodes < 0 {
      copy.activeNodes := 0;
    }
    if copy.pendingNodes < 0 {
      copy.pendingNodes := 0;
    }
  }

  // ----- The pass -----

  /**
   A pass made these calls, each orphan's in turn and in full, and nothing has changed but by those that
   succeeded.
   */
  ghost predicate Cleaned(cloud: seq<CloudNode>, nodes: seq<string>, pools: seq<Pool>,
                          cloud': seq<CloudNode>, nodes': seq<string>, pools': seq<Pool>,
                          now: Time, timeout: int, calls: seq<Call>) {
    && Meant(calls) == InstancePlan(cloud, nodes, now, timeout) + NodePlan(nodes, cloud)
    && cloud' == NotIn(cloud, TerminatedIds(calls))
    && nodes' == NamesNotIn(nodes, DeletedNames(calls))
    && pools' == DropEach(pools, CleanedNames(calls))
  }

  lemma DropEachSnoc(pools: seq<Pool>, names: seq<string>, name: string)
    ensures DropEach(pools, names + [name]) == DropFirst(DropEach(pools, names), name)
  {
    assert (names + [name])[..|names|] == names;
  }

  lemma {:induction false} DropEachConcat(pools: seq<Pool>, a: seq<string>, b: seq<string>)
    ensures DropEach(pools, a + b) == DropEach(DropEach(pools, a), b)
  {
    if b == [] {
      assert a + b == a;
    } else {
      assert a + b == (a + b[..|b| - 1]) + [b[|b| - 1]];
      DropEachSnoc(pools, a + b[..|b| - 1], b[|b| - 1]);
      DropEachConcat(pools, a, b[..|b| - 1]);
    }
  }

  lemma NoCalls(pools: seq<Pool>)
    ensures Meant([]) == [] && CleanedNames([]) == [] && DropEach(pools, []) == pools
    ensures TerminatedIds([]) == {} && DeletedNames([]) == {}
  {
  }

  /** These lists are the ones before, less what the calls took out. */
  ghost predicate Effect(cloud: seq<CloudNode>, nodes: seq<string>, pools: seq<Pool>,
                         cloud': seq<CloudNode>, nodes': seq<string>, pools': seq<Pool>, calls: seq<Call>) {
    && cloud' == NotIn(cloud, TerminatedIds(calls))
    && nodes' == NamesNotIn(nodes, DeletedNames(calls))
    && pools' == DropEach(pools, CleanedNames(calls))
  }

  lemma NoEffect(cloud: seq<CloudNode>, nodes: seq<string>, pools: seq<Pool>)
    ensures Meant([]) == [] && Effect(cloud, nodes, pools, cloud, nodes, pools, [])
  {
    NotInHolds(cloud, {});
    NamesNotInHolds(nodes, {});
    NoCalls(pools);
  }

  /** A call on an orphan and the one that takes out its name, however they go. */
  lemma EffectStep(cloud: seq<CloudNode>, nodes: seq<string>, pools: seq<Pool>,
                   cloud': seq<CloudNode>, nodes': seq<string>, pools': seq<Pool>, calls: seq<Call>,
                   a: Call, b: Call)
    requires Effect(cloud, nodes, pools, cloud', nodes', pools', calls) && !a.Clean? && b.Clean?
    ensures Meant(calls + [a, b]) == Meant(calls) + [a.(ok := true), b.(ok := true)]
    ensures Effect(cloud, nodes, pools,
                   if a.Terminate? && a.ok then NotIn(cloud', {a.target}) else cloud',
                   if a.Delete? && a.ok then NamesNotIn(nodes', {a.target}) else nodes',
                   if b.ok then DropFirst(pools', b.target) else pools',
                   calls + [a, b])
  {
    TwoCalls(calls, a, b);
    hide Meant, TerminatedIds, DeletedNames, CleanedNames, DropFirst, DropEach, NotIn, NamesNotIn;
    CloudStep(cloud, TerminatedIds(calls), a);
    NodesStep(nodes, DeletedNames(calls), a);
    PoolsStep(pools, CleanedNames(calls), b);
  }

  lemma CloudStep(cloud: seq<CloudNode>, ids: set<string>, a: Call)
    ensures NotIn(cloud, ids + if a.Terminate? && a.ok then {a.target} else {})
      == if a.Terminate? && a.ok then NotIn(NotIn(cloud, ids), {a.target}) else NotIn(cloud, ids)
  {
    hide NotIn;
    NotInTwice(cloud, ids, {a.target});
    assert ids + {} == ids;
  }

  lemma NodesStep(nodes: seq<string>, names: set<string>, a: Call)
    ensures NamesNotIn(nodes, names + if a.Delete? && a.ok then {a.target} else {})
      == if a.Delete? && a.ok then NamesNotIn(NamesNotIn(nodes, names), {a.target}) else NamesNotIn(nodes, names)
  {
    hide NamesNotIn;
    NamesNotInTwice(nodes, names, {a.target});
    assert names + {} == names;
  }

  lemma PoolsStep(pools: seq<Pool>, names: seq<string>, b: Call)
    ensures DropEach(pools, names + if b.ok then [b.target] else [])
      == if b.ok then DropFirst(DropEach(pools, names), b.target) else DropEach(pools, names)
  {
    hide DropEach, DropFirst;
    DropEachSnoc(pools, names, b.target);
    assert names + [] == names;
  }

  lemma OneMoreInstance(listing: seq<CloudNode>, k: nat, nodes: seq<string>, now: Time, timeout: int)
    requires k < |listing|
    ensures InstancePlan(listing[..k + 1], nodes, now, timeout) == InstancePlan(listing[..k], nodes, now, timeout) +
      if listing[k].name !in nodes && now - listing[k].launchedAt >= timeout
      then [Terminate(listing[k].instanceId, true), Clean(listing[k].name, true)] else []
  {
    assert listing[..k + 1][..k] == listing[..k];
  }

  lemma OneMoreNode(nodes: seq<string>, k: nat, cloud: seq<CloudNode>)
    requires k < |nodes|
    ensures NodePlan(nodes[..k + 1], cloud) == NodePlan(nodes[..k], cloud) +
      if HasInstance(cloud, nodes[k]) then [] else [Delete(nodes[k], true), Clean(nodes[k], true)]
  {
    assert nodes[..k + 1][..k] == nodes[..k];
  }

  lemma NothingPlanned(nodes: seq<string>, now: Time, timeout: int, cloud: seq<CloudNode>)
    ensures InstancePlan([], nodes, now, timeout) == [] && NodePlan([], cloud) == []
  {
  }

  /** Case 1: instances without a node, past the boot timeout. */
  method TerminateOrphans(c: Cluster, listing: seq<CloudNode>, known: set<string>, ghost nodes: seq<string>,
                          now: Time, timeout: int)
    returns (ghost calls: seq<Call>)
    requires c.cloud == listing && forall n :: n in known <==> n in nodes
    modifies c`cloud, c`pools, c`calls
    ensures c.calls == old(c.calls) + calls
    ensures Meant(calls) == InstancePlan(listing, nodes, now, timeout)
    ensures forall d :: Made(calls, d) <==> ForInstance(listing, nodes, now, timeout, d)
    ensures c.cloud == NotIn(listing, TerminatedIds(calls))
    ensures c.pools == DropEach(old(c.pools), CleanedNames(calls))
  {
    hide *;
    calls := [];
    NoEffect(listing, c.nodes, c.pools);
    NothingPlanned(nodes, now, timeout, listing);
    for k := 0 to |listing|
      invariant c.calls == old(c.calls) + calls
      invariant Meant(calls) == InstancePlan(listing[..k], nodes, now, timeout)
      invariant Effect(listing, c.nodes, old(c.pools), c.cloud, c.nodes, c.pools, calls)
    {
      var x := listing[k];
      OneMoreInstance(listing, k, nodes, now, timeout);
      if x.name in known {
        continue;
      }
      if now - x.launchedAt < timeout {
        continue;
      }
      ghost var cloud1, pools1 := c.cloud, c.pools;
      var ok := c.TerminateNode(x.instanceId);
      var cleaned := c.RemoveFromPoolStatus(x.name);
      EffectStep(listing, c.nodes, old(c.pools), cloud1, c.nodes, pools1, calls,
                 Terminate(x.instanceId, ok), Clean(x.name, cleaned));
      calls := calls + [Terminate(x.instanceId, ok), Clean(x.name, cleaned)];
    }
    assert listing[..|listing|] == listing;
    Effected(listing, c.nodes, old(c.pools), c.cloud, c.nodes, c.pools, calls);
    InstancesCalled(listing, nodes, now, timeout, calls);
  }

  lemma Effected(cloud: seq<CloudNode>, nodes: seq<string>, pools: seq<Pool>,
                 cloud': seq<CloudNode>, nodes': seq<string>, pools': seq<Pool>, calls: seq<Call>)
    requires Effect(cloud, nodes, pools, cloud', nodes', pools', calls)
    ensures cloud' == NotIn(cloud, TerminatedIds(calls))
    ensures nodes' == NamesNotIn(nodes, DeletedNames(calls))
    ensures pools' == DropEach(pools, CleanedNames(calls))
  {
  }

  /** Case 2: nodes without an instance. */
  method DeleteOrphans(c: Cluster, nodeList: seq<string>, known: set<string>, ghost cloud: seq<CloudNode>)
    returns (ghost calls: seq<Call>)
    requires c.nodes == nodeList && forall n :: n in known <==> HasInstance(cloud, n)
    modifies c`nodes, c`pools, c`calls
    ensures c.calls == old(c.calls) + calls
    ensures Meant(calls) == NodePlan(nodeList, cloud)
    ensures forall d :: Made(calls, d) <==> ForNode(nodeList, cloud, d)
    ensures c.nodes == NamesNotIn(nodeList, DeletedNames(calls))
    ensures c.pools == DropEach(old(c.pools), CleanedNames(calls))
  {
    hide *;
    calls := [];
    NoEffect(cloud, nodeList, c.pools);
    NothingPlanned(nodeList, 0, 0, cloud);
    for k := 0 to |nodeList|
      invariant c.calls == old(c.calls) + calls
      invariant Meant(calls) == NodePlan(nodeList[..k], cloud)
      invariant Effect(cloud, nodeList, old(c.pools), cloud, c.nodes, c.pools, calls)
    {
      var x := nodeList[k];
      OneMoreNode(nodeList, k, cloud);
      if x in known {
        continue;
      }
      ghost var nodes1, pools1 := c.nodes, c.pools;
      var ok := c.DeleteNode(x);
      var cleaned := c.RemoveFromPoolStatus(x);
      EffectStep(cloud, nodeList, old(c.pools), cloud, nodes1, pools1, calls, Delete(x, ok), Clean(x, cleaned));
      calls := calls + [Delete(x, ok), Clean(x, cleaned)];
    }
    assert nodeList[..|nodeList|] == nodeList;
    Effected(cloud, nodeList, old(c.pools), cloud, c.nodes, c.pools, calls);
    NodesCalled(nodeList, cloud, calls);
  }

  /** The pass, from listings that agree with the cluster; every call may fail, the listings too. */
  method Reconcile(c: Cluster, cloudListed: bool, nodesListed: bool, now: Time, timeout: int)
    returns (ghost calls: seq<Call>)
    modifies c
    ensures c.calls == old(c.calls) + calls
    ensures cloudListed && nodesListed ==>
      Cleaned(old(c.cloud), old(c.nodes), old(c.pools), c.cloud, c.nodes, c.pools, now, timeout, calls)
    ensures cloudListed && nodesListed ==> forall d ::
      Made(calls, d) <==>
        ForInstance(old(c.cloud), old(c.nodes), now, timeout, d) || ForNode(old(c.nodes), old(c.cloud), d)
    ensures !(cloudListed && nodesListed) ==>
      calls == [] && c.cloud == old(c.cloud) && c.nodes == old(c.nodes) && c.pools == old(c.pools)
  {
    hide *;
    if !cloudListed || !nodesListed {
      calls := [];
      assert c.calls == old(c.calls) + calls;
      return;
    }
    var cloud, nodes := c.cloud, c.nodes;
    var k8sNodeNames := NodeNames(nodes);
    var cloudNames := InstanceNames(cloud);
    ghost var pools := c.pools;
    ghost var a := TerminateOrphans(c, cloud, k8sNodeNames, nodes, now, timeout);
    ghost var b := DeleteOrphans(c, nodes, cloudNames, cloud);
    calls := a + b;
    DropEachConcat(pools, CleanedNames(a), CleanedNames(b));
    CallsConcat(cloud, nodes, now, timeout, a, b);
    CleanedBy(cloud, nodes, pools, c.cloud, c.nodes, c.pools, now, timeout, calls);
    MadeConcat(a, b);
  }

  /** The lookup map of the managed nodes. */
  method NodeNames(nodes: seq<string>) returns (names: set<string>)
    ensures forall n :: n in names <==> n in nodes
  {
    names := {};
    for k := 0 to |nodes|
      invariant forall n :: n in names <==> n in nodes[..k]
    {
      names := names + {nodes[k]};
    }
    assert nodes[..|nodes|] == nodes;
  }

  /** The lookup map of the instances, by name. */
  method InstanceNames(cloud: seq<CloudNode>) returns (names: set<string>)
    ensures forall n :: n in names <==> HasInstance(cloud, n)
  {
    names := {};
    for k := 0 to |cloud|
      invariant forall n :: n in names <==> HasInstance(cloud[..k], n)
    {
      names := names + {cloud[k].name};
      assert cloud[..k + 1] == cloud[..k] + [cloud[k]];
      InstanceSnoc(cloud[..k], cloud[k]);
    }
    assert cloud[..|cloud|] == cloud;
  }

  lemma CleanedBy(cloud: seq<CloudNode>, nodes: seq<string>, pools: seq<Pool>,
                  cloud': seq<CloudNode>, nodes': seq<string>, pools': seq<Pool>,
                  now: Time, timeout: int, calls: seq<Call>)
    requires Meant(calls) == InstancePlan(cloud, nodes, now, timeout) + NodePlan(nodes, cloud)
    requires cloud' == NotIn(cloud, TerminatedIds(calls)) && nodes' == NamesNotIn(nodes, DeletedNames(calls))
    requires pools' == DropEach(pools, CleanedNames(calls))
    ensures Cleaned(cloud, nodes, pools, cloud', nodes', pools', now, timeout, calls)
  {
  }

  /** Only the first loop terminates, and only the second deletes. */
  lemma CallsConcat(cloud: seq<CloudNode>, nodes: seq<string>, now: Time, timeout: int, a: seq<Call>, b: seq<Call>)
    requires Meant(a) == InstancePlan(cloud, nodes, now, timeout) && Meant(b) == NodePlan(nodes, cloud)
    ensures Meant(a + b) == InstancePlan(cloud, nodes, now, timeout) + NodePlan(nodes, cloud)
    ensures TerminatedIds(a + b) == TerminatedIds(a) && DeletedNames(a + b) == DeletedNames(b)
    ensures CleanedNames(a + b) == CleanedNames(a) + CleanedNames(b)
  {
    InstancePlanKinds(cloud, nodes, now, timeout);
    NodePlanKinds(nodes, cloud);
    MeantConcat(a, b);
    SetsConcat(a, b);
    CleanedConcat(a, b);
    forall c | c in a
      ensures !c.Delete?
    {
      MeantHas(a, c);
    }
    forall c | c in b
      ensures !c.Terminate?
    {
      MeantHas(b, c);
    }
  }

  lemma MeantHas(calls: seq<Call>, c: Call)
    requires c in calls
    ensures c.(ok := true) in Meant(calls)
  {
    var i :| 0 <= i < |calls| && calls[i] == c;
    assert Meant(calls)[i] == c.(ok := true);
  }

  lemma InstanceSnoc(cloud: seq<CloudNode>, x: CloudNode)
    ensures forall n :: HasInstance(cloud + [x], n) <==> HasInstance(cloud, n) || x.name == n
  {
    var s := cloud + [x];
    assert s[|cloud|] == x;
    assert forall i | 0 <= i < |cloud| :: s[i] == cloud[i];
  }
}
