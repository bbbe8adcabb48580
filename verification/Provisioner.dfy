/** The provisioner's reconcile pass: from an unschedulable pod to launched nodes and one status write. */
module Provisioner {
  import opened Api
  import opened PoolEdits
  import opened Batch
  import opened Matching
  import opened Selector
  import opened Controllers
  import opened Launch
  import Packing

  const DEFAULT_CAPACITY := Capacity(1800, 7200, 0, "amd64")

  // ----- The batch -----

  /** The listed unschedulable pods that match this pool's own rules. */
  function BatchOf(listing: seq<Pod>, pool: Pool): seq<Pod> {
    if listing == [] then []
    else
      var pod := listing[|listing| - 1];
      BatchOf(listing[..|listing| - 1], pool) + if IsUnschedulable(pod) && Matches(pod, pool) then [pod] else []
  }

  lemma {:induction false} BatchHolds(listing: seq<Pod>, pool: Pool, pod: Pod)
    ensures multiset(BatchOf(listing, pool))[pod]
      == if IsUnschedulable(pod) && Matches(pod, pool) then multiset(listing)[pod] else 0
    ensures pod in BatchOf(listing, pool) <==> pod in listing && IsUnschedulable(pod) && Matches(pod, pool)
  {
    hide IsUnschedulable, Matches, BatchOf;
    BatchStep(listing, pool);
    if listing != [] {
      var init, last := listing[..|listing| - 1], listing[|listing| - 1];
      BatchHolds(init, pool, pod);
      OneMore(init, last, pod);
      OneMore(BatchOf(init, pool), last, pod);
    }
    Listed(listing, pod);
    Listed(BatchOf(listing, pool), pod);
  }

  lemma BatchStep(listing: seq<Pod>, pool: Pool)
    ensures listing == [] ==> BatchOf(listing, pool) == []
    ensures listing != [] ==>
      var init, last := listing[..|listing| - 1], listing[|listing| - 1];
      && listing == init + [last]
      && BatchOf(listing, pool) ==
           if IsUnschedulable(last) && Matches(last, pool) then BatchOf(init, pool) + [last] else BatchOf(init, pool)
  {
    hide IsUnschedulable, Matches;
  }

  lemma OneMore(pods: seq<Pod>, last: Pod, pod: Pod)
    ensures multiset(pods + [last])[pod] == multiset(pods)[pod] + if last == pod then 1 else 0
  {
  }

  lemma Listed(pods: seq<Pod>, pod: Pod)
    ensures pod in pods <==> multiset(pods)[pod] > 0
  {
    assert pod in pods <==> pod in multiset(pods);
  }

  /** While the rules stay the same, every listed pod that is routed to the pool is in the pool's batch. */
  lemma BatchCoversRouted(listing: seq<Pod>, pools: seq<Pool>, pool: Pool, fetched: Pool, pod: Pod)
    requires pod in listing && IsUnschedulable(pod) && Routed(pool, pod, pools)
    requires fetched.spec.rules == pool.spec.rules
    ensures pod in BatchOf(listing, fetched)
  {
    BatchHolds(listing, fetched, pod);
  }

  /** Then, with a free slot, the pass asks for at least one node, whatever the capacity it reckons with. */
  lemma BatchMakesProgress(listing: seq<Pod>, pools: seq<Pool>, pool: Pool, fetched: Pool, pod: Pod, cap: Capacity)
    requires pod in listing && IsUnschedulable(pod) && Routed(pool, pod, pools)
    requires fetched.spec.rules == pool.spec.rules && |BatchOf(listing, fetched)| <= INT32_MAX
    requires 0 <= CurrentNodes(fetched) < fetched.spec.scaling.maxNodes
    ensures NodesNeeded(BatchOf(listing, fetched), cap, CurrentNodes(fetched), fetched.spec.scaling.maxNodes) >= 1
  {
    hide Matches, Routed, IsUnschedulable, BatchOf, NodesNeeded, PerNode, CurrentNodes, CeilDiv;
    var pods := BatchOf(listing, fetched);
    BatchCoversRouted(listing, pools, pool, fetched, pod);
    Packing.CountIsChunks(pods, cap, CurrentNodes(fetched), fetched.spec.scaling.maxNodes);
    Packing.ChunksShape(pods, PerNode(pods, cap));
  }

  method CollectBatch(listing: seq<Pod>, pool: Pool) returns (batch: seq<Pod>)
    ensures batch == BatchOf(listing, pool)
  {
    hide Matches, IsUnschedulable;
    batch := [];
    for k := 0 to |listing|
      invariant batch == BatchOf(listing[..k], pool)
    {
      assert listing[..k + 1][..k] == listing[..k];
      var unschedulable := IsPodUnschedulable(listing[k]);
      if unschedulable {
        var choice := MatchPodToPool(listing[k], [pool]);
        if choice != None {
          batch := batch + [listing[k]];
        }
      }
    }
    assert listing[..|listing|] == listing;
  }

  // ----- The pass -----

  /** What the API server, the cluster and the clock answered to the pass. */
  datatype Observed = Observed(
    now: Time,
    pools: seq<Pool>,             // the pools listed at the start
    fetched: map<string, Pool>,   // what reading a pool again by its name returned, where that worked
    listing: Option<seq<Pod>>,    // all pods
    configFound: bool)            // the Talos secret has the key

  const DEBOUNCE: int := 30 * SECOND

  /** When the pod became unschedulable, by the first condition that says it is. */
  function UnschedulableSince(cs: seq<Condition>): Option<Time> {
    if cs == [] then None
    else if SaysUnschedulable(cs[0]) then cs[0].since
    else UnschedulableSince(cs[1..])
  }

  /** It is the time of condition `i` when that is the first of its kind; there is none without such a condition. */
  lemma {:induction false} SinceFirst(cs: seq<Condition>, i: nat)
    requires i <= |cs| && forall k | 0 <= k < i ::
      !(cs[k].kind == "PodScheduled" && cs[k].status == "False" && cs[k].reason == "Unschedulable")
    requires i < |cs| ==> cs[i].kind == "PodScheduled" && cs[i].status == "False" && cs[i].reason == "Unschedulable"
    ensures UnschedulableSince(cs) == if i < |cs| then cs[i].since else None
  {
    if i > 0 {
      SinceFirst(cs[1..], i - 1);
    }
  }

  method PodUnschedulableSince(pod: Pod) returns (since: Option<Time>)
    ensures since == UnschedulableSince(pod.conditions)
  {
    var cs := pod.conditions;
    for k := 0 to |cs|
      invariant UnschedulableSince(cs) == UnschedulableSince(cs[k..])
    {
      if SaysUnschedulable(cs[k]) {
        return cs[k].since;
      }
    }
    return None;
  }

  /**
   Unless bursting is enabled for the pod, it has to have been unschedulable for the debounce period, which
   is thirty seconds unless configured.
   */
  method Debounced(pod: Pod, now: Time, period: int) returns (wait: bool)
    ensures var since := UnschedulableSince(pod.conditions);
      wait <==>
        && Lookup(pod.labels, "burst.homelab.dev/enabled") != "true"
        && (since == None || now - since.value < if period > 0 then period else 30_000_000_000)
  {
    if Lookup(pod.labels, "burst.homelab.dev/enabled") == "true" {
      return false;
    }
    var since := PodUnschedulableSince(pod);
    var debounce := DEBOUNCE;
    if period > 0 {
      debounce := period;
    }
    return since == None || now - since.value < debounce;
  }

  function HeadCapacity(table: Table, candidates: seq<InstanceType>): Capacity
    requires |candidates| > 0
  {
    if candidates[0].name in table then table[candidates[0].name] else DEFAULT_CAPACITY
  }

  /**
   The calls of `n` launch turns, then one write of the pool with exactly the launched nodes recorded, and
   then, if that was acknowledged, the pod's annotation.
   */
  ghost predicate LaunchCalls(calls: seq<Action>, o: Pool, launched: seq<Entry>, rounds: seq<Round>, n: nat,
                              candidates: seq<InstanceType>, podName: string) {
    var t := AllCalls(rounds);
    && o.spec.aws.Some? && Rounds(rounds, n, t, candidates, o.spec.aws.value.ami)
    && |launched| <= n && Records(launched, Successes(t))
    && Enabled(o, Record(launched))
    && |calls| > |t| && calls[..|t|] == t && calls[|t|].Wrote?
    && calls[|t|].obj == o.(nodes := o.nodes + launched, pendingNodes := Wrap(o.pendingNodes + |launched|))
    && calls[|t| + 1..] == if calls[|t|].ok then [AnnotatedPod(podName)] else []
  }

  /**
   Written out: as many turns as asked for, whose calls come first; no more entries than turns, one new Pending
   entry per successful launch; the pool read with those entries and that many more pending; and the annotation.
   */
  lemma LaunchCallsMean(calls: seq<Action>, o: Pool, launched: seq<Entry>, rounds: seq<Round>, n: nat,
                        candidates: seq<InstanceType>, podName: string)
    requires LaunchCalls(calls, o, launched, rounds, n, candidates, podName)
    ensures |rounds| == n && |launched| <= n && Records(launched, Successes(AllCalls(rounds)))
    ensures var m := |AllCalls(rounds)|;
      && m < |calls| && calls[..m] == AllCalls(rounds) && calls[m].Wrote?
      && calls[m].obj == o.(nodes := o.nodes + launched, pendingNodes := Wrap(o.pendingNodes + |launched|))
      && (if calls[m].ok then |calls| == m + 2 && calls[m + 1] == AnnotatedPod(podName) else |calls| == m + 1)
  {
    RoundsCalls(rounds, n, AllCalls(rounds), candidates, o.spec.aws.value.ami);
    hide Wrap, Records, Enabled, Rounds, AllCalls, Successes, NewEntry;
    var m := |AllCalls(rounds)|;
    TailIs(calls, m, calls[m + 1..]);
    hide LaunchCalls;
  }

  lemma TailIs(calls: seq<Action>, m: nat, tail: seq<Action>)
    requires m < |calls| && calls[m + 1..] == tail
    ensures |calls| == m + 1 + |tail| && (|tail| > 0 ==> calls[m + 1] == tail[0])
  {
  }

  /**
   The whole pass. It makes no call unless the pod is unschedulable, past its debounce and not yet provisioned
   for, is routed to a pool that can be read again and has a free slot, and the pods and the configuration can
   be read. Then it selects types for the batch; and if there are any, it makes one launch turn for each node
   that the batch needs on the head and that there is room for, and writes the pool with the launched nodes.
   */
  method Reconcile(env: Env, pod: Pod, seen: Observed, period: int, table: Table)
    returns (pool: Option<Pool>, candidates: seq<InstanceType>, launched: seq<Entry>,
             ghost calls: seq<Action>, ghost rounds: seq<Round>, ghost times: seq<Time>)
    modifies env
    ensures env.trace == old(env.trace) + calls
    ensures pool.Some? ==> Routed(pool.value, pod, seen.pools)
    ensures var since := UnschedulableSince(pod.conditions);
      pool == None <==>
        || !IsUnschedulable(pod)
        || (Lookup(pod.labels, "burst.homelab.dev/enabled") != "true"
            && (since == None || seen.now - since.value < if period > 0 then period else 30_000_000_000))
        || forall q | q in seen.pools :: !Matches(pod, q)
    ensures
      if pool == None
         || Lookup(pod.annotations, "burst.homelab.dev/provisioned") == "true"
         || pool.value.name !in seen.fetched
         || CurrentNodes(seen.fetched[pool.value.name]) >= seen.fetched[pool.value.name].spec.scaling.maxNodes
         || seen.listing == None
         || !seen.configFound
      then calls == []
      else
        var o := seen.fetched[pool.value.name];
        var batch := BatchOf(seen.listing.value, o);
        && IsSelection(candidates, table, o.spec, batch)
        && if |candidates| == 0 then calls == []
           else
             var head := if candidates[0].name in table then table[candidates[0].name] else Capacity(1800, 7200, 0, "amd64");
             var n := NodesNeeded(batch, head, CurrentNodes(o), o.spec.scaling.maxNodes);
             if n == 0 then calls == []
             else
               && LaunchCalls(calls, o, launched, rounds, n, candidates, pod.name)
               && Timed(launched, times, old(env.clock), env.clock)
  {
    hide Wrap, NodesNeeded, LaunchCalls, Timed, Filter, BatchOf, Matches, IsSelection, Routed, IsUnschedulable, UnschedulableSince;
    candidates, launched, calls, rounds, times := [], [], [], [], [];
    pool := PoolFor(pod, seen, period);
    if pool == None {
      return;
    }
    if Lookup(pod.annotations, "burst.homelab.dev/provisioned") == "true" || pool.value.name !in seen.fetched {
      return;
    }
    var copy := new PoolCopy(seen.fetched[pool.value.name]);
    var current := Wrap(copy.activeNodes + copy.pendingNodes);
    if current >= copy.spec.scaling.maxNodes {
      return;
    }
    if seen.listing == None {
      return;
    }
    var batch := CollectBatch(seen.listing.value, copy.Value());
    candidates := SelectInstanceTypes(copy.spec, batch, table);
    if |candidates| == 0 {
      return;
    }
    SomethingSelected(candidates, table, copy.spec, batch);
    var nodesNeeded := CalculateNodesNeeded(batch, HeadCapacity(table, candidates), current, copy.spec.scaling.maxNodes);
    if nodesNeeded <= 0 {
      return;
    }
    if !seen.configFound {
      return;
    }
    launched, calls, rounds, times := LaunchAndWrite(env, copy, nodesNeeded, candidates, pod.name);
  }

  /** The pool that the pass is for, if the pod is ready to be provisioned for. */
  method PoolFor(pod: Pod, seen: Observed, period: int) returns (pool: Option<Pool>)
    ensures pool.Some? ==> Routed(pool.value, pod, seen.pools)
    ensures var since := UnschedulableSince(pod.conditions);
      pool == None <==>
        || !IsUnschedulable(pod)
        || (Lookup(pod.labels, "burst.homelab.dev/enabled") != "true"
            && (since == None || seen.now - since.value < if period > 0 then period else 30_000_000_000))
        || forall q | q in seen.pools :: !Matches(pod, q)
  {
    hide Matches, Routed, IsUnschedulable, UnschedulableSince;
    var unschedulable := IsPodUnschedulable(pod);
    if !unschedulable {
      return None;
    }
    var wait := Debounced(pod, seen.now, period);
    if wait {
      return None;
    }
    pool := MatchPodToPool(pod, seen.pools);
  }

  /** The launches, the one status write and the annotation, for `n` nodes. */
  method LaunchAndWrite(env: Env, copy: PoolCopy, n: nat, candidates: seq<InstanceType>, podName: string)
    returns (launched: seq<Entry>, ghost calls: seq<Action>, ghost rounds: seq<Round>, ghost times: seq<Time>)
    requires copy.spec.aws.Some?
    requires CurrentNodes(copy.Value()) < copy.spec.scaling.maxNodes
    requires n <= Wrap(copy.spec.scaling.maxNodes - CurrentNodes(copy.Value()))
    modifies env, copy
    ensures env.trace == old(env.trace) + calls
    ensures LaunchCalls(calls, old(copy.Value()), launched, rounds, n, candidates, podName)
    ensures Timed(launched, times, old(env.clock), env.clock)
  {
    hide Wrap, Rounds, Records, Timed, Enabled;
    ghost var o := copy.Value();
    launched, calls, rounds, times := LaunchNodes(env, copy, n, candidates, copy.spec.aws.value.ami);
    assert calls == AllCalls(rounds) && |rounds| == n by { RoundsCalls(rounds, n, calls, candidates, o.spec.aws.value.ami); }
    RecordsApply(o, launched, Successes(calls));
    var ok := env.UpdateStatus(copy);
    ghost var t := calls;
    calls := calls + [Wrote(copy.Value(), ok)];
    if ok {
      env.Touch(AnnotatedPod(podName));
      calls := calls + [AnnotatedPod(podName)];
    }
    assert calls[..|t|] == t;
  }

  lemma RoundsCalls(rounds: seq<Round>, n: nat, t: seq<Action>, candidates: seq<InstanceType>, ami: string)
    requires Rounds(rounds, n, t, candidates, ami)
    ensures t == AllCalls(rounds) && |rounds| == n
  {
  }

  lemma SomethingSelected(candidates: seq<InstanceType>, table: Table, spec: Spec, batch: seq<Pod>)
    requires IsSelection(candidates, table, spec, batch) && |candidates| > 0
    ensures spec.aws.Some? && Filter(table, batch, Candidates(spec)) != []
  {
    assert candidates[0] in multiset(candidates);
  }

  /** The copy that gained the launched nodes one by one is the pool with them recorded. */
  lemma RecordsApply(o: Pool, xs: seq<Entry>, launches: seq<(string, string, string)>)
    requires Records(xs, launches)
    requires CurrentNodes(o) < o.spec.scaling.maxNodes
    requires |xs| <= Wrap(o.spec.scaling.maxNodes - CurrentNodes(o))
    ensures Enabled(o, Record(xs))
    ensures AppendAll(o, xs) == o.(nodes := o.nodes + xs, pendingNodes := Wrap(o.pendingNodes + |xs|))
  {
    hide *;
    AllNew(xs, launches);
    AppendAllIsRecord(o, xs);
    AppendAllRecords(o, xs);
  }

  lemma AllNew(xs: seq<Entry>, launches: seq<(string, string, string)>)
    requires Records(xs, launches)
    ensures forall i | 0 <= i < |xs| :: NewEntry(xs[i])
  {
  }
}
