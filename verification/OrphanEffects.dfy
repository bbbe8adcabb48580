/** What one orphan pass achieves. */
module OrphanEffects {
  import opened Api
  import opened PoolEdits
  import opened CommitLog
  import opened OrphanPass

  ghost predicate DistinctInstances(cloud: seq<CloudNode>) {
    forall i, k | 0 <= i < |cloud| && 0 <= k < |cloud| && cloud[i].instanceId == cloud[k].instanceId :: cloud[i] == cloud[k]
  }

  /** A pass makes the calls for its orphans, and no others. */
  lemma PassCalled(cloud: seq<CloudNode>, nodes: seq<string>, pools: seq<Pool>,
                   cloud': seq<CloudNode>, nodes': seq<string>, pools': seq<Pool>,
                   now: Time, timeout: int, calls: seq<Call>, c: Call)
    requires Cleaned(cloud, nodes, pools, cloud', nodes', pools', now, timeout, calls)
    ensures Made(calls, c) <==>
      || (exists x ::
            && x in cloud && x.name !in nodes && now - x.launchedAt >= timeout
            && (c == Terminate(x.instanceId, c.ok) || c == Clean(x.name, c.ok)))
      || ((c.Delete? || c.Clean?) && c.target in nodes && forall x | x in cloud :: x.name != c.target)
  {
    InInstancePlan(cloud, nodes, now, timeout, c.(ok := true));
    InNodePlan(nodes, cloud, c.(ok := true));
    MeantMade(calls, c);
    hide Meant, InstancePlan, NodePlan, Made;
  }

  // ----- What is left -----

  /**
   Whatever fails, an instance that has its node is never touched, nor one launched less than the boot timeout
   ago, nor a node that has its instance; and nothing is made up.
   */
  lemma MatchedUntouched(cloud: seq<CloudNode>, nodes: seq<string>, pools: seq<Pool>,
                         cloud': seq<CloudNode>, nodes': seq<string>, pools': seq<Pool>,
                         now: Time, timeout: int, calls: seq<Call>)
    requires Cleaned(cloud, nodes, pools, cloud', nodes', pools', now, timeout, calls) && DistinctInstances(cloud)
    ensures forall x | x in cloud && (x.name in nodes || now - x.launchedAt < timeout) :: x in cloud'
    ensures forall n | n in nodes && (exists x :: x in cloud && x.name == n) :: n in nodes'
    ensures (forall x | x in cloud' :: x in cloud) && (forall n | n in nodes' :: n in nodes)
  {
    NotInHolds(cloud, TerminatedIds(calls));
    NamesNotInHolds(nodes, DeletedNames(calls));
    forall x | x in cloud && (x.name in nodes || now - x.launchedAt < timeout)
      ensures x.instanceId !in TerminatedIds(calls)
    {
      PassCalled(cloud, nodes, pools, cloud', nodes', pools', now, timeout, calls, Terminate(x.instanceId, true));
    }
    forall n | n in nodes && exists x :: x in cloud && x.name == n
      ensures n !in DeletedNames(calls)
    {
      PassCalled(cloud, nodes, pools, cloud', nodes', pools', now, timeout, calls, Delete(n, true));
    }
  }

  /** Every instance has its node or is younger than the boot timeout, and every node has its instance. */
  ghost predicate Settled(cloud: seq<CloudNode>, nodes: seq<string>, now: Time, timeout: int) {
    && (forall x | x in cloud :: x.name in nodes || now - x.launchedAt < timeout)
    && (forall n | n in nodes :: exists x :: x in cloud && x.name == n)
  }

  ghost predicate AllSucceeded(calls: seq<Call>) {
    forall c | c in calls :: c.ok
  }

  lemma Succeeded(calls: seq<Call>, c: Call)
    requires AllSucceeded(calls)
    ensures c.(ok := true) in calls <==> Made(calls, c)
  {
    assert !c.(ok := false).ok;
  }

  /** When every call succeeds, exactly the orphans are gone, and no new orphan has come of it. */
  lemma OnePassSettles(cloud: seq<CloudNode>, nodes: seq<string>, pools: seq<Pool>,
                       cloud': seq<CloudNode>, nodes': seq<string>, pools': seq<Pool>,
                       now: Time, timeout: int, calls: seq<Call>)
    requires Cleaned(cloud, nodes, pools, cloud', nodes', pools', now, timeout, calls) && AllSucceeded(calls)
    requires DistinctInstances(cloud)
    ensures forall x :: x in cloud' <==> x in cloud && (x.name in nodes || now - x.launchedAt < timeout)
    ensures forall n :: n in nodes' <==> n in nodes && exists x :: x in cloud && x.name == n
    ensures Settled(cloud', nodes', now, timeout)
  {
    MatchedUntouched(cloud, nodes, pools, cloud', nodes', pools', now, timeout, calls);
    NotInHolds(cloud, TerminatedIds(calls));
    NamesNotInHolds(nodes, DeletedNames(calls));
    forall x | x in cloud && !(x.name in nodes || now - x.launchedAt < timeout)
      ensures x !in cloud'
    {
      var c := Terminate(x.instanceId, true);
      PassCalled(cloud, nodes, pools, cloud', nodes', pools', now, timeout, calls, c);
      Succeeded(calls, c);
      assert c in calls;
    }
    forall n | n in nodes && !exists x :: x in cloud && x.name == n
      ensures n !in nodes'
    {
      var c := Delete(n, true);
      PassCalled(cloud, nodes, pools, cloud', nodes', pools', now, timeout, calls, c);
      Succeeded(calls, c);
      assert c in calls;
    }
  }

  /** A pass over a settled cluster makes no call and changes nothing, at the same time. */
  lemma SettledStays(cloud: seq<CloudNode>, nodes: seq<string>, pools: seq<Pool>,
                     cloud': seq<CloudNode>, nodes': seq<string>, pools': seq<Pool>,
                     now: Time, timeout: int, calls: seq<Call>)
    requires Settled(cloud, nodes, now, timeout)
    requires Cleaned(cloud, nodes, pools, cloud', nodes', pools', now, timeout, calls)
    ensures calls == [] && cloud' == cloud && nodes' == nodes && pools' == pools
  {
    if calls != [] {
      assert calls[0].(ok := calls[0].ok) in calls;
      PassCalled(cloud, nodes, pools, cloud', nodes', pools', now, timeout, calls, calls[0]);
    }
    NoCalls(pools);
    NotInHolds(cloud, {});
    NamesNotInHolds(nodes, {});
  }

  // ----- The statuses -----

  ghost predicate DistinctEntries(pools: seq<Pool>) {
    && (forall i | 0 <= i < |pools| :: NoDup(NameSeq(pools[i].nodes)))
    && (forall i, k | 0 <= i < k < |pools| :: Names(pools[i].nodes) !! Names(pools[k].nodes))
  }

  lemma HasNameIs(nodes: seq<Entry>, name: string)
    ensures HasName(nodes, name) <==> name in Names(nodes)
  {
    if HasName(nodes, name) {
      EntryInSets(nodes, IndexOf(nodes, name));
    }
    if name in Names(nodes) {
      var i :| 0 <= i < |nodes| && NameSeq(nodes)[i] == name;
    }
  }

  lemma {:induction false} NothingFiltered(nodes: seq<Entry>, names: set<string>)
    requires forall i | 0 <= i < |nodes| :: nodes[i].name !in names
    ensures EntriesNotIn(nodes, names) == nodes
  {
    if nodes != [] {
      NothingFiltered(nodes[..|nodes| - 1], names);
    }
  }

  lemma {:induction false} EntriesNotInTwice(s: seq<Entry>, a: set<string>, b: set<string>)
    ensures EntriesNotIn(EntriesNotIn(s, a), b) == EntriesNotIn(s, a + b)
  {
    if s != [] {
      var x, rest := s[|s| - 1], EntriesNotIn(s[..|s| - 1], a);
      EntriesNotInTwice(s[..|s| - 1], a, b);
      if x.name !in a {
        assert (rest + [x])[..|rest|] == rest;
      } else {
        assert rest + [] == rest;
      }
    }
  }

  lemma OtherNames(nodes: seq<Entry>, j: nat)
    requires j < |nodes| && NoDup(NameSeq(nodes))
    ensures forall i | 0 <= i < |nodes| && i != j :: nodes[i].name != nodes[j].name
    ensures NoDup(NameSeq(nodes[..|nodes| - 1]))
  {
    assert NameSeq(nodes[..|nodes| - 1]) == NameSeq(nodes)[..|nodes| - 1];
    forall i | 0 <= i < |nodes| && i != j
      ensures nodes[i].name != nodes[j].name
    {
      assert NameSeq(nodes)[i] != NameSeq(nodes)[j];
    }
  }

  /** Splicing out an entry of a distinct name is filtering by that name. */
  lemma {:induction false} WithoutIsFilter(nodes: seq<Entry>, j: nat)
    requires j < |nodes| && NoDup(NameSeq(nodes))
    ensures Without(nodes, j) == EntriesNotIn(nodes, {nodes[j].name})
  {
    hide NoDup;
    var init, x := nodes[..|nodes| - 1], nodes[|nodes| - 1];
    OtherNames(nodes, j);
    if j == |nodes| - 1 {
      NothingFiltered(init, {x.name});
      assert Without(nodes, j) == init + [];
    } else {
      WithoutIsFilter(init, j);
      assert Without(nodes, j) == Without(init, j) + [x];
    }
  }

  /** The Terminating entries of these names. */
  function TerminatingIn(nodes: seq<Entry>, names: set<string>): nat {
    if nodes == [] then 0
    else
      var x := nodes[|nodes| - 1];
      TerminatingIn(nodes[..|nodes| - 1], names) + if x.name in names && x.state == Terminating then 1 else 0
  }

  lemma TerminatingSnoc(s: seq<Entry>, x: Entry, names: set<string>)
    ensures TerminatingIn(s + [x], names)
      == TerminatingIn(s, names) + if x.name in names && x.state == Terminating then 1 else 0
  {
    assert (s + [x])[..|s|] == s;
  }

  lemma {:induction false} TerminatingSplit(nodes: seq<Entry>, a: set<string>, b: set<string>)
    ensures TerminatingIn(nodes, a + b) == TerminatingIn(nodes, a) + TerminatingIn(EntriesNotIn(nodes, a), b)
  {
    if nodes != [] {
      var init, x := nodes[..|nodes| - 1], nodes[|nodes| - 1];
      TerminatingSplit(init, a, b);
      TerminatingSnoc(EntriesNotIn(init, a), x, b);
      assert EntriesNotIn(nodes, a) == if x.name in a then EntriesNotIn(init, a) else EntriesNotIn(init, a) + [x];
    }
  }

  lemma {:induction false} TerminatingNone(nodes: seq<Entry>, names: set<string>)
    requires forall i | 0 <= i < |nodes| :: nodes[i].name !in names
    ensures TerminatingIn(nodes, names) == 0
  {
    if nodes != [] {
      TerminatingNone(nodes[..|nodes| - 1], names);
    }
  }

  lemma {:induction false} TerminatingOne(nodes: seq<Entry>, j: nat)
    requires j < |nodes| && NoDup(NameSeq(nodes))
    ensures TerminatingIn(nodes, {nodes[j].name}) == if nodes[j].state == Terminating then 1 else 0
  {
    hide NoDup;
    var init := nodes[..|nodes| - 1];
    OtherNames(nodes, j);
    if j == |nodes| - 1 {
      TerminatingNone(init, {nodes[j].name});
    } else {
      TerminatingOne(init, j);
    }
  }

  /** `o'` is `o` with exactly these names filtered out, and its counters lowered by exactly what they counted. */
  ghost predicate FilteredBy(o: Pool, o': Pool, names: set<string>) {
    && o'.nodes == EntriesNotIn(o.nodes, names)
    && o' == o.(nodes := o'.nodes, activeNodes := o'.activeNodes, pendingNodes := o'.pendingNodes)
    && forall leak: nat | CountersExact(o, leak) && o.activeNodes + o.pendingNodes <= INT32_MAX ::
         && CountersExact(o', leak + TerminatingIn(o.nodes, names))
         && o'.activeNodes + o'.pendingNodes <= INT32_MAX
  }

  lemma WithoutNames(nodes: seq<Entry>, j: nat)
    requires j < |nodes|
    ensures NameSeq(Without(nodes, j)) == Without(NameSeq(nodes), j)
  {
  }

  lemma DropOneFilters(o: Pool, name: string)
    requires NoDup(NameSeq(o.nodes))
    ensures FilteredBy(o, DropOne(o, name), {name})
    ensures NoDup(NameSeq(DropOne(o, name).nodes)) && Names(DropOne(o, name).nodes) == Names(o.nodes) - {name}
  {
    hide Wrap, EntriesNotIn, TerminatingIn, PendingCount;
    HasNameIs(o.nodes, name);
    if HasName(o.nodes, name) {
      var j := IndexOf(o.nodes, name);
      WithoutIsFilter(o.nodes, j);
      TerminatingOne(o.nodes, j);
      WithoutNames(o.nodes, j);
      WithoutNoDup(NameSeq(o.nodes), j);
      forall leak: nat | CountersExact(o, leak) && o.activeNodes + o.pendingNodes <= INT32_MAX
        ensures CountersExact(DropOne(o, name), leak + TerminatingIn(o.nodes, {name}))
        ensures DropOne(o, name).activeNodes + DropOne(o, name).pendingNodes <= INT32_MAX
      {
        DropKeepsCounters(o, OrphanDrop(j), leak);
      }
    } else {
      NothingFiltered(o.nodes, {name});
      TerminatingNone(o.nodes, {name});
    }
  }

  lemma DropFirstFilters(pools: seq<Pool>, name: string)
    requires DistinctEntries(pools)
    ensures |DropFirst(pools, name)| == |pools| && DistinctEntries(DropFirst(pools, name))
    ensures forall i | 0 <= i < |pools| :: DropFirst(pools, name)[i] == DropOne(pools[i], name)
  {
    var r := DropFirst(pools, name);
    forall i | 0 <= i < |pools|
      ensures HasName(pools[i].nodes, name) <==> name in Names(pools[i].nodes)
      ensures NoDup(NameSeq(DropOne(pools[i], name).nodes))
      ensures Names(DropOne(pools[i], name).nodes) == Names(pools[i].nodes) - {name}
    {
      HasNameIs(pools[i].nodes, name);
      DropOneFilters(pools[i], name);
    }
    hide Names, NameSeq, HasName;
    if k :| 0 <= k < |pools| && HasName(pools[k].nodes, name) {
      DropFirstAt(pools, name, k);
    } else {
      DropFirstNone(pools, name);
    }
  }

  lemma FilteredTwice(o: Pool, o1: Pool, o2: Pool, a: set<string>, b: set<string>)
    requires FilteredBy(o, o1, a) && FilteredBy(o1, o2, b)
    ensures FilteredBy(o, o2, a + b)
  {
    EntriesNotInTwice(o.nodes, a, b);
    TerminatingSplit(o.nodes, a, b);
  }

  lemma NotFiltered(o: Pool)
    ensures FilteredBy(o, o, {})
  {
    NothingFiltered(o.nodes, {});
    TerminatingNone(o.nodes, {});
  }

  /** Dropping names one by one is filtering each pool by all of them. */
  lemma {:induction false} DropEachFilters(pools: seq<Pool>, names: seq<string>)
    requires DistinctEntries(pools)
    ensures |DropEach(pools, names)| == |pools| && DistinctEntries(DropEach(pools, names))
    ensures forall i | 0 <= i < |pools| :: FilteredBy(pools[i], DropEach(pools, names)[i], Elems(names))
  {
    hide FilteredBy, DistinctEntries, DropFirst, DropOne;
    if names == [] {
      forall i | 0 <= i < |pools|
        ensures FilteredBy(pools[i], pools[i], Elems(names))
      {
        NotFiltered(pools[i]);
        assert Elems(names) == {};
      }
    } else {
      var init, name := names[..|names| - 1], names[|names| - 1];
      var mid := DropEach(pools, init);
      DropEachFilters(pools, init);
      DropFirstFilters(mid, name);
      ConcatNoDup(init, [name]);
      assert names == init + [name] && Elems([name]) == {name};
      forall i | 0 <= i < |pools|
        ensures FilteredBy(pools[i], DropEach(pools, names)[i], Elems(names))
      {
        assert NoDup(NameSeq(mid[i].nodes)) by { EntriesNoDup(mid, i); }
        DropOneFilters(mid[i], name);
        FilteredTwice(pools[i], mid[i], DropOne(mid[i], name), Elems(init), {name});
      }
    }
  }

  lemma EntriesNoDup(pools: seq<Pool>, i: nat)
    requires DistinctEntries(pools) && i < |pools|
    ensures NoDup(NameSeq(pools[i].nodes))
  {
  }

  /**
   Whatever fails, each pool's list is the old one without the names that were taken out, in order, and its
   counters are those of the remaining entries, plus what was already miscounted and the Terminating entries
   among the removed ones.
   */
  lemma StatusesFiltered(cloud: seq<CloudNode>, nodes: seq<string>, pools: seq<Pool>,
                         cloud': seq<CloudNode>, nodes': seq<string>, pools': seq<Pool>,
                         now: Time, timeout: int, calls: seq<Call>, i: nat)
    requires Cleaned(cloud, nodes, pools, cloud', nodes', pools', now, timeout, calls)
    requires DistinctEntries(pools) && i < |pools|
    ensures |pools'| == |pools|
    ensures FilteredBy(pools[i], pools'[i], Elems(CleanedNames(calls)))
  {
    hide FilteredBy, DistinctEntries;
    DropEachFilters(pools, CleanedNames(calls));
  }

  lemma {:induction false} InCleaned(calls: seq<Call>, n: string)
    ensures n in Elems(CleanedNames(calls)) <==> Clean(n, true) in calls
    decreases |calls|
  {
    if calls != [] {
      var init, last := calls[..|calls| - 1], calls[|calls| - 1];
      InCleaned(init, n);
      ConcatNoDup(CleanedNames(init), if last.Clean? && last.ok then [last.target] else []);
      assert calls == init + [last];
    }
  }

  /**
   A name taken out is that of an instance without a node and past the boot timeout, or of a node without an
   instance; and when every call succeeds, all of these are.
   */
  lemma DropsAreOrphans(cloud: seq<CloudNode>, nodes: seq<string>, pools: seq<Pool>,
                        cloud': seq<CloudNode>, nodes': seq<string>, pools': seq<Pool>,
                        now: Time, timeout: int, calls: seq<Call>, n: string)
    requires Cleaned(cloud, nodes, pools, cloud', nodes', pools', now, timeout, calls)
    ensures var orphaned :=
        || (exists x :: x in cloud && x.name == n && x.name !in nodes && now - x.launchedAt >= timeout)
        || (n in nodes && forall x | x in cloud :: x.name != n);
      && (n in Elems(CleanedNames(calls)) ==> orphaned)
      && (AllSucceeded(calls) && orphaned ==> n in Elems(CleanedNames(calls)))
      && (orphaned <==> Made(calls, Clean(n, true)))
  {
    var c := Clean(n, true);
    PassCalled(cloud, nodes, pools, cloud', nodes', pools', now, timeout, calls, c);
    InCleaned(calls, n);
    if AllSucceeded(calls) {
      Succeeded(calls, c);
    }
  }
}
