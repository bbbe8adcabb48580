/** The node count as a packing guarantee. */
module Packing {
  import opened Api
  import opened Batch

  function Total(pods: seq<Pod>, f: Pod -> nat): nat {
    if pods == [] then 0 else Total(pods[..|pods| - 1], f) + f(pods[|pods| - 1])
  }

  /** The pods fit together on one node, by CPU and by memory. */
  predicate FitsNode(pods: seq<Pod>, cap: Capacity) {
    Total(pods, PodCpu) <= cap.vcpus && Total(pods, PodMem) <= cap.memoryMi
  }

  predicate EachFits(pods: seq<Pod>, cap: Capacity) {
    forall i | 0 <= i < |pods| :: PodCpu(pods[i]) <= cap.vcpus && PodMem(pods[i]) <= cap.memoryMi
  }

  function Flatten(parts: seq<seq<Pod>>): seq<Pod> {
    if parts == [] then [] else parts[0] + Flatten(parts[1..])
  }

  /** `n` nodes of this capacity can take all the pods. */
  ghost predicate Packs(pods: seq<Pod>, cap: Capacity, n: int) {
    exists parts: seq<seq<Pod>> ::
      |parts| <= n && Flatten(parts) == pods && forall i | 0 <= i < |parts| :: FitsNode(parts[i], cap)
  }

  predicate SaneCapacity(cap: Capacity) {
    0 <= cap.vcpus <= INT32_MAX && 0 <= cap.memoryMi <= INT32_MAX
  }

  // ----- Consecutive chunks -----

  function Chunks(pods: seq<Pod>, d: nat): seq<seq<Pod>>
    requires d > 0
    decreases |pods|
  {
    if pods == [] then []
    else if |pods| <= d then [pods]
    else [pods[..d]] + Chunks(pods[d..], d)
  }

  lemma CeilDivStep(x: nat, d: nat)
    requires d > 0
    ensures x == 0 ==> CeilDiv(x, d) == 0
    ensures 0 < x <= d ==> CeilDiv(x, d) == 1
    ensures x > d ==> CeilDiv(x, d) == CeilDiv(x - d, d) + 1
  {
    if x == 0 {
      CeilDivIs(x, d, 0);
    } else if x <= d {
      CeilDivIs(x, d, 1);
    } else {
      CeilDivIs(x, d, CeilDiv(x - d, d) + 1);
    }
  }

  lemma CeilDivIs(x: nat, d: nat, r: nat)
    requires d > 0 && r * d >= x && (r > 0 ==> (r - 1) * d < x)
    ensures CeilDiv(x, d) == r
  {
    var q := CeilDiv(x, d);
    if q < r {
      assert q * d <= (r - 1) * d by { MulOrder(q, r - 1, d); }
    } else if q > r {
      assert r * d <= (q - 1) * d by { MulOrder(r, q - 1, d); }
    }
  }

  lemma MulOrder(a: nat, b: nat, d: nat)
    requires a <= b
    ensures a * d <= b * d
  {
  }

  lemma {:induction false} ChunksShape(pods: seq<Pod>, d: nat)
    requires d > 0
    ensures |Chunks(pods, d)| == CeilDiv(|pods|, d)
    ensures Flatten(Chunks(pods, d)) == pods
    ensures forall i | 0 <= i < |Chunks(pods, d)| :: 0 < |Chunks(pods, d)[i]| <= d
    decreases |pods|
  {
    CeilDivStep(|pods|, d);
    if pods == [] {
    } else if |pods| <= d {
      assert Flatten([pods]) == pods + Flatten([]);
    } else {
      ChunksShape(pods[d..], d);
      assert Chunks(pods, d)[1..] == Chunks(pods[d..], d);
      assert pods == pods[..d] + pods[d..];
    }
  }

  /** The first `n` chunks hold the first `n * d` pods. */
  lemma {:induction false} ChunksPrefix(pods: seq<Pod>, d: nat, n: nat)
    requires d > 0 && n <= |Chunks(pods, d)|
    ensures Flatten(Chunks(pods, d)[..n]) == pods[..Min(|pods|, n * d)]
    decreases |pods|
  {
    if n == 0 {
    } else if |pods| <= d {
      assert Chunks(pods, d)[..n] == [pods];
      assert Flatten([pods]) == pods + Flatten([]);
    } else {
      var rest := Chunks(pods[d..], d);
      ChunksPrefix(pods[d..], d, n - 1);
      assert Chunks(pods, d)[..n] == [pods[..d]] + rest[..n - 1];
      assert ([pods[..d]] + rest[..n - 1])[1..] == rest[..n - 1];
      assert n * d == (n - 1) * d + d;
      assert pods[..d] + pods[d..][..Min(|pods| - d, (n - 1) * d)] == pods[..Min(|pods|, n * d)];
    }
  }

  lemma {:induction false} ChunkPods(pods: seq<Pod>, d: nat, i: nat, k: nat)
    requires d > 0 && i < |Chunks(pods, d)| && k < |Chunks(pods, d)[i]|
    ensures Chunks(pods, d)[i][k] in pods
    decreases |pods|
  {
    if |pods| > d && i > 0 {
      ChunkPods(pods[d..], d, i - 1, k);
    }
  }

  lemma {:induction false} FlattenLength(parts: seq<seq<Pod>>, d: nat)
    requires forall i | 0 <= i < |parts| :: |parts[i]| <= d
    ensures |Flatten(parts)| <= |parts| * d
  {
    if parts != [] {
      FlattenLength(parts[1..], d);
      assert |parts| * d == (|parts| - 1) * d + d;
    }
  }

  lemma {:induction false} FlattenFrom(parts: seq<seq<Pod>>, pod: Pod) returns (i: nat, k: nat)
    requires pod in Flatten(parts)
    ensures i < |parts| && k < |parts[i]| && parts[i][k] == pod
  {
    if pod in parts[0] {
      i := 0;
      k :| 0 <= k < |parts[0]| && parts[0][k] == pod;
    } else {
      i, k := FlattenFrom(parts[1..], pod);
      i := i + 1;
    }
  }

  // ----- Sums -----

  lemma {:induction false} TotalAtMost(pods: seq<Pod>, f: Pod -> nat, m: nat)
    requires forall i | 0 <= i < |pods| :: f(pods[i]) <= m
    ensures Total(pods, f) <= |pods| * m
  {
    if pods != [] {
      var rest := pods[..|pods| - 1];
      TotalAtMost(rest, f, m);
      assert |pods| * m == |rest| * m + m;
    }
  }

  lemma {:induction false} TotalAtLeast(pods: seq<Pod>, f: Pod -> nat, i: nat)
    requires i < |pods|
    ensures f(pods[i]) <= Total(pods, f)
  {
    if i < |pods| - 1 {
      TotalAtLeast(pods[..|pods| - 1], f, i);
    }
  }

  // ----- The guarantee -----

  lemma QuotientBound(q: int, m: int, d: int)
    requires 0 < m <= q && 0 <= d <= q / m
    ensures d * m <= q
  {
    assert (q / m) * m <= q;
    MulOrder(d, q / m, m);
  }

  /** If each pod fits alone, a chunk of the estimated size never exceeds the capacity. */
  lemma PerNodeSound(pods: seq<Pod>, cap: Capacity)
    requires SaneCapacity(cap) && EachFits(pods, cap)
    ensures PerNode(pods, cap) * MaxOver(pods, PodCpu) <= cap.vcpus
    ensures PerNode(pods, cap) * MaxOver(pods, PodMem) <= cap.memoryMi
  {
    hide Wrap, MaxOver, PodCpu, PodMem;
    var maxCpu, maxMem := MaxOver(pods, PodCpu), MaxOver(pods, PodMem);
    MaxOverBound(pods, PodCpu);
    MaxOverBound(pods, PodMem);
    assert maxCpu <= cap.vcpus && maxMem <= cap.memoryMi;
    if pods != [] && !(maxCpu == 0 && maxMem == 0) {
      if maxCpu > 0 {
        QuotientRange(cap.vcpus, maxCpu);
      }
      if maxMem > 0 {
        QuotientRange(cap.memoryMi, maxMem);
      }
      if maxCpu > 0 {
        QuotientBound(cap.vcpus, maxCpu, PerNode(pods, cap));
      }
      if maxMem > 0 {
        QuotientBound(cap.memoryMi, maxMem, PerNode(pods, cap));
      }
    }
  }

  lemma QuotientLargest(q: int, m: int, d: int)
    requires 0 < m <= q && d > q / m
    ensures d * m > q
  {
    assert q < (q / m + 1) * m;
    MulOrder(q / m + 1, d, m);
  }

  /** The estimate is the largest number of pods of the batch's largest requests that fit a node together. */
  lemma PerNodeLargest(pods: seq<Pod>, cap: Capacity, d: nat)
    requires SaneCapacity(cap) && EachFits(pods, cap) && d > 0
    requires MaxOver(pods, PodCpu) > 0 || MaxOver(pods, PodMem) > 0
    ensures d * MaxOver(pods, PodCpu) <= cap.vcpus && d * MaxOver(pods, PodMem) <= cap.memoryMi
      <==> d <= PerNode(pods, cap)
  {
    PerNodeSound(pods, cap);
    MaxOverBound(pods, PodCpu);
    MaxOverBound(pods, PodMem);
    hide Wrap, MaxOver, PodCpu, PodMem;
    var maxCpu, maxMem := MaxOver(pods, PodCpu), MaxOver(pods, PodMem);
    if d <= PerNode(pods, cap) {
      MulOrder(d, PerNode(pods, cap), maxCpu);
      MulOrder(d, PerNode(pods, cap), maxMem);
    } else {
      if maxCpu > 0 {
        QuotientRange(cap.vcpus, maxCpu);
      }
      if maxMem > 0 {
        QuotientRange(cap.memoryMi, maxMem);
      }
      if maxCpu > 0 && d > cap.vcpus / maxCpu {
        QuotientLargest(cap.vcpus, maxCpu, d);
      } else {
        QuotientLargest(cap.memoryMi, maxMem, d);
      }
    }
  }

  /** Where some pod does not fit a node alone, or nothing is requested, the estimate is one pod to a node. */
  lemma PerNodeOtherwise(pods: seq<Pod>, cap: Capacity)
    requires SaneCapacity(cap)
    requires !EachFits(pods, cap) || (MaxOver(pods, PodCpu) == 0 && MaxOver(pods, PodMem) == 0)
    ensures PerNode(pods, cap) == 1
  {
    MaxOverBound(pods, PodCpu);
    MaxOverBound(pods, PodMem);
    var maxCpu, maxMem := MaxOver(pods, PodCpu), MaxOver(pods, PodMem);
    if !EachFits(pods, cap) {
      assert maxCpu > cap.vcpus || maxMem > cap.memoryMi;
    }
    hide MaxOver, PodCpu, PodMem, EachFits;
    if maxCpu > 0 {
      SmallQuotient(cap.vcpus, maxCpu);
    }
    if maxMem > 0 {
      SmallQuotient(cap.memoryMi, maxMem);
    }
  }

  lemma SmallQuotient(q: nat, m: nat)
    requires m > 0 && q <= INT32_MAX
    ensures 0 <= q / m <= INT32_MAX && (m > q ==> q / m == 0)
  {
    if q / m > q {
      MulOrder(q + 1, q / m, m);
    }
    if m > q && q / m > 0 {
      MulOrder(1, q / m, m);
    }
  }

  lemma QuotientRange(q: int, m: int)
    requires 0 < m <= q <= INT32_MAX
    ensures 1 <= q / m <= INT32_MAX
  {
    assert (q / m) * m <= q < (q / m) * m + m;
  }

  /** Every chunk fits its node exactly when every pod fits a node alone. */
  lemma ChunksFitExactly(pods: seq<Pod>, cap: Capacity)
    requires SaneCapacity(cap)
    ensures (forall i | 0 <= i < |Chunks(pods, PerNode(pods, cap))| :: FitsNode(Chunks(pods, PerNode(pods, cap))[i], cap))
      <==> EachFits(pods, cap)
  {
    var d := PerNode(pods, cap);
    var cs := Chunks(pods, d);
    ChunksShape(pods, d);
    if EachFits(pods, cap) {
      PerNodeSound(pods, cap);
      forall i | 0 <= i < |cs|
        ensures FitsNode(cs[i], cap)
      {
        ChunkFits(pods, cap, d, i);
      }
    }
    if forall i | 0 <= i < |cs| :: FitsNode(cs[i], cap) {
      forall p | 0 <= p < |pods|
        ensures PodCpu(pods[p]) <= cap.vcpus && PodMem(pods[p]) <= cap.memoryMi
      {
        var i, k := FlattenFrom(cs, pods[p]);
        TotalAtLeast(cs[i], PodCpu, k);
        TotalAtLeast(cs[i], PodMem, k);
      }
    }
  }

  lemma ChunkFits(pods: seq<Pod>, cap: Capacity, d: nat, i: nat)
    requires d > 0 && i < |Chunks(pods, d)|
    requires d * MaxOver(pods, PodCpu) <= cap.vcpus && d * MaxOver(pods, PodMem) <= cap.memoryMi
    ensures FitsNode(Chunks(pods, d)[i], cap)
  {
    var c, maxCpu, maxMem := Chunks(pods, d)[i], MaxOver(pods, PodCpu), MaxOver(pods, PodMem);
    ChunksShape(pods, d);
    MaxOverBound(pods, PodCpu);
    MaxOverBound(pods, PodMem);
    forall k | 0 <= k < |c|
      ensures PodCpu(c[k]) <= maxCpu && PodMem(c[k]) <= maxMem
    {
      ChunkPods(pods, d, i, k);
    }
    TotalAtMost(c, PodCpu, maxCpu);
    TotalAtMost(c, PodMem, maxMem);
    MulOrder(|c|, d, maxCpu);
    MulOrder(|c|, d, maxMem);
  }

  /** The count is the number of chunks, clipped to the free slots. */
  lemma CountIsChunks(pods: seq<Pod>, cap: Capacity, current: Int32, maxNodes: Int32)
    requires 0 <= current < maxNodes && |pods| <= INT32_MAX
    ensures NodesNeeded(pods, cap, current, maxNodes)
      == Min(|Chunks(pods, PerNode(pods, cap))|, maxNodes - current)
  {
    hide PodsPerNode, Chunks;
    var d := PerNode(pods, cap);
    ChunksShape(pods, d);
    CeilDivAtMost(|pods|, d);
  }

  lemma CeilDivAtMost(x: nat, d: nat)
    requires d > 0
    ensures CeilDiv(x, d) <= x
  {
    var n := CeilDiv(x, d);
    if n > 0 {
      MulOrder(1, d, n - 1);
    }
  }

  /**
   If each pod fits a node of this type alone, the nodes asked for can take all the pods, or all that the
   free slots allow; and at the estimated chunk size no smaller number of nodes could.
   */
  lemma NodesNeededPack(pods: seq<Pod>, cap: Capacity, current: Int32, maxNodes: Int32)
    requires SaneCapacity(cap) && EachFits(pods, cap) && 0 <= current < maxNodes && |pods| <= INT32_MAX
    ensures var n, d := NodesNeeded(pods, cap, current, maxNodes), PerNode(pods, cap);
      && Packs(pods[..Min(|pods|, n * d)], cap, n)
      && (CeilDiv(|pods|, d) <= maxNodes - current ==> Packs(pods, cap, n))
      && forall parts: seq<seq<Pod>> | |parts| < n && (forall i | 0 <= i < |parts| :: |parts[i]| <= d) ::
           |Flatten(parts)| < |pods|
  {
    hide NodesNeeded, PerNode, EachFits, CeilDiv;
    var n, d := NodesNeeded(pods, cap, current, maxNodes), PerNode(pods, cap);
    ChunksFitExactly(pods, cap);
    CountIsChunks(pods, cap, current, maxNodes);
    ChunksShape(pods, d);
    PrefixPacks(pods, cap, d, n);
    if |Chunks(pods, d)| <= maxNodes - current {
      PrefixPacks(pods, cap, d, |Chunks(pods, d)|);
      ChunksPrefix(pods, d, |Chunks(pods, d)|);
      assert Chunks(pods, d)[..|Chunks(pods, d)|] == Chunks(pods, d);
    }
    forall parts: seq<seq<Pod>> | |parts| < n && (forall i | 0 <= i < |parts| :: |parts[i]| <= d)
      ensures |Flatten(parts)| < |pods|
    {
      FewerFail(pods, d, parts);
    }
  }

  lemma PrefixPacks(pods: seq<Pod>, cap: Capacity, d: nat, n: nat)
    requires d > 0 && n <= |Chunks(pods, d)|
    requires forall i | 0 <= i < |Chunks(pods, d)| :: FitsNode(Chunks(pods, d)[i], cap)
    ensures n * d >= 0 && Packs(pods[..Min(|pods|, n * d)], cap, n)
  {
    hide Chunks, Flatten, FitsNode;
    ChunksPrefix(pods, d, n);
    var parts := Chunks(pods, d)[..n];
    assert forall i | 0 <= i < |parts| :: FitsNode(parts[i], cap);
  }

  lemma FewerFail(pods: seq<Pod>, d: nat, parts: seq<seq<Pod>>)
    requires d > 0 && |parts| < CeilDiv(|pods|, d) && forall i | 0 <= i < |parts| :: |parts[i]| <= d
    ensures |Flatten(parts)| < |pods|
  {
    FlattenLength(parts, d);
    MulOrder(|parts|, CeilDiv(|pods|, d) - 1, d);
  }

  /** No number of nodes can take a batch with a pod that does not fit one alone. */
  lemma PacksOnlyIfEachFits(pods: seq<Pod>, cap: Capacity, n: int)
    requires Packs(pods, cap, n)
    ensures EachFits(pods, cap)
  {
    var parts: seq<seq<Pod>> :|
      |parts| <= n && Flatten(parts) == pods && forall i | 0 <= i < |parts| :: FitsNode(parts[i], cap);
    forall p | 0 <= p < |pods|
      ensures PodCpu(pods[p]) <= cap.vcpus && PodMem(pods[p]) <= cap.memoryMi
    {
      var i, k := FlattenFrom(parts, pods[p]);
      TotalAtLeast(parts[i], PodCpu, k);
      TotalAtLeast(parts[i], PodMem, k);
    }
  }

  // ----- Memory units -----

  function RequestedBytes(c: Container): nat {
    if "memory" in c.requests then c.requests["memory"] else 0
  }

  /** The pod's memory requests, in billionths of a byte. */
  function PodBytes(pod: Pod): nat {
    Sum(pod.containers, RequestedBytes)
  }

  lemma {:induction false} ContainersRoundUp(cs: seq<Container>)
    ensures Sum(cs, RequestedBytes) <= Sum(cs, MemMega) * 1_000_000_000_000_000
  {
    if cs != [] {
      ContainersRoundUp(cs[..|cs| - 1]);
      ContainerAmounts(cs[|cs| - 1]);
    }
  }

  lemma {:induction false} TotalBytes(pods: seq<Pod>)
    ensures Total(pods, PodBytes) <= Total(pods, PodMem) * 1_000_000_000_000_000
  {
    if pods != [] {
      TotalBytes(pods[..|pods| - 1]);
      ContainersRoundUp(pods[|pods| - 1].containers);
    }
  }

  /** A pod's bytes are those that its containers request, added up. */
  lemma PodBytesAre(pod: Pod)
    ensures pod.containers == [] ==> PodBytes(pod) == 0
    ensures forall init: seq<Container>, c: Container | pod.containers == init + [c] ::
      PodBytes(pod) == Sum(init, RequestedBytes) + if "memory" in c.requests then c.requests["memory"] else 0
  {
    forall init: seq<Container>, c: Container | pod.containers == init + [c]
      ensures PodBytes(pod) == Sum(init, RequestedBytes) + RequestedBytes(c)
    {
      SumConcat(init, [c], RequestedBytes);
    }
  }

  /** Pods that fit a node by the code's mixed units request no more bytes than its mebibytes. */
  lemma MemoryUnitsSound(pods: seq<Pod>, cap: Capacity)
    requires FitsNode(pods, cap)
    ensures Total(pods, PodBytes) <= cap.memoryMi * 0x10_0000 * 1_000_000_000
  {
    TotalBytes(pods);
  }
}
