/** What the node count worked out for the first candidate is worth on another one. */
module Fallback {
  import opened Api
  import opened Batch
  import opened Packing
  import opened Selector

  // ----- From a selection to capacities -----

  /** Every known candidate of a selection takes each pod alone: CPU, memory and GPUs. */
  lemma EachCandidateTakesEach(r: seq<InstanceType>, table: Table, spec: Spec, pods: seq<Pod>, k: nat)
    requires IsSelection(r, table, spec, pods) && SaneTable(table) && k < |r| && r[k].name in table
    ensures forall i | 0 <= i < |pods| :: Takes(table[r[k].name], pods[i])
  {
    assert multiset(r)[r[k]] > 0;
    SelectionIsTheFits(r, table, spec, pods, r[k]);
  }

  /** Later known candidates have at least the head's CPU. */
  lemma LaterHasCpu(r: seq<InstanceType>, table: Table, spec: Spec, pods: seq<Pod>, k: nat)
    requires IsSelection(r, table, spec, pods) && k < |r| && r[k].name in table
    ensures r[0].name in table && table[r[k].name].vcpus >= table[r[0].name].vcpus
  {
    assert multiset(r)[r[k]] > 0;
    FilterIsFilter(table, pods, Candidates(spec), r[k]);
    assert r[k] in multiset(Candidates(spec));
    HeadIsMinimal(r, table, spec, pods, r[k]);
  }

  lemma BiggerNodeFits(pods: seq<Pod>, a: Capacity, b: Capacity, n: int)
    requires Packs(pods, a, n) && a.vcpus <= b.vcpus && a.memoryMi <= b.memoryMi
    ensures Packs(pods, b, n)
  {
    var parts: seq<seq<Pod>> :|
      |parts| <= n && Flatten(parts) == pods && forall i | 0 <= i < |parts| :: FitsNode(parts[i], a);
    assert forall i | 0 <= i < |parts| :: FitsNode(parts[i], b);
  }

  predicate SaneSizes(table: Table) {
    SaneTable(table) && forall n | n in table :: SaneCapacity(table[n])
  }

  /**
   The whole sizing pipeline: for any selection with a known head, the nodes asked for pack the batch, as
   far as the free slots allow, on the head and on every known later type with at least the head's memory.
   */
  lemma SizingPacks(r: seq<InstanceType>, table: Table, spec: Spec, pods: seq<Pod>,
                    current: Int32, maxNodes: Int32, k: nat)
    requires IsSelection(r, table, spec, pods) && SaneSizes(table) && k < |r| && r[k].name in table
    requires 0 <= current < maxNodes && |pods| <= INT32_MAX
    ensures r[0].name in table
    ensures var head, c := table[r[0].name], table[r[k].name];
      var n, d := NodesNeeded(pods, head, current, maxNodes), PerNode(pods, head);
      c.memoryMi >= head.memoryMi ==>
        && Packs(pods[..Min(|pods|, n * d)], c, n)
        && (CeilDiv(|pods|, d) <= maxNodes - current ==> Packs(pods, c, n))
  {
    LaterHasCpu(r, table, spec, pods, k);
    EachCandidateTakesEach(r, table, spec, pods, 0);
    CountPacks(pods, table[r[0].name], table[r[k].name], current, maxNodes);
  }

  lemma CountPacks(pods: seq<Pod>, head: Capacity, c: Capacity, current: Int32, maxNodes: Int32)
    requires SaneCapacity(head) && c.vcpus >= head.vcpus && EachFits(pods, head)
    requires 0 <= current < maxNodes && |pods| <= INT32_MAX
    ensures var n, d := NodesNeeded(pods, head, current, maxNodes), PerNode(pods, head);
      c.memoryMi >= head.memoryMi ==>
        && Packs(pods[..Min(|pods|, n * d)], c, n)
        && (CeilDiv(|pods|, d) <= maxNodes - current ==> Packs(pods, c, n))
  {
    hide NodesNeeded, PerNode, Packs, FitsNode, EachFits, CeilDiv;
    var n, d := NodesNeeded(pods, head, current, maxNodes), PerNode(pods, head);
    NodesNeededPack(pods, head, current, maxNodes);
    assert n * d >= 0 by { MulOrder(0, n, d); }
    if c.memoryMi >= head.memoryMi {
      BiggerNodeFits(pods[..Min(|pods|, n * d)], head, c, n);
      if CeilDiv(|pods|, d) <= maxNodes - current {
        BiggerNodeFits(pods, head, c, n);
      }
    }
  }

  // ----- Less memory -----

  /** A pod with exactly these requests, in the code's units. */
  function ProbePod(cpu: nat, mem: nat, gpus: nat): Pod {
    Pod("g", map[], map[], [], "Pending", [],
        [Container(map["cpu" := cpu * 1_000_000, "memory" := mem * 1_000_000_000_000_000,
                       "nvidia.com/gpu" := gpus * 1_000_000_000], map[])], [], None)
  }

  lemma ProbePodRequests(cpu: nat, mem: nat, gpus: nat)
    ensures PodCpu(ProbePod(cpu, mem, gpus)) == cpu
    ensures PodMem(ProbePod(cpu, mem, gpus)) == mem
    ensures PodGpus(ProbePod(cpu, mem, gpus)) == gpus
  {
    var cs := ProbePod(cpu, mem, gpus).containers;
    assert cs[..0] == [];
    CeilDivIs(cpu * 1_000_000, 1_000_000, cpu);
    CeilDivIs(mem * 1_000_000_000_000_000, 1_000_000_000_000_000, mem);
    CeilDivIs(gpus * 1_000_000_000, 1_000_000_000, gpus);
  }

  lemma {:induction false} CopiesTotal(pods: seq<Pod>, f: Pod -> nat, m: nat)
    requires forall i | 0 <= i < |pods| :: f(pods[i]) == m
    ensures Total(pods, f) == |pods| * m
    ensures MaxOver(pods, f) == if pods == [] then 0 else m
  {
    if pods != [] {
      CopiesTotal(pods[..|pods| - 1], f, m);
      assert |pods| * m == (|pods| - 1) * m + m;
    }
  }

  lemma OneNodeFits(pods: seq<Pod>, cap: Capacity)
    requires Packs(pods, cap, 1) && pods != []
    ensures FitsNode(pods, cap)
  {
    var parts: seq<seq<Pod>> :|
      |parts| <= 1 && Flatten(parts) == pods && forall i | 0 <= i < |parts| :: FitsNode(parts[i], cap);
    assert |parts| == 1 && Flatten(parts) == parts[0] + Flatten(parts[1..]);
    assert parts[0] == pods;
  }

  /** As many one-megabyte pods as the head has memory for: one head node takes them all. */
  lemma MemoryWitness(head: Capacity, c: Capacity) returns (pods: seq<Pod>)
    requires SaneCapacity(head) && SaneCapacity(c) && 0 < c.memoryMi < head.memoryMi
    ensures |pods| <= INT32_MAX && EachFits(pods, head) && EachFits(pods, c)
    ensures !Packs(pods, c, CeilDiv(|pods|, PerNode(pods, head)))
  {
    var n := head.memoryMi;
    pods := seq(n, _ => ProbePod(0, 1, 0));
    ProbePodRequests(0, 1, 0);
    CopiesTotal(pods, PodCpu, 0);
    CopiesTotal(pods, PodMem, 1);
    assert PerNode(pods, head) == n by {
      assert Wrap(head.memoryMi / 1) == n;
    }
    CeilDivStep(n, n);
    if Packs(pods, c, 1) {
      OneNodeFits(pods, c);
    }
  }

  /** The count worked out for `head` packs every batch that fits both types pod by pod, on type `c`. */
  ghost predicate CountSafe(head: Capacity, c: Capacity) {
    forall pods: seq<Pod> | |pods| <= INT32_MAX && EachFits(pods, head) && EachFits(pods, c) ::
      Packs(pods, c, CeilDiv(|pods|, PerNode(pods, head)))
  }

  lemma CountSafeOn(head: Capacity, c: Capacity, pods: seq<Pod>)
    requires SaneCapacity(head) && SaneCapacity(c) && c.vcpus >= head.vcpus
    requires c.memoryMi >= head.memoryMi || c.memoryMi == 0
    requires EachFits(pods, head) && EachFits(pods, c)
    ensures Packs(pods, c, CeilDiv(|pods|, PerNode(pods, head)))
  {
    ChunksFitExactly(pods, head);
    var d := PerNode(pods, head);
    var cs := Chunks(pods, d);
    ChunksShape(pods, d);
    forall i | 0 <= i < |cs|
      ensures FitsNode(cs[i], c)
    {
      if c.memoryMi == 0 {
        forall k | 0 <= k < |cs[i]|
          ensures PodMem(cs[i][k]) <= 0
        {
          ChunkPods(pods, d, i, k);
        }
        TotalAtMost(cs[i], PodMem, 0);
      }
    }
  }

  /**
   Among later candidates, which have at least the head's CPU, the head's node count is right for every
   batch exactly for those with at least the head's memory (or with none, which no pod with memory fits).
   */
  lemma FallbackCountExact(head: Capacity, c: Capacity)
    requires SaneCapacity(head) && SaneCapacity(c) && c.vcpus >= head.vcpus
    ensures CountSafe(head, c) <==> c.memoryMi >= head.memoryMi || c.memoryMi == 0
  {
    if c.memoryMi >= head.memoryMi || c.memoryMi == 0 {
      forall pods: seq<Pod> | |pods| <= INT32_MAX && EachFits(pods, head) && EachFits(pods, c)
        ensures Packs(pods, c, CeilDiv(|pods|, PerNode(pods, head)))
      {
        CountSafeOn(head, c, pods);
      }
    } else {
      var pods := MemoryWitness(head, c);
    }
  }

  // ----- GPUs -----

  predicate EachFitsGpus(pods: seq<Pod>, cap: Capacity) {
    forall i | 0 <= i < |pods| :: PodGpus(pods[i]) <= cap.gpus
  }

  /** In every batch that fits pod by pod, each chunk of the estimated size fits the node's GPUs. */
  ghost predicate GpuSafe(cap: Capacity) {
    forall pods: seq<Pod> | EachFits(pods, cap) && EachFitsGpus(pods, cap) :: GpuChunksFit(pods, cap)
  }

  ghost predicate GpuChunksFit(pods: seq<Pod>, cap: Capacity) {
    forall i | 0 <= i < |Chunks(pods, PerNode(pods, cap))| ::
         Total(Chunks(pods, PerNode(pods, cap))[i], PodGpus) <= cap.gpus
  }

  /** Two pods, each asking for all the GPUs, counted for one node. */
  lemma GpuWitness(cap: Capacity) returns (pods: seq<Pod>)
    requires SaneCapacity(cap) && cap.gpus > 0 && (cap.vcpus > 1 || cap.memoryMi > 1)
    ensures EachFits(pods, cap) && EachFitsGpus(pods, cap) && !GpuChunksFit(pods, cap)
  {
    var cpu, mem := if cap.vcpus > 1 then 1 else 0, if cap.vcpus > 1 then 0 else 1;
    var pod := ProbePod(cpu, mem, cap.gpus);
    pods := [pod, pod];
    ProbePodRequests(cpu, mem, cap.gpus);
    CopiesTotal(pods, PodCpu, cpu);
    CopiesTotal(pods, PodMem, mem);
    CopiesTotal(pods, PodGpus, cap.gpus);
    hide ProbePod, PodCpu, PodMem, PodGpus, Total, MaxOver;
    assert PerNode(pods, cap) >= 2 by {
      assert cap.vcpus / 1 == cap.vcpus && cap.memoryMi / 1 == cap.memoryMi;
    }
    hide PerNode;
    assert Chunks(pods, PerNode(pods, cap)) == [pods];
    assert Total([pods][0], PodGpus) > cap.gpus;
  }

  /** The estimate ignores GPUs: it is right for every batch only where it can never put two pods together. */
  lemma GpuSafeExact(cap: Capacity)
    requires SaneCapacity(cap) && cap.gpus >= 0
    ensures GpuSafe(cap) <==> cap.gpus == 0 || (cap.vcpus <= 1 && cap.memoryMi <= 1)
  {
    if cap.gpus == 0 || (cap.vcpus <= 1 && cap.memoryMi <= 1) {
      forall pods: seq<Pod> | EachFits(pods, cap) && EachFitsGpus(pods, cap)
        ensures GpuChunksFit(pods, cap)
      {
        GpuSafeOn(pods, cap);
      }
    } else {
      var pods := GpuWitness(cap);
    }
  }

  lemma GpuSafeOn(pods: seq<Pod>, cap: Capacity)
    requires SaneCapacity(cap) && EachFits(pods, cap) && EachFitsGpus(pods, cap)
    requires cap.gpus == 0 || (cap.gpus > 0 && cap.vcpus <= 1 && cap.memoryMi <= 1)
    ensures GpuChunksFit(pods, cap)
  {
    PerNodeSound(pods, cap);
    var d := PerNode(pods, cap);
    var cs := Chunks(pods, d);
    ChunksShape(pods, d);
    if cap.gpus > 0 {
      SinglePods(pods, cap);
    }
    forall i | 0 <= i < |cs|
      ensures Total(cs[i], PodGpus) <= cap.gpus
    {
      forall k | 0 <= k < |cs[i]|
        ensures PodGpus(cs[i][k]) <= cap.gpus
      {
        ChunkPods(pods, d, i, k);
      }
      TotalAtMost(cs[i], PodGpus, cap.gpus);
    }
  }

  lemma SinglePods(pods: seq<Pod>, cap: Capacity)
    requires SaneCapacity(cap) && EachFits(pods, cap) && cap.vcpus <= 1 && cap.memoryMi <= 1
    ensures PerNode(pods, cap) == 1
  {
    hide Wrap, MaxOver, PodCpu, PodMem, EachFits;
    PerNodeSound(pods, cap);
    var d, maxCpu, maxMem := PerNode(pods, cap), MaxOver(pods, PodCpu), MaxOver(pods, PodMem);
    if maxCpu > 0 {
      MulOrder(1, maxCpu, d);
    } else if maxMem > 0 {
      MulOrder(1, maxMem, d);
    }
  }
}
