/** How many nodes a batch of pods needs. */
module Batch {
  import opened Api

  datatype Capacity = Capacity(vcpus: int, memoryMi: int, gpus: Int32, architecture: string)

  function CeilDiv(x: nat, d: nat): (r: nat)
    requires d > 0
    ensures r * d >= x
    ensures r > 0 ==> (r - 1) * d < x
  {
    (x + d - 1) / d
  }

  function Min(x: int, y: int): int {
    if x < y then x else y
  }

  function Max(x: int, y: int): int {
    if x < y then y else x
  }

  // ----- Requests of one pod -----

  function Requested(c: Container, resource: string): Quantity {
    if resource in c.requests then c.requests[resource] else 0
  }

  /** Millicores, rounded up. */
  function CpuMilli(c: Container): nat {
    CeilDiv(Requested(c, "cpu"), 1_000_000)
  }

  /** Decimal megabytes, rounded up; the code compares these with mebibytes. */
  function MemMega(c: Container): nat {
    CeilDiv(Requested(c, "memory"), 1_000_000_000_000_000)
  }

  function Gpus(c: Container): nat {
    CeilDiv(Requested(c, "nvidia.com/gpu"), 1_000_000_000)
  }

  function Sum(cs: seq<Container>, f: Container -> nat): nat {
    if cs == [] then 0 else Sum(cs[..|cs| - 1], f) + f(cs[|cs| - 1])
  }

  function PodCpu(pod: Pod): nat {
    Sum(pod.containers, CpuMilli)
  }

  function PodMem(pod: Pod): nat {
    Sum(pod.containers, MemMega)
  }

  function PodGpus(pod: Pod): nat {
    Sum(pod.containers, Gpus)
  }

  /**
   What one container counts for is what it requests, rounded up to whole millicores, megabytes and GPUs;
   a resource that it does not request counts for nothing. Its limits do not matter.
   */
  lemma ContainerAmounts(c: Container)
    ensures if "cpu" in c.requests
      then CpuMilli(c) * 1_000_000 >= c.requests["cpu"] > (CpuMilli(c) - 1) * 1_000_000
      else CpuMilli(c) == 0
    ensures if "memory" in c.requests
      then MemMega(c) * 1_000_000_000_000_000 >= c.requests["memory"] > (MemMega(c) - 1) * 1_000_000_000_000_000
      else MemMega(c) == 0
    ensures if "nvidia.com/gpu" in c.requests
      then Gpus(c) * 1_000_000_000 >= c.requests["nvidia.com/gpu"] > (Gpus(c) - 1) * 1_000_000_000
      else Gpus(c) == 0
  {
  }

  lemma {:induction false} SumSame(cs: seq<Container>, cs': seq<Container>, f: Container -> nat)
    requires |cs| == |cs'| && forall i | 0 <= i < |cs| :: f(cs[i]) == f(cs'[i])
    ensures Sum(cs, f) == Sum(cs', f)
  {
    if cs != [] {
      SumSame(cs[..|cs| - 1], cs'[..|cs'| - 1], f);
    }
  }

  /** Pods whose containers request the same count for the same, whatever else they differ in. */
  lemma OnlyRequestsCount(pod: Pod, pod': Pod)
    requires |pod.containers| == |pod'.containers|
    requires forall i | 0 <= i < |pod.containers| :: pod.containers[i].requests == pod'.containers[i].requests
    ensures PodCpu(pod) == PodCpu(pod') && PodMem(pod) == PodMem(pod') && PodGpus(pod) == PodGpus(pod')
  {
    SumSame(pod.containers, pod'.containers, CpuMilli);
    SumSame(pod.containers, pod'.containers, MemMega);
    SumSame(pod.containers, pod'.containers, Gpus);
  }

  /** Containers add up: a pod counts for its first containers and for the others, and one for what it counts. */
  lemma {:induction false} SumConcat(a: seq<Container>, b: seq<Container>, f: Container -> nat)
    ensures Sum(a + b, f) == Sum(a, f) + Sum(b, f)
    ensures |b| == 1 ==> Sum(b, f) == f(b[0])
  {
    if b == [] {
      assert a + b == a;
    } else {
      SumConcat(a, b[..|b| - 1], f);
      assert (a + b)[..|a + b| - 1] == a + b[..|b| - 1];
    }
  }

  /** A pod counts for what its containers count for, each of them once. */
  lemma PodAmounts(pod: Pod)
    ensures pod.containers == [] ==> PodCpu(pod) == 0 && PodMem(pod) == 0 && PodGpus(pod) == 0
    ensures forall a: seq<Container>, c: Container | pod.containers == a + [c] ::
      && PodCpu(pod) == PodCpu(pod.(containers := a)) + CpuMilli(c)
      && PodMem(pod) == PodMem(pod.(containers := a)) + MemMega(c)
      && PodGpus(pod) == PodGpus(pod.(containers := a)) + Gpus(c)
  {
    forall a: seq<Container>, c: Container | pod.containers == a + [c]
      ensures PodCpu(pod) == PodCpu(pod.(containers := a)) + CpuMilli(c)
      ensures PodMem(pod) == PodMem(pod.(containers := a)) + MemMega(c)
      ensures PodGpus(pod) == PodGpus(pod.(containers := a)) + Gpus(c)
    {
      SumConcat(a, [c], CpuMilli);
      SumConcat(a, [c], MemMega);
      SumConcat(a, [c], Gpus);
    }
  }

  // ----- Largest request in a batch -----

  function MaxOver(pods: seq<Pod>, f: Pod -> nat): nat {
    if pods == [] then 0 else Max(MaxOver(pods[..|pods| - 1], f), f(pods[|pods| - 1]))
  }

  lemma {:induction false} MaxOverBound(pods: seq<Pod>, f: Pod -> nat)
    ensures forall i | 0 <= i < |pods| :: f(pods[i]) <= MaxOver(pods, f)
    ensures MaxOver(pods, f) > 0 ==> exists i :: 0 <= i < |pods| && f(pods[i]) == MaxOver(pods, f)
  {
    if pods != [] {
      var rest := pods[..|pods| - 1];
      MaxOverBound(rest, f);
      assert pods[|pods| - 1] in pods;
      if MaxOver(pods, f) > 0 && f(pods[|pods| - 1]) != MaxOver(pods, f) {
        var i :| 0 <= i < |rest| && f(rest[i]) == MaxOver(rest, f);
        assert f(pods[i]) == MaxOver(pods, f);
      }
    }
  }

  // ----- Sizing -----

  function PodsPerNode(pods: seq<Pod>, cap: Capacity): Int32 {
    var maxCpu, maxMem := MaxOver(pods, PodCpu), MaxOver(pods, PodMem);
    if pods == [] then 0
    else if maxCpu == 0 && maxMem == 0 then 1
    else
      var fitByCpu: Int32 := if maxCpu > 0 then Wrap(cap.vcpus / maxCpu) else 0x7fff_ffff;
      var fitByMem: Int32 := if maxMem > 0 then Wrap(cap.memoryMi / maxMem) else 0x7fff_ffff;
      var fit := if fitByCpu < fitByMem then fitByCpu else fitByMem;
      if fit <= 0 then 1 else fit
  }

  function NodesNeeded(pods: seq<Pod>, cap: Capacity, current: Int32, maxNodes: Int32): (r: Int32)
    ensures 0 <= r
    ensures r > 0 ==> current < maxNodes && r <= Wrap(maxNodes - current)
  {
    if current >= maxNodes then 0
    else
      var estimate := PodsPerNode(pods, cap);
      var perNode := if estimate <= 0 then 1 else estimate;
      var wanted := Wrap(CeilDiv(|pods|, perNode));
      var available := Wrap(maxNodes - current);
      var clipped := if wanted > available then available else wanted;
      if clipped < 0 then 0 else clipped
  }

  /** The chunk size that the node count is worked out with. */
  function PerNode(pods: seq<Pod>, cap: Capacity): (r: int)
    ensures r > 0
  {
    if PodsPerNode(pods, cap) <= 0 then 1 else PodsPerNode(pods, cap)
  }

  // ----- The loops -----

  method PodResourceRequests(pod: Pod) returns (cpuMilli: nat, memMi: nat)
    ensures cpuMilli == PodCpu(pod) && memMi == PodMem(pod)
  {
    cpuMilli, memMi := 0, 0;
    var cs := pod.containers;
    for k := 0 to |cs|
      invariant cpuMilli == Sum(cs[..k], CpuMilli) && memMi == Sum(cs[..k], MemMega)
    {
      assert cs[..k + 1][..k] == cs[..k];
      if "cpu" in cs[k].requests {
        cpuMilli := cpuMilli + CpuMilli(cs[k]);
      }
      if "memory" in cs[k].requests {
        memMi := memMi + MemMega(cs[k]);
      }
    }
    assert cs[..|cs|] == cs;
  }

  method EstimatePodsPerNode(pods: seq<Pod>, cap: Capacity) returns (fit: Int32)
    ensures fit == PodsPerNode(pods, cap)
  {
    if |pods| == 0 {
      return 0;
    }
    var maxCpu: nat, maxMem: nat := 0, 0;
    for k := 0 to |pods|
      invariant maxCpu == MaxOver(pods[..k], PodCpu) && maxMem == MaxOver(pods[..k], PodMem)
    {
      assert pods[..k + 1][..k] == pods[..k];
      var cpu, mem := PodResourceRequests(pods[k]);
      if cpu > maxCpu {
        maxCpu := cpu;
      }
      if mem > maxMem {
        maxMem := mem;
      }
    }
    assert pods[..|pods|] == pods;
    if maxCpu == 0 && maxMem == 0 {
      return 1;
    }
    var fitByCpu: Int32, fitByMem: Int32 := 0x7fff_ffff, 0x7fff_ffff;
    if maxCpu > 0 {
      fitByCpu := Wrap(cap.vcpus / maxCpu);
    }
    if maxMem > 0 {
      fitByMem := Wrap(cap.memoryMi / maxMem);
    }
    fit := if fitByCpu < fitByMem then fitByCpu else fitByMem;
    if fit <= 0 {
      fit := 1;
    }
  }

  method CalculateNodesNeeded(pods: seq<Pod>, cap: Capacity, current: Int32, maxNodes: Int32) returns (needed: Int32)
    ensures needed == NodesNeeded(pods, cap, current, maxNodes)
  {
    if current >= maxNodes {
      return 0;
    }
    var perNode := EstimatePodsPerNode(pods, cap);
    if perNode <= 0 {
      perNode := 1;
    }
    needed := Wrap(CeilDiv(|pods|, perNode));
    var available := Wrap(maxNodes - current);
    if needed > available {
      needed := available;
    }
    if needed < 0 {
      needed := 0;
    }
  }
}
