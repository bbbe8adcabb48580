/** Which instance types can take a batch of pods, smallest first. */
module Selector {
  import opened Api
  import opened Batch
  import opened Sorting

  type Table = map<string, Capacity>

  // ----- The candidate list -----

  function Candidates(spec: Spec): seq<InstanceType> {
    if spec.aws == None then []
    else if |spec.aws.value.instanceTypes| > 0 then spec.aws.value.instanceTypes
    else if spec.aws.value.instanceType != "" then [InstanceType(spec.aws.value.instanceType, "", "")]
    else []
  }

  // ----- What the batch asks for -----

  predicate IsArchConstraint(x: Requirement) {
    x.key == "kubernetes.io/arch" && x.operator == "In" && |x.values| > 0
  }

  function TermArch(term: seq<Requirement>): Option<string> {
    if term == [] then None
    else if IsArchConstraint(term[0]) then Some(term[0].values[0])
    else TermArch(term[1..])
  }

  function TermsArch(terms: seq<seq<Requirement>>): Option<string> {
    if terms == [] then None
    else if TermArch(terms[0]).Some? then TermArch(terms[0])
    else TermsArch(terms[1..])
  }

  /** The first architecture constraint of one pod. */
  function PodArch(pod: Pod): Option<string> {
    if pod.requiredTerms == None then None else TermsArch(pod.requiredTerms.value)
  }

  function FirstArch(pods: seq<Pod>): Option<string> {
    if pods == [] then None
    else if PodArch(pods[0]).Some? then PodArch(pods[0])
    else FirstArch(pods[1..])
  }

  /** The first architecture constraint of the batch; empty when there is none. */
  function RequiredArch(pods: seq<Pod>): string {
    match FirstArch(pods)
    case Some(a) => a
    case None => ""
  }

  // ----- The filter -----

  function ArchOf(c: InstanceType, cap: Capacity): string {
    if c.architecture == "" then cap.architecture else c.architecture
  }

  predicate Keeps(table: Table, c: InstanceType, maxCpu: nat, maxMem: nat, maxGpu: nat, arch: string) {
    c.name in table ==>
      && (arch == "" || ArchOf(c, table[c.name]) == arch)
      && (maxGpu == 0 || table[c.name].gpus >= maxGpu)
      && table[c.name].vcpus >= maxCpu && table[c.name].memoryMi >= maxMem
  }

  predicate Kept(table: Table, pods: seq<Pod>, c: InstanceType) {
    Keeps(table, c, MaxOver(pods, PodCpu), MaxOver(pods, PodMem), MaxOver(pods, PodGpus), RequiredArch(pods))
  }

  function Filter(table: Table, pods: seq<Pod>, cs: seq<InstanceType>): seq<InstanceType> {
    if cs == [] then []
    else Filter(table, pods, cs[..|cs| - 1]) + if Kept(table, pods, cs[|cs| - 1]) then [cs[|cs| - 1]] else []
  }

  // ----- The order -----

  predicate Smaller(table: Table, a: InstanceType, b: InstanceType) {
    if a.name !in table || b.name !in table then a.name in table
    else if table[a.name].vcpus != table[b.name].vcpus then table[a.name].vcpus < table[b.name].vcpus
    else table[a.name].memoryMi < table[b.name].memoryMi
  }

  function ByCapacity(table: Table): (InstanceType, InstanceType) -> bool {
    (a: InstanceType, b: InstanceType) => Smaller(table, a, b)
  }

  /** The comparison is one that sorting can rely on: known types by CPU then memory, unknown ones last. */
  lemma ByCapacityIsOrder(table: Table)
    ensures StrictWeakOrder(ByCapacity(table))
  {
    var less := ByCapacity(table);
    forall x, y, z | !less(x, y) && !less(y, z)
      ensures !less(x, z)
    {
      assert !Smaller(table, x, y) && !Smaller(table, y, z);
    }
  }

  /** What any sort may return: the kept candidates, each as often as it is listed, in order. */
  ghost predicate IsSelection(r: seq<InstanceType>, table: Table, spec: Spec, pods: seq<Pod>) {
    && multiset(r) == multiset(Filter(table, pods, Candidates(spec)))
    && Ordered(r, ByCapacity(table))
  }

  // ----- The loops -----

  method PodGpuRequests(pod: Pod) returns (gpus: nat)
    ensures gpus == PodGpus(pod)
  {
    gpus := 0;
    var cs := pod.containers;
    for k := 0 to |cs|
      invariant gpus == Sum(cs[..k], Gpus)
    {
      assert cs[..k + 1][..k] == cs[..k];
      if "nvidia.com/gpu" in cs[k].requests {
        gpus := gpus + Gpus(cs[k]);
      }
    }
    assert cs[..|cs|] == cs;
  }

  method MaxPodRequirements(pods: seq<Pod>) returns (cpuMilli: nat, memMi: nat, gpus: nat)
    ensures cpuMilli == MaxOver(pods, PodCpu) && memMi == MaxOver(pods, PodMem) && gpus == MaxOver(pods, PodGpus)
  {
    cpuMilli, memMi, gpus := 0, 0, 0;
    for k := 0 to |pods|
      invariant cpuMilli == MaxOver(pods[..k], PodCpu)
      invariant memMi == MaxOver(pods[..k], PodMem)
      invariant gpus == MaxOver(pods[..k], PodGpus)
    {
      assert pods[..k + 1][..k] == pods[..k];
      var cpu, mem := PodResourceRequests(pods[k]);
      var gpu := PodGpuRequests(pods[k]);
      if cpu > cpuMilli {
        cpuMilli := cpu;
      }
      if mem > memMi {
        memMi := mem;
      }
      if gpu > gpus {
        gpus := gpu;
      }
    }
    assert pods[..|pods|] == pods;
  }

  /** The requirement at `x` in term `t` of pod `i` asks for an architecture. */
  predicate Constrains(pods: seq<Pod>, i: nat, t: nat, x: nat) {
    && i < |pods| && pods[i].requiredTerms.Some?
    && t < |pods[i].requiredTerms.value| && x < |pods[i].requiredTerms.value[t]|
    && var y := pods[i].requiredTerms.value[t][x];
    y.key == "kubernetes.io/arch" && y.operator == "In" && |y.values| > 0
  }

  /** The answer is the first value of the first such requirement, by pod, term and position; empty without one. */
  method RequiredArchitecture(pods: seq<Pod>) returns (arch: string, ghost found: Option<(nat, nat, nat)>)
    ensures arch == RequiredArch(pods)
    ensures match found
      case None => arch == "" && forall a: nat, b: nat, c: nat :: !Constrains(pods, a, b, c)
      case Some((i, t, x)) =>
        && Constrains(pods, i, t, x) && arch == pods[i].requiredTerms.value[t][x].values[0]
        && forall a: nat, b: nat, c: nat | Constrains(pods, a, b, c) :: i < a || (i == a && (t < b || (t == b && x <= c)))
  {
    for i := 0 to |pods|
      invariant FirstArch(pods) == FirstArch(pods[i..])
      invariant forall a: nat, b: nat, c: nat | a < i :: !Constrains(pods, a, b, c)
    {
      if pods[i].requiredTerms == None {
        continue;
      }
      var terms := pods[i].requiredTerms.value;
      for t := 0 to |terms|
        invariant TermsArch(terms) == TermsArch(terms[t..])
        invariant forall b: nat, c: nat | b < t :: !Constrains(pods, i, b, c)
      {
        for x := 0 to |terms[t]|
          invariant TermArch(terms[t]) == TermArch(terms[t][x..])
          invariant forall c: nat | c < x :: !Constrains(pods, i, t, c)
        {
          if IsArchConstraint(terms[t][x]) {
            return terms[t][x].values[0], Some((i, t, x));
          }
        }
      }
    }
    return "", None;
  }

  method SelectInstanceTypes(spec: Spec, pods: seq<Pod>, table: Table) returns (fits: seq<InstanceType>)
    ensures IsSelection(fits, table, spec, pods)
    ensures forall i, k | 0 <= i < k < |fits| && fits[k].name in table ::
      && fits[i].name in table
      && (|| table[fits[i].name].vcpus < table[fits[k].name].vcpus
          || (table[fits[i].name].vcpus == table[fits[k].name].vcpus
              && table[fits[i].name].memoryMi <= table[fits[k].name].memoryMi))
  {
    hide MaxOver, RequiredArch, StrictWeakOrder, Ordered;
    var cs := Candidates(spec);
    if |cs| == 0 {
      NoneOrdered(ByCapacity(table));
      return [];
    }
    var maxCpu, maxMem, maxGpu := MaxPodRequirements(pods);
    var arch, _ := RequiredArchitecture(pods);
    var needsGpu := maxGpu > 0;
    fits := [];
    for k := 0 to |cs|
      invariant fits == Filter(table, pods, cs[..k])
    {
      assert cs[..k + 1][..k] == cs[..k];
      var c := cs[k];
      if c.name !in table {
        fits := fits + [c];
        continue;
      }
      var cap := table[c.name];
      if arch != "" && ArchOf(c, cap) != arch {
        continue;
      }
      if needsGpu && cap.gpus < maxGpu {
        continue;
      }
      if cap.vcpus < maxCpu || cap.memoryMi < maxMem {
        continue;
      }
      fits := fits + [c];
    }
    assert cs[..|cs|] == cs;
    ByCapacityIsOrder(table);
    var a := new InstanceType[|fits|](i requires 0 <= i < |fits| => fits[i]);
    assert a[..] == fits;
    Sort(a, ByCapacity(table));
    fits := a[..];
    OrderedOnTable(fits, table);
  }

  lemma NoneOrdered(less: (InstanceType, InstanceType) -> bool)
    ensures Ordered([], less)
  {
  }

  // ----- What a selection promises -----

  /** Known types come first, by CPU, and by memory where the CPU is the same. */
  lemma OrderedOnTable(r: seq<InstanceType>, table: Table)
    requires Ordered(r, ByCapacity(table))
    ensures forall i, k | 0 <= i < k < |r| && r[k].name in table ::
      && r[i].name in table
      && (|| table[r[i].name].vcpus < table[r[k].name].vcpus
          || (table[r[i].name].vcpus == table[r[k].name].vcpus
              && table[r[i].name].memoryMi <= table[r[k].name].memoryMi))
  {
    forall i, k | 0 <= i < k < |r|
      ensures !Smaller(table, r[k], r[i])
    {
      assert !ByCapacity(table)(r[k], r[i]);
    }
  }

  predicate SaneTable(table: Table) {
    forall n | n in table :: table[n].vcpus >= 0 && table[n].memoryMi >= 0 && table[n].gpus >= 0
  }

  /** The type can take the pod alone. */
  predicate Takes(cap: Capacity, pod: Pod) {
    PodCpu(pod) <= cap.vcpus && PodMem(pod) <= cap.memoryMi && PodGpus(pod) <= cap.gpus
  }

  /**
   A known type is kept exactly when it has the required architecture, its own setting before the table's,
   and has the CPU, the memory and the GPUs of every pod of the batch.
   */
  lemma KeptMeansTakesAll(table: Table, pods: seq<Pod>, c: InstanceType)
    requires SaneTable(table) && c.name in table
    ensures var cap, arch := table[c.name], RequiredArch(pods);
      Kept(table, pods, c) <==>
        && (arch == "" || arch == if c.architecture == "" then cap.architecture else c.architecture)
        && forall i | 0 <= i < |pods| ::
             PodCpu(pods[i]) <= cap.vcpus && PodMem(pods[i]) <= cap.memoryMi && PodGpus(pods[i]) <= cap.gpus
  {
    MaxOverBound(pods, PodCpu);
    MaxOverBound(pods, PodMem);
    MaxOverBound(pods, PodGpus);
  }

  lemma {:induction false} FilterIsFilter(table: Table, pods: seq<Pod>, cs: seq<InstanceType>, c: InstanceType)
    ensures multiset(Filter(table, pods, cs))[c] == if Kept(table, pods, c) then multiset(cs)[c] else 0
  {
    hide Kept;
    if cs != [] {
      var init, last := cs[..|cs| - 1], cs[|cs| - 1];
      FilterIsFilter(table, pods, init, c);
      assert cs == init + [last];
      assert multiset(cs) == multiset(init) + multiset{last};
    }
  }

  /** The types the pool lists: its list, or else its single type, or else none. */
  lemma Listed(spec: Spec)
    ensures spec.aws == None ==> Candidates(spec) == []
    ensures spec.aws.Some? && spec.aws.value.instanceTypes != [] ==> Candidates(spec) == spec.aws.value.instanceTypes
    ensures spec.aws.Some? && spec.aws.value.instanceTypes == [] && spec.aws.value.instanceType == "" ==> Candidates(spec) == []
    ensures spec.aws.Some? && spec.aws.value.instanceTypes == [] && spec.aws.value.instanceType != "" ==>
      Candidates(spec) == [InstanceType(spec.aws.value.instanceType, "", "")]
  {
  }

  /**
   The selection holds each candidate as often as the pool lists it if it is unknown, or known and able to
   take every pod at the required architecture; and otherwise not at all.
   */
  lemma SelectionIsTheFits(r: seq<InstanceType>, table: Table, spec: Spec, pods: seq<Pod>, c: InstanceType)
    requires IsSelection(r, table, spec, pods) && SaneTable(table)
    ensures var arch := RequiredArch(pods);
      multiset(r)[c] ==
        if c.name !in table
           || ((arch == "" || arch == if c.architecture == "" then table[c.name].architecture else c.architecture)
               && forall i | 0 <= i < |pods| ::
                    && PodCpu(pods[i]) <= table[c.name].vcpus
                    && PodMem(pods[i]) <= table[c.name].memoryMi
                    && PodGpus(pods[i]) <= table[c.name].gpus)
        then multiset(Candidates(spec))[c] else 0
  {
    FilterIsFilter(table, pods, Candidates(spec), c);
    if c.name in table {
      KeptMeansTakesAll(table, pods, c);
    }
  }

  /** The head is no later in the order than any kept candidate. */
  lemma HeadIsMinimal(r: seq<InstanceType>, table: Table, spec: Spec, pods: seq<Pod>, c: InstanceType)
    requires IsSelection(r, table, spec, pods) && c in Candidates(spec) && Kept(table, pods, c)
    ensures r != [] && !Smaller(table, c, r[0])
    ensures c.name in table ==> r[0].name in table
  {
    FilterIsFilter(table, pods, Candidates(spec), c);
    assert c in multiset(Candidates(spec));
    assert c in multiset(r);
    HeadIsLeast(r, ByCapacity(table), c);
  }

  /**
   Whenever some known listed type has the required architecture and takes every pod, the head is known and has
   the least CPU of all such types, and the least memory of those with its CPU.
   */
  lemma HeadIsSmallest(r: seq<InstanceType>, table: Table, spec: Spec, pods: seq<Pod>, c: InstanceType)
    requires IsSelection(r, table, spec, pods) && SaneTable(table) && c in Candidates(spec) && c.name in table
    requires RequiredArch(pods) == "" || RequiredArch(pods) == ArchOf(c, table[c.name])
    requires forall i | 0 <= i < |pods| :: Takes(table[c.name], pods[i])
    ensures r != [] && r[0].name in table
    ensures
      || table[r[0].name].vcpus < table[c.name].vcpus
      || (table[r[0].name].vcpus == table[c.name].vcpus && table[r[0].name].memoryMi <= table[c.name].memoryMi)
  {
    KeptMeansTakesAll(table, pods, c);
    HeadIsMinimal(r, table, spec, pods, c);
  }

  // ----- Growing the batch -----

  lemma {:induction false} MaxOverGrows(pods: seq<Pod>, more: seq<Pod>, f: Pod -> nat)
    ensures MaxOver(pods, f) <= MaxOver(pods + more, f)
  {
    if more == [] {
      assert pods + more == pods;
    } else {
      MaxOverGrows(pods, more[..|more| - 1], f);
      assert (pods + more)[..|pods + more| - 1] == pods + more[..|more| - 1];
    }
  }

  lemma {:induction false} FirstArchGrows(pods: seq<Pod>, more: seq<Pod>)
    ensures FirstArch(pods).Some? ==> FirstArch(pods + more) == FirstArch(pods)
  {
    if pods != [] {
      FirstArchGrows(pods[1..], more);
      assert (pods + more)[1..] == pods[1..] + more;
    }
  }

  lemma KeptGrows(table: Table, pods: seq<Pod>, more: seq<Pod>, c: InstanceType)
    requires Kept(table, pods + more, c)
    ensures Kept(table, pods, c)
  {
    MaxOverGrows(pods, more, PodCpu);
    MaxOverGrows(pods, more, PodMem);
    MaxOverGrows(pods, more, PodGpus);
    FirstArchGrows(pods, more);
  }

  /** More pods never add a candidate, and never give a head with less CPU, or with as much CPU and less memory. */
  lemma SelectionAntitone(r: seq<InstanceType>, r': seq<InstanceType>, table: Table, spec: Spec, pods: seq<Pod>, more: seq<Pod>)
    requires IsSelection(r, table, spec, pods) && IsSelection(r', table, spec, pods + more)
    ensures multiset(r') <= multiset(r)
    ensures r' != [] ==> r != [] && !Smaller(table, r'[0], r[0])
    ensures r' != [] && r'[0].name in table ==>
      && r[0].name in table
      && (|| table[r[0].name].vcpus < table[r'[0].name].vcpus
          || (table[r[0].name].vcpus == table[r'[0].name].vcpus && table[r[0].name].memoryMi <= table[r'[0].name].memoryMi))
  {
    var cs := Candidates(spec);
    forall c: InstanceType
      ensures multiset(r')[c] <= multiset(r)[c]
    {
      FilterIsFilter(table, pods, cs, c);
      FilterIsFilter(table, pods + more, cs, c);
      if Kept(table, pods + more, c) {
        KeptGrows(table, pods, more, c);
      }
    }
    if r' != [] {
      assert r'[0] in multiset(r') && r'[0] in multiset(r);
      HeadIsLeast(r, ByCapacity(table), r'[0]);
    }
  }

  // ----- Architectures -----

  ghost predicate ArchAgree(pods: seq<Pod>) {
    forall i, k | 0 <= i < |pods| && 0 <= k < |pods| && PodArch(pods[i]).Some? && PodArch(pods[k]).Some? ::
      PodArch(pods[i]) == PodArch(pods[k])
  }

  lemma {:induction false} FirstArchFound(pods: seq<Pod>)
    ensures FirstArch(pods) == None <==> forall i | 0 <= i < |pods| :: PodArch(pods[i]) == None
    ensures FirstArch(pods).Some? ==> exists i :: 0 <= i < |pods| && PodArch(pods[i]) == FirstArch(pods)
  {
    if pods != [] {
      FirstArchFound(pods[1..]);
      if PodArch(pods[0]) == None {
        if FirstArch(pods).Some? {
          var i :| 0 <= i < |pods[1..]| && PodArch(pods[1..][i]) == FirstArch(pods[1..]);
          assert PodArch(pods[i + 1]) == FirstArch(pods);
        }
        assert forall i | 0 < i < |pods| :: pods[i] == pods[1..][i - 1];
      }
    }
  }

  /**
   The filter honours every pod's own first constraint exactly when the pods agree on one and, if that one
   is the empty string, which the filter takes for no constraint, the type has no architecture either.
   */
  lemma ArchitectureForAll(table: Table, pods: seq<Pod>, c: InstanceType)
    requires c.name in table && Kept(table, pods, c)
    ensures (forall i | 0 <= i < |pods| && PodArch(pods[i]).Some? :: PodArch(pods[i]).value == ArchOf(c, table[c.name]))
      <==> ArchAgree(pods) && (FirstArch(pods) == Some("") ==> ArchOf(c, table[c.name]) == "")
  {
    FirstArchFound(pods);
  }
}
