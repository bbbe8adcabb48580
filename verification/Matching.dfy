/** Which pool an unschedulable pod goes to. */
module Matching {
  import opened Api
  import opened Sorting

  // ----- Names in byte order -----

  predicate Before(a: string, b: string) {
    if b == [] then false
    else if a == [] then true
    else a[0] < b[0] || (a[0] == b[0] && Before(a[1..], b[1..]))
  }

  lemma {:induction false} BeforeAsymmetric(a: string, b: string)
    requires Before(a, b)
    ensures a != b && !Before(b, a)
  {
    if a != [] && a[0] == b[0] {
      BeforeAsymmetric(a[1..], b[1..]);
    }
  }

  lemma {:induction false} BeforeTotal(a: string, b: string)
    ensures Before(a, b) || Before(b, a) || a == b
  {
    if a != [] && b != [] && a[0] == b[0] {
      BeforeTotal(a[1..], b[1..]);
      assert a == [a[0]] + a[1..] && b == [b[0]] + b[1..];
    }
  }

  lemma {:induction false} BeforeTransitive(a: string, b: string, c: string)
    requires Before(a, b) && Before(b, c)
    ensures Before(a, c)
  {
    if a != [] && a[0] == b[0] == c[0] {
      BeforeTransitive(a[1..], b[1..], c[1..]);
    }
  }

  /** The names agree up to `d`, where `a` ends or has the smaller character. */
  predicate SmallerAt(a: string, b: string, d: nat) {
    d <= |a| && d < |b| && a[..d] == b[..d] && (d == |a| || a[d] < b[d])
  }

  lemma HeadsAgree(a: string, b: string, d: nat)
    ensures 0 < d <= |a| && d <= |b| && a[..d] == b[..d] ==> a[0] == b[0]
  {
    if 0 < d <= |a| && d <= |b| {
      assert a[..d][0] == a[0] && b[..d][0] == b[0];
    }
  }

  /** The order is decided by the first character in which the names differ; a prefix comes first. */
  lemma {:induction false} BeforeIsFirstDifference(a: string, b: string)
    ensures Before(a, b) <==> exists d: nat :: SmallerAt(a, b, d)
  {
    if a == [] || b == [] || a[0] != b[0] {
      assert Before(a, b) ==> SmallerAt(a, b, 0);
      forall d: nat | SmallerAt(a, b, d)
        ensures Before(a, b)
      {
        HeadsAgree(a, b, d);
      }
    } else {
      var a', b' := a[1..], b[1..];
      BeforeIsFirstDifference(a', b');
      if d: nat :| SmallerAt(a', b', d) {
        assert a[..d + 1] == [a[0]] + a'[..d] && b[..d + 1] == [b[0]] + b'[..d];
        assert SmallerAt(a, b, d + 1);
      }
      if d: nat :| SmallerAt(a, b, d) {
        assert d > 0;
        assert a'[..d - 1] == a[..d][1..] && b'[..d - 1] == b[..d][1..];
        assert SmallerAt(a', b', d - 1);
      }
    }
  }

  function ByName(): (Pool, Pool) -> bool {
    (p: Pool, q: Pool) => Before(p.name, q.name)
  }

  lemma ByNameIsOrder()
    ensures StrictWeakOrder(ByName())
  {
    forall p: Pool
      ensures !ByName()(p, p)
    {
      if Before(p.name, p.name) {
        BeforeAsymmetric(p.name, p.name);
      }
    }
    forall p: Pool, q: Pool | ByName()(p, q)
      ensures !ByName()(q, p)
    {
      BeforeAsymmetric(p.name, q.name);
    }
    forall p: Pool, q: Pool, r: Pool | !ByName()(p, q) && !ByName()(q, r)
      ensures !ByName()(p, r)
    {
      NotBefore(p.name, q.name, r.name);
    }
  }

  lemma NotBefore(a: string, b: string, c: string)
    requires !Before(a, b) && !Before(b, c)
    ensures !Before(a, c)
  {
    BeforeTotal(a, b);
    BeforeTotal(b, c);
    if Before(a, c) {
      if Before(b, a) {
        BeforeTransitive(b, a, c);
      }
    }
  }

  // ----- The match rules -----

  predicate Tolerates(t: Toleration, rule: TolerationRule) {
    t.key == rule.key && (rule.operator == "Exists" || (rule.operator == "Equal" && t.value == rule.value))
  }

  predicate HasToleration(pod: Pod, rule: TolerationRule) {
    exists i :: 0 <= i < |pod.tolerations| && Tolerates(pod.tolerations[i], rule)
  }

  predicate Asks(x: Requirement, key: string, value: string) {
    x.key == key && ((x.operator == "In" && value in x.values) || x.operator == "Exists")
  }

  predicate TermAsks(term: seq<Requirement>, key: string, value: string) {
    exists i :: 0 <= i < |term| && Asks(term[i], key, value)
  }

  predicate TermMatches(term: seq<Requirement>, labels: map<string, string>) {
    forall key | key in labels :: TermAsks(term, key, labels[key])
  }

  predicate HasAffinityLabels(pod: Pod, labels: map<string, string>) {
    && pod.requiredTerms.Some?
    && exists i :: 0 <= i < |pod.requiredTerms.value| && TermMatches(pod.requiredTerms.value[i], labels)
  }

  predicate Mentions(c: Container, resource: string) {
    resource in c.requests || resource in c.limits
  }

  predicate HasResource(pod: Pod, resource: string) {
    exists i :: 0 <= i < |pod.containers| && Mentions(pod.containers[i], resource)
  }

  predicate MeetsResourceRule(pod: Pod, rule: ResourceRule) {
    || (rule.operator == "Exists" && HasResource(pod, rule.resourceName))
    || (rule.operator == "DoesNotExist" && !HasResource(pod, rule.resourceName))
  }

  predicate Matches(pod: Pod, pool: Pool) {
    var rules := pool.spec.rules;
    && (forall i | 0 <= i < |rules.tolerations| :: HasToleration(pod, rules.tolerations[i]))
    && (|rules.nodeAffinityLabels| > 0 ==> HasAffinityLabels(pod, rules.nodeAffinityLabels))
    && (forall i | 0 <= i < |rules.resources| :: MeetsResourceRule(pod, rules.resources[i]))
  }

  /**
   What it is for a pod to match a pool. Each toleration rule needs a toleration of its key, and of its value
   if the rule says Equal. If there are labels, one required term has, for each of them, an expression that
   lists the value or asks that the key exists. Each resource rule asks that some container mentions the
   resource, in its requests or its limits, or that none does; a rule of another kind is met by no pod.
   */
  lemma MatchesMeans(pod: Pod, pool: Pool)
    ensures var rules := pool.spec.rules;
      Matches(pod, pool) <==>
        && (forall rule | rule in rules.tolerations :: exists t ::
              t in pod.tolerations && t.key == rule.key
              && (rule.operator == "Exists" || (rule.operator == "Equal" && t.value == rule.value)))
        && (rules.nodeAffinityLabels != map[] ==> pod.requiredTerms.Some? && exists term ::
              term in pod.requiredTerms.value && forall key | key in rules.nodeAffinityLabels :: exists x ::
                x in term && x.key == key
                && ((x.operator == "In" && rules.nodeAffinityLabels[key] in x.values) || x.operator == "Exists"))
        && (forall rule | rule in rules.resources ::
              || (rule.operator == "Exists"
                  && exists c :: c in pod.containers && (rule.resourceName in c.requests || rule.resourceName in c.limits))
              || (rule.operator == "DoesNotExist"
                  && forall c | c in pod.containers :: rule.resourceName !in c.requests && rule.resourceName !in c.limits))
  {
    var rules := pool.spec.rules;
    TolerationsMean(pod, rules.tolerations);
    LabelsMean(pod, rules.nodeAffinityLabels);
    ResourcesMean(pod, rules.resources);
    hide HasToleration, HasAffinityLabels, MeetsResourceRule;
  }

  lemma TolerationMeans(pod: Pod, rule: TolerationRule)
    ensures HasToleration(pod, rule) <==> exists t ::
      t in pod.tolerations && t.key == rule.key
      && (rule.operator == "Exists" || (rule.operator == "Equal" && t.value == rule.value))
  {
    if HasToleration(pod, rule) {
      var i :| 0 <= i < |pod.tolerations| && Tolerates(pod.tolerations[i], rule);
      assert pod.tolerations[i] in pod.tolerations;
    }
  }

  lemma TolerationsMean(pod: Pod, rules: seq<TolerationRule>)
    ensures (forall i | 0 <= i < |rules| :: HasToleration(pod, rules[i]))
      <==> forall rule | rule in rules :: exists t ::
             t in pod.tolerations && t.key == rule.key
             && (rule.operator == "Exists" || (rule.operator == "Equal" && t.value == rule.value))
  {
    hide HasToleration;
    if forall i | 0 <= i < |rules| :: HasToleration(pod, rules[i]) {
      forall rule | rule in rules
        ensures exists t ::
          t in pod.tolerations && t.key == rule.key
          && (rule.operator == "Exists" || (rule.operator == "Equal" && t.value == rule.value))
      {
        TolerationMeans(pod, rule);
      }
    }
    forall i | 0 <= i < |rules|
      ensures rules[i] in rules
      ensures HasToleration(pod, rules[i]) <==> exists t ::
        t in pod.tolerations && t.key == rules[i].key
        && (rules[i].operator == "Exists" || (rules[i].operator == "Equal" && t.value == rules[i].value))
    {
      TolerationMeans(pod, rules[i]);
    }
  }

  lemma LabelsMean(pod: Pod, labels: map<string, string>)
    ensures (|labels| > 0 ==> HasAffinityLabels(pod, labels))
      <==> (labels != map[] ==> pod.requiredTerms.Some? && exists term ::
              term in pod.requiredTerms.value && forall key | key in labels :: exists x ::
                x in term && x.key == key && ((x.operator == "In" && labels[key] in x.values) || x.operator == "Exists"))
  {
    hide TermMatches;
    assert |labels| > 0 <==> labels != map[];
    if pod.requiredTerms.Some? {
      var terms := pod.requiredTerms.value;
      if HasAffinityLabels(pod, labels) {
        var i :| 0 <= i < |terms| && TermMatches(terms[i], labels);
        TermMeans(terms[i], labels);
        assert terms[i] in terms;
      } else {
        forall term | term in terms
          ensures !forall key | key in labels :: exists x ::
            x in term && x.key == key && ((x.operator == "In" && labels[key] in x.values) || x.operator == "Exists")
        {
          TermMeans(term, labels);
        }
      }
    }
  }

  lemma TermMeans(term: seq<Requirement>, labels: map<string, string>)
    ensures TermMatches(term, labels) <==> forall key | key in labels :: exists x ::
      x in term && x.key == key && ((x.operator == "In" && labels[key] in x.values) || x.operator == "Exists")
  {
    forall key | key in labels
      ensures TermAsks(term, key, labels[key]) <==> exists x ::
        x in term && x.key == key && ((x.operator == "In" && labels[key] in x.values) || x.operator == "Exists")
    {
      if TermAsks(term, key, labels[key]) {
        var i :| 0 <= i < |term| && Asks(term[i], key, labels[key]);
        assert term[i] in term;
      }
    }
    hide TermAsks;
  }

  lemma ResourcesMean(pod: Pod, rules: seq<ResourceRule>)
    ensures (forall i | 0 <= i < |rules| :: MeetsResourceRule(pod, rules[i]))
      <==> forall rule | rule in rules ::
             || (rule.operator == "Exists"
                 && exists c :: c in pod.containers && (rule.resourceName in c.requests || rule.resourceName in c.limits))
             || (rule.operator == "DoesNotExist"
                 && forall c | c in pod.containers :: rule.resourceName !in c.requests && rule.resourceName !in c.limits)
  {
    forall name: string
      ensures HasResource(pod, name) <==> exists c :: c in pod.containers && (name in c.requests || name in c.limits)
    {
      if HasResource(pod, name) {
        var i :| 0 <= i < |pod.containers| && Mentions(pod.containers[i], name);
        assert pod.containers[i] in pod.containers;
      }
    }
    hide HasResource;
  }

  function Score(pool: Pool): nat {
    |pool.spec.rules.nodeAffinityLabels| + |pool.spec.rules.resources|
  }

  predicate SaysUnschedulable(c: Condition) {
    c.kind == "PodScheduled" && c.status == "False" && c.reason == "Unschedulable"
  }

  predicate IsUnschedulable(pod: Pod) {
    exists i :: 0 <= i < |pod.conditions| && SaysUnschedulable(pod.conditions[i])
  }

  // ----- The loops -----

  method IsPodUnschedulable(pod: Pod) returns (r: bool)
    ensures r == IsUnschedulable(pod)
    ensures r <==> exists c :: c in pod.conditions && c.kind == "PodScheduled" && c.status == "False" && c.reason == "Unschedulable"
  {
    for k := 0 to |pod.conditions|
      invariant forall i | 0 <= i < k :: !SaysUnschedulable(pod.conditions[i])
    {
      if SaysUnschedulable(pod.conditions[k]) {
        return true;
      }
    }
    return false;
  }

  method PodHasToleration(pod: Pod, rule: TolerationRule) returns (r: bool)
    ensures r == HasToleration(pod, rule)
  {
    for k := 0 to |pod.tolerations|
      invariant forall i | 0 <= i < k :: !Tolerates(pod.tolerations[i], rule)
    {
      var t := pod.tolerations[k];
      if t.key == rule.key {
        if rule.operator == "Exists" {
          return true;
        } else if rule.operator == "Equal" && t.value == rule.value {
          return true;
        }
      }
    }
    return false;
  }

  method TermMatchesLabels(term: seq<Requirement>, labels: map<string, string>) returns (r: bool)
    ensures r == TermMatches(term, labels)
  {
    var keys := labels.Keys;
    while keys != {}
      invariant keys <= labels.Keys
      invariant forall key | key in labels && key !in keys :: TermAsks(term, key, labels[key])
    {
      var key :| key in keys;
      var found := false;
      for k := 0 to |term|
        invariant found == exists i :: 0 <= i < k && Asks(term[i], key, labels[key])
      {
        if term[k].key == key && term[k].operator == "In" && labels[key] in term[k].values {
          found := true;
        }
        if term[k].key == key && term[k].operator == "Exists" {
          found := true;
        }
      }
      if !found {
        return false;
      }
      keys := keys - {key};
    }
    return true;
  }

  method PodHasNodeAffinityLabels(pod: Pod, labels: map<string, string>) returns (r: bool)
    ensures r == HasAffinityLabels(pod, labels)
  {
    if pod.requiredTerms == None {
      return false;
    }
    var terms := pod.requiredTerms.value;
    for k := 0 to |terms|
      invariant forall i | 0 <= i < k :: !TermMatches(terms[i], labels)
    {
      var hit := TermMatchesLabels(terms[k], labels);
      if hit {
        return true;
      }
    }
    return false;
  }

  method PodMatchesResourceRule(pod: Pod, rule: ResourceRule) returns (r: bool)
    ensures r == MeetsResourceRule(pod, rule)
  {
    var hasResource := false;
    for k := 0 to |pod.containers|
      invariant !hasResource
      invariant forall i | 0 <= i < k :: !Mentions(pod.containers[i], rule.resourceName)
    {
      if rule.resourceName in pod.containers[k].requests {
        hasResource := true;
        break;
      }
      if rule.resourceName in pod.containers[k].limits {
        hasResource := true;
        break;
      }
    }
    match rule.operator {
      case "Exists" => return hasResource;
      case "DoesNotExist" => return !hasResource;
      case _ => return false;
    }
  }

  method PodMatchesPool(pod: Pod, pool: Pool) returns (r: bool)
    ensures r == Matches(pod, pool)
  {
    var rules := pool.spec.rules;
    for k := 0 to |rules.tolerations|
      invariant forall i | 0 <= i < k :: HasToleration(pod, rules.tolerations[i])
    {
      var ok := PodHasToleration(pod, rules.tolerations[k]);
      if !ok {
        return false;
      }
    }
    if |rules.nodeAffinityLabels| > 0 {
      var ok := PodHasNodeAffinityLabels(pod, rules.nodeAffinityLabels);
      if !ok {
        return false;
      }
    }
    for k := 0 to |rules.resources|
      invariant forall i | 0 <= i < k :: MeetsResourceRule(pod, rules.resources[i])
    {
      var ok := PodMatchesResourceRule(pod, rules.resources[k]);
      if !ok {
        return false;
      }
    }
    return true;
  }

  // ----- The choice -----

  /** `p` wins against `q`: it is more specific, or as specific and not later by name. */
  predicate Beats(p: Pool, q: Pool) {
    Score(q) < Score(p) || (Score(q) == Score(p) && !Before(q.name, p.name))
  }

  lemma BeatsSelf(p: Pool)
    ensures Beats(p, p)
  {
    if Before(p.name, p.name) {
      BeforeAsymmetric(p.name, p.name);
    }
  }

  /** `p` matches the pod and wins against every pool of the list that does. */
  ghost predicate Routed(p: Pool, pod: Pod, pools: seq<Pool>) {
    && p in pools && Matches(pod, p)
    && forall q | q in pools && Matches(pod, q) :: Beats(p, q)
  }

  /** The scan keeps the first pool, by name, of the greatest score so far. */
  method FirstBest(pod: Pod, sorted: seq<Pool>) returns (best: Option<Pool>)
    requires Ordered(sorted, ByName())
    ensures best == None <==> forall q | q in sorted :: !Matches(pod, q)
    ensures best.Some? ==> Routed(best.value, pod, sorted)
  {
    hide Matches, Score;
    best := None;
    var bestScore: int := -1;
    for k := 0 to |sorted|
      invariant best == None <==> forall i | 0 <= i < k :: !Matches(pod, sorted[i])
      invariant best == None ==> bestScore == -1
      invariant best.Some? ==>
        bestScore == Score(best.value) && best.value in sorted[..k] && Matches(pod, best.value)
      invariant best.Some? ==> forall i | 0 <= i < k && Matches(pod, sorted[i]) :: Beats(best.value, sorted[i])
    {
      var ok := PodMatchesPool(pod, sorted[k]);
      if !ok {
        continue;
      }
      if Score(sorted[k]) > bestScore {
        best := Some(sorted[k]);
        bestScore := Score(sorted[k]);
        BeatsSelf(sorted[k]);
      } else {
        var p := best.value;
        var i :| 0 <= i < k && sorted[i] == p;
        assert !ByName()(sorted[k], sorted[i]);
      }
    }
  }

  /** A pool is as specific as it has labels and resource rules; equally specific ones go by name. */
  lemma RoutedMeans(p: Pool, pod: Pod, pools: seq<Pool>)
    ensures Routed(p, pod, pools) <==>
      && p in pools && Matches(pod, p)
      && forall q | q in pools && Matches(pod, q) ::
           var mine := |p.spec.rules.nodeAffinityLabels| + |p.spec.rules.resources|;
           var other := |q.spec.rules.nodeAffinityLabels| + |q.spec.rules.resources|;
           other < mine || (other == mine && !exists d: nat :: SmallerAt(q.name, p.name, d))
  {
    hide Matches;
    forall q: Pool
      ensures Before(q.name, p.name) <==> exists d: nat :: SmallerAt(q.name, p.name, d)
    {
      BeforeIsFirstDifference(q.name, p.name);
    }
  }

  method MatchPodToPool(pod: Pod, pools: seq<Pool>) returns (best: Option<Pool>)
    ensures best == None <==> forall q | q in pools :: !Matches(pod, q)
    ensures best.Some? ==> Routed(best.value, pod, pools)
    ensures best.Some? ==> best.value in pools && Matches(pod, best.value)
    ensures best.Some? ==> forall q | q in pools && Matches(pod, q) ::
      var mine := |best.value.spec.rules.nodeAffinityLabels| + |best.value.spec.rules.resources|;
      var other := |q.spec.rules.nodeAffinityLabels| + |q.spec.rules.resources|;
      other < mine || (other == mine && !exists d: nat :: SmallerAt(q.name, best.value.name, d))
  {
    hide Matches;
    ByNameIsOrder();
    var a := new Pool[|pools|](i requires 0 <= i < |pools| => pools[i]);
    assert a[..] == pools;
    Sort(a, ByName());
    var sorted := a[..];
    assert forall q :: q in sorted <==> q in multiset(pools);
    best := FirstBest(pod, sorted);
    if best.Some? {
      RoutedMeans(best.value, pod, pools);
    }
  }

  ghost predicate DistinctNames(pools: seq<Pool>) {
    forall p, q | p in pools && q in pools && p.name == q.name :: p == q
  }

  /**
   However two listings of the same pools are ordered, the chosen pools tie in score and in name; with
   distinct names they are the same pool.
   */
  lemma RoutingOrderIndependent(p: Pool, q: Pool, pod: Pod, pools: seq<Pool>, pools': seq<Pool>)
    requires multiset(pools) == multiset(pools') && Routed(p, pod, pools) && Routed(q, pod, pools')
    ensures Score(p) == Score(q) && p.name == q.name
    ensures DistinctNames(pools) ==> p == q
  {
    assert q in multiset(pools') && q in multiset(pools);
    assert p in multiset(pools) && p in multiset(pools');
    assert Beats(p, q) && Beats(q, p);
    BeforeTotal(p.name, q.name);
  }
}
