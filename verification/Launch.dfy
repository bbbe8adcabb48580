/** The provisioner's launch loop, for every sequence of provider answers. */
module Launch {
  import opened Api
  import opened PoolEdits
  import opened Controllers

  /** The calls try the first `|t|` candidates in order, and all but the last were refused for capacity. */
  ghost predicate TriesPrefix(t: seq<Action>, candidates: seq<InstanceType>, ami: string, name: string) {
    && |t| <= |candidates|
    && (forall k | 0 <= k < |t| ::
          && t[k].Tried?
          && t[k].name == name && t[k].instanceType == candidates[k].name
          && t[k].ami == if candidates[k].ami != "" then candidates[k].ami else ami)
    && (forall k | 0 <= k < |t| - 1 :: t[k].response == CapacityError)
  }

  /**
   One node's launch: the calls try a prefix of the candidates; the node is launched exactly when the last
   call succeeded; and it is given up only after another error, or when every candidate was refused.
   */
  ghost predicate FallbackResult(t: seq<Action>, candidates: seq<InstanceType>, ami: string, name: string,
                                 r: Option<(string, string)>) {
    && TriesPrefix(t, candidates, ami, name)
    && (match r
        case Some((id, launchedType)) =>
          |t| > 0 && t[|t| - 1].response == Launched(id) && launchedType == candidates[|t| - 1].name
        case None =>
          || (|t| > 0 && t[|t| - 1].response == OtherError)
          || (|t| == |candidates| && forall k | 0 <= k < |t| :: t[k].response == CapacityError))
  }

  method LaunchWithFallback(env: Env, candidates: seq<InstanceType>, ami: string, nodeName: string)
    returns (r: Option<(string, string)>, ghost t: seq<Action>)
    modifies env`trace
    ensures env.trace == old(env.trace) + t
    ensures FallbackResult(t, candidates, ami, nodeName, r)
    ensures |t| <= |candidates|
    ensures forall k | 0 <= k < |t| ::
      && t[k].Tried? && t[k].name == nodeName && t[k].instanceType == candidates[k].name
      && t[k].ami == (if candidates[k].ami != "" then candidates[k].ami else ami)
      && (k < |t| - 1 ==> t[k].response == CapacityError)
    ensures match r
      case Some((id, launchedType)) =>
        |t| > 0 && t[|t| - 1].response == Launched(id) && launchedType == candidates[|t| - 1].name
      case None =>
        if |t| > 0 && t[|t| - 1].response != CapacityError then t[|t| - 1].response == OtherError else |t| == |candidates|
  {
    t := [];
    for k := 0 to |candidates|
      invariant |t| == k && env.trace == old(env.trace) + t
      invariant TriesPrefix(t, candidates, ami, nodeName)
      invariant forall i | 0 <= i < k :: t[i].response == CapacityError
    {
      var image := ami;
      if candidates[k].ami != "" {
        image := candidates[k].ami;
      }
      var response := env.LaunchNode(nodeName, image, candidates[k].name);
      t := t + [Tried(nodeName, image, candidates[k].name, response)];
      match response {
        case CapacityError => continue;
        case OtherError => return None, t;
        case Launched(id) => return Some((id, candidates[k].name)), t;
      }
    }
    return None, t;
  }

  // ----- The loop over the nodes -----

  /** The successful launches among the calls: node name, instance ID and type. */
  function Successes(t: seq<Action>): seq<(string, string, string)> {
    if t == [] then []
    else
      var a := t[|t| - 1];
      Successes(t[..|t| - 1]) +
      if a.Tried? && a.response.Launched? then [(a.name, a.response.id, a.instanceType)] else []
  }

  lemma {:induction false} SuccessesConcat(a: seq<Action>, b: seq<Action>)
    ensures Successes(a + b) == Successes(a) + Successes(b)
  {
    if b == [] {
      assert a + b == a;
    } else {
      assert (a + b)[..|a + b| - 1] == a + b[..|b| - 1];
      SuccessesConcat(a, b[..|b| - 1]);
    }
  }

  lemma {:induction false} NoSuccess(t: seq<Action>)
    requires forall k | 0 <= k < |t| :: !(t[k].Tried? && t[k].response.Launched?)
    ensures Successes(t) == []
  {
    if t != [] {
      NoSuccess(t[..|t| - 1]);
    }
  }

  /** A fallback call launches at most one instance, the one it returns. */
  lemma FallbackLaunchesOne(t: seq<Action>, candidates: seq<InstanceType>, ami: string, name: string,
                            r: Option<(string, string)>)
    requires FallbackResult(t, candidates, ami, name, r)
    ensures Successes(t) == match r case Some((id, launchedType)) => [(name, id, launchedType)] case None => []
  {
    if r.Some? {
      NoSuccess(t[..|t| - 1]);
    } else {
      NoSuccess(t);
    }
  }

  /** One turn of the loop: its calls, and the instance it launched, if any. */
  datatype Round = Round(calls: seq<Action>, launched: Option<(string, string)>)

  /** A turn patches the configuration and then, if that worked, tries the candidates for that node. */
  ghost predicate RoundOk(r: Round, candidates: seq<InstanceType>, ami: string) {
    && |r.calls| > 0 && r.calls[0].Patched?
    && if r.calls[0].ok then FallbackResult(r.calls[1..], candidates, ami, r.calls[0].name, r.launched)
       else |r.calls| == 1 && r.launched == None
  }

  ghost function AllCalls(rounds: seq<Round>): seq<Action> {
    if rounds == [] then [] else AllCalls(rounds[..|rounds| - 1]) + rounds[|rounds| - 1].calls
  }

  /** The calls of `n` turns, for `n` nodes. */
  ghost predicate Rounds(rounds: seq<Round>, n: nat, t: seq<Action>, candidates: seq<InstanceType>, ami: string) {
    && |rounds| == n && t == AllCalls(rounds)
    && forall k | 0 <= k < n :: RoundOk(rounds[k], candidates, ami)
  }

  lemma OneMoreRound(rounds: seq<Round>, r: Round)
    ensures AllCalls(rounds + [r]) == AllCalls(rounds) + r.calls
  {
    assert (rounds + [r])[..|rounds|] == rounds;
  }

  /** A turn launches at most one instance. */
  lemma RoundLaunchesOne(r: Round, candidates: seq<InstanceType>, ami: string)
    requires RoundOk(r, candidates, ami)
    ensures Successes(r.calls) == match r.launched
      case Some((id, launchedType)) => [(r.calls[0].name, id, launchedType)]
      case None => []
  {
    assert r.calls == [r.calls[0]] + r.calls[1..];
    SuccessesConcat([r.calls[0]], r.calls[1..]);
    assert Successes([r.calls[0]]) == [] by { NoSuccess([r.calls[0]]); }
    if r.calls[0].ok {
      FallbackLaunchesOne(r.calls[1..], candidates, ami, r.calls[0].name, r.launched);
    }
  }

  /** Entry `k` is the new Pending entry of launch `k`. */
  ghost predicate Records(xs: seq<Entry>, launches: seq<(string, string, string)>) {
    && |xs| == |launches|
    && forall k | 0 <= k < |xs| ::
         && xs[k].state == Pending && xs[k].readyAt == None && xs[k].lastPodFinished == None
         && xs[k].name == launches[k].0 && xs[k].instanceId == launches[k].1 && xs[k].instanceType == launches[k].2
  }

  /** The entries carry, with whole seconds, the times at which they were made, in order. */
  ghost predicate Timed(xs: seq<Entry>, times: seq<Time>, begin: Time, end: Time) {
    && |times| == |xs|
    && (forall k | 0 <= k < |xs| ::
          begin <= times[k] <= end && xs[k].launchedAt == times[k] - times[k] % 1_000_000_000)
    && forall k, m | 0 <= k < m < |xs| :: times[k] <= times[m]
  }

  lemma NothingYet(o: Pool)
    ensures AppendAll(o, []) == o && Successes([]) == []
  {
  }

  lemma AppendAllSnoc(o: Pool, xs: seq<Entry>, x: Entry)
    ensures AppendAll(o, xs + [x]) == Append(AppendAll(o, xs), x)
  {
    assert (xs + [x])[..|xs|] == xs;
  }

  /**
   Makes one attempt for each of `n` nodes. The copy gains one Pending entry per successful launch, in launch
   order and with its time; its pending counter grows by as many.
   */
  method LaunchNodes(env: Env, copy: PoolCopy, n: nat, candidates: seq<InstanceType>, ami: string)
    returns (launched: seq<Entry>, ghost t: seq<Action>, ghost rounds: seq<Round>, ghost times: seq<Time>)
    modifies env, copy
    ensures env.trace == old(env.trace) + t
    ensures Rounds(rounds, n, t, candidates, ami)
    ensures |launched| <= n
    ensures Records(launched, Successes(t))
    ensures old(env.clock) <= env.clock && Timed(launched, times, old(env.clock), env.clock)
    ensures copy.Value() == AppendAll(old(copy.Value()), launched)
  {
    hide AppendAll, Append, FallbackResult, Successes;
    launched, t, rounds, times := [], [], [], [];
    assert AppendAll(copy.Value(), []) == copy.Value() && Successes([]) == [] by { NothingYet(copy.Value()); }
    for k := 0 to n
      invariant env.trace == old(env.trace) + t
      invariant Rounds(rounds, k, t, candidates, ami)
      invariant |launched| <= k
      invariant Records(launched, Successes(t))
      invariant old(env.clock) <= env.clock && Timed(launched, times, old(env.clock), env.clock)
      invariant copy.Value() == AppendAll(old(copy.Value()), launched)
    {
      ghost var round: Round;
      var r: Option<(string, string)>, nodeName;
      r, nodeName, round := LaunchOne(env, candidates, ami);
      RoundLaunchesOne(round, candidates, ami);
      OneMoreRound(rounds, round);
      SuccessesConcat(t, round.calls);
      t, rounds := t + round.calls, rounds + [round];
      if r == None {
        continue;
      }
      var now := env.Now();
      var x := Entry(nodeName, r.value.0, r.value.1, Pending, Stored(now), None, None);
      AppendAllSnoc(old(copy.Value()), launched, x);
      copy.AppendPending(x);
      launched, times := launched + [x], times + [now];
    }
  }

  /** One turn: a new name, its patched configuration, and the candidates in turn. */
  method LaunchOne(env: Env, candidates: seq<InstanceType>, ami: string)
    returns (r: Option<(string, string)>, nodeName: string, ghost round: Round)
    modifies env`trace
    ensures env.trace == old(env.trace) + round.calls
    ensures RoundOk(round, candidates, ami) && round.launched == r && round.calls[0].name == nodeName
    ensures |round.calls| > 0 && round.calls[0].Patched?
    ensures if round.calls[0].ok then FallbackResult(round.calls[1..], candidates, ami, nodeName, r)
      else |round.calls| == 1 && r == None
  {
    nodeName := *;
    var patched := env.PatchConfig(nodeName);
    if !patched {
      return None, nodeName, Round([Patched(nodeName, false)], None);
    }
    ghost var u;
    r, u := LaunchWithFallback(env, candidates, ami, nodeName);
    round := Round([Patched(nodeName, true)] + u, r);
    assert round.calls[1..] == u;
  }
}
