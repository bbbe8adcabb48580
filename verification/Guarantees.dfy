/** What holds in every state that any run of the protocol can reach. */
module Guarantees {
  import opened Api
  import opened PoolEdits
  import opened CommitLog
  import opened Protocol
  import opened ProtocolInvariant
  import opened ProtocolSteps

  // ----- Serial histories -----

  /** Each version after the first is one enabled edit of the version just before it. */
  ghost predicate Serial(h: Log) {
    && |h| > 0
    && EmptyStatus(h[0].obj)
    && forall k | 0 < k < |h| ::
         Enabled(h[k - 1].obj, h[k].cause) && h[k].obj == Apply(h[k - 1].obj, h[k].cause)
  }

  lemma LegalIsSerial(h: Log)
    requires Legal(h)
    ensures Serial(h)
  {
    hide Enabled, Apply, Legal;
    FirstIsEmpty(h);
    forall k | 0 < k < |h|
      ensures Enabled(h[k - 1].obj, h[k].cause) && h[k].obj == Apply(h[k - 1].obj, h[k].cause)
    {
      LegalStep(h, k);
    }
  }

  lemma FirstIsEmpty(h: Log)
    requires Legal(h)
    ensures |h| > 0 && EmptyStatus(h[0].obj)
  {
    LegalPrefix(h, 0);
  }

  /**
   Stale reads, lost writes and crashes notwithstanding, each pool's committed versions are those of a
   system in which every edit is made atomically on the current pool.
   */
  lemma CommitsAreSerial(steps: seq<Step>, p: string)
    requires Run(START, steps) && p in After(START, steps).logs
    ensures Serial(After(START, steps).logs[p])
  {
    ReachableLegal(steps, p);
    LegalIsSerial(After(START, steps).logs[p]);
  }

  lemma ReachableLegal(steps: seq<Step>, p: string)
    requires Run(START, steps) && p in After(START, steps).logs
    ensures Legal(After(START, steps).logs[p])
  {
    hide Inv, Legal;
    ReachableInv(steps);
    ChainedLogs(After(START, steps), p);
  }

  // ----- Counters and capacity -----

  function Total(o: Pool): int {
    o.activeNodes + o.pendingNodes
  }

  /** The counters of version `k`, against its entries and the Terminating entries dropped up to it. */
  lemma ReachableCounters(steps: seq<Step>, p: string, k: nat)
    requires Run(START, steps) && p in After(START, steps).logs && k < |After(START, steps).logs[p]|
    ensures var h := After(START, steps).logs[p];
      && h[k].obj.pendingNodes == PendingCount(h[k].obj.nodes)
      && h[k].obj.activeNodes == |h[k].obj.nodes| - PendingCount(h[k].obj.nodes) + TerminatingDrops(h[..k + 1])
      && 0 <= Total(h[k].obj) <= PeakMaxNodes(h[..k + 1]) <= INT32_MAX
      && CurrentNodes(h[k].obj) == Total(h[k].obj)
  {
    var h := After(START, steps).logs[p];
    ReachableLegal(steps, p);
    hide Run, After, Legal;
    LegalPrefix(h, k);
    CountersAgree(h[..k + 1]);
    PendingCountBound(h[k].obj.nodes);
  }

  lemma {:induction false} PendingCountIs(nodes: seq<Entry>)
    ensures PendingCount(nodes) == |set i | 0 <= i < |nodes| && nodes[i].state == Pending|
  {
    var found := set i | 0 <= i < |nodes| && nodes[i].state == Pending;
    if nodes != [] {
      var init := nodes[..|nodes| - 1];
      PendingCountIs(init);
      var before := set i | 0 <= i < |init| && init[i].state == Pending;
      assert found == before + if nodes[|init|].state == Pending then {|init|} else {};
    }
  }

  /** Version `i` of the log is an orphan cleanup that took out a Terminating entry. */
  predicate DropsTerminating(h: Log, i: nat) {
    && 0 < i < |h|
    && h[i].cause.OrphanDrop? && h[i].cause.j < |h[i - 1].obj.nodes|
    && h[i - 1].obj.nodes[h[i].cause.j].state == Terminating
  }

  /** The versions of the log that are such cleanups. */
  ghost function DropsOf(h: Log): set<nat> {
    set i: nat | i < |h| && DropsTerminating(h, i)
  }

  lemma TerminatingDropsStep(h: Log)
    requires |h| > 1
    ensures TerminatingDrops(h) == TerminatingDrops(Init(h)) + if DropsTerminating(h, |h| - 1) then 1 else 0
    ensures forall i: nat | i < |h| - 1 :: DropsTerminating(h, i) <==> DropsTerminating(Init(h), i)
  {
  }

  lemma DropsOfStep(h: Log)
    requires |h| > 1
    ensures DropsOf(h) == DropsOf(Init(h)) + if DropsTerminating(h, |h| - 1) then {|h| - 1} else {}
    ensures |h| - 1 !in DropsOf(Init(h))
  {
    TerminatingDropsStep(h);
    hide DropsTerminating, TerminatingDrops;
  }

  lemma {:induction false} TerminatingDropsIs(h: Log)
    ensures TerminatingDrops(h) == |DropsOf(h)|
    decreases |h|
  {
    if |h| <= 1 {
      assert DropsOf(h) == {};
    } else {
      TerminatingDropsStep(h);
      TerminatingDropsIs(Init(h));
      DropsOfStep(h);
    }
  }

  /** Counter agreement by counting: the Pending entries, the others, and the Terminating ones dropped so far. */
  lemma CountersCounted(steps: seq<Step>, p: string, k: nat)
    requires Run(START, steps) && p in After(START, steps).logs && k < |After(START, steps).logs[p]|
    ensures var h := After(START, steps).logs[p];
      var nodes := h[k].obj.nodes;
      && h[k].obj.pendingNodes == |set i | 0 <= i < |nodes| && nodes[i].state == Pending|
      && h[k].obj.activeNodes ==
           |nodes| - |set i | 0 <= i < |nodes| && nodes[i].state == Pending|
           + |set i: nat | i <= k && DropsTerminating(h, i)|
  {
    var h := After(START, steps).logs[p];
    ReachableCounters(steps, p, k);
    hide Run, After, TerminatingDrops, PendingCount;
    PendingCountIs(h[k].obj.nodes);
    var g := h[..k + 1];
    TerminatingDropsIs(g);
    assert forall i: nat | i <= k :: DropsTerminating(g, i) <==> DropsTerminating(h, i);
    var all := set i: nat | i <= k && DropsTerminating(h, i);
    assert DropsOf(g) == all;
  }

  lemma {:induction false} PeakAtMost(h: Log, m: int)
    requires m >= 0 && forall k | 0 <= k < |h| :: h[k].obj.spec.scaling.maxNodes <= m
    ensures PeakMaxNodes(h) <= m
    decreases |h|
  {
    if h != [] {
      PeakAtMost(Init(h), m);
    }
  }

  /** While the limit has never been above `m`, no version has more than `m` entries, nor counts more. */
  lemma NodesWithinLimit(steps: seq<Step>, p: string, k: nat, m: nat)
    requires Run(START, steps) && p in After(START, steps).logs && k < |After(START, steps).logs[p]|
    requires forall i | 0 <= i <= k :: After(START, steps).logs[p][i].obj.spec.scaling.maxNodes <= m
    ensures |After(START, steps).logs[p][k].obj.nodes| <= Total(After(START, steps).logs[p][k].obj) <= m
  {
    var h := After(START, steps).logs[p];
    ReachableCounters(steps, p, k);
    hide Run, After;
    PeakAtMost(h[..k + 1], m);
  }

  /** Only the provisioner's commits raise the count, and never above the limit in force. */
  lemma RaisesStayWithinLimit(steps: seq<Step>, p: string, k: nat)
    requires Run(START, steps) && p in After(START, steps).logs && 0 < k < |After(START, steps).logs[p]|
    ensures var h := After(START, steps).logs[p];
      Total(h[k].obj) > Total(h[k - 1].obj) ==>
        && h[k].cause.Record?
        && h[k].obj.spec == h[k - 1].obj.spec
        && Total(h[k].obj) <= h[k].obj.spec.scaling.maxNodes
  {
    var h := After(START, steps).logs[p];
    ReachableLegal(steps, p);
    ReachableCounters(steps, p, k - 1);
    hide Run, After, Legal, TerminatingDrops, PeakMaxNodes, PendingCount;
    LegalStep(h, k);
    EditKeepsCounters(h[k - 1].obj, h[k].cause, TerminatingDrops(h[..k]));
    RecordKeepsSpec(h[k - 1].obj, h[k].cause);
  }

  lemma RecordKeepsSpec(o: Pool, e: Edit)
    requires Enabled(o, e)
    ensures e.Record? ==> Apply(o, e).spec == o.spec
  {
  }

  /** Orphan cleanup keeps exact counters exact if and only if the entry is not Terminating. */
  lemma OrphanDropExact(o: Pool, j: nat)
    requires j < |o.nodes| && CountersExact(o, 0) && Total(o) <= INT32_MAX
    ensures CountersExact(OrphanDropped(o, j), 0) <==> o.nodes[j].state != Terminating
  {
    DropKeepsCounters(o, OrphanDrop(j), 0);
  }

  // ----- Lifecycle and identity -----

  /** Across a whole run, entries with the same ID or name are one entry, moving forward only. */
  lemma LifecycleForward(steps: seq<Step>, p: string, a: nat, b: nat, i: nat, k: nat)
    requires Run(START, steps) && p in After(START, steps).logs
    requires a <= b < |After(START, steps).logs[p]|
    requires var h := After(START, steps).logs[p];
      && i < |h[a].obj.nodes| && k < |h[b].obj.nodes|
      && (h[a].obj.nodes[i].instanceId == h[b].obj.nodes[k].instanceId || h[a].obj.nodes[i].name == h[b].obj.nodes[k].name)
    ensures Forward(After(START, steps).logs[p][a].obj.nodes[i], After(START, steps).logs[p][b].obj.nodes[k])
    ensures
      var x, y := After(START, steps).logs[p][a].obj.nodes[i], After(START, steps).logs[p][b].obj.nodes[k];
      && x.instanceId == y.instanceId && x.name == y.name
      && x.instanceType == y.instanceType && x.launchedAt == y.launchedAt
      && match y.state
         case Pending => x.state == Pending
         case Running => x.state == Pending || x.state == Running
         case Cordoned => x.state != Draining && x.state != Terminating
         case Draining => x.state != Terminating
         case Terminating => true
    ensures a == b ==> i == k
  {
    var h := After(START, steps).logs[p];
    ReachableLegal(steps, p);
    hide Run, After, Legal;
    ForwardOnly(h, a, b, i, k);
    if a == b {
      DistinctAt(h, a);
      SameEntry(h[a].obj.nodes, i, k);
    }
  }

  /** A name or instance ID that has left a pool's status never comes back to it. */
  lemma NeverReturns(steps: seq<Step>, p: string, a: nat, b: nat, c: nat)
    requires Run(START, steps) && p in After(START, steps).logs && a <= b <= c < |After(START, steps).logs[p]|
    ensures var h := After(START, steps).logs[p];
      && Ids(h[a].obj.nodes) * Ids(h[c].obj.nodes) <= Ids(h[b].obj.nodes)
      && Names(h[a].obj.nodes) * Names(h[c].obj.nodes) <= Names(h[b].obj.nodes)
  {
    ReachableLegal(steps, p);
    hide Run, After, Legal;
    NoReturn(After(START, steps).logs[p], a, b, c);
  }

  /** Two pools never, at any time in a run, hold the same instance ID or node name. */
  lemma PoolsApart(steps: seq<Step>, p: string, q: string)
    requires Run(START, steps) && p != q
    requires p in After(START, steps).logs && q in After(START, steps).logs
    ensures EverIds(After(START, steps).logs[p]) !! EverIds(After(START, steps).logs[q])
    ensures EverNames(After(START, steps).logs[p]) !! EverNames(After(START, steps).logs[q])
  {
    ReachableInv(steps);
    hide Run, After, Chained, LiveOk, HeldOk, GoneOk, DeadOk, EverIds, EverNames;
    var s := After(START, steps);
    LogsApart(s.logs, s.cloud, s.lost, p, q);
  }

  lemma LogsApart(logs: Logs, cloud: Cloud, lost: set<string>, p: string, q: string)
    requires RecordedOk(logs, cloud, lost) && NamesUnique(cloud) && p in logs && q in logs && p != q
    ensures EverIds(logs[p]) !! EverIds(logs[q]) && EverNames(logs[p]) !! EverNames(logs[q])
  {
    hide EverIds, EverNames;
    assert RecordedIn(logs[p], cloud, lost, p) && RecordedIn(logs[q], cloud, lost, q);
    assert forall n | n in EverNames(logs[p]) :: n in NamesOf(cloud, EverIds(logs[p]));
    assert forall n | n in EverNames(logs[q]) :: n in NamesOf(cloud, EverIds(logs[q]));
  }

  // ----- Teardown -----

  /**
   Each termination the reaper asks for follows three commits of that same pass in consecutive versions,
   taking that very entry from Running through Cordoned and Draining to Terminating.
   */
  lemma TeardownIsExclusive(steps: seq<Step>, a: nat)
    requires Run(START, steps) && a < |After(START, steps).requests|
    ensures var s := After(START, steps); var r := s.requests[a];
      && r.pool in s.logs && r.ver < |s.logs[r.pool]|
      && s.logs[r.pool][r.ver].author == Pass(r.pass)
      && s.logs[r.pool][r.ver].cause.MarkTerminating?
      && var j := s.logs[r.pool][r.ver].cause.j;
      && TeardownAt(s.logs[r.pool], r.ver, j)
      && s.logs[r.pool][r.ver].obj.nodes[j].instanceId == r.id
  {
    var s := After(START, steps);
    var r := s.requests[a];
    RequestKnown(steps, a);
    ReachableLegal(steps, r.pool);
    hide Run, After, Legal;
    TeardownConsecutive(s.logs[r.pool], r.ver, s.logs[r.pool][r.ver].cause.j);
  }

  /** A reaper pass's termination calls, and no others, are the recorded requests. */
  lemma RequestsAreCalls(s: State, step: Step)
    requires CanTake(s, step)
    ensures Take(s, step).requests == s.requests +
      if step.TerminateReturns? && s.jobs[step.i].edit.Remove?
      then [Request(step.i, s.jobs[step.i].pool, s.jobs[step.i].ver, Target(s.jobs[step.i]))] else []
  {
    hide Enabled, Apply, Idle, Live, TakenOut, ToLaunch, Append, Edited, ReaperStart, Kill;
  }

  lemma RequestKnown(steps: seq<Step>, a: nat)
    requires Run(START, steps) && a < |After(START, steps).requests|
    ensures var s := After(START, steps); var r := s.requests[a];
      r.pool in s.logs && r.ver < |s.logs[r.pool]| && Marks(s.logs[r.pool][r.ver], r)
  {
    hide Inv, Run, After, Marks;
    ReachableInv(steps);
    InvRequests(After(START, steps));
  }

  /** In any run the reaper asks for the termination of an instance at most once. */
  lemma ReaperAsksOnce(steps: seq<Step>, a: nat, b: nat)
    requires Run(START, steps) && a < b < |After(START, steps).requests|
    ensures After(START, steps).requests[a].id != After(START, steps).requests[b].id
  {
    var s := After(START, steps);
    hide Legal, Inv, RequestsOk, NotYetAsked;
    var x, y := s.requests[a], s.requests[b];
    RequestKnown(steps, a);
    RequestKnown(steps, b);
    ReachableInv(steps);
    InvRequests(s);
    SameTargets(s, a, b);
    RequestEntry(s, x);
    RequestEntry(s, y);
    if x.id == y.id {
      ReachableLegal(steps, x.pool);
      hide Run, After, Legal, Inv;
      MarkedOnce(s.logs[x.pool], x.ver, y.ver, s.logs[x.pool][x.ver].cause.j, s.logs[x.pool][y.ver].cause.j);
    }
  }

  lemma SameTargets(s: State, a: nat, b: nat)
    requires RequestsOk(s.logs, s.requests) && a < b < |s.requests|
    ensures !SameTarget(s.requests[a], s.requests[b].pool, s.requests[b].ver)
  {
  }

  lemma RequestEntry(s: State, r: Request)
    requires Inv(s) && r.pool in s.logs && r.ver < |s.logs[r.pool]| && Marks(s.logs[r.pool][r.ver], r)
    ensures r.id in s.cloud && s.cloud[r.id].pool == r.pool
  {
    hide Inv;
    EntryKnown(s, r.pool, r.ver, s.logs[r.pool][r.ver].cause.j);
  }

  // ----- Cooldown -----

  /** No entry is committed as Cordoned before the cooldown of an unbroken recorded idle period has passed. */
  lemma CooldownBeforeCordon(steps: seq<Step>, p: string, k: nat)
    requires Run(START, steps) && p in After(START, steps).logs && k < |After(START, steps).logs[p]|
    requires After(START, steps).logs[p][k].cause.Cordon?
    ensures var h := After(START, steps).logs[p];
      && k > 0 && h[k].cause.j < |h[k - 1].obj.nodes|
      && Idle(h[k].cause.pods)
      && CooldownOver(h, k - 1, h[k], h[k - 1].obj.nodes[h[k].cause.j].instanceId,
                      OrDefault(h[k - 1].obj.spec.scaling.cooldownPeriod))
  {
    ReachableLegal(steps, p);
    hide Run, After, Legal, CooldownOver, Idle;
    CooldownHonoured(After(START, steps).logs[p], k);
  }
}
