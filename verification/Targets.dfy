/** Which entries the two termination calls hit. */
module Targets {
  import opened Api
  import opened PoolEdits
  import opened CommitLog
  import opened Protocol
  import opened ProtocolInvariant
  import opened ProtocolSteps
  import opened Guarantees
  import Batch

  lemma TerminatingIsForever(h: Log, v: nat, j: nat, k: nat)
    requires Legal(h) && v < |h| && j < |h[v].obj.nodes| && k < |Last(h).obj.nodes|
    requires h[v].obj.nodes[j].state == Terminating
    requires h[v].obj.nodes[j].instanceId == Last(h).obj.nodes[k].instanceId
    ensures Last(h).obj.nodes[k].state == Terminating
  {
    hide Legal;
    ForwardOnly(h, v, |h| - 1, j, k);
  }

  /**
   When the reaper asks for a termination, however stale its view and whoever has written since, the
   entry is Terminating in the current status if it is there at all.
   */
  lemma ReaperHitsTerminating(steps: seq<Step>, i: nat, k: nat)
    requires Run(START, steps) && i in After(START, steps).jobs
    requires var job := After(START, steps).jobs[i]; job.phase == Calling && job.edit.Remove?
    requires var s := After(START, steps); var p := s.jobs[i].pool;
      p in s.logs && |s.logs[p]| > 0 && k < |Last(s.logs[p]).obj.nodes|
      && Last(s.logs[p]).obj.nodes[k].instanceId == Target(s.jobs[i])
    ensures var s := After(START, steps);
      Last(s.logs[s.jobs[i].pool]).obj.nodes[k].state == Terminating
  {
    var s := After(START, steps);
    ReachableInv(steps);
    hide Run, After, Inv, Legal, Target;
    CallFacts(s, i);
    TerminatingIsForever(s.logs[s.jobs[i].pool], s.jobs[i].ver, s.jobs[i].edit.j, k);
  }

  lemma CallFacts(s: State, i: nat)
    requires Inv(s) && i in s.jobs && s.jobs[i].phase == Calling
    ensures var job := s.jobs[i];
      && job.pool in s.logs
      && Legal(s.logs[job.pool])
      && job.ver < |s.logs[job.pool]|
      && job.edit.Drops()
      && var o := s.logs[job.pool][job.ver].obj;
      && job.edit.j < |o.nodes|
      && o.nodes[job.edit.j].instanceId == Target(job)
      && (job.edit.Remove? ==> o.nodes[job.edit.j].state == Terminating)
      && (job.edit.BootDrop? ==> o.nodes[job.edit.j].state == Pending)
  {
    hide Inv, Legal, Follows, Apply;
    ChainedLogs(s, s.jobs[i].pool) by { JobKnown(s, i); }
    JobKnown(s, i);
    CalledBasedOn(s.logs[s.jobs[i].pool][s.jobs[i].ver], i, s.jobs[i]);
  }

  // ----- The boot-timeout call -----

  ghost predicate ReadyOf(v: Version, id: string) {
    v.cause.Ready? && v.cause.j < |v.obj.nodes| && v.obj.nodes[v.cause.j].instanceId == id
  }

  /** Version `m` after `v` made the entry Running. */
  ghost predicate ReadyAfter(h: Log, v: nat, b: nat, id: string)
    requires b < |h|
  {
    exists m :: v < m <= b && ReadyOf(h[m], id)
  }

  /** Only a Ready edit takes an entry out of the Pending state and leaves it in the list. */
  lemma EditPending(o: Pool, e: Edit, k: nat)
    requires Enabled(o, e) && k < |Apply(o, e).nodes| && Apply(o, e).nodes[k].state != Pending
    requires !(e.Ready? && e.j == k)
    ensures Origin(o, e, k).Some? && o.nodes[Origin(o, e, k).value].state != Pending
    ensures o.nodes[Origin(o, e, k).value].instanceId == Apply(o, e).nodes[k].instanceId
  {
  }

  lemma {:induction false} PendingUntilReady(h: Log, v: nat, b: nat, j: nat, k: nat)
    requires Legal(h) && v <= b < |h| && j < |h[v].obj.nodes| && k < |h[b].obj.nodes|
    requires h[v].obj.nodes[j].instanceId == h[b].obj.nodes[k].instanceId
    requires h[v].obj.nodes[j].state == Pending && h[b].obj.nodes[k].state != Pending
    ensures ReadyAfter(h, v, b, h[b].obj.nodes[k].instanceId)
    decreases b
  {
    var id := h[b].obj.nodes[k].instanceId;
    if v == b {
      DistinctAt(h, b);
      SameEntry(h[b].obj.nodes, j, k);
    } else {
      LegalStep(h, b);
      var o, e := h[b - 1].obj, h[b].cause;
      if e.Ready? && e.j == k {
        assert ReadyOf(h[b], id);
      } else {
        EditPending(o, e, k);
        PendingUntilReady(h, v, b - 1, j, Origin(o, e, k).value);
      }
    }
  }

  lemma ReadyIsForever(h: Log, v: nat, k: nat)
    requires Legal(h) && v < |h| && k < |Last(h).obj.nodes|
    requires ReadyAfter(h, v, |h| - 1, Last(h).obj.nodes[k].instanceId)
    ensures Last(h).obj.nodes[k].state != Pending
  {
    var m :| v < m <= |h| - 1 && ReadyOf(h[m], Last(h).obj.nodes[k].instanceId);
    LegalStep(h, m);
    ForwardOnly(h, m, |h| - 1, h[m].cause.j, k);
  }

  /**
   The boot-timeout call goes out before its write is checked. It hits an entry that is Pending in the
   current status exactly when no commit since the pass's read has made that entry Running.
   */
  lemma BootTimeoutHits(steps: seq<Step>, i: nat, k: nat)
    requires Run(START, steps) && i in After(START, steps).jobs
    requires var job := After(START, steps).jobs[i]; job.phase == Calling && job.edit.BootDrop?
    requires var s := After(START, steps); var p := s.jobs[i].pool;
      p in s.logs && |s.logs[p]| > 0 && k < |Last(s.logs[p]).obj.nodes|
      && Last(s.logs[p]).obj.nodes[k].instanceId == Target(s.jobs[i])
    ensures var s := After(START, steps); var h := s.logs[s.jobs[i].pool];
      Last(h).obj.nodes[k].state == Pending <==> !ReadyAfter(h, s.jobs[i].ver, |h| - 1, Target(s.jobs[i]))
    ensures var s := After(START, steps);
      IsCurrent(s, s.jobs[i]) ==> Last(s.logs[s.jobs[i].pool]).obj.nodes[k].state == Pending
  {
    var s := After(START, steps);
    ReachableInv(steps);
    hide Run, After, Inv, Legal;
    var job, h := s.jobs[i], s.logs[s.jobs[i].pool];
    CallFacts(s, i);
    if Last(h).obj.nodes[k].state != Pending {
      PendingUntilReady(h, job.ver, |h| - 1, job.edit.j, k);
    } else if ReadyAfter(h, job.ver, |h| - 1, Target(job)) {
      ReadyIsForever(h, job.ver, k);
    }
  }

  // ----- A run in which it hits a Running node -----

  const TINY := Pool("p", Spec(None, Scaling(1, 0, 0), MatchRules([], map[], [])), 0, 0, [])

  const NODE := Entry("n", "i", "t", Pending, 0, None, None)

  const BOOTING := TINY.(pendingNodes := 1, nodes := [NODE])

  const BOOTED := TINY.(activeNodes := 1, nodes := [NODE.(state := Running, readyAt := Some(0))])

  const TINY_LOG: Log := [
    Version(TINY, Created, User),
    Version(BOOTING, Record([NODE]), Pass(0)),
    Version(BOOTED, Ready(0, 0), Pass(1))]

  const LAUNCHED := Instance("n", "p", 0, true, 0, true)

  const ONE_POD := [Pod("w", map[], map[], [], "Pending", [], [], [], None)]

  const CAP := Batch.Capacity(1, 1, 0, "")

  // The states of the run, one after each step.

  const S1 := START.(logs := map["p" := [Version(TINY, Created, User)]])

  const S2 := S1.(jobs := map[0 := Job("p", 0, TINY, Record([]), Launching(1))], next := 1)

  const S3 := S2.(jobs := map[0 := Job("p", 0, BOOTING, Record([NODE]), Launching(0))], cloud := map["i" := LAUNCHED])

  const S4 := S3.(jobs := map[], logs := map["p" := TINY_LOG[..2]])

  const S5 := S4.(jobs := map[1 := Job("p", 1, BOOTED, Ready(0, 0), Writing)], next := 2)

  const S6 := S5.(jobs := map[], logs := map["p" := TINY_LOG])

  const S7 := S6.(now := DEFAULT_TIMEOUT + 1)

  const S8 := S7.(jobs := map[2 := Job("p", 1, BOOTING, BootDrop(0, DEFAULT_TIMEOUT + 1), Calling)], next := 3)

  /** One node is launched, recorded and made ready; then a pass that still reads it as Pending times it out. */
  const STALE_RUN: seq<Step> := [
    CreatePool("p", TINY),
    StartProvision("p", 0, ONE_POD, CAP),
    LaunchOk(0, "i", "n", "t"),
    Write(0, Acknowledged),
    StartReady("p", 1, 0),
    Write(1, Acknowledged),
    Tick(DEFAULT_TIMEOUT + 1),
    StartBootTimeout("p", 1, 0)]

  lemma Steps1To3()
    ensures CanTake(START, STALE_RUN[0]) && Take(START, STALE_RUN[0]) == S1
    ensures CanTake(S1, STALE_RUN[1]) && Take(S1, STALE_RUN[1]) == S2
    ensures CanTake(S2, STALE_RUN[2]) && Take(S2, STALE_RUN[2]) == S3
  {
    assert Take(START, STALE_RUN[0]).logs == S1.logs;
    assert ToLaunch(TINY, ONE_POD, CAP) == 1 by { OnePodOneNode(); }
    assert Take(S1, STALE_RUN[1]).jobs == S2.jobs;
    Launch();
  }

  lemma OnePodOneNode()
    ensures ToLaunch(TINY, ONE_POD, CAP) == 1
  {
    assert Batch.PodsPerNode(ONE_POD, CAP) == 1 by {
      assert ONE_POD[..0] == [];
      assert Batch.MaxOver(ONE_POD, Batch.PodCpu) == 0 && Batch.MaxOver(ONE_POD, Batch.PodMem) == 0;
    }
  }

  lemma Launch()
    ensures CanTake(S2, STALE_RUN[2]) && Take(S2, STALE_RUN[2]) == S3
  {
    assert Append(TINY, NODE) == BOOTING;
    assert [] + [NODE] == [NODE];
    assert Take(S2, STALE_RUN[2]).jobs == S3.jobs && Take(S2, STALE_RUN[2]).cloud == S3.cloud;
  }

  lemma Step4()
    ensures CanTake(S3, STALE_RUN[3]) && Take(S3, STALE_RUN[3]) == S4
  {
    assert [Version(TINY, Created, User)] + [Version(BOOTING, Record([NODE]), Pass(0))] == TINY_LOG[..2];
    assert Take(S3, STALE_RUN[3]).logs == S4.logs;
    assert Take(S3, STALE_RUN[3]).jobs == S4.jobs;
    assert Take(S3, STALE_RUN[3]).dropped == S4.dropped;
  }

  lemma Step5()
    ensures CanTake(S4, STALE_RUN[4]) && Take(S4, STALE_RUN[4]) == S5
  {
    assert BOOTING.nodes[0 := Touched(NODE, Ready(0, 0))] == BOOTED.nodes;
    assert Take(S4, STALE_RUN[4]).jobs == S5.jobs;
  }

  lemma Step6()
    ensures CanTake(S5, STALE_RUN[5]) && Take(S5, STALE_RUN[5]) == S6
  {
    assert TINY_LOG[..2] + [Version(BOOTED, Ready(0, 0), Pass(1))] == TINY_LOG;
    assert Take(S5, STALE_RUN[5]).logs == S6.logs;
    assert Take(S5, STALE_RUN[5]).jobs == S6.jobs;
    assert Take(S5, STALE_RUN[5]).dropped == S6.dropped;
  }

  lemma Steps7And8()
    ensures CanTake(S6, STALE_RUN[6]) && Take(S6, STALE_RUN[6]) == S7
    ensures CanTake(S7, STALE_RUN[7]) && Take(S7, STALE_RUN[7]) == S8
  {
    assert Take(S7, STALE_RUN[7]).jobs == S8.jobs;
  }

  lemma SecondHalf()
    ensures Run(S4, STALE_RUN[4..]) && After(S4, STALE_RUN[4..]) == S8
  {
    Step5();
    Step6();
    Steps7And8();
    assert Run(S8, STALE_RUN[8..]) && After(S8, STALE_RUN[8..]) == S8;
    hide CanTake, Take, Run, After;
    Back(S7, S8, 8);
    Back(S6, S7, 7);
    Back(S5, S6, 6);
    Back(S4, S5, 5);
  }

  lemma WholeRun()
    ensures Run(START, STALE_RUN) && After(START, STALE_RUN) == S8
  {
    hide CanTake, Take, Run, After;
    Steps1To3();
    Step4();
    SecondHalf();
    Back(S3, S4, 4);
    Back(S2, S3, 3);
    Back(S1, S2, 2);
    Back(START, S1, 1);
    assert STALE_RUN[0..] == STALE_RUN;
  }

  /** Without a current read the boot-timeout call can go to a live node that its status says is Running. */
  lemma StaleBootTimeoutHitsRunning()
    ensures Run(START, STALE_RUN) && After(START, STALE_RUN) == S8
    ensures S8.jobs[2].phase == Calling && S8.jobs[2].edit.BootDrop? && Target(S8.jobs[2]) == "i"
    ensures S8.cloud["i"].live
    ensures Last(S8.logs["p"]).obj.nodes[0].instanceId == "i" && Last(S8.logs["p"]).obj.nodes[0].state == Running
  {
    hide CanTake, Take, Run, After;
    WholeRun();
  }

  /** From the run's end to the step before: the step leads into the rest of the run. */
  lemma Back(s0: State, s: State, k: nat)
    requires 0 < k <= |STALE_RUN| && CanTake(s0, STALE_RUN[k - 1]) && Take(s0, STALE_RUN[k - 1]) == s
    requires Run(s, STALE_RUN[k..]) && After(s, STALE_RUN[k..]) == S8
    ensures Run(s0, STALE_RUN[k - 1..]) && After(s0, STALE_RUN[k - 1..]) == S8
  {
    hide CanTake, Take;
    assert STALE_RUN[k - 1..][0] == STALE_RUN[k - 1] && STALE_RUN[k - 1..][1..] == STALE_RUN[k..];
  }
}
