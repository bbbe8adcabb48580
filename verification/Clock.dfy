/** The times in the statuses, against the clock at which the passes ran. */
module Clock {
  import opened Api
  import opened PoolEdits
  import opened CommitLog
  import opened Protocol
  import opened ProtocolInvariant
  import opened ProtocolSteps
  import opened Guarantees
  import Refinement

  // ----- Runs, step by step -----

  lemma {:induction false} LastStep(s: State, steps: seq<Step>)
    requires Run(s, steps) && |steps| > 0
    ensures var init, last := steps[..|steps| - 1], steps[|steps| - 1];
      Run(s, init) && CanTake(After(s, init), last) && After(s, steps) == Take(After(s, init), last)
    decreases |steps|
  {
    hide CanTake, Take;
    if |steps| > 1 {
      var rest := steps[1..];
      LastStep(Take(s, steps[0]), rest);
      assert rest[..|rest| - 1] == steps[..|steps| - 1][1..];
    }
  }

  // ----- Where a pass's first edit comes from -----

  /** The edits that a pass can begin with and that carry what it saw. */
  predicate IsFirst(e: Edit) {
    e.Ready? || e.BootDrop? || e.IdleReset? || e.IdleStart? || e.Cordon?
  }

  /** In state `s` the step begins pass `i` on pool `p`, and the edit carries its pods and the time of the state. */
  ghost predicate BeginsAt(s: State, step: Step, i: nat, p: string, e: Edit) {
    && s.next == i
    && match e
       case Ready(j, at) => step.StartReady? && step.p == p && step.j == j && at == s.now
       case BootDrop(j, at) => step.StartBootTimeout? && step.p == p && step.j == j && at == s.now
       case IdleReset(j, pods) => step.StartReaper? && step.p == p && step.j == j && step.pods == pods
       case IdleStart(j, at, pods) => step.StartReaper? && step.p == p && step.j == j && step.pods == pods && at == s.now
       case Cordon(j, at, pods) => step.StartReaper? && step.p == p && step.j == j && step.pods == pods && at == s.now
       case _ => false
  }

  ghost predicate Began(steps: seq<Step>, n: nat, i: nat, p: string, e: Edit) {
    n < |steps| && Run(START, steps[..n]) && BeginsAt(After(START, steps[..n]), steps[n], i, p, e)
  }

  lemma JobFrom(s: State, step: Step, i: nat)
    requires CanTake(s, step) && i in Take(s, step).jobs && IsFirst(Take(s, step).jobs[i].edit)
    ensures var job := Take(s, step).jobs[i];
      || BeginsAt(s, step, i, job.pool, job.edit)
      || (i in s.jobs && s.jobs[i].edit == job.edit && s.jobs[i].pool == job.pool)
  {
    hide Enabled, Apply, Idle, Live, TakenOut, ToLaunch, Append, Edited, Kill;
  }

  lemma VersionFrom(s: State, step: Step, p: string, k: nat)
    requires CanTake(s, step) && p in Take(s, step).logs && k < |Take(s, step).logs[p]|
    requires p in s.logs ==> |s.logs[p]| > 0
    requires IsFirst(Take(s, step).logs[p][k].cause)
    ensures var v := Take(s, step).logs[p][k];
      || (p in s.logs && k < |s.logs[p]| && s.logs[p][k] == v)
      || (v.author.Pass? && v.author.id in s.jobs && s.jobs[v.author.id].edit == v.cause && s.jobs[v.author.id].pool == p)
  {
    hide Enabled, Apply, Idle, Live, TakenOut, ToLaunch, Append, Edited, Kill, ReaperStart;
  }

  lemma BeganBefore(steps: seq<Step>, n: nat, i: nat, p: string, e: Edit)
    requires |steps| > 0 && Began(steps[..|steps| - 1], n, i, p, e)
    ensures Began(steps, n, i, p, e)
  {
    hide Run, After, BeginsAt;
    assert steps[..|steps| - 1][..n] == steps[..n];
  }

  lemma {:induction false} JobBegan(steps: seq<Step>, i: nat) returns (n: nat)
    requires Run(START, steps) && i in After(START, steps).jobs && IsFirst(After(START, steps).jobs[i].edit)
    ensures Began(steps, n, i, After(START, steps).jobs[i].pool, After(START, steps).jobs[i].edit)
    decreases |steps|
  {
    var job := After(START, steps).jobs[i];
    assert steps != [];
    var init, last := steps[..|steps| - 1], steps[|steps| - 1];
    LastStep(START, steps);
    var s := After(START, init);
    JobFrom(s, last, i);
    hide Run, After, Take, CanTake, BeginsAt, IsFirst;
    if BeginsAt(s, last, i, job.pool, job.edit) {
      n := |steps| - 1;
    } else {
      n := JobBegan(init, i);
      BeganBefore(steps, n, i, job.pool, job.edit);
    }
  }

  /** Step `n` of the run began the pass that committed version `k`, and the version's edit carries its time and pods. */
  lemma {:induction false} VersionBegan(steps: seq<Step>, p: string, k: nat) returns (n: nat)
    requires Run(START, steps) && p in After(START, steps).logs && k < |After(START, steps).logs[p]|
    requires IsFirst(After(START, steps).logs[p][k].cause)
    ensures var v := After(START, steps).logs[p][k];
      v.author.Pass? && Began(steps, n, v.author.id, p, v.cause)
    decreases |steps|
  {
    var v := After(START, steps).logs[p][k];
    assert steps != [];
    var init, last := steps[..|steps| - 1], steps[|steps| - 1];
    LastStep(START, steps);
    var s := After(START, init);
    if p in s.logs {
      ReachableLegal(init, p);
    }
    VersionFrom(s, last, p, k);
    hide Run, After, Take, CanTake, Began, IsFirst, Legal;
    if p in s.logs && k < |s.logs[p]| && s.logs[p][k] == v {
      n := VersionBegan(init, p, k);
    } else {
      n := JobBegan(init, v.author.id);
    }
    BeganBefore(steps, n, v.author.id, p, v.cause);
  }

  // ----- What the times mean -----

  /**
   The time and the pods of a committed Ready, IdleReset, IdleStart, Cordon or boot-timeout edit are those of
   the one step of the run that began the pass which committed it.
   */
  lemma TimesAreTheClock(steps: seq<Step>, p: string, k: nat) returns (n: nat)
    requires Run(START, steps) && p in After(START, steps).logs && k < |After(START, steps).logs[p]|
    ensures var v := After(START, steps).logs[p][k];
      v.cause.Ready? || v.cause.BootDrop? || v.cause.IdleReset? || v.cause.IdleStart? || v.cause.Cordon? ==>
        && n < |steps| && Run(START, steps[..n])
        && v.author == Pass(After(START, steps[..n]).next)
        && match v.cause
           case Ready(j, at) => steps[n].StartReady? && steps[n] == StartReady(p, steps[n].v, j) && at == After(START, steps[..n]).now
           case BootDrop(j, at) =>
             steps[n].StartBootTimeout? && steps[n] == StartBootTimeout(p, steps[n].v, j) && at == After(START, steps[..n]).now
           case IdleReset(j, pods) => steps[n].StartReaper? && steps[n] == StartReaper(p, steps[n].v, j, pods)
           case IdleStart(j, at, pods) =>
             steps[n].StartReaper? && steps[n] == StartReaper(p, steps[n].v, j, pods) && at == After(START, steps[..n]).now
           case Cordon(j, at, pods) =>
             steps[n].StartReaper? && steps[n] == StartReaper(p, steps[n].v, j, pods) && at == After(START, steps[..n]).now
  {
    hide Run, After;
    n := 0;
    if IsFirst(After(START, steps).logs[p][k].cause) {
      n := VersionBegan(steps, p, k);
    }
  }

  /** The time at which step `n` was taken. */
  ghost function TimeOf(steps: seq<Step>, n: nat): Time
    requires n <= |steps| && Run(START, steps[..n])
  {
    After(START, steps[..n]).now
  }

  /** Step `n` began the reaper pass that committed version `v` of pool `p`, on a node on which nothing ran. */
  ghost predicate SawIdle(steps: seq<Step>, n: nat, p: string, v: Version) {
    && n < |steps| && Run(START, steps[..n])
    && steps[n].StartReaper? && steps[n].p == p && v.author == Pass(After(START, steps[..n]).next)
    && forall pod | pod in steps[n].pods :: "DaemonSet" in pod.owners || pod.phase == "Succeeded" || pod.phase == "Failed"
  }

  /** The entry that the version's edit is about. */
  predicate About(v: Version, id: string) {
    (v.cause.IdleStart? || v.cause.IdleReset? || v.cause.Cordon?)
    && v.cause.j < |v.obj.nodes| && v.obj.nodes[v.cause.j].instanceId == id
  }

  /**
   A node is committed as Cordoned only if an earlier pass, begun at step `a`, found it idle and recorded that in
   version `m`, the pass begun at step `b` found it idle again, no busy pass has committed in between, and by
   the clock more time has gone by between the two than the pool's cooldown less one second.
   */
  lemma CooldownByTheClock(steps: seq<Step>, p: string, k: nat) returns (m: nat, a: nat, b: nat)
    requires Run(START, steps) && p in After(START, steps).logs && k < |After(START, steps).logs[p]|
    requires After(START, steps).logs[p][k].cause.Cordon?
    ensures var h := After(START, steps).logs[p];
      && m < k && h[k].cause.j < |h[k].obj.nodes|
      && var id := h[k].obj.nodes[h[k].cause.j].instanceId;
      && h[m].cause.IdleStart? && About(h[m], id)
      && SawIdle(steps, a, p, h[m]) && SawIdle(steps, b, p, h[k])
      && (forall i | m < i < k :: !(h[i].cause.IdleReset? && About(h[i], id)))
      && var period := h[k - 1].obj.spec.scaling.cooldownPeriod;
      TimeOf(steps, b) - TimeOf(steps, a) > (if period == 0 then 300_000_000_000 else period) - 1_000_000_000
  {
    var h := After(START, steps).logs[p];
    CooldownBeforeCordon(steps, p, k);
    ReachableLegal(steps, p);
    hide Run, After, Legal, Idle, IdlePeriod;
    LegalStep(h, k);
    CordonKeepsId(h[k - 1].obj, h[k].cause);
    var id := h[k].obj.nodes[h[k].cause.j].instanceId;
    var since: Time;
    m, since := Since(h, k - 1, h[k], id, OrDefault(h[k - 1].obj.spec.scaling.cooldownPeriod));
    a := TimesAreTheClock(steps, p, m);
    b := TimesAreTheClock(steps, p, k);
    IdleMeans(h[m].cause.pods);
    IdleMeans(h[k].cause.pods);
  }

  lemma CordonKeepsId(o: Pool, e: Edit)
    requires Enabled(o, e) && e.Cordon?
    ensures e.j < |Apply(o, e).nodes| && Apply(o, e).nodes[e.j].instanceId == o.nodes[e.j].instanceId
  {
  }

  lemma IdleMeans(pods: seq<Pod>)
    ensures Idle(pods) ==> forall pod | pod in pods ::
      "DaemonSet" in pod.owners || pod.phase == "Succeeded" || pod.phase == "Failed"
  {
  }

  lemma Since(h: Log, k: nat, v: Version, id: string, cooldown: int) returns (m: nat, t: Time)
    requires k < |h| && v.cause.Cordon? && CooldownOver(h, k, v, id, cooldown)
    ensures m <= k && h[m].cause.IdleStart? && About(h[m], id) && Idle(h[m].cause.pods)
    ensures forall i | m < i <= k :: !(h[i].cause.IdleReset? && About(h[i], id))
    ensures v.cause.at - h[m].cause.at > cooldown - 1_000_000_000
  {
    hide Idle;
    m, t :| IdlePeriod(h, m, k, id, t) && v.cause.at - t >= cooldown && v.cause.at - h[m].cause.at > cooldown - SECOND;
    forall i | m < i <= k
      ensures !(h[i].cause.IdleReset? && About(h[i], id))
    {
      assert !Resets(h[i], id);
    }
  }

  // ----- Launch times and the boot timeout -----

  /** The entry carries, with whole seconds, the time at which its instance was launched. */
  ghost predicate IsDated(cloud: Cloud, x: Entry) {
    && x.instanceId in cloud
    && x.launchedAt <= cloud[x.instanceId].launchedAt < x.launchedAt + 1_000_000_000
  }

  ghost predicate Dated(cloud: Cloud, xs: seq<Entry>) {
    forall k | 0 <= k < |xs| :: IsDated(cloud, xs[k])
  }

  ghost predicate JobsDated(cloud: Cloud, jobs: Jobs) {
    forall i | i in jobs && jobs[i].edit.Record? :: Dated(cloud, jobs[i].edit.entries)
  }

  ghost predicate LogsDated(cloud: Cloud, logs: Logs) {
    forall p, k | p in logs && 0 <= k < |logs[p]| && logs[p][k].cause.Record? :: Dated(cloud, logs[p][k].cause.entries)
  }

  /** Instances stay, with their launch times. */
  ghost predicate Remains(cloud: Cloud, cloud': Cloud) {
    forall id | id in cloud :: id in cloud' && cloud'[id].launchedAt == cloud[id].launchedAt
  }

  lemma StepRemains(s: State, step: Step)
    requires CanTake(s, step)
    ensures Remains(s.cloud, Take(s, step).cloud)
  {
    hide Enabled, Apply, Idle, Live, TakenOut, ToLaunch, Append, Edited, ReaperStart;
  }

  /** A step adds at most one entry to what a pass has launched, and dates it. */
  lemma StepDatesJob(s: State, step: Step, i: nat)
    requires CanTake(s, step) && JobsDated(s.cloud, s.jobs)
    requires i in Take(s, step).jobs && Take(s, step).jobs[i].edit.Record?
    ensures Dated(Take(s, step).cloud, Take(s, step).jobs[i].edit.entries)
  {
    StepRemains(s, step);
    RecordJobFrom(s, step, i);
    hide Take, CanTake;
    var job := Take(s, step).jobs[i];
    if job.edit != Record([]) {
      assert Dated(s.cloud, s.jobs[i].edit.entries);
    }
  }

  lemma RecordJobFrom(s: State, step: Step, i: nat)
    requires CanTake(s, step) && i in Take(s, step).jobs && Take(s, step).jobs[i].edit.Record?
    ensures var xs := Take(s, step).jobs[i].edit.entries;
      || xs == []
      || (i in s.jobs && s.jobs[i].edit == Record(xs))
      || (i in s.jobs && s.jobs[i].edit.Record? && step.LaunchOk?
          && |xs| > 0 && xs[..|xs| - 1] == s.jobs[i].edit.entries && IsDated(Take(s, step).cloud, xs[|xs| - 1]))
  {
    hide Enabled, Apply, Idle, Live, TakenOut, ToLaunch, Append, Edited, ReaperStart, Kill;
    if step.LaunchOk? && step.i == i {
      var xs := s.jobs[i].edit.entries;
      assert forall x: Entry :: (xs + [x])[..|xs|] == xs;
    }
  }

  lemma StepDatesLogs(s: State, step: Step)
    requires CanTake(s, step) && JobsDated(s.cloud, s.jobs) && LogsDated(s.cloud, s.logs)
    requires forall p | p in s.logs :: |s.logs[p]| > 0
    ensures LogsDated(Take(s, step).cloud, Take(s, step).logs)
  {
    StepRemains(s, step);
    var s' := Take(s, step);
    forall p, k | p in s'.logs && 0 <= k < |s'.logs[p]| && s'.logs[p][k].cause.Record?
      ensures Dated(s'.cloud, s'.logs[p][k].cause.entries)
    {
      RecordFrom(s, step, p, k);
    }
  }

  lemma RecordFrom(s: State, step: Step, p: string, k: nat)
    requires CanTake(s, step) && p in Take(s, step).logs && k < |Take(s, step).logs[p]|
    requires p in s.logs ==> |s.logs[p]| > 0
    requires Take(s, step).logs[p][k].cause.Record?
    ensures var v := Take(s, step).logs[p][k];
      || (p in s.logs && k < |s.logs[p]| && s.logs[p][k] == v)
      || (v.author.Pass? && v.author.id in s.jobs && s.jobs[v.author.id].edit == v.cause)
  {
    hide Enabled, Apply, Idle, Live, TakenOut, ToLaunch, Append, Edited, Kill, ReaperStart;
  }

  lemma {:induction false} RunDates(steps: seq<Step>)
    requires Run(START, steps)
    ensures JobsDated(After(START, steps).cloud, After(START, steps).jobs)
    ensures LogsDated(After(START, steps).cloud, After(START, steps).logs)
    decreases |steps|
  {
    if steps != [] {
      var init, last := steps[..|steps| - 1], steps[|steps| - 1];
      LastStep(START, steps);
      RunDates(init);
      var s := After(START, init);
      forall p | p in s.logs
        ensures |s.logs[p]| > 0
      {
        ReachableLegal(init, p);
      }
      hide Run, After, Take, CanTake, Legal, JobsDated, LogsDated;
      StepDatesLogs(s, last);
      StepDatesJobs(s, last);
    }
  }

  lemma StepDatesJobs(s: State, step: Step)
    requires CanTake(s, step) && JobsDated(s.cloud, s.jobs)
    ensures JobsDated(Take(s, step).cloud, Take(s, step).jobs)
  {
    forall i | i in Take(s, step).jobs && Take(s, step).jobs[i].edit.Record?
      ensures Dated(Take(s, step).cloud, Take(s, step).jobs[i].edit.entries)
    {
      StepDatesJob(s, step, i);
    }
  }

  /** Every entry goes back to one that was recorded, with its launch time. */
  lemma {:induction false} EntryDated(h: Log, cloud: Cloud, k: nat, j: nat)
    requires Legal(h) && k < |h| && j < |h[k].obj.nodes|
    requires forall i | 0 <= i <= k && h[i].cause.Record? :: Dated(cloud, h[i].cause.entries)
    ensures IsDated(cloud, h[k].obj.nodes[j])
    decreases k
  {
    LegalPrefix(h, 0);
    hide Enabled, Apply, Legal;
    if k > 0 {
      LegalStep(h, k);
      EditForward(h[k - 1].obj, h[k].cause, j);
      match Origin(h[k - 1].obj, h[k].cause, j)
      case Some(i) => EntryDated(h, cloud, k - 1, i);
      case None => assert Dated(cloud, h[k].cause.entries);
    }
  }

  /** In every committed status, each entry's launch time is that of its instance, with whole seconds. */
  lemma LaunchTimesAreTheClock(steps: seq<Step>, p: string, k: nat, j: nat)
    requires Run(START, steps) && p in After(START, steps).logs && k < |After(START, steps).logs[p]|
    requires j < |After(START, steps).logs[p][k].obj.nodes|
    ensures var s := After(START, steps); var x := s.logs[p][k].obj.nodes[j];
      && x.instanceId in s.cloud
      && x.launchedAt <= s.cloud[x.instanceId].launchedAt < x.launchedAt + 1_000_000_000
  {
    var s := After(START, steps);
    RunDates(steps);
    ReachableLegal(steps, p);
    hide Run, After, Legal;
    EntryDated(s.logs[p], s.cloud, k, j);
  }

  /**
   A boot-timeout pass terminates an instance only if, by the clock at which the pass began, more time has gone
   by since its launch than the boot timeout less one second. The timeout is that of the pool as it was read.
   */
  lemma BootTimeoutByTheClock(steps: seq<Step>, i: nat) returns (n: nat)
    requires Run(START, steps) && i in After(START, steps).jobs
    requires var job := After(START, steps).jobs[i]; job.phase == Calling && job.edit.BootDrop?
    ensures var s := After(START, steps); var id := Target(s.jobs[i]);
      && n < |steps| && Run(START, steps[..n]) && After(START, steps[..n]).next == i
      && steps[n].StartBootTimeout? && steps[n].p == s.jobs[i].pool
      && id in s.cloud
      && var period := s.jobs[i].copy.spec.scaling.bootTimeout;
      TimeOf(steps, n) - s.cloud[id].launchedAt > (if period == 0 then 300_000_000_000 else period) - 1_000_000_000
  {
    var s := After(START, steps);
    var job := s.jobs[i];
    n := JobBegan(steps, i);
    ReachableInv(steps);
    CallReads(s, i);
    LaunchTimesAreTheClock(steps, job.pool, job.ver, job.edit.j);
  }

  /** The call is decided on the pool that was read. */
  lemma CallReads(s: State, i: nat)
    requires Inv(s) && i in s.jobs && s.jobs[i].phase == Calling && s.jobs[i].edit.BootDrop?
    ensures var job := s.jobs[i];
      && job.pool in s.logs && job.ver < |s.logs[job.pool]|
      && var o := s.logs[job.pool][job.ver].obj;
      && job.copy == o && job.edit.j < |o.nodes| && o.nodes[job.edit.j].instanceId == Target(job)
      && job.edit.at - o.nodes[job.edit.j].launchedAt > OrDefault(o.spec.scaling.bootTimeout)
  {
    hide Inv, Apply;
    Refinement.Based(s, i);
  }

  /** An instance's launch time is that of the one step that launched it. */
  lemma {:induction false} LaunchedAtStep(steps: seq<Step>, id: string) returns (n: nat)
    requires Run(START, steps) && id in After(START, steps).cloud
    ensures n < |steps| && Run(START, steps[..n])
    ensures
      || (steps[n].LaunchOk? && steps[n].id == id)
      || (steps[n].LaunchUnreported? && steps[n].id == id)
    ensures TimeOf(steps, n) == After(START, steps).cloud[id].launchedAt
    decreases |steps|
  {
    assert steps != [];
    var init, last := steps[..|steps| - 1], steps[|steps| - 1];
    LastStep(START, steps);
    LaunchFrom(After(START, init), last, id);
    hide Run, After, Take, CanTake;
    if id in After(START, init).cloud {
      n := LaunchedAtStep(init, id);
      assert init[..n] == steps[..n];
    } else {
      n := |steps| - 1;
    }
  }

  lemma LaunchFrom(s: State, step: Step, id: string)
    requires CanTake(s, step) && id in Take(s, step).cloud
    ensures if id in s.cloud then Take(s, step).cloud[id].launchedAt == s.cloud[id].launchedAt
      else ((step.LaunchOk? && step.id == id) || (step.LaunchUnreported? && step.id == id))
           && Take(s, step).cloud[id].launchedAt == s.now
  {
    hide Enabled, Apply, Idle, Live, TakenOut, ToLaunch, Append, Edited, ReaperStart;
  }
}
