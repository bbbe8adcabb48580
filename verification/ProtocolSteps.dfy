/** Every step of the protocol keeps the invariant. */
module ProtocolSteps {
  import opened Api
  import opened PoolEdits
  import opened CommitLog
  import opened Protocol
  import opened ProtocolInvariant
  import Batch

  lemma InvFrom(s: State)
    requires Chained(s.logs, s.jobs, s.requests)
    requires Identified(s.logs, s.cloud, s.jobs, s.next)
    requires Accounted(s.logs, s.cloud, s.jobs, s.lost, s.dropped)
    ensures Inv(s)
  {
  }

  lemma InvParts(s: State)
    requires Inv(s)
    ensures Chained(s.logs, s.jobs, s.requests)
    ensures Identified(s.logs, s.cloud, s.jobs, s.next)
    ensures Accounted(s.logs, s.cloud, s.jobs, s.lost, s.dropped)
  {
  }

  // ----- Changing one pass -----

  lemma SetJobOk(logs: Logs, jobs: Jobs, i: nat, job: Job)
    requires JobsOk(logs, jobs) && job.pool in logs && JobOk(logs[job.pool], i, job)
    ensures JobsOk(logs, jobs[i := job])
  {
  }

  lemma SetJobHeld(logs: Logs, cloud: Cloud, jobs: Jobs, gone: set<string>, i: nat, job: Job)
    requires HeldOk(logs, cloud, jobs, gone) && (job.edit.Record? ==> HeldBy(logs, cloud, gone, i, job))
    ensures HeldOk(logs, cloud, jobs[i := job], gone)
  {
  }

  lemma SetJobLive(logs: Logs, cloud: Cloud, jobs: Jobs, gone: set<string>, i: nat, job: Job)
    requires LiveOk(logs, cloud, jobs, gone)
    requires forall id | Holds(jobs, i, id) :: Holds(jobs[i := job], i, id)
    ensures LiveOk(logs, cloud, jobs[i := job], gone)
  {
  }

  // ----- Starting a pass -----

  lemma BeginAccounted(s: State, job: Job)
    requires Inv(s) && (job.edit.Record? ==> job.edit.entries == [])
    ensures Accounted(s.logs, s.cloud, s.jobs[s.next := job], s.lost, s.dropped)
  {
    SetJobHeld(s.logs, s.cloud, s.jobs, s.lost + s.dropped, s.next, job);
    SetJobLive(s.logs, s.cloud, s.jobs, s.lost + s.dropped, s.next, job);
  }

  lemma BeginIdentified(s: State, job: Job)
    requires Inv(s) && !job.edit.Remove?
    ensures Identified(s.logs, s.cloud, s.jobs[s.next := job], s.next + 1)
  {
  }

  lemma BeginChained(s: State, job: Job)
    requires Inv(s) && JobsOk(s.logs, s.jobs[s.next := job]) && !job.edit.Remove?
    ensures Chained(s.logs, s.jobs[s.next := job], s.requests)
  {
  }

  lemma BeginKeeps(s: State, job: Job)
    requires Inv(s) && job.pool in s.logs && JobOk(s.logs[job.pool], s.next, job)
    requires !job.edit.Remove? && (job.edit.Record? ==> job.edit.entries == [])
    ensures Inv(Begin(s, job))
  {
    SetJobOk(s.logs, s.jobs, s.next, job);
    BeginChained(s, job);
    BeginIdentified(s, job);
    BeginAccounted(s, job);
  }

  lemma StartKeeps(s: State, p: string, v: nat, e: Edit)
    requires Inv(s) && HasVersion(s, p, v)
    requires Enabled(s.logs[p][v].obj, e) && (e.Ready? || e.IdleReset? || e.IdleStart? || e.Cordon? || e.OrphanDrop?)
    ensures Inv(Begin(s, StartEdit(s, p, v, e)))
  {
    BeginKeeps(s, StartEdit(s, p, v, e));
  }

  lemma ProvisionBasedOn(v: Version, i: nat, p: string, ver: nat, batch: seq<Pod>, cap: Batch.Capacity)
    requires ToLaunch(v.obj, batch, cap) > 0
    ensures BasedOn(v, i, Job(p, ver, v.obj, Record([]), Launching(ToLaunch(v.obj, batch, cap))))
  {
    assert v.obj.nodes + [] == v.obj.nodes;
  }

  lemma StartProvisionKeeps(s: State, step: Step)
    requires Inv(s) && step.StartProvision? && CanTake(s, step)
    ensures Inv(Take(s, step))
  {
    var v := s.logs[step.p][step.v];
    var job := Job(step.p, step.v, v.obj, Record([]), Launching(ToLaunch(v.obj, step.batch, step.cap)));
    ProvisionBasedOn(v, s.next, step.p, step.v, step.batch, step.cap);
    hide BasedOn, Inv;
    BeginKeeps(s, job);
  }

  lemma StartBootTimeoutKeeps(s: State, step: Step)
    requires Inv(s) && step.StartBootTimeout? && CanTake(s, step)
    ensures Inv(Take(s, step))
  {
    BeginKeeps(s, Job(step.p, step.v, s.logs[step.p][step.v].obj, BootDrop(step.j, s.now), Calling));
  }

  // ----- Longer logs -----

  /** Versions are only ever added at the end. */
  ghost predicate Extends(logs: Logs, logs': Logs) {
    forall p | p in logs :: p in logs' && logs[p] <= logs'[p]
  }

  lemma JobsExtend(logs: Logs, logs': Logs, jobs: Jobs)
    requires JobsOk(logs, jobs) && Extends(logs, logs')
    ensures JobsOk(logs', jobs)
  {
    hide BasedOn;
    forall i | i in jobs
      ensures jobs[i].pool in logs' && JobOk(logs'[jobs[i].pool], i, jobs[i])
    {
      assert JobOk(logs[jobs[i].pool], i, jobs[i]);
    }
  }

  lemma RequestsExtend(logs: Logs, logs': Logs, requests: seq<Request>)
    requires RequestsOk(logs, requests) && Extends(logs, logs')
    ensures RequestsOk(logs', requests)
  {
    hide Marks;
  }

  lemma DeadExtend(logs: Logs, logs': Logs, cloud: Cloud, jobs: Jobs)
    requires JobsOk(logs, jobs) && DeadOk(logs, cloud, jobs) && Extends(logs, logs')
    ensures DeadOk(logs', cloud, jobs)
  {
    hide BasedOn;
    forall i | i in jobs && jobs[i].edit.Remove? && jobs[i].phase == Writing
      ensures jobs[i].pool in logs && TakenOut(logs'[jobs[i].pool], jobs[i]) == TakenOut(logs[jobs[i].pool], jobs[i])
    {
      assert JobOk(logs[jobs[i].pool], i, jobs[i]);
    }
  }

  lemma ExtendIdentified(s: State, logs': Logs)
    requires Inv(s) && Extends(s.logs, logs')
    ensures Identified(logs', s.cloud, s.jobs, s.next)
  {
    DeadExtend(s.logs, logs', s.cloud, s.jobs);
  }

  lemma ExtendChained(s: State, logs': Logs)
    requires Inv(s) && Extends(s.logs, logs') && LogsOk(logs')
    ensures Chained(logs', s.jobs, s.requests)
  {
    hide LogsOk, Legal;
    JobsExtend(s.logs, logs', s.jobs);
    RequestsExtend(s.logs, logs', s.requests);
  }

  // ----- A new pool -----

  lemma CreateHeld(logs: Logs, cloud: Cloud, jobs: Jobs, gone: set<string>, p: string, h: Log)
    requires p !in logs && JobsOk(logs, jobs) && HeldOk(logs, cloud, jobs, gone)
    ensures HeldOk(logs[p := h], cloud, jobs, gone)
  {
    hide JobOk, LaunchedBy;
    forall i | i in jobs && jobs[i].edit.Record?
      ensures HeldBy(logs[p := h], cloud, gone, i, jobs[i])
    {
      assert jobs[i].pool in logs;
    }
  }

  lemma CreateLive(logs: Logs, cloud: Cloud, jobs: Jobs, lost: set<string>, dropped: set<string>, p: string, h: Log)
    requires p !in logs && PoolsKnown(logs, cloud)
    requires LiveOk(logs, cloud, jobs, lost + dropped) && GoneOk(logs, cloud, lost, dropped)
    ensures LiveOk(logs[p := h], cloud, jobs, lost + dropped) && GoneOk(logs[p := h], cloud, lost, dropped)
  {
  }

  lemma CreateAccounted(s: State, p: string, h: Log)
    requires Inv(s) && p !in s.logs && EverIds(h) == {} && EverNames(h) == {}
    ensures Accounted(s.logs[p := h], s.cloud, s.jobs, s.lost, s.dropped)
  {
    hide LiveOk, GoneOk, HeldOk;
    CreateHeld(s.logs, s.cloud, s.jobs, s.lost + s.dropped, p, h);
    CreateLive(s.logs, s.cloud, s.jobs, s.lost, s.dropped, p, h);
  }

  lemma CreateKeeps(s: State, step: Step)
    requires Inv(s) && step.CreatePool? && CanTake(s, step)
    ensures Inv(Take(s, step))
  {
    var h := [Version(step.obj, Created, User)];
    assert EverIds(h) == {} && EverNames(h) == {} by {
      assert Init(h) == [];
    }
    CreateAccounted(s, step.p, h);
    ExtendChained(s, s.logs[step.p := h]);
    ExtendIdentified(s, s.logs[step.p := h]);
  }

  // ----- One more version -----

  lemma GrowExtends(logs: Logs, p: string, v: Version)
    requires p in logs
    ensures Extends(logs, logs[p := logs[p] + [v]])
  {
  }

  /** Adding a version that `i` (or the user) was entitled to add. */
  lemma GrowLogs(logs: Logs, p: string, v: Version)
    requires LogsOk(logs) && p in logs && LegalNext(logs[p], v)
    ensures LogsOk(logs[p := logs[p] + [v]]) && Extends(logs, logs[p := logs[p] + [v]])
  {
    LegalAppend(logs[p], v);
  }

  // ----- Held instances are nobody else's -----

  lemma HeldNotRecorded(logs: Logs, cloud: Cloud, jobs: Jobs, gone: set<string>, lost: set<string>, i: nat, p: string)
    requires HeldOk(logs, cloud, jobs, gone) && RecordedOk(logs, cloud, lost)
    requires i in jobs && jobs[i].edit.Record? && p in logs
    ensures Ids(jobs[i].edit.entries) !! EverIds(logs[p])
  {
    var xs := jobs[i].edit.entries;
    forall id | id in Ids(xs)
      ensures id !in EverIds(logs[p])
    {
      var k := IdOfSome(xs, id);
      assert LaunchedBy(cloud, i, jobs[i].pool, xs[k]);
    }
  }

  /** What a pass holds can be recorded in its pool. */
  lemma HeldFacts(logs: Logs, cloud: Cloud, gone: set<string>, i: nat, job: Job)
    requires job.edit.Record? && HeldBy(logs, cloud, gone, i, job)
    ensures Ids(job.edit.entries) <= cloud.Keys
    ensures forall id | id in Ids(job.edit.entries) ::
      cloud[id].pool == job.pool && cloud[id].reported && cloud[id].launcher == i
    ensures Names(job.edit.entries) <= NamesOf(cloud, Ids(job.edit.entries))
  {
    var xs := job.edit.entries;
    forall id | id in Ids(xs)
      ensures id in cloud && cloud[id].pool == job.pool && cloud[id].reported && cloud[id].launcher == i
    {
      var k := IdOfSome(xs, id);
      assert LaunchedBy(cloud, i, job.pool, xs[k]);
    }
    forall n | n in Names(xs)
      ensures n in NamesOf(cloud, Ids(xs))
    {
      var k :| 0 <= k < |xs| && NameSeq(xs)[k] == n;
      assert LaunchedBy(cloud, i, job.pool, xs[k]);
      EntryInSets(xs, k);
    }
  }

  lemma HeldByOne(logs: Logs, cloud: Cloud, jobs: Jobs, gone: set<string>, i: nat, k: nat)
    requires HeldOk(logs, cloud, jobs, gone) && i != k
    requires i in jobs && jobs[i].edit.Record? && k in jobs && jobs[k].edit.Record?
    ensures Ids(jobs[i].edit.entries) !! Ids(jobs[k].edit.entries)
  {
    HeldFacts(logs, cloud, gone, i, jobs[i]);
    HeldFacts(logs, cloud, gone, k, jobs[k]);
  }

  lemma HeldIsFresh(logs: Logs, cloud: Cloud, gone: set<string>, lost: set<string>, i: nat, job: Job)
    requires job.edit.Record? && job.pool in logs && HeldBy(logs, cloud, gone, i, job)
    requires NamesUnique(cloud) && RecordedIn(logs[job.pool], cloud, lost, job.pool)
    ensures Fresh(logs[job.pool], job.edit.entries)
  {
    HeldFacts(logs, cloud, gone, i, job);
    assert forall n | n in Names(job.edit.entries) :: n in NamesOf(cloud, Ids(job.edit.entries));
    assert forall n | n in EverNames(logs[job.pool]) :: n in NamesOf(cloud, EverIds(logs[job.pool]));
  }

  // ----- One more version, for the accounts -----

  /** Passes other than `i` hold what they held. */
  ghost predicate SameHolders(jobs: Jobs, jobs': Jobs, i: nat) {
    && (forall k | k in jobs' && jobs'[k].edit.Record? :: k != i && k in jobs && jobs[k] == jobs'[k])
    && (forall k | k in jobs && jobs[k].edit.Record? && k != i :: k in jobs' && jobs'[k] == jobs[k])
  }

  lemma GrowHeld(logs: Logs, cloud: Cloud, jobs: Jobs, lost: set<string>, dropped: set<string>,
                 p: string, v: Version, i: nat, jobs': Jobs, dropped': set<string>)
    requires HeldOk(logs, cloud, jobs, lost + dropped) && RecordedOk(logs, cloud, lost)
    requires p in logs && SameHolders(jobs, jobs', i)
    requires v.cause.Record? ==> i in jobs && jobs[i].edit == v.cause
    requires EverIds(logs[p] + [v]) == EverIds(logs[p]) + NewIds(v.cause)
    requires dropped' <= dropped + EverIds(logs[p])
    ensures HeldOk(logs[p := logs[p] + [v]], cloud, jobs', lost + dropped')
  {
    hide LaunchedBy;
    forall k | k in jobs' && jobs'[k].edit.Record?
      ensures HeldBy(logs[p := logs[p] + [v]], cloud, lost + dropped', k, jobs'[k])
    {
      assert HeldBy(logs, cloud, lost + dropped, k, jobs[k]);
      HeldNotRecorded(logs, cloud, jobs, lost + dropped, lost, k, p);
      if v.cause.Record? {
        HeldByOne(logs, cloud, jobs, lost + dropped, k, i);
      }
    }
  }

  lemma GrowRecorded(logs: Logs, cloud: Cloud, lost: set<string>, p: string, v: Version)
    requires RecordedOk(logs, cloud, lost) && p in logs
    requires EverIds(logs[p] + [v]) == EverIds(logs[p]) + NewIds(v.cause)
    requires EverNames(logs[p] + [v]) == EverNames(logs[p]) + NewNames(v.cause)
    requires NewIds(v.cause) <= cloud.Keys && NewIds(v.cause) !! lost
    requires forall id | id in NewIds(v.cause) :: cloud[id].pool == p && cloud[id].reported
    requires NewNames(v.cause) <= NamesOf(cloud, NewIds(v.cause))
    ensures RecordedOk(logs[p := logs[p] + [v]], cloud, lost)
  {
    assert RecordedIn(logs[p], cloud, lost, p);
    assert RecordedIn(logs[p] + [v], cloud, lost, p);
  }

  lemma GrowLive(logs: Logs, cloud: Cloud, jobs: Jobs, lost: set<string>, dropped: set<string>,
                 p: string, v: Version, jobs': Jobs, dropped': set<string>)
    requires LiveOk(logs, cloud, jobs, lost + dropped) && p in logs
    requires forall k, id | Holds(jobs, k, id) :: Holds(jobs', k, id) || id in NewIds(v.cause)
    requires forall id | id in NewIds(v.cause) :: id in cloud && cloud[id].pool == p
    requires forall id | id in CurrentIds(logs, p) && id in cloud && cloud[id].live :: id in Ids(v.obj.nodes) || id in dropped'
    requires NewIds(v.cause) <= Ids(v.obj.nodes)
    requires dropped <= dropped'
    ensures LiveOk(logs[p := logs[p] + [v]], cloud, jobs', lost + dropped')
  {
  }

  lemma GrowGone(logs: Logs, cloud: Cloud, lost: set<string>, dropped: set<string>,
                 p: string, v: Version, dropped': set<string>)
    requires GoneOk(logs, cloud, lost, dropped) && RecordedOk(logs, cloud, lost) && p in logs && |logs[p]| > 0
    requires EverIds(logs[p] + [v]) == EverIds(logs[p]) + NewIds(v.cause)
    requires Ids(v.obj.nodes) <= CurrentIds(logs, p) + NewIds(v.cause)
    requires NewIds(v.cause) !! dropped
    requires forall id | id in dropped' && id !in dropped :: id in EverIds(logs[p]) && id !in Ids(v.obj.nodes)
    ensures GoneOk(logs[p := logs[p] + [v]], cloud, lost, dropped')
  {
    assert RecordedIn(logs[p], cloud, lost, p);
  }

  // ----- Taking a pass away -----

  lemma RemoveJob(s: State, i: nat)
    requires Inv(s)
    ensures Chained(s.logs, s.jobs - {i}, s.requests)
    ensures Identified(s.logs, s.cloud, s.jobs - {i}, s.next)
  {
    hide JobOk, LogsOk;
  }

  lemma AbandonHeld(logs: Logs, cloud: Cloud, jobs: Jobs, lost: set<string>, dropped: set<string>, i: nat)
    requires HeldOk(logs, cloud, jobs, lost + dropped) && i in jobs
    ensures HeldOk(logs, cloud, jobs - {i}, lost + Launched(jobs[i]) + dropped)
  {
    hide LaunchedBy;
    forall k | k in jobs && k != i && jobs[k].edit.Record?
      ensures HeldBy(logs, cloud, lost + Launched(jobs[i]) + dropped, k, jobs[k])
    {
      if jobs[i].edit.Record? {
        HeldByOne(logs, cloud, jobs, lost + dropped, k, i);
      }
    }
  }

  lemma AbandonRecorded(logs: Logs, cloud: Cloud, jobs: Jobs, lost: set<string>, dropped: set<string>, i: nat)
    requires HeldOk(logs, cloud, jobs, lost + dropped) && RecordedOk(logs, cloud, lost) && i in jobs
    ensures RecordedOk(logs, cloud, lost + Launched(jobs[i]))
    ensures Launched(jobs[i]) <= cloud.Keys
  {
    if jobs[i].edit.Record? {
      HeldFacts(logs, cloud, lost + dropped, i, jobs[i]);
    }
    forall p | p in logs
      ensures RecordedIn(logs[p], cloud, lost + Launched(jobs[i]), p)
    {
      if jobs[i].edit.Record? {
        HeldNotRecorded(logs, cloud, jobs, lost + dropped, lost, i, p);
      }
    }
  }

  lemma AbandonLive(logs: Logs, cloud: Cloud, jobs: Jobs, lost: set<string>, dropped: set<string>, i: nat)
    requires LiveOk(logs, cloud, jobs, lost + dropped) && i in jobs
    ensures LiveOk(logs, cloud, jobs - {i}, lost + Launched(jobs[i]) + dropped)
  {
  }

  lemma AbandonAccounted(s: State, i: nat)
    requires Inv(s) && i in s.jobs
    ensures Accounted(s.logs, s.cloud, s.jobs - {i}, s.lost + Launched(s.jobs[i]), s.dropped)
  {
    hide HeldOk, RecordedOk, LiveOk, Launched;
    AbandonHeld(s.logs, s.cloud, s.jobs, s.lost, s.dropped, i);
    AbandonRecorded(s.logs, s.cloud, s.jobs, s.lost, s.dropped, i);
    AbandonLive(s.logs, s.cloud, s.jobs, s.lost, s.dropped, i);
  }

  lemma AbandonKeeps(s: State, i: nat)
    requires Inv(s) && i in s.jobs
    ensures Inv(Abandon(s, i))
  {
    RemoveJob(s, i);
    AbandonAccounted(s, i);
  }

  // ----- A committed write -----

  lemma CommitLegal(s: State, i: nat)
    requires Inv(s) && i in s.jobs && CanWrite(s.jobs[i]) && IsCurrent(s, s.jobs[i])
    ensures BasedOn(Last(s.logs[s.jobs[i].pool]), i, s.jobs[i])
    ensures LegalNext(s.logs[s.jobs[i].pool], Version(s.jobs[i].copy, s.jobs[i].edit, Pass(i)))
  {
    var job := s.jobs[i];
    assert JobOk(s.logs[job.pool], i, job);
    if job.edit.Record? {
      HeldIsFresh(s.logs, s.cloud, s.lost + s.dropped, s.lost, i, job);
    }
  }

  /** How one more version of pool `p`, by a pass that holds what it records, changes the identities. */
  ghost predicate Growth(h: Log, cloud: Cloud, gone: set<string>, p: string, v: Version)
    requires |h| > 0
  {
    && EverIds(h + [v]) == EverIds(h) + NewIds(v.cause)
    && EverNames(h + [v]) == EverNames(h) + NewNames(v.cause)
    && Ids(v.obj.nodes) == Ids(Last(h).obj.nodes) - TakenIds(Last(h).obj, v.cause) + NewIds(v.cause)
    && TakenIds(Last(h).obj, v.cause) <= Ids(Last(h).obj.nodes) <= EverIds(h)
    && NewIds(v.cause) <= cloud.Keys
    && NewIds(v.cause) !! gone
    && (forall id | id in NewIds(v.cause) :: cloud[id].pool == p && cloud[id].reported)
    && NewNames(v.cause) <= NamesOf(cloud, NewIds(v.cause))
    && (v.cause.Record? ==> TakenIds(Last(h).obj, v.cause) == {})
  }

  lemma CommitGrowth(s: State, i: nat, v: Version)
    requires Inv(s) && i in s.jobs && s.jobs[i].pool in s.logs && |s.logs[s.jobs[i].pool]| > 0
    requires v.cause == s.jobs[i].edit && LegalNext(s.logs[s.jobs[i].pool], v)
    ensures Growth(s.logs[s.jobs[i].pool], s.cloud, s.lost + s.dropped, s.jobs[i].pool, v)
  {
    hide Chained, Identified, LiveOk, RecordedOk, GoneOk, LegalNext, Enabled, Apply, LaunchedBy;
    var h := s.logs[s.jobs[i].pool];
    assert Legal(h) by { ChainedLogs(s, s.jobs[i].pool); }
    hide Legal;
    AppendIdentity(h, v);
    if v.cause.Record? {
      HeldFacts(s.logs, s.cloud, s.lost + s.dropped, i, s.jobs[i]);
    } else if v.cause.Drops() && v.cause.j < |Last(h).obj.nodes| {
      EntryInSets(Last(h).obj.nodes, v.cause.j);
    }
  }

  /** The accounts after one committed version by pass `i`, which then holds nothing. */
  lemma CommitAccounted(logs: Logs, cloud: Cloud, jobs: Jobs, lost: set<string>, dropped: set<string>,
                        i: nat, p: string, v: Version, jobs': Jobs, dropped': set<string>)
    requires Accounted(logs, cloud, jobs, lost, dropped)
    requires p in logs && |logs[p]| > 0 && Growth(logs[p], cloud, lost + dropped, p, v)
    requires v.cause.Record? ==> i in jobs
    requires i in jobs ==> v.cause == jobs[i].edit
    requires SameHolders(jobs, jobs', i)
    requires dropped' == dropped + set id | id in TakenIds(Last(logs[p]).obj, v.cause) && id in cloud && cloud[id].live
    ensures Accounted(logs[p := logs[p] + [v]], cloud, jobs', lost, dropped')
  {
    assert forall k, id | Holds(jobs, k, id) :: Holds(jobs', k, id) || id in NewIds(v.cause);
    hide HeldOk, RecordedOk, LiveOk, GoneOk, SameHolders, Holds, TakenIds, NewIds, NewNames, EverIds, EverNames, Ids, NamesOf;
    GrowHeld(logs, cloud, jobs, lost, dropped, p, v, i, jobs', dropped');
    GrowRecorded(logs, cloud, lost, p, v);
    GrowLive(logs, cloud, jobs, lost, dropped, p, v, jobs', dropped');
    GrowGone(logs, cloud, lost, dropped, p, v, dropped');
  }

  /** The pass's next job starts from the version it has just written. */
  lemma NextJobBasedOn(base: Version, v: Version, i: nat, job: Job, ver: nat)
    requires BasedOn(base, i, job) && job.phase == Writing && v == Version(job.copy, job.edit, Pass(i))
    requires NextEdit(job.edit).Some?
    ensures BasedOn(v, i, NextJob(job, NextEdit(job.edit).value, ver))
  {
    NextEditEnabled(base.obj, job.edit);
  }

  ghost predicate Unasked(requests: seq<Request>, p: string, ver: nat) {
    forall k | 0 <= k < |requests| :: !SameTarget(requests[k], p, ver)
  }

  lemma UnaskedNext(logs: Logs, requests: seq<Request>, p: string)
    requires RequestsOk(logs, requests) && p in logs
    ensures Unasked(requests, p, |logs[p]|)
  {
    hide Marks;
  }

  lemma ChainedSetJob(logs: Logs, jobs: Jobs, requests: seq<Request>, i: nat, job: Job)
    requires Chained(logs, jobs, requests) && job.pool in logs && JobOk(logs[job.pool], i, job)
    requires job.edit.Remove? && job.phase == Calling ==> Unasked(requests, job.pool, job.ver)
    ensures Chained(logs, jobs[i := job], requests)
  {
    hide LogsOk, RequestsOk, JobOk;
  }

  lemma ChainedRemoveJob(logs: Logs, jobs: Jobs, requests: seq<Request>, i: nat)
    requires Chained(logs, jobs, requests)
    ensures Chained(logs, jobs - {i}, requests)
  {
    hide LogsOk, RequestsOk, JobOk;
  }

  lemma CommitChained(s: State, i: nat, v: Version, acknowledged: bool)
    requires Inv(s) && i in s.jobs && CanWrite(s.jobs[i]) && IsCurrent(s, s.jobs[i])
    requires v == Version(s.jobs[i].copy, s.jobs[i].edit, Pass(i))
    requires LegalNext(s.logs[s.jobs[i].pool], v) && BasedOn(Last(s.logs[s.jobs[i].pool]), i, s.jobs[i])
    ensures var p := s.jobs[i].pool;
      Chained(s.logs[p := s.logs[p] + [v]], if acknowledged then Continue(s, i, |s.logs[p]|) else s.jobs - {i}, s.requests)
  {
    var job := s.jobs[i];
    var p := job.pool;
    var h, logs' := s.logs[p], s.logs[p := s.logs[p] + [v]];
    GrowLogs(s.logs, p, v);
    ExtendChained(s, logs');
    UnaskedNext(s.logs, s.requests, p);
    if acknowledged && NextEdit(job.edit).Some? {
      assert job.phase == Writing;
      NextJobBasedOn(Last(h), v, i, job, |h|);
      hide Inv, Chained, BasedOn, LegalNext, Enabled, Apply, Unasked, Legal;
      ChainedSetJob(logs', s.jobs, s.requests, i, NextJob(job, NextEdit(job.edit).value, |h|));
    } else {
      ChainedRemoveJob(logs', s.jobs, s.requests, i);
    }
  }

  /** Job changes that add no Remove past its termination call. */
  lemma JobsIdentified(logs: Logs, cloud: Cloud, jobs: Jobs, jobs': Jobs, next: nat)
    requires Identified(logs, cloud, jobs, next)
    requires forall k | k in jobs' :: k in jobs && (jobs'[k] == jobs[k] || !(jobs'[k].edit.Remove? && jobs'[k].phase == Writing))
    ensures Identified(logs, cloud, jobs', next)
  {
  }

  lemma CommitKeeps(s: State, i: nat, acknowledged: bool)
    requires Inv(s) && i in s.jobs && CanWrite(s.jobs[i]) && IsCurrent(s, s.jobs[i])
    ensures Inv(CommitWrite(s, i, acknowledged))
  {
    CommitLegal(s, i);
    if s.jobs[i].copy == Last(s.logs[s.jobs[i].pool]).obj {
      UnchangedKeeps(s, i, acknowledged);
    } else {
      ChangedKeeps(s, i, acknowledged);
    }
  }

  /** A write that changes nothing only ends the pass. */
  lemma UnchangedIsAbandon(s: State, i: nat, acknowledged: bool)
    requires i in s.jobs && IsCurrent(s, s.jobs[i])
    requires Enabled(Last(s.logs[s.jobs[i].pool]).obj, s.jobs[i].edit)
    requires s.jobs[i].copy == Last(s.logs[s.jobs[i].pool]).obj == Apply(Last(s.logs[s.jobs[i].pool]).obj, s.jobs[i].edit)
    ensures CommitWrite(s, i, acknowledged) == Abandon(s, i)
  {
    UnchangedBy(Last(s.logs[s.jobs[i].pool]).obj, s.jobs[i].edit);
    hide Enabled, Apply;
    assert Launched(s.jobs[i]) == {} && Live(s, {}) == {};
    assert s.logs[s.jobs[i].pool := s.logs[s.jobs[i].pool]] == s.logs;
  }

  lemma UnchangedKeeps(s: State, i: nat, acknowledged: bool)
    requires Inv(s) && i in s.jobs && CanWrite(s.jobs[i]) && IsCurrent(s, s.jobs[i])
    requires BasedOn(Last(s.logs[s.jobs[i].pool]), i, s.jobs[i])
    requires s.jobs[i].copy == Last(s.logs[s.jobs[i].pool]).obj
    ensures Inv(CommitWrite(s, i, acknowledged))
  {
    UnchangedIsAbandon(s, i, acknowledged);
    hide Inv, BasedOn, CommitWrite, Abandon;
    AbandonKeeps(s, i);
  }

  lemma ChangedAccounted(s: State, i: nat, v: Version, jobs': Jobs)
    requires Inv(s) && i in s.jobs && IsCurrent(s, s.jobs[i])
    requires v.cause == s.jobs[i].edit && LegalNext(s.logs[s.jobs[i].pool], v)
    requires SameHolders(s.jobs, jobs', i)
    ensures var p := s.jobs[i].pool;
      Accounted(s.logs[p := s.logs[p] + [v]], s.cloud, jobs', s.lost, s.dropped + Live(s, TakenOut(s.logs[p], s.jobs[i])))
  {
    hide LegalNext, Growth, Accounted, Chained, Identified, SameHolders;
    var p := s.jobs[i].pool;
    CommitGrowth(s, i, v);
    assert TakenOut(s.logs[p], s.jobs[i]) == TakenIds(Last(s.logs[p]).obj, v.cause);
    CommitAccounted(s.logs, s.cloud, s.jobs, s.lost, s.dropped, i, p, v, jobs', s.dropped + Live(s, TakenOut(s.logs[p], s.jobs[i])));
  }

  lemma ChangedIdentified(s: State, i: nat, v: Version, jobs': Jobs)
    requires Inv(s) && i in s.jobs && IsCurrent(s, s.jobs[i])
    requires forall k | k in jobs' :: k in s.jobs && (jobs'[k] == s.jobs[k] || !(jobs'[k].edit.Remove? && jobs'[k].phase == Writing))
    ensures var p := s.jobs[i].pool; Identified(s.logs[p := s.logs[p] + [v]], s.cloud, jobs', s.next)
  {
    var logs' := s.logs[s.jobs[i].pool := s.logs[s.jobs[i].pool] + [v]];
    GrowExtends(s.logs, s.jobs[i].pool, v);
    hide Extends, Chained, Accounted, Identified;
    ExtendIdentified(s, logs');
    JobsIdentified(logs', s.cloud, s.jobs, jobs', s.next);
  }

  lemma ContinueShape(s: State, i: nat, v: Version, ver: nat, acknowledged: bool)
    requires i in s.jobs && BasedOn(v, i, s.jobs[i]) && CanWrite(s.jobs[i])
    ensures var jobs' := if acknowledged then Continue(s, i, ver) else s.jobs - {i};
      && SameHolders(s.jobs, jobs', i)
      && forall k | k in jobs' :: k in s.jobs && (jobs'[k] == s.jobs[k] || !(jobs'[k].edit.Remove? && jobs'[k].phase == Writing))
  {
    hide Enabled, Apply;
  }

  lemma ChangedShape(s: State, i: nat, v: Version, acknowledged: bool)
    requires i in s.jobs && IsCurrent(s, s.jobs[i])
    requires v == Version(s.jobs[i].copy, s.jobs[i].edit, Pass(i)) && s.jobs[i].copy != Last(s.logs[s.jobs[i].pool]).obj
    ensures var p := s.jobs[i].pool;
      CommitWrite(s, i, acknowledged) ==
      s.(logs := s.logs[p := s.logs[p] + [v]],
         jobs := if acknowledged then Continue(s, i, |s.logs[p]|) else s.jobs - {i},
         dropped := s.dropped + Live(s, TakenOut(s.logs[p], s.jobs[i])))
  {
  }

  lemma ChangedKeeps(s: State, i: nat, acknowledged: bool)
    requires Inv(s) && i in s.jobs && CanWrite(s.jobs[i]) && IsCurrent(s, s.jobs[i])
    requires BasedOn(Last(s.logs[s.jobs[i].pool]), i, s.jobs[i])
    requires s.jobs[i].copy != Last(s.logs[s.jobs[i].pool]).obj
    requires LegalNext(s.logs[s.jobs[i].pool], Version(s.jobs[i].copy, s.jobs[i].edit, Pass(i)))
    ensures Inv(CommitWrite(s, i, acknowledged))
  {
    hide Inv, BasedOn, LegalNext, Accounted, Identified, Chained, Continue, CommitWrite, Live, TakenOut, SameHolders, CanWrite;
    var job := s.jobs[i];
    var v, h := Version(job.copy, job.edit, Pass(i)), s.logs[job.pool];
    var jobs' := if acknowledged then Continue(s, i, |h|) else s.jobs - {i};
    ContinueShape(s, i, Last(h), |h|, acknowledged);
    ChangedShape(s, i, v, acknowledged);
    CommitChained(s, i, v, acknowledged);
    ChangedIdentified(s, i, v, jobs');
    ChangedAccounted(s, i, v, jobs');
    InvFrom(CommitWrite(s, i, acknowledged));
  }

  // ----- A new spec -----

  lemma SpecGrowth(h: Log, cloud: Cloud, gone: set<string>, p: string, spec: Spec)
    requires Legal(h)
    ensures LegalNext(h, Version(Last(h).obj.(spec := spec), SetSpec(spec), User))
    ensures Growth(h, cloud, gone, p, Version(Last(h).obj.(spec := spec), SetSpec(spec), User))
  {
    AppendIdentity(h, Version(Last(h).obj.(spec := spec), SetSpec(spec), User));
  }

  lemma SpecAccounted(s: State, p: string, v: Version)
    requires Inv(s) && p in s.logs && |s.logs[p]| > 0 && v.cause.SetSpec?
    requires Growth(s.logs[p], s.cloud, s.lost + s.dropped, p, v)
    ensures Accounted(s.logs[p := s.logs[p] + [v]], s.cloud, s.jobs, s.lost, s.dropped)
  {
    hide Growth, Accounted, Chained;
    assert SameHolders(s.jobs, s.jobs, s.next);
    hide Identified, SameHolders;
    CommitAccounted(s.logs, s.cloud, s.jobs, s.lost, s.dropped, s.next, p, v, s.jobs, s.dropped);
  }

  lemma SpecKeeps(s: State, step: Step)
    requires Inv(s) && step.EditSpec? && CanTake(s, step)
    ensures Inv(Take(s, step))
  {
    var h := s.logs[step.p];
    var v := Version(Last(h).obj.(spec := step.spec), SetSpec(step.spec), User);
    if Last(h).obj.spec != step.spec {
      hide Accounted, Chained, Identified, Growth, LegalNext, Extends;
      assert Legal(h) && LogsOk(s.logs) by { ChainedLogs(s, step.p); }
      hide Legal, LogsOk;
      SpecGrowth(h, s.cloud, s.lost + s.dropped, step.p, step.spec);
      GrowLogs(s.logs, step.p, v);
      ExtendChained(s, s.logs[step.p := h + [v]]);
      ExtendIdentified(s, s.logs[step.p := h + [v]]);
      SpecAccounted(s, step.p, v);
      InvFrom(Take(s, step));
    }
  }

  lemma ChainedLogs(s: State, p: string)
    requires Inv(s) && p in s.logs
    ensures LogsOk(s.logs) && Legal(s.logs[p])
  {
  }

  // ----- Instances that die -----

  /** The same instances, some of them dead. */
  ghost predicate Fewer(cloud: Cloud, cloud': Cloud) {
    && cloud.Keys == cloud'.Keys
    && forall id | id in cloud :: cloud'[id] == cloud[id] || cloud'[id] == cloud[id].(live := false)
  }

  lemma KillFewer(cloud: Cloud, id: string)
    ensures Fewer(cloud, Kill(cloud, id)) && (id in cloud ==> !Kill(cloud, id)[id].live)
  {
  }

  lemma FewerHeld(logs: Logs, cloud: Cloud, cloud': Cloud, jobs: Jobs, gone: set<string>)
    requires HeldOk(logs, cloud, jobs, gone) && Fewer(cloud, cloud')
    ensures HeldOk(logs, cloud', jobs, gone)
  {
    forall i | i in jobs && jobs[i].edit.Record?
      ensures HeldBy(logs, cloud', gone, i, jobs[i])
    {
      assert HeldBy(logs, cloud, gone, i, jobs[i]);
    }
  }

  lemma FewerRecorded(logs: Logs, cloud: Cloud, cloud': Cloud, lost: set<string>)
    requires RecordedOk(logs, cloud, lost) && Fewer(cloud, cloud')
    ensures RecordedOk(logs, cloud', lost)
  {
    forall p | p in logs
      ensures RecordedIn(logs[p], cloud', lost, p)
    {
      assert RecordedIn(logs[p], cloud, lost, p);
      assert NamesOf(cloud', EverIds(logs[p])) == NamesOf(cloud, EverIds(logs[p]));
    }
  }

  lemma FewerAccounted(logs: Logs, cloud: Cloud, cloud': Cloud, jobs: Jobs, lost: set<string>, dropped: set<string>)
    requires Accounted(logs, cloud, jobs, lost, dropped) && Fewer(cloud, cloud')
    ensures Accounted(logs, cloud', jobs, lost, dropped)
  {
    hide HeldOk, RecordedOk, EverIds, Ids;
    FewerHeld(logs, cloud, cloud', jobs, lost + dropped);
    FewerRecorded(logs, cloud, cloud', lost);
  }

  lemma FewerIdentified(logs: Logs, cloud: Cloud, cloud': Cloud, jobs: Jobs, next: nat)
    requires Identified(logs, cloud, jobs, next) && Fewer(cloud, cloud')
    ensures Identified(logs, cloud', jobs, next)
  {
    hide TakenOut;
  }

  lemma FewerKeeps(s: State, cloud': Cloud)
    requires Inv(s) && Fewer(s.cloud, cloud')
    ensures Inv(s.(cloud := cloud'))
  {
    hide Chained, Identified, Accounted, Fewer;
    FewerIdentified(s.logs, s.cloud, cloud', s.jobs, s.next);
    FewerAccounted(s.logs, s.cloud, cloud', s.jobs, s.lost, s.dropped);
  }

  // ----- Instances that are launched -----

  lemma BornHeld(logs: Logs, cloud: Cloud, jobs: Jobs, gone: set<string>, id: string, x: Instance, gone': set<string>)
    requires HeldOk(logs, cloud, jobs, gone) && id !in cloud && gone' <= gone + {id}
    ensures HeldOk(logs, cloud[id := x], jobs, gone')
  {
    hide EverIds;
    forall i | i in jobs && jobs[i].edit.Record?
      ensures HeldBy(logs, cloud[id := x], gone', i, jobs[i])
    {
      HeldFacts(logs, cloud, gone, i, jobs[i]);
      var xs := jobs[i].edit.entries;
      forall k | 0 <= k < |xs|
        ensures LaunchedBy(cloud[id := x], i, jobs[i].pool, xs[k])
      {
        assert LaunchedBy(cloud, i, jobs[i].pool, xs[k]);
      }
    }
  }

  lemma BornRecorded(logs: Logs, cloud: Cloud, lost: set<string>, id: string, x: Instance, lost': set<string>)
    requires RecordedOk(logs, cloud, lost) && id !in cloud && lost' <= lost + {id}
    ensures RecordedOk(logs, cloud[id := x], lost')
  {
    forall p | p in logs
      ensures RecordedIn(logs[p], cloud[id := x], lost', p)
    {
      assert RecordedIn(logs[p], cloud, lost, p);
      assert NamesOf(cloud[id := x], EverIds(logs[p])) == NamesOf(cloud, EverIds(logs[p]));
    }
  }

  lemma BornLive(logs: Logs, cloud: Cloud, jobs: Jobs, gone: set<string>, id: string, x: Instance, jobs': Jobs, gone': set<string>)
    requires LiveOk(logs, cloud, jobs, gone) && id !in cloud && gone <= gone'
    requires forall k, a | Holds(jobs, k, a) :: Holds(jobs', k, a)
    requires id in gone' || Holds(jobs', x.launcher, id)
    ensures LiveOk(logs, cloud[id := x], jobs', gone')
  {
    hide Holds;
  }

  lemma BornGone(logs: Logs, cloud: Cloud, lost: set<string>, dropped: set<string>, id: string, x: Instance, lost': set<string>)
    requires GoneOk(logs, cloud, lost, dropped) && id !in cloud && lost' <= lost + {id}
    ensures GoneOk(logs, cloud[id := x], lost', dropped)
  {
    hide DroppedFrom;
  }

  lemma BornIdentified(logs: Logs, cloud: Cloud, jobs: Jobs, next: nat, id: string, x: Instance)
    requires Identified(logs, cloud, jobs, next) && id !in cloud
    requires x.launcher < next && x.pool in logs
    requires x.reported ==> forall k | k in cloud && cloud[k].reported :: cloud[k].name != x.name
    ensures Identified(logs, cloud[id := x], jobs, next)
  {
    hide TakenOut;
  }

  lemma UnreportedKeeps(s: State, step: Step)
    requires Inv(s) && step.LaunchUnreported? && CanTake(s, step)
    ensures Inv(Take(s, step))
  {
    var i, id := step.i, step.id;
    var x := Instance(step.name, s.jobs[i].pool, i, false, s.now, true);
    JobKnown(s, i);
    hide Chained, LiveOk, HeldOk, RecordedOk, GoneOk, Identified;
    BornIdentified(s.logs, s.cloud, s.jobs, s.next, id, x);
    var gone' := s.lost + {id} + s.dropped;
    BornHeld(s.logs, s.cloud, s.jobs, s.lost + s.dropped, id, x, gone');
    BornRecorded(s.logs, s.cloud, s.lost, id, x, s.lost + {id});
    BornLive(s.logs, s.cloud, s.jobs, s.lost + s.dropped, id, x, s.jobs, gone');
    BornGone(s.logs, s.cloud, s.lost, s.dropped, id, x, s.lost + {id});
  }

  lemma JobKnown(s: State, i: nat)
    requires Inv(s) && i in s.jobs
    ensures i < s.next && s.jobs[i].pool in s.logs && JobOk(s.logs[s.jobs[i].pool], i, s.jobs[i])
    ensures LogsOk(s.logs)
  {
  }

  // ----- One more node in the provisioner's hands -----

  /** Appending one node at a time is recording them all. */
  lemma AppendBasedOn(v: Version, i: nat, job: Job, x: Entry)
    requires BasedOn(v, i, job) && job.phase.Launching? && job.phase.remaining > 0 && NewEntry(x)
    ensures BasedOn(v, i, Job(job.pool, job.ver, Append(job.copy, x), Record(job.edit.entries + [x]),
                              Launching(job.phase.remaining - 1)))
  {
    var xs, o := job.edit.entries, v.obj;
    assert o.nodes + (xs + [x]) == o.nodes + xs + [x];
    WrapAdd(o.pendingNodes + |xs|, 1);
  }

  lemma FailBasedOn(v: Version, i: nat, job: Job)
    requires BasedOn(v, i, job) && job.phase.Launching? && job.phase.remaining > 0
    ensures BasedOn(v, i, job.(phase := Launching(job.phase.remaining - 1)))
  {
  }

  lemma LaunchFailsKeeps(s: State, step: Step)
    requires Inv(s) && step.LaunchFails? && CanTake(s, step)
    ensures Inv(Take(s, step))
  {
    hide Inv, BasedOn, Chained, LogsOk, Identified, Accounted;
    var i, job := step.i, s.jobs[step.i];
    var job' := job.(phase := Launching(job.phase.remaining - 1));
    InvParts(s);
    JobKnown(s, i);
    FailBasedOn(s.logs[job.pool][job.ver], i, job);
    ChainedSetJob(s.logs, s.jobs, s.requests, i, job');
    JobsIdentified(s.logs, s.cloud, s.jobs, s.jobs[i := job'], s.next);
    FailAccounted(s, i, job');
    InvFrom(Take(s, step));
  }

  lemma FailAccounted(s: State, i: nat, job': Job)
    requires Inv(s) && i in s.jobs && job'.pool == s.jobs[i].pool && job'.edit == s.jobs[i].edit
    ensures Accounted(s.logs, s.cloud, s.jobs[i := job'], s.lost, s.dropped)
  {
    hide Chained, Identified, RecordedOk, GoneOk, LaunchedBy;
    SetJobHeld(s.logs, s.cloud, s.jobs, s.lost + s.dropped, i, job');
    SetJobLive(s.logs, s.cloud, s.jobs, s.lost + s.dropped, i, job');
  }

  /** The pass that launched a node holds it, next to the ones it held before. */
  lemma AppendHeld(logs: Logs, cloud: Cloud, gone: set<string>, i: nat, job: Job, job': Job, x: Entry)
    requires job.edit.Record? && HeldBy(logs, cloud, gone, i, job)
    requires job'.pool == job.pool && job'.edit == Record(job.edit.entries + [x])
    requires LaunchedBy(cloud, i, job.pool, x)
    requires x.instanceId !in Ids(job.edit.entries) && x.name !in Names(job.edit.entries)
    requires x.instanceId !in gone && (job.pool in logs ==> x.instanceId !in EverIds(logs[job.pool]))
    ensures HeldBy(logs, cloud, gone, i, job')
    ensures Ids(job'.edit.entries) == Ids(job.edit.entries) + {x.instanceId}
  {
    hide LaunchedBy;
    assert IdSeq([x]) == [x.instanceId] && NameSeq([x]) == [x.name];
    assert Ids([x]) == {x.instanceId} && Names([x]) == {x.name};
    RecordIdentity(job.edit.entries, [x]);
  }

  lemma LaunchOkHeld(logs: Logs, cloud: Cloud, jobs: Jobs, gone: set<string>, i: nat, id: string, c: Instance, job': Job, x: Entry)
    requires HeldOk(logs, cloud, jobs, gone) && i in jobs && jobs[i].edit.Record? && id !in cloud
    requires c.launcher == i && c.pool == jobs[i].pool && c.reported && c.name == x.name && x.instanceId == id
    requires id !in Ids(jobs[i].edit.entries) && x.name !in Names(jobs[i].edit.entries)
    requires id !in gone && jobs[i].pool in logs && id !in EverIds(logs[jobs[i].pool])
    requires job'.pool == jobs[i].pool && job'.edit == Record(jobs[i].edit.entries + [x])
    ensures HeldOk(logs, cloud[id := c], jobs[i := job'], gone)
    ensures forall k, a | Holds(jobs, k, a) :: Holds(jobs[i := job'], k, a)
    ensures Holds(jobs[i := job'], i, id)
  {
    hide HeldOk, HeldBy, EverIds;
    BornHeld(logs, cloud, jobs, gone, id, c, gone);
    HeldAt(logs, cloud[id := c], jobs, gone, i);
    AppendHeld(logs, cloud[id := c], gone, i, jobs[i], job', x);
    SetJobHeld(logs, cloud[id := c], jobs, gone, i, job');
  }

  lemma LaunchOkAccounted(s: State, i: nat, id: string, c: Instance, job': Job, x: Entry)
    requires Inv(s) && i in s.jobs && s.jobs[i].edit.Record? && id !in s.cloud
    requires c.launcher == i && c.pool == s.jobs[i].pool && c.reported && c.name == x.name && x.instanceId == id
    requires forall k | k in s.cloud && s.cloud[k].reported :: s.cloud[k].name != x.name
    requires job'.pool == s.jobs[i].pool && job'.edit == Record(s.jobs[i].edit.entries + [x])
    ensures Accounted(s.logs, s.cloud[id := c], s.jobs[i := job'], s.lost, s.dropped)
  {
    hide Chained, Identified, LiveOk, RecordedOk, GoneOk, HeldOk, Holds, Ids, Names, EverIds;
    var gone := s.lost + s.dropped;
    NewNode(s, i, id, x);
    LaunchOkHeld(s.logs, s.cloud, s.jobs, gone, i, id, c, job', x);
    BornRecorded(s.logs, s.cloud, s.lost, id, c, s.lost);
    BornLive(s.logs, s.cloud, s.jobs, gone, id, c, s.jobs[i := job'], gone);
    BornGone(s.logs, s.cloud, s.lost, s.dropped, id, c, s.lost);
  }

  lemma HeldAt(logs: Logs, cloud: Cloud, jobs: Jobs, gone: set<string>, i: nat)
    requires HeldOk(logs, cloud, jobs, gone) && i in jobs && jobs[i].edit.Record?
    ensures HeldBy(logs, cloud, gone, i, jobs[i])
  {
  }

  /** A fresh ID and a fresh name are new to everything. */
  lemma NewNode(s: State, i: nat, id: string, x: Entry)
    requires Inv(s) && i in s.jobs && s.jobs[i].edit.Record? && id !in s.cloud
    requires forall k | k in s.cloud && s.cloud[k].reported :: s.cloud[k].name != x.name
    ensures id !in Ids(s.jobs[i].edit.entries) && x.name !in Names(s.jobs[i].edit.entries)
    ensures id !in s.lost + s.dropped
    ensures s.jobs[i].pool in s.logs && id !in EverIds(s.logs[s.jobs[i].pool])
  {
    JobKnown(s, i);
    hide JobOk, Chained, Identified, LiveOk, DroppedFrom;
    HeldFacts(s.logs, s.cloud, s.lost + s.dropped, i, s.jobs[i]);
    assert RecordedIn(s.logs[s.jobs[i].pool], s.cloud, s.lost, s.jobs[i].pool);
  }

  lemma LaunchOkKeeps(s: State, step: Step)
    requires Inv(s) && step.LaunchOk? && CanTake(s, step)
    ensures Inv(Take(s, step))
  {
    hide Inv, BasedOn, Chained, LogsOk, Accounted, Identified, Append;
    var i, id, job := step.i, step.id, s.jobs[step.i];
    var x := Entry(step.name, id, step.instanceType, Pending, Stored(s.now), None, None);
    var c := Instance(step.name, job.pool, i, true, s.now, true);
    var job' := Job(job.pool, job.ver, Append(job.copy, x), Record(job.edit.entries + [x]), Launching(job.phase.remaining - 1));
    InvParts(s);
    JobKnown(s, i);
    AppendBasedOn(s.logs[job.pool][job.ver], i, job, x);
    ChainedSetJob(s.logs, s.jobs, s.requests, i, job');
    BornIdentified(s.logs, s.cloud, s.jobs, s.next, id, c);
    JobsIdentified(s.logs, s.cloud[id := c], s.jobs, s.jobs[i := job'], s.next);
    LaunchOkAccounted(s, i, id, c, job', x);
    InvFrom(Take(s, step));
  }

  // ----- Termination calls -----

  lemma CalledBasedOn(v: Version, i: nat, job: Job)
    requires BasedOn(v, i, job) && job.phase == Calling
    ensures BasedOn(v, i, Called(job))
    ensures job.edit.Drops() && job.edit.j < |v.obj.nodes| && job.copy == v.obj
    ensures v.obj.nodes[job.edit.j].instanceId == Target(job)
    ensures job.edit.Remove? ==> v.cause == MarkTerminating(job.edit.j) && v.author == Pass(i)
  {
  }

  /** The new request is the first one for its version, and no other pass will make it. */
  lemma RequestChained(s: State, i: nat, jobs': Jobs)
    requires Inv(s) && i in s.jobs && s.jobs[i].phase == Calling && s.jobs[i].edit.Remove?
    requires Chained(s.logs, jobs', s.requests) && (i in jobs' ==> jobs'[i].phase == Writing)
    requires forall k | k in jobs' && k != i :: k in s.jobs && jobs'[k] == s.jobs[k]
    ensures Chained(s.logs, jobs', s.requests + [Request(i, s.jobs[i].pool, s.jobs[i].ver, Target(s.jobs[i]))])
  {
    hide Inv, BasedOn, LogsOk, RequestsOk;
    var job := s.jobs[i];
    var r := Request(i, job.pool, job.ver, Target(job));
    JobKnown(s, i);
    CalledBasedOn(s.logs[job.pool][job.ver], i, job);
    assert RequestsOk(s.logs, s.requests) && NotYetAsked(s.jobs, s.requests) by { InvRequests(s); }
    RequestAppended(s.logs, s.jobs, s.requests, i, r);
    forall k | k in jobs' && jobs'[k].edit.Remove? && jobs'[k].phase == Calling
      ensures !SameTarget(r, jobs'[k].pool, jobs'[k].ver)
    {
      JobKnown(s, k);
      CalledBasedOn(s.logs[s.jobs[k].pool][s.jobs[k].ver], k, s.jobs[k]);
    }
  }

  lemma InvRequests(s: State)
    requires Inv(s)
    ensures RequestsOk(s.logs, s.requests) && NotYetAsked(s.jobs, s.requests)
  {
  }

  lemma RequestAppended(logs: Logs, jobs: Jobs, requests: seq<Request>, i: nat, r: Request)
    requires RequestsOk(logs, requests) && NotYetAsked(jobs, requests)
    requires i in jobs && jobs[i].edit.Remove? && jobs[i].phase == Calling
    requires SameTarget(r, jobs[i].pool, jobs[i].ver)
    requires r.pool in logs && r.ver < |logs[r.pool]| && Marks(logs[r.pool][r.ver], r)
    ensures RequestsOk(logs, requests + [r])
  {
    hide Marks;
  }

  lemma SameHoldersAccounted(logs: Logs, cloud: Cloud, jobs: Jobs, jobs': Jobs, lost: set<string>, dropped: set<string>, i: nat)
    requires Accounted(logs, cloud, jobs, lost, dropped)
    requires SameHolders(jobs, jobs', i) && i in jobs && !jobs[i].edit.Record?
    ensures Accounted(logs, cloud, jobs', lost, dropped)
  {
    hide HeldBy, RecordedOk, GoneOk;
    assert forall k, id | Holds(jobs, k, id) :: Holds(jobs', k, id);
  }

  /** Every entry of every committed version is a reported launch for that pool. */
  lemma EntryKnown(s: State, p: string, k: nat, j: nat)
    requires Inv(s) && p in s.logs && k < |s.logs[p]| && j < |s.logs[p][k].obj.nodes|
    ensures var id := s.logs[p][k].obj.nodes[j].instanceId;
      id in EverIds(s.logs[p]) && id in s.cloud && s.cloud[id].pool == p && s.cloud[id].reported && id !in s.lost
  {
    hide Chained, Identified, LiveOk, GoneOk, HeldOk;
    EntryInSets(s.logs[p][k].obj.nodes, j);
    EverContains(s.logs[p], k);
    assert RecordedIn(s.logs[p], s.cloud, s.lost, p);
  }

  lemma TargetKnown(s: State, i: nat)
    requires Inv(s) && i in s.jobs && s.jobs[i].phase == Calling
    ensures s.jobs[i].pool in s.logs
    ensures TakenOut(s.logs[s.jobs[i].pool], s.jobs[i]) == {Target(s.jobs[i])}
    ensures Target(s.jobs[i]) in s.cloud && s.cloud[Target(s.jobs[i])].pool == s.jobs[i].pool
    ensures !s.jobs[i].edit.Record?
  {
    hide Inv, BasedOn, LogsOk;
    var job := s.jobs[i];
    JobKnown(s, i);
    CalledBasedOn(s.logs[job.pool][job.ver], i, job);
    EntryKnown(s, job.pool, job.ver, job.edit.j);
  }

  lemma CalledIdentified(s: State, i: nat, killed: bool, ok: bool, cloud': Cloud)
    requires Inv(s) && i in s.jobs && s.jobs[i].phase == Calling && (ok ==> killed)
    requires cloud' == if killed then Kill(s.cloud, Target(s.jobs[i])) else s.cloud
    requires ok || s.jobs[i].edit.BootDrop?
    ensures Identified(s.logs, cloud', s.jobs[i := Called(s.jobs[i])], s.next)
  {
    hide Inv, Chained, Identified, Accounted, LogsOk, JobOk, Target, Fewer, Kill;
    InvParts(s);
    TargetKnown(s, i);
    KillFewer(s.cloud, Target(s.jobs[i]));
    KeepFewer(s.cloud);
    FewerIdentified(s.logs, s.cloud, cloud', s.jobs, s.next);
    CalledDead(s.logs, cloud', s.jobs, s.next, i, Called(s.jobs[i]));
  }

  lemma CalledDead(logs: Logs, cloud: Cloud, jobs: Jobs, next: nat, i: nat, job': Job)
    requires Identified(logs, cloud, jobs, next) && i in jobs
    requires job'.edit.Remove? && job'.pool in logs ==>
      forall id | id in TakenOut(logs[job'.pool], job') :: id in cloud && !cloud[id].live
    ensures Identified(logs, cloud, jobs[i := job'], next)
  {
    hide TakenOut;
  }

  lemma TerminateKeeps(s: State, step: Step)
    requires Inv(s) && step.TerminateReturns? && CanTake(s, step)
    ensures Inv(Take(s, step))
  {
    hide Inv, BasedOn, Chained, Identified, Accounted, LogsOk, Target, Edited, TakenOut, Fewer, Kill;
    var i, job := step.i, s.jobs[step.i];
    var goesOn := step.ok || job.edit.BootDrop?;
    var cloud' := if step.killed then Kill(s.cloud, Target(job)) else s.cloud;
    var jobs' := if goesOn then s.jobs[i := Called(job)] else s.jobs - {i};
    InvParts(s);
    JobKnown(s, i);
    TargetKnown(s, i);
    KillFewer(s.cloud, Target(job));
    assert Fewer(s.cloud, cloud') by { KeepFewer(s.cloud); }
    if goesOn {
      CalledBasedOn(s.logs[job.pool][job.ver], i, job);
      ChainedSetJob(s.logs, s.jobs, s.requests, i, Called(job));
      CalledIdentified(s, i, step.killed, step.ok, cloud');
    } else {
      ChainedRemoveJob(s.logs, s.jobs, s.requests, i);
      FewerIdentified(s.logs, s.cloud, cloud', s.jobs, s.next);
      JobsIdentified(s.logs, cloud', s.jobs, jobs', s.next);
    }
    if job.edit.Remove? {
      RequestChained(s, i, jobs');
    }
    SameHoldersAccounted(s.logs, s.cloud, s.jobs, jobs', s.lost, s.dropped, i);
    FewerAccounted(s.logs, s.cloud, cloud', jobs', s.lost, s.dropped);
    InvFrom(Take(s, step));
  }

  lemma KeepFewer(cloud: Cloud)
    ensures Fewer(cloud, cloud)
  {
  }

  // ----- Every step -----

  lemma KillKeeps(s: State, id: string)
    requires Inv(s)
    ensures Inv(s.(cloud := Kill(s.cloud, id)))
  {
    hide Inv, Kill, Fewer;
    KillFewer(s.cloud, id);
    FewerKeeps(s, Kill(s.cloud, id));
  }

  lemma ReaperStartKeeps(s: State, step: Step)
    requires Inv(s) && step.StartReaper? && CanTake(s, step)
    ensures Inv(Take(s, step))
  {
    hide Inv;
    StartKeeps(s, step.p, step.v, ReaperStart(s.logs[step.p][step.v].obj, step.j, step.pods, s.now).value);
  }

  /** The invariant holds at the start and every step keeps it. */
  lemma StepKeeps(s: State, step: Step)
    requires Inv(s) && CanTake(s, step)
    ensures Inv(Take(s, step))
  {
    hide Inv, ReaperStart, Enabled;
    match step
    case Tick(_) => TimeKeeps(s, Take(s, step));
    case CreatePool(_, _) => CreateKeeps(s, step);
    case EditSpec(_, _) => SpecKeeps(s, step);
    case InstanceDies(id) => KillKeeps(s, id);
    case StartProvision(_, _, _, _) => StartProvisionKeeps(s, step);
    case LaunchFails(_) => LaunchFailsKeeps(s, step);
    case LaunchUnreported(_, _, _) => UnreportedKeeps(s, step);
    case LaunchOk(_, _, _, _) => LaunchOkKeeps(s, step);
    case StartReady(p, v, j) => StartKeeps(s, p, v, Ready(j, s.now));
    case StartBootTimeout(_, _, _) => StartBootTimeoutKeeps(s, step);
    case StartReaper(_, _, _, _) => ReaperStartKeeps(s, step);
    case StartOrphanDrop(p, v, j) => OrphanStartKeeps(s, p, v, j);
    case OrphanTerminates(id, _) => KillKeeps(s, id);
    case TerminateReturns(_, _, _) => TerminateKeeps(s, step);
    case Write(i, outcome) =>
      if outcome == Failed { AbandonKeeps(s, i); } else { CommitKeeps(s, i, outcome == Acknowledged); }
    case Crash(i) => AbandonKeeps(s, i);
  }

  lemma OrphanStartKeeps(s: State, p: string, v: nat, j: nat)
    requires Inv(s) && HasEntry(s, p, v, j)
    ensures Inv(Begin(s, StartEdit(s, p, v, OrphanDrop(j))))
  {
    hide Inv;
    StartKeeps(s, p, v, OrphanDrop(j));
  }

  lemma TimeKeeps(s: State, s': State)
    requires Inv(s) && s' == s.(now := s'.now)
    ensures Inv(s')
  {
  }

  lemma {:induction false} RunKeeps(s: State, steps: seq<Step>)
    requires Inv(s) && Run(s, steps)
    ensures Inv(After(s, steps))
    decreases |steps|
  {
    hide Inv, CanTake, Take;
    if steps != [] {
      StepKeeps(s, steps[0]);
      RunKeeps(Take(s, steps[0]), steps[1..]);
    }
  }

  /** Every state that a run from the start can reach satisfies the invariant. */
  lemma ReachableInv(steps: seq<Step>)
    requires Run(START, steps)
    ensures Inv(After(START, steps))
  {
    RunKeeps(START, steps);
  }
}
