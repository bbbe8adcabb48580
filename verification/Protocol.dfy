/**
 The four controllers as one state machine: any number of reconcile passes, each working on its own,
 possibly stale, copy of a pool, with every external call free to fail.
 */
module Protocol {
  import opened Api
  import opened PoolEdits
  import opened CommitLog
  import Batch

  // ----- State -----

  /** A launched instance; `reported` says whether the launch call returned its ID. */
  datatype Instance = Instance(
    name: string, pool: string, launcher: nat, reported: bool, launchedAt: Time, live: bool)

  datatype Phase =
    | Launching(remaining: nat)   // provisioner: launches still to try
    | Calling                     // about to ask the cloud to terminate the entry's instance
    | Writing                     // about to write the edited copy

  /** A pass: the version it read, its copy as edited so far, and the edit it is making. */
  datatype Job = Job(pool: string, ver: nat, copy: Pool, edit: Edit, phase: Phase)

  /** A termination asked for by the reaper, with the version it had just written. */
  datatype Request = Request(pass: nat, pool: string, ver: nat, id: string)

  datatype State = State(
    logs: map<string, Log>,
    cloud: map<string, Instance>,
    jobs: map<nat, Job>,
    next: nat,
    now: Time,
    lost: set<string>,      // launched, and no committed version will ever name them
    dropped: set<string>,   // taken out of a status while still running
    requests: seq<Request>)

  const START: State := State(map[], map[], map[], 0, 0, {}, {}, [])

  // ----- Steps -----

  datatype Outcome = Acknowledged | Unacknowledged | Failed

  datatype Step =
    | Tick(d: nat)
    | CreatePool(p: string, obj: Pool)
    | EditSpec(p: string, spec: Spec)
    | InstanceDies(id: string)
    | StartProvision(p: string, v: nat, batch: seq<Pod>, cap: Batch.Capacity)
    | LaunchFails(i: nat)
    | LaunchUnreported(i: nat, id: string, name: string)
    | LaunchOk(i: nat, id: string, name: string, instanceType: string)
    | StartReady(p: string, v: nat, j: nat)
    | StartBootTimeout(p: string, v: nat, j: nat)
    | StartReaper(p: string, v: nat, j: nat, pods: seq<Pod>)
    | StartOrphanDrop(p: string, v: nat, j: nat)
    | OrphanTerminates(id: string, killed: bool)
    | TerminateReturns(i: nat, killed: bool, ok: bool)
    | Write(i: nat, outcome: Outcome)
    | Crash(i: nat)

  predicate HasVersion(s: State, p: string, v: nat) {
    p in s.logs && v < |s.logs[p]|
  }

  predicate HasEntry(s: State, p: string, v: nat, j: nat) {
    HasVersion(s, p, v) && j < |s.logs[p][v].obj.nodes|
  }

  predicate IsLaunching(s: State, i: nat) {
    i in s.jobs && s.jobs[i].phase.Launching? && s.jobs[i].edit.Record? && s.jobs[i].phase.remaining > 0
  }

  /** The pass has done all it does before its next status write. */
  predicate CanWrite(job: Job) {
    job.phase == Writing || job.phase == Launching(0)
  }

  predicate IsCurrent(s: State, job: Job) {
    job.pool in s.logs && |s.logs[job.pool]| == job.ver + 1
  }

  predicate CanTake(s: State, step: Step) {
    match step
    case Tick(_) => true
    case CreatePool(p, obj) => p !in s.logs && obj.activeNodes == 0 && obj.pendingNodes == 0 && obj.nodes == []
    case EditSpec(p, _) => p in s.logs && |s.logs[p]| > 0
    case InstanceDies(id) => id in s.cloud
    case StartProvision(p, v, batch, cap) => HasVersion(s, p, v) && ToLaunch(s.logs[p][v].obj, batch, cap) > 0
    case LaunchFails(i) => IsLaunching(s, i)
    case LaunchUnreported(i, id, _) => IsLaunching(s, i) && id !in s.cloud
    case LaunchOk(i, id, name, _) =>
      IsLaunching(s, i) && id !in s.cloud && forall k | k in s.cloud && s.cloud[k].reported :: s.cloud[k].name != name
    case StartReady(p, v, j) => HasEntry(s, p, v, j) && Enabled(s.logs[p][v].obj, Ready(j, s.now))
    case StartBootTimeout(p, v, j) => HasEntry(s, p, v, j) && Enabled(s.logs[p][v].obj, BootDrop(j, s.now))
    case StartReaper(p, v, j, pods) => HasEntry(s, p, v, j) && ReaperStart(s.logs[p][v].obj, j, pods, s.now).Some?
    case StartOrphanDrop(p, v, j) => HasEntry(s, p, v, j)
    case OrphanTerminates(id, _) => id in s.cloud && s.now - s.cloud[id].launchedAt >= DEFAULT_TIMEOUT
    case TerminateReturns(i, killed, ok) => i in s.jobs && s.jobs[i].phase == Calling && (ok ==> killed)
    case Write(i, outcome) => i in s.jobs && CanWrite(s.jobs[i]) && (outcome != Failed ==> IsCurrent(s, s.jobs[i]))
    case Crash(i) => i in s.jobs
  }

  function ToLaunch(o: Pool, batch: seq<Pod>, cap: Batch.Capacity): Int32 {
    Batch.NodesNeeded(batch, cap, CurrentNodes(o), o.spec.scaling.maxNodes)
  }

  /** The copy after the edit; an edit whose condition fails does nothing. */
  function Edited(o: Pool, e: Edit): Pool {
    if Enabled(o, e) then Apply(o, e) else o
  }

  function Begin(s: State, job: Job): State {
    s.(jobs := s.jobs[s.next := job], next := s.next + 1)
  }

  function Kill(cloud: map<string, Instance>, id: string): map<string, Instance> {
    if id in cloud then cloud[id := cloud[id].(live := false)] else cloud
  }

  /** A write that changes nothing makes no new version. */
  function Committed(h: Log, job: Job, i: nat): Log
    requires |h| > 0
  {
    if job.copy == Last(h).obj then h else h + [Version(job.copy, job.edit, Pass(i))]
  }

  /** The instance whose entry the edit takes out. */
  function TakenOut(h: Log, job: Job): set<string> {
    if job.edit.Drops() && job.ver < |h| && job.edit.j < |h[job.ver].obj.nodes|
    then {h[job.ver].obj.nodes[job.edit.j].instanceId} else {}
  }

  function Live(s: State, ids: set<string>): set<string> {
    set id | id in ids && id in s.cloud && s.cloud[id].live
  }

  /** The job for edit `e`, from the version that the pass has just written. */
  function NextJob(job: Job, e: Edit, ver: nat): Job {
    if e.Remove? then Job(job.pool, ver, job.copy, e, Calling)
    else Job(job.pool, ver, Edited(job.copy, e), e, Writing)
  }

  /** After an acknowledged write the pass goes on from the version it has just written, or ends. */
  function Continue(s: State, i: nat, ver: nat): map<nat, Job>
    requires i in s.jobs
  {
    match NextEdit(s.jobs[i].edit)
    case None => s.jobs - {i}
    case Some(e) => s.jobs[i := NextJob(s.jobs[i], e, ver)]
  }

  function CommitWrite(s: State, i: nat, acknowledged: bool): State
    requires i in s.jobs && IsCurrent(s, s.jobs[i])
  {
    var job := s.jobs[i];
    var h := s.logs[job.pool];
    var h' := Committed(h, job, i);
    s.(logs := s.logs[job.pool := h'],
       jobs := if acknowledged then Continue(s, i, |h'| - 1) else s.jobs - {i},
       dropped := s.dropped + Live(s, TakenOut(h, job)))
  }

  function Launched(job: Job): set<string> {
    if job.edit.Record? then Ids(job.edit.entries) else {}
  }

  function Abandon(s: State, i: nat): State
    requires i in s.jobs
  {
    s.(jobs := s.jobs - {i}, lost := s.lost + Launched(s.jobs[i]))
  }

  function Take(s: State, step: Step): State
    requires CanTake(s, step)
  {
    match step
    case Tick(d) => s.(now := s.now + d)
    case CreatePool(p, obj) => s.(logs := s.logs[p := [Version(obj, Created, User)]])
    case EditSpec(p, spec) =>
      var o := Last(s.logs[p]).obj;
      if o.spec == spec then s
      else s.(logs := s.logs[p := s.logs[p] + [Version(o.(spec := spec), SetSpec(spec), User)]])
    case InstanceDies(id) => s.(cloud := Kill(s.cloud, id))
    case StartProvision(p, v, batch, cap) =>
      var o := s.logs[p][v].obj;
      Begin(s, Job(p, v, o, Record([]), Launching(ToLaunch(o, batch, cap))))
    case LaunchFails(i) =>
      s.(jobs := s.jobs[i := s.jobs[i].(phase := Launching(s.jobs[i].phase.remaining - 1))])
    case LaunchUnreported(i, id, name) =>
      s.(cloud := s.cloud[id := Instance(name, s.jobs[i].pool, i, false, s.now, true)], lost := s.lost + {id})
    case LaunchOk(i, id, name, instanceType) =>
      var job := s.jobs[i];
      var x := Entry(name, id, instanceType, Pending, Stored(s.now), None, None);
      s.(cloud := s.cloud[id := Instance(name, job.pool, i, true, s.now, true)],
         jobs := s.jobs[i := Job(job.pool, job.ver, Append(job.copy, x), Record(job.edit.entries + [x]),
                                 Launching(job.phase.remaining - 1))])
    case StartReady(p, v, j) => Begin(s, StartEdit(s, p, v, Ready(j, s.now)))
    case StartBootTimeout(p, v, j) => Begin(s, Job(p, v, s.logs[p][v].obj, BootDrop(j, s.now), Calling))
    case StartReaper(p, v, j, pods) => Begin(s, StartEdit(s, p, v, ReaperStart(s.logs[p][v].obj, j, pods, s.now).value))
    case StartOrphanDrop(p, v, j) => Begin(s, StartEdit(s, p, v, OrphanDrop(j)))
    case OrphanTerminates(id, killed) => if killed then s.(cloud := Kill(s.cloud, id)) else s
    case TerminateReturns(i, killed, ok) => TerminateResult(s, i, killed, ok)
    case Write(i, outcome) =>
      if outcome == Failed then Abandon(s, i) else CommitWrite(s, i, outcome == Acknowledged)
    case Crash(i) => Abandon(s, i)
  }

  function StartEdit(s: State, p: string, v: nat, e: Edit): Job
    requires HasVersion(s, p, v)
  {
    Job(p, v, Edited(s.logs[p][v].obj, e), e, Writing)
  }

  /** The reaper gives up on an error; the boot-timeout path removes the entry whatever the answer. */
  function TerminateResult(s: State, i: nat, killed: bool, ok: bool): State
    requires i in s.jobs
  {
    var job := s.jobs[i];
    s.(cloud := if killed then Kill(s.cloud, Target(job)) else s.cloud,
       jobs := if ok || job.edit.BootDrop? then s.jobs[i := Called(job)] else s.jobs - {i},
       requests := if job.edit.Remove? then s.requests + [Request(i, job.pool, job.ver, Target(job))] else s.requests)
  }

  /** The instance that the pass asks to terminate. */
  function Target(job: Job): string {
    if job.edit.Drops() && job.edit.j < |job.copy.nodes| then job.copy.nodes[job.edit.j].instanceId else ""
  }

  /** The pass after its termination call: it takes the entry out of its copy. */
  function Called(job: Job): Job {
    job.(copy := Edited(job.copy, job.edit), phase := Writing)
  }

  // ----- Runs -----

  /** Every step of the run can be taken where it is taken. */
  ghost predicate Run(s: State, steps: seq<Step>)
    decreases |steps|
  {
    steps == [] || (CanTake(s, steps[0]) && Run(Take(s, steps[0]), steps[1..]))
  }

  ghost function After(s: State, steps: seq<Step>): State
    requires Run(s, steps)
    decreases |steps|
  {
    if steps == [] then s else After(Take(s, steps[0]), steps[1..])
  }
}
