/** The inductive invariant of the protocol. Each part takes only the pieces of state it speaks about. */
module ProtocolInvariant {
  import opened Api
  import opened PoolEdits
  import opened CommitLog
  import opened Protocol

  type Logs = map<string, Log>
  type Cloud = map<string, Instance>
  type Jobs = map<nat, Job>

  /** Every pool's log is a chain of edits, each made on the version just before it. */
  ghost predicate LogsOk(logs: Logs) {
    forall p | p in logs :: Legal(logs[p])
  }

  /** The pass's copy is its edit applied to the committed version it read. */
  ghost predicate JobOk(h: Log, i: nat, job: Job) {
    && job.ver < |h|
    && BasedOn(h[job.ver], i, job)
  }

  ghost predicate BasedOn(v: Version, i: nat, job: Job) {
    && Enabled(v.obj, job.edit)
    && !job.edit.SetSpec?
    && (job.phase == Calling ==> job.copy == v.obj && (job.edit.BootDrop? || job.edit.Remove?))
    && (job.phase != Calling ==> job.copy == Apply(v.obj, job.edit))
    && (job.phase.Launching? <==> job.edit.Record?)
    && (job.phase.Launching? ==> job.phase.remaining + |job.edit.entries| <= Room(v.obj))
    && Follows(v, Version(job.copy, job.edit, Pass(i)))
  }

  function Room(o: Pool): int {
    Wrap(o.spec.scaling.maxNodes - CurrentNodes(o))
  }

  ghost predicate JobsOk(logs: Logs, jobs: Jobs) {
    forall i | i in jobs :: jobs[i].pool in logs && JobOk(logs[jobs[i].pool], i, jobs[i])
  }

  ghost predicate Numbered(cloud: Cloud, jobs: Jobs, next: nat) {
    && (forall i | i in jobs :: i < next)
    && (forall a | a in cloud :: cloud[a].launcher < next)
  }

  /** Node names identify the launches that were reported. */
  ghost predicate NamesUnique(cloud: Cloud) {
    forall a, b | a in cloud && b in cloud && a != b && cloud[a].reported && cloud[b].reported ::
      cloud[a].name != cloud[b].name
  }

  ghost predicate PoolsKnown(logs: Logs, cloud: Cloud) {
    forall a | a in cloud :: cloud[a].pool in logs
  }

  /** The instances of pool `p` that were reported to pass `i`. */
  ghost predicate LaunchedBy(cloud: Cloud, i: nat, p: string, x: Entry) {
    && x.instanceId in cloud
    && cloud[x.instanceId].pool == p
    && cloud[x.instanceId].launcher == i
    && cloud[x.instanceId].reported
    && cloud[x.instanceId].name == x.name
  }

  /** What a provisioner pass has launched belongs to it alone. */
  ghost predicate HeldBy(logs: Logs, cloud: Cloud, gone: set<string>, i: nat, job: Job)
    requires job.edit.Record?
  {
    && Distinct(job.edit.entries)
    && (forall k | 0 <= k < |job.edit.entries| :: LaunchedBy(cloud, i, job.pool, job.edit.entries[k]))
    && Ids(job.edit.entries) !! gone
    && (job.pool in logs ==> Ids(job.edit.entries) !! EverIds(logs[job.pool]))
  }

  ghost predicate HeldOk(logs: Logs, cloud: Cloud, jobs: Jobs, gone: set<string>) {
    forall i | i in jobs && jobs[i].edit.Record? :: HeldBy(logs, cloud, gone, i, jobs[i])
  }

  ghost function NamesOf(cloud: Cloud, ids: set<string>): set<string> {
    set id | id in ids && id in cloud :: cloud[id].name
  }

  ghost predicate RecordedIn(h: Log, cloud: Cloud, lost: set<string>, p: string) {
    && EverIds(h) <= cloud.Keys
    && EverIds(h) !! lost
    && EverNames(h) <= NamesOf(cloud, EverIds(h))
    && forall id | id in EverIds(h) :: cloud[id].pool == p && cloud[id].reported
  }

  ghost predicate RecordedOk(logs: Logs, cloud: Cloud, lost: set<string>) {
    forall p | p in logs :: RecordedIn(logs[p], cloud, lost, p)
  }

  ghost function CurrentIds(logs: Logs, p: string): set<string> {
    if p in logs && |logs[p]| > 0 then Ids(Last(logs[p]).obj.nodes) else {}
  }

  ghost predicate Holds(jobs: Jobs, i: nat, id: string) {
    i in jobs && jobs[i].edit.Record? && id in Ids(jobs[i].edit.entries)
  }

  /** Every live instance is in a status, in a pass's hands, lost or dropped. */
  ghost predicate LiveOk(logs: Logs, cloud: Cloud, jobs: Jobs, gone: set<string>) {
    forall id | id in cloud && cloud[id].live ::
      id in CurrentIds(logs, cloud[id].pool) || Holds(jobs, cloud[id].launcher, id) || id in gone
  }

  ghost predicate DroppedFrom(logs: Logs, p: string, id: string) {
    p in logs && id in EverIds(logs[p]) && id !in CurrentIds(logs, p)
  }

  ghost predicate GoneOk(logs: Logs, cloud: Cloud, lost: set<string>, dropped: set<string>) {
    && lost <= cloud.Keys
    && forall id | id in dropped :: id in cloud && DroppedFrom(logs, cloud[id].pool, id)
  }

  /** A reaper pass past its termination call has a dead instance. */
  ghost predicate DeadOk(logs: Logs, cloud: Cloud, jobs: Jobs) {
    forall i | i in jobs && jobs[i].edit.Remove? && jobs[i].phase == Writing && jobs[i].pool in logs ::
      forall id | id in TakenOut(logs[jobs[i].pool], jobs[i]) :: id in cloud && !cloud[id].live
  }

  ghost predicate Marks(v: Version, r: Request) {
    && v.author == Pass(r.pass)
    && v.cause.MarkTerminating?
    && v.cause.j < |v.obj.nodes|
    && v.obj.nodes[v.cause.j].instanceId == r.id
  }

  /** Each reaper request follows its own commit of the entry as Terminating. */
  ghost predicate RequestsOk(logs: Logs, requests: seq<Request>) {
    && (forall k | 0 <= k < |requests| ::
          && requests[k].pool in logs
          && requests[k].ver < |logs[requests[k].pool]|
          && Marks(logs[requests[k].pool][requests[k].ver], requests[k]))
    && (forall a, b | 0 <= a < b < |requests| :: !SameTarget(requests[a], requests[b].pool, requests[b].ver))
  }

  ghost predicate SameTarget(a: Request, pool: string, ver: nat) {
    a.pool == pool && a.ver == ver
  }

  ghost predicate NotYetAsked(jobs: Jobs, requests: seq<Request>) {
    forall i, k | i in jobs && jobs[i].edit.Remove? && jobs[i].phase == Calling && 0 <= k < |requests| ::
      !SameTarget(requests[k], jobs[i].pool, jobs[i].ver)
  }

  /** Commits and passes form one chain per pool. */
  ghost predicate Chained(logs: Logs, jobs: Jobs, requests: seq<Request>) {
    LogsOk(logs) && JobsOk(logs, jobs) && RequestsOk(logs, requests) && NotYetAsked(jobs, requests)
  }

  /** Instances and passes are told apart by their numbers and names. */
  ghost predicate Identified(logs: Logs, cloud: Cloud, jobs: Jobs, next: nat) {
    Numbered(cloud, jobs, next) && NamesUnique(cloud) && PoolsKnown(logs, cloud) && DeadOk(logs, cloud, jobs)
  }

  /** No instance is in two places, and no live one is nowhere. */
  ghost predicate Accounted(logs: Logs, cloud: Cloud, jobs: Jobs, lost: set<string>, dropped: set<string>) {
    && HeldOk(logs, cloud, jobs, lost + dropped)
    && RecordedOk(logs, cloud, lost)
    && LiveOk(logs, cloud, jobs, lost + dropped)
    && GoneOk(logs, cloud, lost, dropped)
  }

  ghost predicate Inv(s: State) {
    && Chained(s.logs, s.jobs, s.requests)
    && Identified(s.logs, s.cloud, s.jobs, s.next)
    && Accounted(s.logs, s.cloud, s.jobs, s.lost, s.dropped)
  }
}
