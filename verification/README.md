# Cloud burst controller: the node lifecycle and the sizing pipeline

Four controllers share the status of a burst node pool: the provisioner launches instances and records them,
NodeReady makes booted nodes Running or times them out, the reaper tears idle nodes down in four committed
writes, and orphan detection removes what has lost its other half. Each reconcile pass reads a copy of a pool,
which may be out of date, edits the copy in place, and writes it back; every external call may fail. This
project states what the controllers guarantee together and proves it for all interleavings, stale reads, lost
writes and crashes. It does the same for the computation that decides how many nodes of which type to launch.

## How it is built

| modules | contents |
|---|---|
| `Api`, `PoolEdits` | the pool, pod and entry records, 32-bit arithmetic, stored timestamps; every edit a controller makes to its copy (`Edit`, `Enabled`, `Apply`) |
| `Controllers`, `Launch`, `Provisioner`, `Reaper`, `NodeReady`, `OrphanPass` | the reconcile passes in the form of the source: objects changed in place, loops with early returns, calls that may fail; each proved against the edits and against its log of calls |
| `Protocol` | the four controllers as a state machine over versioned pools, cloud instances and any number of passes in flight |
| `Refinement` | the passes and the state machine agree: each call of the code's launch, reaper and boot-timeout passes is a step of the protocol, and the protocol's reaper and boot-timeout passes do nothing that the code does not |
| `CommitLog`, `ProtocolInvariant`, `ProtocolSteps` | the histories of one pool, the inductive invariant, and that every step keeps it |
| `Guarantees`, `Conservation`, `Targets`, `Clock` | what holds in every reachable state, and what the recorded times mean by the clock |
| `OrphanEffects` | what one orphan pass achieves |
| `Sorting`, `Matching`, `Selector`, `Batch`, `Packing`, `Fallback` | routing a pod to a pool, filtering and sorting instance types, the node count and what it packs |

Results that describe a computation do so in terms of its data: of the fields of pods, pools and tables, of the
calls made and the pools written, and of the clock, rather than of the functions that the code is built from.

The central result is `CommitsAreSerial`: because a write commits only from the current version, each pool's
history is one enabled edit after another, each made on the version just before it, whatever the passes had
read. Counters, capacity, lifecycle, teardown and cooldown are then proved of such histories, and through them
of every run.

## What the code does not do

These obvious statements are false of the code. Each has its exact condition here.

- Orphan cleanup leaves `activeNodes` alone when it drops a Terminating entry, while the reaper counts such an
  entry as active until it removes it. `OrphanDropExact` says the counters stay exact if and only if the
  dropped entry is not Terminating, and `ReachableCounters` carries the number of such drops as the only
  discrepancy that can ever arise.
- The boot-timeout call goes out before its status write is checked. `BootTimeoutHits` says it hits an entry
  that is still Pending if and only if no commit since the pass's read has made the entry Running;
  `StaleBootTimeoutHitsRunning` is a run in which it goes to a live Running node. The reaper has no such gap
  (`ReaperHitsTerminating`).
- The pods-per-node estimate ignores GPUs. `GpuSafeExact` says for which types it is right on every batch.
- The list is sorted by CPU and then memory, so a fallback type can have less memory than the one the count was
  worked out for. `FallbackCountExact` says for which pairs of types the count is right on every batch. The
  repository's README (line 126) calls the later candidates larger.
- The architecture filter uses the first constraint in the batch. `ArchitectureForAll` says when that speaks for
  every pod.

Elsewhere the text of the repository and its code differ, and the model follows the code: README.md:17 and 99
speak of an annotation `burst.homelab.dev/enabled`, but matching.go:178-180 reads a label, and only to skip the
debounce; api/v1alpha1/burstnodepool_types.go:172 calls ActiveNodes the number of Running nodes, but it counts
every entry that is not Pending; batch.go:166 speaks of MiB, but line 173 scales to decimal megabytes
(`MemoryUnitsSound` shows that the comparison errs on the safe side).

## Assumptions

- A status write commits if and only if the version that was read is still the current one, and a successful
  write refreshes the writer's version (Kubernetes API Conventions, section "Concurrency Control and
  Consistency"). Spec and status share one version. A write that changes nothing makes no version. A write may
  commit although it is reported as failed, a launch may succeed although it is reported as failed, and a
  termination may take effect although it is reported as failed.
- Only these controllers write status; users create pools with an empty status and edit specs at any time.
  Pools are not deleted.
- Instance IDs are never reused, and node names never clash. Pass numbers stand for reconcile calls.
- A timestamp comes back from the API server with whole seconds. The cooldown is exact for the recorded
  timestamp; `CooldownByTheClock` says how that bounds the real distance between the two observations. A pass
  reads the clock once, except that the provisioner reads it after each launch.
- After `Status().Update` the reaper's pointer into the status list still points at the same entry of the
  refreshed copy.
- What a pass sees of nodes and pods is free: the protocol allows the ready, reaper and orphan passes on any
  entry of any committed version that meets the code's condition on the entry. The orphan boot timeout is the
  five-minute default that cmd/main.go leaves in force; in `OrphanPass` it is a parameter.
- An orphan pass uses one time throughout, and in `OrphanPass` its listings agree with the cluster, no one
  else acts during it, and a call that fails has no effect (the protocol has no such restriction).
- The reaper has a drainer, as cmd/main.go gives it one.
- Quantities are non-negative and counted in billionths. Strings are compared character by character. The
  capacity table is an arbitrary map; where a result needs them, capacities are non-negative and at most the
  largest 32-bit integer, and so is the length of a batch.

## Model

| member | source | states |
|---|---|---|
| `Guarantees.CommitsAreSerial` | internal/controller/provisioner_reconciler.go:112-208 | In every run, from any interleaving of stale passes, lost writes and crashes, each pool's committed versions form a chain of edits, each enabled on and applied to the version just before it |
| `ProtocolSteps.ReachableInv` | cmd/main.go:175-217 | All runs of the four controllers keep the whole invariant: legal histories, copies that are one edit of the version read, and every instance accounted for |
| `ProtocolSteps.StepKeeps` | cmd/main.go:175-217 | Every single step keeps the invariant, from any state that has it |
| `CommitLog.CountersAgree` | internal/controller/orphan_reconciler.go:129-142 | Over any legal history, PendingNodes is the number of Pending entries, ActiveNodes the rest plus the Terminating entries dropped by orphan cleanup, and the sum stays within the largest limit there has been |
| `CommitLog.DropKeepsCounters` | internal/controller/reaper_reconciler.go:171-176 | The counter that a removal lowers is at least one, so no clamp to zero ever fires |
| `Guarantees.ReachableCounters` | api/v1alpha1/burstnodepool_types.go:171-187 | Counter agreement for every committed version of every run, and no 32-bit overflow of the sum |
| `Guarantees.CountersCounted` | api/v1alpha1/burstnodepool_types.go:171-187 | The same with the counts written as cardinalities: of the positions that are Pending, and of the versions that dropped a Terminating entry |
| `Guarantees.RaisesStayWithinLimit` | internal/controller/provisioner_reconciler.go:117-122 | Only a recording commit raises the node count, and it leaves it at most the limit in force at that commit |
| `Guarantees.NodesWithinLimit` | internal/controller/batch.go:104-124 | While the limit has never exceeded m, no version has more than m entries or counts more, however many provisioner passes run at once |
| `Guarantees.OrphanDropExact` | internal/controller/orphan_reconciler.go:129-142 | Orphan cleanup keeps exact counters exact if and only if the entry is not Terminating |
| `CommitLog.EditForward` | internal/controller/reaper_reconciler.go:135-160 | Each entry after an edit is an earlier entry at the same or a later point of its life, or newly recorded |
| `CommitLog.EditIdentity` | internal/controller/provisioner_reconciler.go:195-201 | An edit removes the identity of at most the entry it drops, adds only those it records, and keeps names and IDs distinct |
| `Guarantees.LifecycleForward` | api/v1alpha1/burstnodepool_types.go:192-198 | Across a run, entries sharing an ID or a name are one entry with the same type and launch time, and its state only moves forward, state by state |
| `Guarantees.NeverReturns` | internal/controller/orphan_reconciler.go:125-147 | A name or ID that has left a status is never in a later version |
| `Guarantees.PoolsApart` | internal/controller/provisioner_reconciler.go:177-201 | Two pools never share an instance ID or a node name, over their whole histories |
| `CommitLog.TeardownConsecutive` | internal/controller/reaper_reconciler.go:135-160 | A Terminating commit is preceded by the Draining and Cordoned commits of the same pass, in consecutive versions that start from Running and change nothing else in the list |
| `Guarantees.TeardownIsExclusive` | internal/controller/reaper_reconciler.go:86-165 | Every termination the reaper asks for follows such a chain of its own commits on that very entry |
| `CommitLog.MarkedOnce` | internal/controller/reaper_reconciler.go:158-161 | An instance is committed as Terminating at most once in the life of its pool |
| `Guarantees.ReaperAsksOnce` | internal/controller/reaper_reconciler.go:162-164 | In any run the reaper requests each instance's termination at most once |
| `Guarantees.RequestsAreCalls` | internal/controller/reaper_reconciler.go:157-165 | The recorded requests are the reaper's termination calls, each with its target, and no others |
| `Targets.ReaperHitsTerminating` | internal/controller/reaper_reconciler.go:157-164 | However stale its view, the entry the reaper's call hits is Terminating in the current status, if it is there |
| `Targets.BootTimeoutHits` | internal/controller/provisioner_reconciler.go:360-379 | The boot-timeout call hits a Pending entry exactly when no commit since the read made it Running |
| `Targets.StaleBootTimeoutHitsRunning` | internal/controller/provisioner_reconciler.go:365-371 | A concrete run in which a stale read sends the call to a live Running node |
| `CommitLog.IdleSince` | internal/controller/reaper_reconciler.go:99-117 | A recorded idle timestamp was set by a pass that saw the node idle, and has stood without a reset since |
| `CommitLog.CooldownHonoured` | internal/controller/reaper_reconciler.go:119-137 | A Cordoned commit needs an unbroken recorded idle period of the effective cooldown, seen idle at both ends |
| `Guarantees.CooldownBeforeCordon` | internal/controller/reaper_reconciler.go:93-137 | The recorded-timestamp form of the cooldown law, for every Cordoned commit of every run |
| `Clock.TimesAreTheClock` | internal/controller/reaper_reconciler.go:108-137 | The time and the pods of every committed Ready, IdleReset, IdleStart, Cordon and boot-timeout edit are those of the one step of the run that began its author's pass |
| `Clock.CooldownByTheClock` | internal/controller/reaper_reconciler.go:93-137 | A Cordoned commit needs an earlier pass that saw nothing running on the node and recorded it, no busy pass committed since, a second pass that saw nothing running, and more clock time between the two than the cooldown (five minutes if unset) less one second |
| `Clock.LaunchTimesAreTheClock` | internal/controller/provisioner_reconciler.go:194-201 | In every committed status each entry's launch time is its instance's, to the second |
| `Clock.LaunchedAtStep` | internal/controller/provisioner_reconciler.go:185-201 | An instance's launch time is the time of the one step of the run that launched it |
| `Clock.BootTimeoutByTheClock` | internal/controller/provisioner_reconciler.go:360-371 | A boot-timeout pass terminates an instance only when more clock time has gone by since its launch than the timeout (five minutes if unset) less one second |
| `Conservation.InstancesConserved` | internal/controller/provisioner_reconciler.go:175-208 | In every reachable state a live instance is in exactly one place: one pool's status, one pass's hands, lost, or dropped |
| `Conservation.RecordedOnce` | internal/controller/provisioner_reconciler.go:194-202 | A recorded instance is in the status of its own pool and in exactly one entry |
| `Conservation.LiveInstancesBounded` | internal/controller/batch.go:115-118 | A pool's live instances number at most its peak limit plus those held, lost and dropped |
| `Conservation.LiveInstancesWithin` | internal/controller/batch.go:115-118 | The same for any bound on the limit, all sets written out |
| `Conservation.WhoDrops` | internal/controller/reaper_reconciler.go:162-179 | Only a committed boot-timeout or orphan removal can drop a live instance; the reaper never does |
| `Conservation.WhoLoses` | internal/controller/provisioner_reconciler.go:205-208 | An instance is lost only by an unreported launch, or with a provisioner pass that crashes or whose write fails |
| `PoolEdits.AppendAllRecords` | internal/controller/provisioner_reconciler.go:194-202 | Appending nodes and counting them one by one, wrapping each time, is recording them all at once |
| `PoolEdits.NextEditEnabled` | internal/controller/reaper_reconciler.go:135-172 | Each acknowledged teardown write enables the next one on the pool just written |
| `PoolEdits.ReaperStart` | internal/controller/reaper_reconciler.go:88-137 | The reaper starts an enabled edit on its own entry, with the pods it saw and the time of the pass, unless the entry is not Running or the node is idle within its cooldown |
| `Refinement.ReaperBegins` | internal/controller/reaper_reconciler.go:86-137 | On any version ever committed, the calls a reaper pass of the protocol may make are exactly those of the code, and it does not start exactly when the code makes none |
| `Refinement.NodeReadyBegins` | internal/controller/provisioner_reconciler.go:336-380 | The same for the ready and the boot-timeout pass, including when the latter starts at all |
| `Refinement.OrphanDropBegins` | internal/controller/orphan_reconciler.go:116-143 | An orphan cleanup may start from any version ever committed, with that version less the first entry of the name to write |
| `Refinement.EnvironmentIsFree` | cmd/main.go:175-217 | At any point time may pass, a spec be edited, an instance die, and the orphan pass terminate one launched at least five minutes ago |
| `Refinement.SpecIsEdited` | api/v1alpha1/burstnodepool_types.go:124-136 | An edited spec is the one that later passes can read |
| `Refinement.CallsMayFail` | internal/controller/provisioner_reconciler.go:185-208 | At any point a pass may crash, a launch fail or succeed unreported, and a write fail or commit unreported |
| `Refinement.WriteTaken` | internal/controller/reaper_reconciler.go:135-179 | From any state, the code's next write is a step of the protocol, whichever way it turns out, and what is left of the code's calls is still to come |
| `Refinement.TerminateTaken` | internal/controller/reaper_reconciler.go:162-172 | The same for a termination call, obeyed or not |
| `Refinement.OthersLeave` | cmd/main.go:175-217 | No step of another pass or of a user changes what a pass may still do |
| `Refinement.RunIsCode` | internal/controller/reaper_reconciler.go:60-183 | In any run, whatever else goes on in it, a pass makes the first calls of some pass of the code, and all of them unless it crashes or is not done |
| `Refinement.CodeIsARun` | internal/controller/reaper_reconciler.go:60-183 | From a current read, any sequence of calls and answers of the code is a run of the protocol |
| `Refinement.ReaperRunIsCode` | internal/controller/reaper_reconciler.go:60-183 | Protocol to code: after any run, whatever goes on beside it, a whole reaper pass makes the calls of the code over the same read, pods and time |
| `Refinement.ReaperCodeIsARun` | internal/controller/reaper_reconciler.go:60-183 | Code to protocol: every reaper pass of the code over a current read that makes a call is a run |
| `Refinement.BootTimeoutRunIsCode` | internal/controller/provisioner_reconciler.go:359-380 | The same, protocol to code, for a boot-timeout pass |
| `Refinement.BootTimeoutCodeIsARun` | internal/controller/provisioner_reconciler.go:359-380 | The same, code to protocol, for a boot-timeout pass |
| `Refinement.LaunchesAreARun` | internal/controller/provisioner_reconciler.go:176-203 | Any launches of new instances at non-decreasing times, within the count, are a run that leaves the pass holding exactly them |
| `Refinement.ProvisionerCodeIsARun` | internal/controller/provisioner_reconciler.go:117-208 | After the launches of a code pass the protocol's pass is about to write the very pool that the code writes |
| `Refinement.OrphanDropIsARun` | internal/controller/orphan_reconciler.go:116-150 | Taking a name out of a status, read current and written with success, is a run of the protocol's orphan cleanup on that pool alone |
| `Reaper.FindPoolAndNode` | internal/controller/reaper_reconciler.go:185-199 | Finds the first entry of that name in listing order, by pool and position, and nothing exactly when there is none |
| `Reaper.IsNodeIdle` | internal/controller/reaper_reconciler.go:201-227 | True if and only if every pod is owned by a daemon set or has phase Succeeded or Failed |
| `Reaper.Reconcile` | internal/controller/reaper_reconciler.go:60-183 | For a node labelled as managed, handles the first entry of its name and makes the calls that entry, pods and time call for (written out in FirstWritten and TeardownWritten); none without the label, an entry or the pods |
| `Reaper.FirstWritten` | internal/controller/reaper_reconciler.go:86-137 | The first call by cases: nothing for an entry that is not Running; the pool with the timestamp cleared for a busy node; with the time of the pass, to the second, for a newly idle one; nothing within the cooldown, five minutes if unset; the entry Cordoned from then on; and nothing else changed |
| `Reaper.TeardownWritten` | internal/controller/reaper_reconciler.go:131-182 | The calls of a teardown and the pools they write, one by one, each made exactly when the one it waits for was acknowledged, down to the removal with its clamped counter |
| `Reaper.TearDown` | internal/controller/reaper_reconciler.go:131-182 | In-place teardown of an entry: its calls and written pools are those of the Cordon, Drain, MarkTerminating and Remove edits in turn |
| `Reaper.TerminatesLast` | internal/controller/reaper_reconciler.go:135-164 | Whatever fails, at most one termination per pass, of the entry's instance, after cordon, drain and three acknowledged writes of its state |
| `NodeReady.Reconcile` | internal/controller/provisioner_reconciler.go:303-389 | For a node labelled as managed or named burst-, handles the first Pending entry of its name: ready by its Ready condition, timed out or left alone, with exactly the calls of that case |
| `NodeReady.Handle` | internal/controller/provisioner_reconciler.go:336-384 | The two in-place edits of entry and counters are the Ready and the BootDrop edit |
| `NodeReady.CallsWritten` | internal/controller/provisioner_reconciler.go:336-384 | The three cases written out: the pool with the entry Running, the time of the pass and both counters; a termination and the pool without the entry, past a timeout of five minutes if unset; or no call |
| `NodeReady.IsNodeReady` | internal/controller/provisioner_reconciler.go:404-411 | True if and only if some condition is Ready with status True |
| `Launch.LaunchWithFallback` | internal/controller/provisioner_reconciler.go:224-263 | For every sequence of answers, tries a prefix of the candidates in order, each with its own image or else the pool's, all but the last refused for capacity; succeeds exactly with the last call |
| `Launch.FallbackLaunchesOne` | internal/controller/provisioner_reconciler.go:251-262 | A fallback call launches at most one instance, the one it returns |
| `Launch.LaunchNodes` | internal/controller/provisioner_reconciler.go:176-203 | One turn for each node asked for, each patching a configuration and, if that works, trying the candidates; the copy gains one Pending entry per successful launch, in order, with its time, and its counter as many |
| `Launch.RoundLaunchesOne` | internal/controller/provisioner_reconciler.go:177-192 | A turn launches at most one instance, under its own name |
| `Provisioner.CollectBatch` | internal/controller/provisioner_reconciler.go:124-134 | The batch is the sublist of unschedulable pods that match the pool |
| `Provisioner.BatchHolds` | internal/controller/provisioner_reconciler.go:129-134 | Each unschedulable matching pod is in the batch as often as it is listed, and no other pod is |
| `Provisioner.PoolFor` | internal/controller/provisioner_reconciler.go:78-105 | There is no pool for the pod exactly when it is schedulable, within its debounce or matched by none; otherwise it is the one that routing gives |
| `Provisioner.Debounced` | internal/controller/provisioner_reconciler.go:83-90 | A pod waits if and only if bursting is not enabled by its label and it has no unschedulable time or one less than the period ago, thirty seconds if unset |
| `Provisioner.SinceFirst` | internal/controller/provisioner_reconciler.go:413-422 | The unschedulable time is that of the first condition that says so, and none without one |
| `Provisioner.BatchCoversRouted` | internal/controller/provisioner_reconciler.go:98-134 | Every listed unschedulable pod routed to the pool among all pools is in the batch collected against that pool alone |
| `Provisioner.BatchMakesProgress` | internal/controller/provisioner_reconciler.go:117-152 | If such a pod is listed and a slot is free, the pass asks for at least one node |
| `Provisioner.Reconcile` | internal/controller/provisioner_reconciler.go:66-220 | Routes the pod exactly when it is unschedulable, past its debounce and some pool matches; goes on exactly when it is not marked as provisioned for, the pool can be read again and has a free slot, and pods and configuration can be read; then selects types for the batch, makes one launch turn per node that the count for the head type gives, writes the pool with exactly the launched nodes recorded, and annotates the pod if that was acknowledged |
| `Provisioner.LaunchCallsMean` | internal/controller/provisioner_reconciler.go:175-217 | The launch turns, the written pool and the annotation of a pass, one by one |
| `Provisioner.LaunchAndWrite` | internal/controller/provisioner_reconciler.go:175-208 | The launches and the one write are an enabled Record edit of the pool read |
| `OrphanPass.Cluster.RemoveFromPoolStatus` | internal/controller/orphan_reconciler.go:116-150 | Takes out the first entry of that name in the first pool that has one; a failed write leaves all statuses as they were |
| `OrphanPass.DropEntry` | internal/controller/orphan_reconciler.go:129-142 | The splice and the counter by state, with both clamps, are the OrphanDrop edit |
| `OrphanPass.TerminateOrphans` | internal/controller/orphan_reconciler.go:81-98 | The first loop terminates each instance that has no node and was launched at least the boot timeout ago, and takes out its name whatever came of that, in listing order; only calls that succeed have an effect |
| `OrphanPass.DeleteOrphans` | internal/controller/orphan_reconciler.go:100-111 | The second loop deletes each node without an instance, and takes out its name whatever came of that, in listing order; only calls that succeed have an effect |
| `OrphanPass.Reconcile` | internal/controller/orphan_reconciler.go:51-114 | The calls of both loops and the cluster they leave, for every way in which calls may fail; nothing if a listing fails |
| `OrphanEffects.PassCalled` | internal/controller/orphan_reconciler.go:81-111 | A call is made if and only if it is for an instance without a node and launched at least the boot timeout ago, or for a node without an instance |
| `OrphanEffects.MatchedUntouched` | internal/controller/orphan_reconciler.go:81-104 | Whatever fails, every instance that has its node or was launched less than the boot timeout ago stays, so does every node that has its instance, and nothing is made up |
| `OrphanEffects.OnePassSettles` | internal/controller/orphan_reconciler.go:81-111 | When every call succeeds, the instances left are exactly those with a node or younger than the boot timeout, the nodes left exactly those with an instance, and this still holds of what is left |
| `OrphanEffects.SettledStays` | internal/controller/orphan_reconciler.go:81-111 | A further pass at the same time makes no call and changes nothing |
| `OrphanEffects.DropEachFilters` | internal/controller/orphan_reconciler.go:116-150 | With distinct names, removing names one by one is filtering every pool's list by all of them, order preserved |
| `OrphanEffects.StatusesFiltered` | internal/controller/orphan_reconciler.go:82-111 | Whatever fails, each list is the old one without the names taken out, and exact counters change by exactly the removed entries, up to the Terminating ones |
| `OrphanEffects.DropsAreOrphans` | internal/controller/orphan_reconciler.go:82-111 | A name is taken out only if it is that of an instance without a node and past the boot timeout or of a node without an instance; each such name is called for, and taken out when no call fails |
| `Matching.PodMatchesPool` | internal/controller/matching.go:65-90 | True if and only if every toleration, affinity and resource rule is met |
| `Matching.MatchesMeans` | internal/controller/matching.go:65-174 | Matching written out over the pod's tolerations, required terms and containers and the pool's rules |
| `Matching.IsPodUnschedulable` | internal/controller/matching.go:183-192 | True if and only if some condition says PodScheduled, False, Unschedulable |
| `Matching.PodHasToleration` | internal/controller/matching.go:118-132 | True if and only if some toleration of the pod satisfies the rule |
| `Matching.PodHasNodeAffinityLabels` | internal/controller/matching.go:135-152 | True if and only if one term of the pod's required affinity asks for every label |
| `Matching.TermMatchesLabels` | internal/controller/matching.go:155-174 | True if and only if each label is asked for by some expression, in any order of the map |
| `Matching.PodMatchesResourceRule` | internal/controller/matching.go:93-115 | True if and only if the resource is or is not mentioned, as the operator says; false for other operators |
| `Matching.FirstBest` | internal/controller/matching.go:43-54 | The scan of a sorted list keeps a match that beats every other match |
| `Matching.MatchPodToPool` | internal/controller/matching.go:35-62 | Nothing exactly when no pool matches; otherwise a match with the most labels and resource rules together and, among equals, none whose name is smaller at the first differing character |
| `Matching.RoutedMeans` | internal/controller/matching.go:28-62 | The choice written out in sizes of rules and characters of names |
| `Matching.BeforeIsFirstDifference` | internal/controller/matching.go:39-41 | The order of names is decided by the first character in which they differ |
| `Matching.RoutingOrderIndependent` | internal/controller/matching.go:28-55 | For every order of the listing the choice ties in score and name; with distinct names it is the same pool |
| `Sorting.Sort` | internal/controller/instance_selector.go:76-87 | Any strict weak order is sorted in place into an ordered permutation |
| `Selector.ByCapacityIsOrder` | internal/controller/instance_selector.go:77-87 | The comparator is a strict weak order |
| `Selector.SelectInstanceTypes` | internal/controller/instance_selector.go:30-90 | The result is a permutation of the kept candidates with known types before unknown ones, by CPU, and by memory where the CPU is the same |
| `Selector.Listed` | api/v1alpha1/burstnodepool_types.go:103-113 | The candidates are the listed types, or else the single one, or else none |
| `Selector.MaxPodRequirements` | internal/controller/instance_selector.go:94-109 | The three maxima over the batch |
| `Selector.PodGpuRequests` | internal/controller/instance_selector.go:112-120 | The sum of the containers' GPU requests |
| `Selector.RequiredArchitecture` | internal/controller/instance_selector.go:124-142 | The first value of the first architecture requirement in pod, term and expression order; empty exactly without one or with an empty value |
| `Selector.KeptMeansTakesAll` | internal/controller/instance_selector.go:54-71 | A known type is kept if and only if it has the CPU, memory and GPUs of each pod and, by its own setting or else the table's, the required architecture |
| `Selector.SelectionIsTheFits` | internal/controller/instance_selector.go:30-90 | The selection holds each candidate as often as the pool lists it if it is unknown or fits every pod, and otherwise not at all |
| `Selector.HeadIsSmallest` | internal/controller/instance_selector.go:76-89 | Whenever some known listed type fits, the head is known, has the least CPU of the fits, and the least memory of those with its CPU |
| `Selector.SelectionAntitone` | internal/controller/instance_selector.go:40-89 | Adding pods never adds a candidate, and never gives a known head less CPU, or as much CPU and less memory |
| `Selector.ArchitectureForAll` | internal/controller/instance_selector.go:122-142 | A kept type meets every pod's own constraint if and only if the pods agree on one, with the empty string as the one special case |
| `Batch.PodResourceRequests` | internal/controller/batch.go:167-177 | The rounded-up CPU and memory sums over the containers |
| `Batch.ContainerAmounts` | internal/controller/batch.go:169-174 | A container counts for its requests of CPU, memory and GPUs, rounded up to the unit, and for nothing that it does not request |
| `Batch.PodAmounts` | internal/controller/batch.go:167-177 | A pod counts for each of its containers once |
| `Batch.OnlyRequestsCount` | internal/controller/batch.go:167-177 | Pods whose containers request the same count for the same, whatever their limits |
| `Batch.EstimatePodsPerNode` | internal/controller/batch.go:128-164 | The estimate with its 32-bit truncations |
| `Batch.CalculateNodesNeeded` | internal/controller/batch.go:104-124 | The clipped count with its 32-bit arithmetic |
| `Packing.PerNodeLargest` | internal/controller/batch.go:144-163 | The estimate is the largest number of pods of the batch's maximal requests that fit a node |
| `Packing.PerNodeOtherwise` | internal/controller/batch.go:144-163 | One pod to a node when nothing is requested or some pod does not fit |
| `Packing.ChunksFitExactly` | internal/controller/batch.go:128-164 | All consecutive chunks of the estimated size fit a node if and only if every pod fits one alone |
| `Packing.CountIsChunks` | internal/controller/batch.go:109-123 | The count is the number of those chunks, clipped to the free slots |
| `Packing.NodesNeededPack` | internal/controller/batch.go:99-124 | The nodes asked for take all the pods, or all that the free slots allow, and fewer would not do at that chunk size |
| `Packing.PacksOnlyIfEachFits` | internal/controller/batch.go:126-164 | No number of nodes takes a batch with a pod that does not fit one alone |
| `Packing.MemoryUnitsSound` | internal/controller/batch.go:155-176 | Pods accepted by rounding up to megabytes and comparing with mebibytes request, container by container, no more bytes than the node has |
| `Packing.PodBytesAre` | internal/controller/batch.go:172-174 | A pod's bytes are those that its containers request, added up |
| `Fallback.EachCandidateTakesEach` | internal/controller/instance_selector.go:63-71 | Every known candidate takes each pod alone: CPU, memory and GPUs |
| `Fallback.LaterHasCpu` | internal/controller/instance_selector.go:76-87 | A known later candidate has at least the head's CPU, and makes the head known |
| `Fallback.SizingPacks` | internal/controller/provisioner_reconciler.go:136-149 | For any selection with a known head, the nodes asked for pack the batch on the head and on every known later type with at least its memory |
| `Fallback.FallbackCountExact` | internal/controller/provisioner_reconciler.go:233-261 | Among types with at least the head's CPU, the head's count is right for every batch if and only if the memory is no less, or zero |
| `Fallback.GpuSafeExact` | internal/controller/batch.go:126-164 | The estimate respects GPUs on every batch if and only if the type has none or can never take two pods |

## Left out

- AWS calls, tags, subnets and error unwrapping (internal/cloud/aws/ec2.go): a launch or termination succeeds or fails at will; the parser of capacity errors is not modelled.
- The cordon and drain library (internal/drain/drain.go): the reaper ignores its errors, so both are calls without an answer.
- Talos patching and base64, and the reading of the secret: steps that may fail.
- Manager set-up, event filters, requeue delays, logging and metrics; which labels are copied to a node that became ready, and whether that or a pod's annotation succeeds (each is logged as one call).
- Errors of reads: a failed listing of pools by the provisioner, the reaper or NodeReady ends the pass without a call and is not distinguished from an empty listing, nor a failed read of a pool from a pool that is gone, nor a pod or node that cannot be read from one that is not to be handled.
- Contents of the capacity table, and the random name suffix (names are assumed new).
- Overflow of 64-bit sums of requests, and the rounding of `math.Ceil` on floating point: the ceiling is exact.
- Kubernetes nodes in the protocol: what a pass sees of them is free, which allows more behaviours than there are.
- Liveness: an entry left Cordoned, Draining or Terminating by an interrupted reaper is never retried, so only safety and the effect of one orphan pass are stated.
- The order in which the unstable sort leaves ties: `Sort` orders by any correct method, here insertion.
- Orphan passes are related to the protocol one status removal at a time (`OrphanDropIsARun`); which entries and instances a pass picks is left open there, and stated in `OrphanPass`.
- Provisioner passes are related in one direction only, from code to protocol; the protocol's copy is always its edit applied to the version read, which is part of the invariant.
- Batch.PodResourceRequests: sums are unbounded where the code's are 64-bit.
- Batch.EstimatePodsPerNode: the capacity's sizes are unbounded integers; the truncation of the quotient to 32 bits is modelled.
- OrphanPass.Reconcile: an orphan pass is taken with current listings and without interference, because its promise of one-pass cleaning holds only then; under interference its effects are the protocol's.
