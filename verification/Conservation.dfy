/** Where every launched instance is, in every reachable state, and which steps can lose track of one. */
module Conservation {
  import opened Api
  import opened PoolEdits
  import opened CommitLog
  import opened Protocol
  import opened ProtocolInvariant
  import opened ProtocolSteps
  import opened Guarantees

  /** The ways to be accounted for. */
  datatype Place =
    | InStatus(pool: string)   // named by the pool's committed status
    | InPass(id: nat)          // held by a provisioner pass that has not written yet
    | IsLost                   // launched, and no committed status ever named it
    | IsDropped                // taken out of a status while it was running

  ghost function Places(s: State, id: string): set<Place> {
    (set p | p in s.logs && id in CurrentIds(s.logs, p) :: InStatus(p)) +
    (set i | i in s.jobs && Holds(s.jobs, i, id) :: InPass(i)) +
    (if id in s.lost then {IsLost} else {}) +
    (if id in s.dropped then {IsDropped} else {})
  }

  // ----- No instance is in two places -----

  lemma StatusPlace(s: State, p: string, id: string)
    requires Inv(s) && p in s.logs && id in CurrentIds(s.logs, p)
    ensures id in EverIds(s.logs[p])
    ensures id in s.cloud && s.cloud[id].pool == p
    ensures id !in s.lost && id !in s.dropped
    ensures forall i :: !Holds(s.jobs, i, id)
  {
    hide Chained, Identified, LiveOk;
    EverContains(s.logs[p], |s.logs[p]| - 1);
    assert RecordedIn(s.logs[p], s.cloud, s.lost, p);
    forall i | Holds(s.jobs, i, id)
      ensures false
    {
      HeldNotRecorded(s.logs, s.cloud, s.jobs, s.lost + s.dropped, s.lost, i, p);
    }
  }

  lemma PassPlace(s: State, i: nat, id: string)
    requires Inv(s) && Holds(s.jobs, i, id)
    ensures id in s.cloud && s.cloud[id].launcher == i && s.cloud[id].pool == s.jobs[i].pool
    ensures id !in s.lost && id !in s.dropped
    ensures forall k | Holds(s.jobs, k, id) :: k == i
  {
    hide Chained, Identified, LiveOk, RecordedOk, GoneOk;
    HeldFacts(s.logs, s.cloud, s.lost + s.dropped, i, s.jobs[i]);
    forall k | Holds(s.jobs, k, id)
      ensures k == i
    {
      HeldFacts(s.logs, s.cloud, s.lost + s.dropped, k, s.jobs[k]);
    }
  }

  lemma LostNotDropped(s: State)
    requires Inv(s)
    ensures s.lost !! s.dropped
  {
    hide Chained, Identified, LiveOk, HeldOk, EverIds;
    forall id | id in s.dropped
      ensures id !in s.lost
    {
      assert RecordedIn(s.logs[s.cloud[id].pool], s.cloud, s.lost, s.cloud[id].pool);
    }
  }

  lemma OnePlace(s: State, id: string, a: Place, b: Place)
    requires Inv(s) && a in Places(s, id) && b in Places(s, id)
    ensures a == b
  {
    hide Inv, CurrentIds, Holds;
    LostNotDropped(s);
    if a.InStatus? {
      StatusPlace(s, a.pool, id);
      if b.InStatus? { StatusPlace(s, b.pool, id); }
    } else if b.InStatus? {
      StatusPlace(s, b.pool, id);
    } else if a.InPass? {
      PassPlace(s, a.id, id);
    } else if b.InPass? {
      PassPlace(s, b.id, id);
    }
  }

  lemma SomePlace(s: State, id: string) returns (a: Place)
    requires Inv(s) && id in s.cloud && s.cloud[id].live
    ensures a in Places(s, id)
  {
    hide Chained, Identified, HeldOk, RecordedOk, GoneOk, Holds;
    var p, i := s.cloud[id].pool, s.cloud[id].launcher;
    if id in CurrentIds(s.logs, p) {
      a := InStatus(p);
    } else if Holds(s.jobs, i, id) {
      assert i in s.jobs by { HolderKnown(s.jobs, i, id); }
      a := InPass(i);
    } else {
      a := if id in s.lost then IsLost else IsDropped;
    }
  }

  lemma HolderKnown(jobs: Jobs, i: nat, id: string)
    requires Holds(jobs, i, id)
    ensures i in jobs
  {
  }

  lemma PlaceOf(s: State, id: string)
    requires Inv(s) && id in s.cloud
    ensures forall a, b | a in Places(s, id) && b in Places(s, id) :: a == b
    ensures s.cloud[id].live ==> exists a :: Places(s, id) == {a}
  {
    hide Inv, Places;
    forall a, b | a in Places(s, id) && b in Places(s, id)
      ensures a == b
    {
      OnePlace(s, id, a, b);
    }
    if s.cloud[id].live {
      var a := SomePlace(s, id);
      assert Places(s, id) == {a};
    }
  }

  /** In every reachable state a live instance is in exactly one place, and a dead one in at most one. */
  lemma InstancesConserved(steps: seq<Step>, id: string)
    requires Run(START, steps) && id in After(START, steps).cloud
    ensures var s := After(START, steps);
      && (forall a, b | a in Places(s, id) && b in Places(s, id) :: a == b)
      && (s.cloud[id].live ==> exists a :: Places(s, id) == {a})
  {
    ReachableInv(steps);
    hide Run, After, Inv, Places;
    PlaceOf(After(START, steps), id);
  }

  /** A recorded instance is in the status of the pool it was launched for, in exactly one entry. */
  lemma RecordedOnce(steps: seq<Step>, p: string, id: string)
    requires Run(START, steps) && InStatus(p) in Places(After(START, steps), id)
    ensures var s := After(START, steps);
      && id in s.cloud && p == s.cloud[id].pool
      && p in s.logs && |s.logs[p]| > 0
      && exists j :: OnlyEntry(Last(s.logs[p]).obj.nodes, j, id)
  {
    var s := After(START, steps);
    ReachableInv(steps);
    hide Run, After, Inv, CurrentIds;
    assert p in s.logs && id in CurrentIds(s.logs, p);
    StatusPlace(s, p, id);
    StatusEntry(s, p, id);
  }

  ghost predicate OnlyEntry(nodes: seq<Entry>, j: nat, id: string) {
    && j < |nodes| && nodes[j].instanceId == id
    && forall k | 0 <= k < |nodes| && nodes[k].instanceId == id :: k == j
  }

  lemma StatusEntry(s: State, p: string, id: string)
    requires Inv(s) && p in s.logs && id in CurrentIds(s.logs, p)
    ensures |s.logs[p]| > 0 && exists j :: OnlyEntry(Last(s.logs[p]).obj.nodes, j, id)
  {
    ChainedLogs(s, p);
    hide Inv;
    var nodes := Last(s.logs[p]).obj.nodes;
    DistinctAt(s.logs[p], |s.logs[p]| - 1);
    var j := IdOfSome(nodes, id);
    forall k | 0 <= k < |nodes| && nodes[k].instanceId == id
      ensures k == j
    {
      SameEntry(nodes, j, k);
    }
    assert OnlyEntry(nodes, j, id);
  }

  // ----- How many live instances a pool can have -----

  ghost function Of(s: State, p: string, ids: set<string>): set<string> {
    set id | id in ids && id in s.cloud && s.cloud[id].pool == p
  }

  ghost function LiveIn(s: State, p: string): set<string> {
    set id | id in s.cloud && s.cloud[id].pool == p && s.cloud[id].live
  }

  ghost function HeldFor(s: State, p: string): set<string> {
    set id | id in s.cloud && s.cloud[id].pool == p && Holds(s.jobs, s.cloud[id].launcher, id)
  }

  lemma {:induction false} ElemsAtMost(s: seq<string>)
    ensures |Elems(s)| <= |s|
  {
    if s != [] {
      var t := s[..|s| - 1];
      ElemsAtMost(t);
      assert Elems(s) == Elems(t) + {s[|s| - 1]};
    }
  }

  lemma UnionAtMost(a: set<string>, b: set<string>, c: set<string>, d: set<string>, x: set<string>)
    requires x <= a + b + c + d
    ensures |x| <= |a| + |b| + |c| + |d|
  {
    SubsetAtMost(x, a + b + c + d);
  }

  lemma {:induction false} SubsetAtMost(a: set<string>, b: set<string>)
    requires a <= b
    ensures |a| <= |b|
    decreases |b|
  {
    if a != {} {
      var x :| x in a;
      SubsetAtMost(a - {x}, b - {x});
    }
  }

  /** The live instances of a pool: at most its peak limit, plus those held, lost and dropped. */
  lemma LiveInstancesBounded(steps: seq<Step>, p: string)
    requires Run(START, steps) && p in After(START, steps).logs
    ensures var s := After(START, steps);
      |LiveIn(s, p)| <= PeakMaxNodes(s.logs[p]) + |HeldFor(s, p)| + |Of(s, p, s.lost)| + |Of(s, p, s.dropped)|
  {
    var s := After(START, steps);
    ReachableInv(steps);
    ReachableLegal(steps, p);
    hide Run, After;
    var h := s.logs[p];
    LiveCovered(s, p);
    hide Inv;
    UnionAtMost(CurrentIds(s.logs, p), HeldFor(s, p), Of(s, p, s.lost), Of(s, p, s.dropped), LiveIn(s, p));
    CountersAgree(h);
    ElemsAtMost(IdSeq(Last(h).obj.nodes));
  }

  /** The same while the limit has never been above `m`: at most `m`, plus those held, lost and dropped. */
  lemma LiveInstancesWithin(steps: seq<Step>, p: string, m: nat)
    requires Run(START, steps) && p in After(START, steps).logs
    requires forall i | 0 <= i < |After(START, steps).logs[p]| ::
      After(START, steps).logs[p][i].obj.spec.scaling.maxNodes <= m
    ensures var s := After(START, steps);
      |set id | id in s.cloud && s.cloud[id].pool == p && s.cloud[id].live|
      <= m + |set id | id in s.cloud && s.cloud[id].pool == p && Holds(s.jobs, s.cloud[id].launcher, id)|
           + |set id | id in s.cloud && s.cloud[id].pool == p && id in s.lost|
           + |set id | id in s.cloud && s.cloud[id].pool == p && id in s.dropped|
  {
    var s := After(START, steps);
    LiveInstancesBounded(steps, p);
    hide Run, After, Holds;
    PeakAtMost(s.logs[p], m);
    assert Of(s, p, s.lost) == set id | id in s.cloud && s.cloud[id].pool == p && id in s.lost;
    assert Of(s, p, s.dropped) == set id | id in s.cloud && s.cloud[id].pool == p && id in s.dropped;
  }

  lemma LiveCovered(s: State, p: string)
    requires Inv(s)
    ensures LiveIn(s, p) <= CurrentIds(s.logs, p) + HeldFor(s, p) + Of(s, p, s.lost) + Of(s, p, s.dropped)
  {
    hide Chained, Identified, HeldOk, RecordedOk, GoneOk, Holds, CurrentIds;
  }

  // ----- Which steps lose track of an instance -----

  /** When the reaper writes its removal, the instance is dead. */
  lemma RemoveIsDead(s: State, i: nat)
    requires Inv(s) && i in s.jobs && s.jobs[i].edit.Remove? && s.jobs[i].phase == Writing
    ensures s.jobs[i].pool in s.logs && Live(s, TakenOut(s.logs[s.jobs[i].pool], s.jobs[i])) == {}
  {
    JobKnown(s, i);
    hide Chained, Accounted, JobOk, LogsOk, TakenOut;
  }

  lemma DropsIn(s: State, step: Step, id: string)
    requires Inv(s) && CanTake(s, step) && id in Take(s, step).dropped && id !in s.dropped
    ensures step.Write? && step.outcome != Failed && step.i in s.jobs
    ensures s.jobs[step.i].edit.BootDrop? || s.jobs[step.i].edit.OrphanDrop?
    ensures s.jobs[step.i].pool in s.logs && id in Live(s, TakenOut(s.logs[s.jobs[step.i].pool], s.jobs[step.i]))
  {
    hide Inv, Enabled, ReaperStart, Live;
    assert step.Write? && step.outcome != Failed;
    var job := s.jobs[step.i];
    OnlyDropsTake(s, s.logs[job.pool], job);
    if job.edit.Remove? {
      DropIsWriting(s, step.i);
      RemoveIsDead(s, step.i);
    }
  }

  lemma OnlyDropsTake(s: State, h: Log, job: Job)
    ensures !job.edit.Drops() ==> Live(s, TakenOut(h, job)) == {}
  {
  }

  lemma DropIsWriting(s: State, i: nat)
    requires Inv(s) && i in s.jobs && CanWrite(s.jobs[i]) && s.jobs[i].edit.Drops()
    ensures s.jobs[i].phase == Writing
  {
    hide Inv, LogsOk, Enabled, Apply;
    JobKnown(s, i);
  }

  /**
   The reaper never drops a running instance: a step that drops one is the committed write of a pass that
   removes an entry past its boot timeout or in orphan cleanup, and the instance is that entry's.
   */
  lemma WhoDrops(steps: seq<Step>, step: Step, id: string)
    requires Run(START, steps) && CanTake(After(START, steps), step)
    requires id in Take(After(START, steps), step).dropped && id !in After(START, steps).dropped
    ensures var s := After(START, steps);
      && step.Write? && step.outcome != Failed && step.i in s.jobs
      && (s.jobs[step.i].edit.BootDrop? || s.jobs[step.i].edit.OrphanDrop?)
      && s.jobs[step.i].pool in s.logs
      && id in Live(s, TakenOut(s.logs[s.jobs[step.i].pool], s.jobs[step.i]))
  {
    ReachableInv(steps);
    hide Run, After, Inv, CanTake, Take, TakenOut, Live;
    DropsIn(After(START, steps), step, id);
  }

  /**
   An instance is lost only by a launch call that fails after launching, or with a provisioner pass that
   crashes or whose status write fails.
   */
  lemma WhoLoses(steps: seq<Step>, step: Step, id: string)
    requires Run(START, steps) && CanTake(After(START, steps), step)
    requires var s := After(START, steps); id in Take(s, step).lost && id !in s.lost
    ensures var s := After(START, steps);
      || (step.LaunchUnreported? && id == step.id)
      || ((step.Crash? || (step.Write? && step.outcome == Failed)) && step.i in s.jobs && Holds(s.jobs, step.i, id))
  {
    hide Run, After, Enabled, ReaperStart;
  }
}
