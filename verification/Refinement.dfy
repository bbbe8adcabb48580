/**
 The reconcile passes and the protocol's passes are the same: every sequence of calls that the code of the
 reaper or of the NodeReady controller can make is taken, call by call and under any interference, by a pass
 of the protocol, and a protocol pass makes no other calls.
 */
module Refinement {
  import opened Api
  import opened PoolEdits
  import opened CommitLog
  import opened Protocol
  import opened ProtocolInvariant
  import opened ProtocolSteps
  import opened Controllers
  import opened Reaper
  import opened NodeReady
  import Batch
  import opened Launch
  import Provisioner
  import OrphanPass

  // ----- A pass and the calls it still has to make -----

  /** The termination call of a pass, and what follows it. */
  ghost predicate CallThenWrite(t: seq<Action>, o: Pool, e: Edit, name: string)
    requires Enabled(o, e)
  {
    && (e.BootDrop? || e.Remove?)
    && |t| > 0 && t[0].Terminated? && t[0].id == o.nodes[e.j].instanceId
    && if e.BootDrop? then CallsFrom(t[1..], o, e, name)
       else if !t[0].ok then |t| == 1
       else |t| > 1 && t[1] == DeletedNode(name) && CallsFrom(t[2..], o, e, name)
  }

  ghost predicate JobAwaits(o: Pool, job: Job, t: seq<Action>, name: string) {
    && Enabled(o, job.edit)
    && match job.phase
       case Writing => job.copy == Apply(o, job.edit) && CallsFrom(t, o, job.edit, name)
       case Calling => job.copy == o && CallThenWrite(t, o, job.edit, name)
       case Launching(_) => false
  }

  /** The calls `t` are what pass `i` may still do, given how they turn out. */
  ghost predicate Awaits(s: State, i: nat, t: seq<Action>, name: string) {
    && i in s.jobs
    && HasVersion(s, s.jobs[i].pool, s.jobs[i].ver)
    && JobAwaits(s.logs[s.jobs[i].pool][s.jobs[i].ver].obj, s.jobs[i], t, name)
  }

  /** The pass has ended, or still has the calls `t` to make. */
  ghost predicate Carried(s: State, i: nat, t: seq<Action>, name: string) {
    if t == [] then i !in s.jobs else Awaits(s, i, t, name)
  }

  predicate IsNodeCall(a: Action) {
    a.CordonedNode? || a.DrainedNode? || a.DeletedNode? || a.LabelledNode?
  }

  /** The calls after the first one, up to the node object that may be touched in between. */
  function Rest(t: seq<Action>): seq<Action>
    requires |t| > 0
  {
    if |t| > 1 && IsNodeCall(t[1]) then t[2..] else t[1..]
  }

  // ----- The first step -----

  /** On any version ever committed, the reaper's code and the protocol's reaper begin alike, or do nothing alike. */
  lemma ReaperBegins(s: State, p: string, v: nat, j: nat, pods: seq<Pod>, t: seq<Action>, name: string)
    requires p in s.logs && v < |s.logs[p]| && j < |s.logs[p][v].obj.nodes|
    ensures CanTake(s, StartReaper(p, v, j, pods)) ==>
      (ReaperCalls(t, s.logs[p][v].obj, j, pods, s.now, name)
       <==> Awaits(Take(s, StartReaper(p, v, j, pods)), s.next, t, name))
    ensures !CanTake(s, StartReaper(p, v, j, pods)) ==>
      (ReaperCalls(t, s.logs[p][v].obj, j, pods, s.now, name) <==> t == [])
  {
    hide CallsFrom, Apply, Enabled;
  }

  /** So do NodeReady's code and the protocol's ready and boot-timeout passes. */
  lemma NodeReadyBegins(s: State, p: string, v: nat, j: nat, t: seq<Action>, name: string)
    requires p in s.logs && v < |s.logs[p]| && j < |s.logs[p][v].obj.nodes|
    requires s.logs[p][v].obj.nodes[j].state == Pending
    ensures CanTake(s, StartReady(p, v, j))
    ensures NodeCalls([LabelledNode(name)] + t, s.logs[p][v].obj, j, name, true, s.now)
      <==> Awaits(Take(s, StartReady(p, v, j)), s.next, t, name)
    ensures var o := s.logs[p][v].obj;
      CanTake(s, StartBootTimeout(p, v, j)) <==>
        s.now - o.nodes[j].launchedAt
          > if o.spec.scaling.bootTimeout == 0 then 300_000_000_000 else o.spec.scaling.bootTimeout
    ensures CanTake(s, StartBootTimeout(p, v, j)) ==>
      (NodeCalls(t, s.logs[p][v].obj, j, name, false, s.now)
       <==> Awaits(Take(s, StartBootTimeout(p, v, j)), s.next, t, name))
  {
    hide Apply;
  }

  /** And so does an orphan cleanup: it may start from any version, with its drop as the edit to write. */
  lemma OrphanDropBegins(s: State, p: string, v: nat, name: string)
    requires p in s.logs && v < |s.logs[p]| && OrphanPass.HasName(s.logs[p][v].obj.nodes, name)
    ensures var o := s.logs[p][v].obj; var start := StartOrphanDrop(p, v, OrphanPass.IndexOf(o.nodes, name));
      && CanTake(s, start)
      && var s' := Take(s, start);
      && s.next in s'.jobs
      && s'.jobs[s.next].pool == p && s'.jobs[s.next].ver == v && s'.jobs[s.next].phase == Writing
      && s'.jobs[s.next].copy == OrphanPass.DropOne(o, name)
  {
  }

  /**
   At any point time passes, a user edits a spec, an instance dies, or the orphan pass terminates one that was
   launched at least five minutes ago.
   */
  lemma EnvironmentIsFree(s: State, p: string, spec: Spec, id: string, d: nat)
    requires p in s.logs ==> |s.logs[p]| > 0
    ensures id in s.cloud && s.now - s.cloud[id].launchedAt >= 300_000_000_000 ==>
      CanTake(s, OrphanTerminates(id, true)) && !Take(s, OrphanTerminates(id, true)).cloud[id].live
    ensures CanTake(s, Tick(d)) && Take(s, Tick(d)).now == s.now + d
    ensures p in s.logs ==> CanTake(s, EditSpec(p, spec))
    ensures id in s.cloud ==> CanTake(s, InstanceDies(id)) && !Take(s, InstanceDies(id)).cloud[id].live
  {
    hide Enabled, Apply, Idle, Live, TakenOut, ToLaunch, Append, Edited, ReaperStart;
  }

  /** An edited spec is what every later pass can read. */
  lemma SpecIsEdited(s: State, p: string, spec: Spec)
    requires p in s.logs && |s.logs[p]| > 0 && CanTake(s, EditSpec(p, spec))
    ensures var s' := Take(s, EditSpec(p, spec));
      p in s'.logs && |s'.logs[p]| > 0 && Last(s'.logs[p]).obj == Last(s.logs[p]).obj.(spec := spec)
  {
    hide Enabled, Apply;
  }

  /** At any point a pass may crash; a launch may fail, or succeed unreported; and a write may fail, or commit unreported. */
  lemma CallsMayFail(s: State, i: nat, id: string, name: string)
    requires i in s.jobs
    ensures CanTake(s, Crash(i))
    ensures s.jobs[i].edit.Record? && s.jobs[i].phase.Launching? && s.jobs[i].phase.remaining > 0 ==>
      && CanTake(s, LaunchFails(i))
      && (id !in s.cloud ==>
            && CanTake(s, LaunchUnreported(i, id, name))
            && id in Take(s, LaunchUnreported(i, id, name)).cloud
            && Take(s, LaunchUnreported(i, id, name)).cloud[id].live)
    ensures s.jobs[i].phase == Writing || s.jobs[i].phase == Launching(0) ==> CanTake(s, Write(i, Failed))
    ensures s.jobs[i].phase == Writing || s.jobs[i].phase == Launching(0) ==>
      s.jobs[i].pool in s.logs && |s.logs[s.jobs[i].pool]| == s.jobs[i].ver + 1 ==> CanTake(s, Write(i, Unacknowledged))
  {
    hide Enabled, Apply, Idle, Live, TakenOut, ToLaunch, Append, Edited, ReaperStart;
  }

  // ----- Each further step -----

  /** After an acknowledged write of a teardown the code goes on with the next edit, on the pool it has written. */
  lemma NextAwaits(o: Pool, job: Job, t: seq<Action>, name: string, ver: nat)
    requires job.phase == Writing && JobAwaits(o, job, t, name) && t[0].ok && NextEdit(job.edit).Some?
    ensures Rest(t) != [] && JobAwaits(job.copy, NextJob(job, NextEdit(job.edit).value, ver), Rest(t), name)
  {
    if job.edit.MarkTerminating? {
      TerminateNext(o, job.edit.j, t, name);
    } else {
      hide Apply, Enabled;
      assert Rest(t) == t[2..] && CallsFrom(t[2..], job.copy, NextEdit(job.edit).value, name);
    }
  }

  lemma TerminateNext(o: Pool, j: nat, t: seq<Action>, name: string)
    requires Enabled(o, MarkTerminating(j)) && CallsFrom(t, o, MarkTerminating(j), name) && t[0].ok
    ensures Rest(t) == t[1..] && |t| > 1 && Enabled(Apply(o, MarkTerminating(j)), Remove(j))
    ensures CallThenWrite(t[1..], Apply(o, MarkTerminating(j)), Remove(j), name)
  {
    var u := t[1..];
    assert u[0] == t[1];
    if t[1].ok {
      assert u[1] == t[2] && u[2..] == t[3..];
    }
  }

  /** After the last write it ends. */
  lemma NothingNext(o: Pool, e: Edit, t: seq<Action>, name: string)
    requires Enabled(o, e) && CallsFrom(t, o, e, name) && (!t[0].ok || NextEdit(e) == None)
    ensures Rest(t) == []
  {
  }

  /** The protocol's pass, after an acknowledged write, reads the version it has just written. */
  lemma GoesOn(s: State, i: nat)
    requires i in s.jobs && CanTake(s, Write(i, Acknowledged)) && NextEdit(s.jobs[i].edit).Some?
    ensures var s', job := Take(s, Write(i, Acknowledged)), s.jobs[i];
      && i in s'.jobs && s'.jobs[i].pool == job.pool
      && s'.jobs[i] == NextJob(job, NextEdit(job.edit).value, s'.jobs[i].ver)
      && IsCurrent(s', s'.jobs[i])
      && s'.logs[job.pool][s'.jobs[i].ver].obj == job.copy
  {
    hide Apply, Enabled, Edited, Live, TakenOut;
  }

  lemma Ends(s: State, i: nat, outcome: Outcome)
    requires i in s.jobs && CanTake(s, Write(i, outcome))
    requires outcome != Acknowledged || NextEdit(s.jobs[i].edit) == None
    ensures i !in Take(s, Write(i, outcome)).jobs
  {
    hide Apply, Enabled, Live, TakenOut;
  }

  lemma FirstWrite(o: Pool, job: Job, t: seq<Action>, name: string)
    requires job.phase == Writing && JobAwaits(o, job, t, name)
    ensures |t| > 0 && t[0].Wrote? && t[0].obj == job.copy
  {
    hide Apply, Enabled;
  }

  /** The next write of the code is a step of the protocol, whichever way it turns out. */
  lemma WriteTaken(s: State, i: nat, t: seq<Action>, name: string, outcome: Outcome)
    requires Awaits(s, i, t, name) && s.jobs[i].phase == Writing
    requires |t| > 0 && t[0].Wrote? ==> t[0].ok == (outcome == Acknowledged)
    requires outcome != Failed ==> IsCurrent(s, s.jobs[i])
    ensures CanTake(s, Write(i, outcome)) && |t| > 0 && t[0] == Wrote(s.jobs[i].copy, outcome == Acknowledged)
    ensures Carried(Take(s, Write(i, outcome)), i, Rest(t), name)
  {
    var job := s.jobs[i];
    var o := s.logs[job.pool][job.ver].obj;
    FirstWrite(o, job, t, name);
    hide Apply, Enabled, CallThenWrite, Take, CallsFrom;
    if outcome != Acknowledged || NextEdit(job.edit) == None {
      NothingNext(o, job.edit, t, name);
      Ends(s, i, outcome);
    } else {
      GoesOn(s, i);
      NextAwaits(o, job, t, name, Take(s, Write(i, Acknowledged)).jobs[i].ver);
      hide JobAwaits, Rest, NextJob;
    }
  }

  lemma TerminateGives(s: State, i: nat, killed: bool, ok: bool)
    requires CanTake(s, TerminateReturns(i, killed, ok))
    ensures var s', job := Take(s, TerminateReturns(i, killed, ok)), s.jobs[i];
      && s'.logs == s.logs
      && (if ok || job.edit.BootDrop? then i in s'.jobs && s'.jobs[i] == Called(job) else i !in s'.jobs)
  {
  }

  lemma TerminateTaken(s: State, i: nat, t: seq<Action>, name: string, killed: bool, ok: bool)
    requires Awaits(s, i, t, name) && s.jobs[i].phase == Calling && (ok ==> killed)
    requires |t| > 0 && t[0].Terminated? ==> t[0].ok == ok
    ensures CanTake(s, TerminateReturns(i, killed, ok)) && |t| > 0 && t[0] == Terminated(Target(s.jobs[i]), ok)
    ensures Carried(Take(s, TerminateReturns(i, killed, ok)), i, Rest(t), name)
  {
    hide Apply;
  }

  // ----- Other passes and other writers -----

  predicate Own(step: Step, i: nat) {
    match step
    case LaunchFails(k) => k == i
    case LaunchUnreported(k, _, _) => k == i
    case LaunchOk(k, _, _, _) => k == i
    case TerminateReturns(k, _, _) => k == i
    case Write(k, _) => k == i
    case Crash(k) => k == i
    case _ => false
  }

  /** A step only ever appends to a log. */
  lemma StepGrows(s: State, step: Step, p: string)
    requires CanTake(s, step) && p in s.logs && |s.logs[p]| > 0
    ensures p in Take(s, step).logs && |s.logs[p]| <= |Take(s, step).logs[p]|
    ensures Take(s, step).logs[p][..|s.logs[p]|] == s.logs[p]
  {
    hide Enabled, Apply, ReaperStart, Live, TakenOut, ToLaunch, Append, Edited, Kill;
    assert s.logs[p][..|s.logs[p]|] == s.logs[p];
  }

  /** No other step changes what a pass holds. */
  lemma OthersKeepJob(s: State, step: Step, i: nat)
    requires CanTake(s, step) && i < s.next && !Own(step, i)
    ensures i in s.jobs <==> i in Take(s, step).jobs
    ensures i in s.jobs ==> Take(s, step).jobs[i] == s.jobs[i]
  {
    hide Enabled, Apply, ReaperStart, Live, TakenOut, ToLaunch, Append, Edited, Kill;
  }

  lemma VersionStays(s: State, step: Step, p: string, v: nat)
    requires CanTake(s, step) && HasVersion(s, p, v)
    ensures HasVersion(Take(s, step), p, v) && Take(s, step).logs[p][v] == s.logs[p][v]
  {
    StepGrows(s, step, p);
    hide CanTake, Take;
    var h, h' := s.logs[p], Take(s, step).logs[p];
    assert h'[..|h|][v] == h[v];
  }

  lemma OthersLeave(s: State, step: Step, i: nat, t: seq<Action>, name: string)
    requires Inv(s) && CanTake(s, step) && !Own(step, i) && i in s.jobs
    ensures Awaits(Take(s, step), i, t, name) <==> Awaits(s, i, t, name)
  {
    hide Inv, JobOk, LogsOk, JobAwaits, CanTake, Take, Own;
    JobKnown(s, i);
    assert HasVersion(s, s.jobs[i].pool, s.jobs[i].ver) by { JobReads(s.logs[s.jobs[i].pool], i, s.jobs[i]); }
    VersionStays(s, step, s.jobs[i].pool, s.jobs[i].ver);
    OthersKeepJob(s, step, i);
  }

  lemma JobReads(h: Log, i: nat, job: Job)
    requires JobOk(h, i, job)
    ensures job.ver < |h|
  {
  }

  // ----- Whole runs -----

  /** The call that a step makes on behalf of pass `i`. */
  function CallOf(s: State, step: Step, i: nat): seq<Action> {
    if i !in s.jobs then []
    else match step
      case Write(k, outcome) => if k == i then [Wrote(s.jobs[i].copy, outcome == Acknowledged)] else []
      case TerminateReturns(k, _, ok) => if k == i then [Terminated(Target(s.jobs[i]), ok)] else []
      case _ => []
  }

  ghost function CallsOf(s: State, steps: seq<Step>, i: nat): seq<Action>
    requires Run(s, steps)
    decreases |steps|
  {
    if steps == [] then [] else CallOf(s, steps[0], i) + CallsOf(Take(s, steps[0]), steps[1..], i)
  }

  /** The writes and terminations among the calls of the code. */
  function Calls(t: seq<Action>): seq<Action> {
    if t == [] then []
    else if IsNodeCall(t[0]) then Calls(t[1..])
    else [t[0]] + Calls(t[1..])
  }

  lemma CallsRest(t: seq<Action>)
    requires |t| > 0 && !IsNodeCall(t[0])
    ensures Calls(t) == [t[0]] + Calls(Rest(t))
  {
    if |t| > 1 && IsNodeCall(t[1]) {
      assert t[1..][1..] == t[2..];
    }
  }

  /** A step with which the code's next call is made, and turns out, in the protocol. */
  function StepFor(i: nat, a: Action): Step
    requires a.Wrote? || a.Terminated?
  {
    if a.Wrote? then Write(i, if a.ok then Acknowledged else Failed) else TerminateReturns(i, a.ok, a.ok)
  }

  /** One call of the code, as a step; what is left of the code's calls is still to come. */
  lemma NextCall(s: State, i: nat, t: seq<Action>, name: string)
    requires Awaits(s, i, t, name) && IsCurrent(s, s.jobs[i])
    ensures |t| > 0 && (t[0].Wrote? || t[0].Terminated?)
    ensures CanTake(s, StepFor(i, t[0])) && CallOf(s, StepFor(i, t[0]), i) == [t[0]]
    ensures var s' := Take(s, StepFor(i, t[0]));
      && Carried(s', i, Rest(t), name)
      && (i in s'.jobs ==> IsCurrent(s', s'.jobs[i]))
  {
    hide Apply, Enabled, Carried;
    if s.jobs[i].phase == Writing {
      FirstWrite(s.logs[s.jobs[i].pool][s.jobs[i].ver].obj, s.jobs[i], t, name);
      hide Awaits, CallsFrom, JobAwaits, CallThenWrite;
      WriteTaken(s, i, t, name, if t[0].ok then Acknowledged else Failed);
      if t[0].ok && NextEdit(s.jobs[i].edit).Some? {
        GoesOn(s, i);
      } else {
        Ends(s, i, if t[0].ok then Acknowledged else Failed);
      }
    } else {
      TerminateTaken(s, i, t, name, t[0].ok, t[0].ok);
    }
  }

  /** From a current read, undisturbed, a protocol pass can make exactly the calls of any pass of the code. */
  lemma {:induction false} CodeIsARun(s: State, i: nat, t: seq<Action>, name: string) returns (steps: seq<Step>)
    requires Awaits(s, i, t, name) && IsCurrent(s, s.jobs[i])
    ensures Run(s, steps) && CallsOf(s, steps, i) == Calls(t) && i !in After(s, steps).jobs
    decreases |t|
  {
    NextCall(s, i, t, name);
    CallsRest(t);
    hide CanTake, Take, Awaits, CallOf;
    var step := StepFor(i, t[0]);
    var s' := Take(s, step);
    if Rest(t) == [] {
      steps := [step];
      assert Run(s', steps[1..]) && CallsOf(s', steps[1..], i) == [];
    } else {
      var rest := CodeIsARun(s', i, Rest(t), name);
      steps := [step] + rest;
      assert steps[1..] == rest;
    }
  }

  lemma Based(s: State, i: nat)
    requires Inv(s) && i in s.jobs && !s.jobs[i].edit.Record?
    ensures HasVersion(s, s.jobs[i].pool, s.jobs[i].ver) && i < s.next
    ensures Begun(s.logs[s.jobs[i].pool][s.jobs[i].ver].obj, s.jobs[i])
  {
    JobKnown(s, i);
    hide Inv;
  }

  /** The pass's copy is what its edit, or the call before it, makes of the pool it read. */
  ghost predicate Begun(o: Pool, job: Job) {
    && Enabled(o, job.edit)
    && match job.phase
       case Writing => job.copy == Apply(o, job.edit)
       case Calling => job.copy == o && (job.edit.BootDrop? || job.edit.Remove?)
       case Launching(_) => false
  }

  /** Whatever a pass still has to do, its next call may fail. */
  lemma MayFail(o: Pool, job: Job, name: string) returns (t: seq<Action>)
    requires Begun(o, job)
    ensures JobAwaits(o, job, t, name) && t != []
  {
    hide Apply;
    if job.phase == Writing {
      t := [Wrote(job.copy, false)];
    } else if job.edit.Remove? {
      t := [Terminated(o.nodes[job.edit.j].instanceId, false)];
    } else {
      var w := [Wrote(Apply(o, job.edit), false)];
      t := [Terminated(o.nodes[job.edit.j].instanceId, false)] + w;
      assert t[1..] == w;
    }
  }

  /** The code's calls from an acknowledged write of a teardown on, from those that follow it. */
  lemma WriteBefore(o: Pool, job: Job, ver: nat, u: seq<Action>, name: string) returns (t: seq<Action>)
    requires Begun(o, job) && job.phase == Writing && NextEdit(job.edit).Some?
    requires JobAwaits(job.copy, NextJob(job, NextEdit(job.edit).value, ver), u, name)
    ensures JobAwaits(o, job, t, name) && |t| > 0 && t[0] == Wrote(job.copy, true) && Rest(t) == u
  {
    NextEditEnabled(o, job.edit);
    match job.edit
    case Cordon(_, _, _) =>
      t := [Wrote(job.copy, true), CordonedNode(name)] + u;
      assert t[2..] == u;
    case Drain(_) =>
      t := [Wrote(job.copy, true), DrainedNode(name)] + u;
      assert t[2..] == u;
    case MarkTerminating(j) =>
      t := [Wrote(job.copy, true)] + u;
      assert t[1..] == u;
      if u[0].ok {
        assert t[3..] == u[2..];
      }
  }

  lemma TerminateBefore(o: Pool, job: Job, ok: bool, u: seq<Action>, name: string) returns (t: seq<Action>)
    requires Begun(o, job) && job.phase == Calling
    requires if ok || job.edit.BootDrop? then JobAwaits(o, Called(job), u, name) else u == []
    ensures JobAwaits(o, job, t, name) && |t| > 0 && t[0] == Terminated(Target(job), ok) && Rest(t) == u
  {
    hide Apply;
    var a := Terminated(Target(job), ok);
    if job.edit.Remove? && ok {
      t := [a, DeletedNode(name)] + u;
      assert t[2..] == u;
    } else {
      t := [a] + u;
      assert t[1..] == u;
    }
  }

  lemma WriteBack(s: State, i: nat, outcome: Outcome, u: seq<Action>, name: string) returns (t: seq<Action>)
    requires Inv(s) && i in s.jobs && !s.jobs[i].edit.Record? && CanTake(s, Write(i, outcome))
    requires Carried(Take(s, Write(i, outcome)), i, u, name)
    ensures Awaits(s, i, t, name)
    ensures |t| > 0 && t[0] == Wrote(s.jobs[i].copy, outcome == Acknowledged) && Rest(t) == u
  {
    Based(s, i);
    var job := s.jobs[i];
    var o := s.logs[job.pool][job.ver].obj;
    WritesNow(o, s, i, outcome);
    hide Inv, Enabled, Apply, CallsFrom, Take, CanTake, JobAwaits, Rest, Begun;
    if outcome == Acknowledged && NextEdit(job.edit).Some? {
      GoesOn(s, i);
      hide NextJob, NextEdit;
      t := WriteBefore(o, job, Take(s, Write(i, outcome)).jobs[i].ver, u, name);
    } else {
      Ends(s, i, outcome);
      t := [Wrote(job.copy, outcome == Acknowledged)];
      LastWrite(o, job, t, name);
    }
  }

  lemma WritesNow(o: Pool, s: State, i: nat, outcome: Outcome)
    requires i in s.jobs && Begun(o, s.jobs[i]) && CanTake(s, Write(i, outcome))
    ensures s.jobs[i].phase == Writing
  {
    hide Apply, Enabled;
  }

  lemma LastWrite(o: Pool, job: Job, t: seq<Action>, name: string)
    requires Begun(o, job) && job.phase == Writing && |t| == 1 && t[0].Wrote? && t[0].obj == job.copy
    requires !t[0].ok || NextEdit(job.edit) == None
    ensures JobAwaits(o, job, t, name) && Rest(t) == []
  {
    hide Apply, Enabled;
  }

  lemma TerminateBack(s: State, i: nat, killed: bool, ok: bool, u: seq<Action>, name: string) returns (t: seq<Action>)
    requires Inv(s) && i in s.jobs && !s.jobs[i].edit.Record? && CanTake(s, TerminateReturns(i, killed, ok))
    requires Carried(Take(s, TerminateReturns(i, killed, ok)), i, u, name)
    ensures Awaits(s, i, t, name)
    ensures |t| > 0 && t[0] == Terminated(Target(s.jobs[i]), ok) && Rest(t) == u
  {
    Based(s, i);
    TerminateGives(s, i, killed, ok);
    hide Inv, Enabled, Apply, Rest, JobAwaits, Take;
    var job := s.jobs[i];
    var o := s.logs[job.pool][job.ver].obj;
    t := TerminateBefore(o, job, ok, u, name);
  }

  lemma {:induction false} EndedIsSilent(s: State, steps: seq<Step>, i: nat)
    requires Run(s, steps) && i !in s.jobs && i < s.next
    ensures CallsOf(s, steps, i) == [] && i !in After(s, steps).jobs
    decreases |steps|
  {
    hide CanTake, Take;
    if steps != [] {
      NotBack(s, steps[0], i);
      EndedIsSilent(Take(s, steps[0]), steps[1..], i);
    }
  }

  lemma NotBack(s: State, step: Step, i: nat)
    requires CanTake(s, step) && i !in s.jobs && i < s.next
    ensures i !in Take(s, step).jobs && i < Take(s, step).next
  {
    hide Enabled, Apply, ReaperStart, Live, TakenOut, ToLaunch, Append, Edited, Kill;
  }

  lemma Crashed(s: State, steps: seq<Step>, i: nat)
    requires |steps| > 0 && Run(s, steps) && steps[0] == Crash(i) && i in s.jobs && i < s.next
    ensures CallsOf(s, steps, i) == []
  {
    EndedIsSilent(Take(s, steps[0]), steps[1..], i);
  }

  lemma OwnStep(s: State, step: Step, i: nat)
    requires CanTake(s, step) && Own(step, i) && i in s.jobs && !s.jobs[i].edit.Record? && step != Crash(i)
    ensures step.Write? || step.TerminateReturns?
    ensures Take(s, step).next == s.next
    ensures i in Take(s, step).jobs ==> !Take(s, step).jobs[i].edit.Record?
  {
    hide Enabled, Apply, ReaperStart, Edited, Live, Kill, TakenOut;
  }

  lemma OwnBack(s: State, step: Step, i: nat, u: seq<Action>, name: string) returns (t: seq<Action>)
    requires Inv(s) && CanTake(s, step) && Own(step, i) && (step.Write? || step.TerminateReturns?)
    requires i in s.jobs && !s.jobs[i].edit.Record? && Carried(Take(s, step), i, u, name)
    ensures Awaits(s, i, t, name)
    ensures |t| > 0 && !IsNodeCall(t[0]) && CallOf(s, step, i) == [t[0]] && Rest(t) == u
  {
    hide Inv, CanTake, Take, Awaits, Carried;
    match step
    case Write(_, outcome) => t := WriteBack(s, i, outcome, u, name);
    case TerminateReturns(_, killed, ok) => t := TerminateBack(s, i, killed, ok, u, name);
  }

  /**
   In any run, whatever else goes on in it, what a pass does is what some pass of the code does: its calls
   are the first ones of the code's, and all of them if the pass ends without crashing.
   */
  lemma {:induction false} RunIsCode(s: State, steps: seq<Step>, i: nat, name: string) returns (t: seq<Action>)
    requires Inv(s) && Run(s, steps) && i in s.jobs && !s.jobs[i].edit.Record?
    ensures Awaits(s, i, t, name) && t != []
    ensures CallsOf(s, steps, i) <= Calls(t)
    ensures i !in After(s, steps).jobs && Crash(i) !in steps ==> CallsOf(s, steps, i) == Calls(t)
    decreases |steps|
  {
    hide Inv, CanTake, Take, JobAwaits;
    Based(s, i);
    if steps == [] || steps[0] == Crash(i) {
      t := MayFail(s.logs[s.jobs[i].pool][s.jobs[i].ver].obj, s.jobs[i], name);
      if steps != [] {
        Crashed(s, steps, i);
      }
    } else {
      var step, s' := steps[0], Take(s, steps[0]);
      StepKeeps(s, step);
      if !Own(step, i) {
        OthersKeepJob(s, step, i);
        t := RunIsCode(s', steps[1..], i, name);
        OthersLeave(s, step, i, t, name);
      } else {
        var u := [];
        OwnStep(s, step, i);
        if i in s'.jobs {
          u := RunIsCode(s', steps[1..], i, name);
        } else {
          EndedIsSilent(s', steps[1..], i);
        }
        t := OwnBack(s, step, i, u, name);
        CallsRest(t);
      }
    }
  }

  // ----- The reaper and NodeReady as wholes -----

  /** In any run, a reaper pass makes the calls of a code pass over the same read, pods and time, in order. */
  lemma ReaperRunIsCode(before: seq<Step>, p: string, v: nat, j: nat, pods: seq<Pod>, steps: seq<Step>, name: string)
    returns (t: seq<Action>)
    requires Run(START, before) && CanTake(After(START, before), StartReaper(p, v, j, pods))
    requires Run(Take(After(START, before), StartReaper(p, v, j, pods)), steps)
    ensures var s := After(START, before); ReaperCalls(t, s.logs[p][v].obj, j, pods, s.now, name)
    ensures var s := After(START, before); var s' := Take(s, StartReaper(p, v, j, pods));
      && CallsOf(s', steps, s.next) <= Calls(t)
      && (s.next !in After(s', steps).jobs && Crash(s.next) !in steps ==> CallsOf(s', steps, s.next) == Calls(t))
  {
    var s := After(START, before);
    ReachableInv(before);
    StepKeeps(s, StartReaper(p, v, j, pods));
    hide Inv, Run, After, CallsOf;
    t := RunIsCode(Take(s, StartReaper(p, v, j, pods)), steps, s.next, name);
    ReaperBegins(s, p, v, j, pods, t, name);
  }

  /** And every code pass over a current read that makes a call is a run of the protocol. */
  lemma ReaperCodeIsARun(s: State, p: string, v: nat, j: nat, pods: seq<Pod>, t: seq<Action>, name: string)
    returns (steps: seq<Step>)
    requires HasEntry(s, p, v, j) && v == |s.logs[p]| - 1
    requires t != [] && ReaperCalls(t, s.logs[p][v].obj, j, pods, s.now, name)
    ensures CanTake(s, StartReaper(p, v, j, pods))
    ensures var s' := Take(s, StartReaper(p, v, j, pods));
      Run(s', steps) && CallsOf(s', steps, s.next) == Calls(t)
  {
    ReaperBegins(s, p, v, j, pods, t, name);
    hide CallsFrom, Awaits, Run, CallsOf, Apply, Enabled;
    steps := CodeIsARun(Take(s, StartReaper(p, v, j, pods)), s.next, t, name);
  }

  /** The same for a NodeReady pass past the boot timeout. */
  lemma BootTimeoutRunIsCode(before: seq<Step>, p: string, v: nat, j: nat, steps: seq<Step>, name: string)
    returns (t: seq<Action>)
    requires Run(START, before) && CanTake(After(START, before), StartBootTimeout(p, v, j))
    requires Run(Take(After(START, before), StartBootTimeout(p, v, j)), steps)
    ensures var s := After(START, before);
      s.logs[p][v].obj.nodes[j].state == Pending && NodeCalls(t, s.logs[p][v].obj, j, name, false, s.now)
    ensures var s := After(START, before); var s' := Take(s, StartBootTimeout(p, v, j));
      && CallsOf(s', steps, s.next) <= Calls(t)
      && (s.next !in After(s', steps).jobs && Crash(s.next) !in steps ==> CallsOf(s', steps, s.next) == Calls(t))
  {
    var s := After(START, before);
    ReachableInv(before);
    StepKeeps(s, StartBootTimeout(p, v, j));
    hide Inv, Run, After, CallsOf;
    t := RunIsCode(Take(s, StartBootTimeout(p, v, j)), steps, s.next, name);
    NodeReadyBegins(s, p, v, j, t, name);
  }

  lemma BootTimeoutCodeIsARun(s: State, p: string, v: nat, j: nat, t: seq<Action>, name: string)
    returns (steps: seq<Step>)
    requires HasEntry(s, p, v, j) && v == |s.logs[p]| - 1 && s.logs[p][v].obj.nodes[j].state == Pending
    requires t != [] && NodeCalls(t, s.logs[p][v].obj, j, name, false, s.now)
    ensures CanTake(s, StartBootTimeout(p, v, j))
    ensures var s' := Take(s, StartBootTimeout(p, v, j));
      Run(s', steps) && CallsOf(s', steps, s.next) == Calls(t)
  {
    NodeReadyBegins(s, p, v, j, t, name);
    hide CallsFrom, Awaits, Run, CallsOf, Apply;
    steps := CodeIsARun(Take(s, StartBootTimeout(p, v, j)), s.next, t, name);
  }

  // ----- The provisioner -----

  /** The cloud has given none of these IDs before, and no reported launch had one of these names. */
  ghost predicate AllFresh(s: State, xs: seq<Entry>) {
    && Distinct(xs)
    && (forall k | 0 <= k < |xs| :: xs[k].instanceId !in s.cloud)
    && (forall k, id | 0 <= k < |xs| && id in s.cloud && s.cloud[id].reported :: s.cloud[id].name != xs[k].name)
  }

  /** These launches can follow in this state: new IDs and names, at times from now on. */
  ghost predicate CanFollow(s: State, xs: seq<Entry>, times: seq<Time>) {
    && |times| == |xs| && AllFresh(s, xs)
    && (forall k | 0 <= k < |xs| :: NewEntry(xs[k]) && xs[k].launchedAt == Stored(times[k]) && s.now <= times[k])
    && (forall k, m | 0 <= k < m < |xs| :: times[k] <= times[m])
  }

  lemma TimedCanFollow(s: State, xs: seq<Entry>, launches: seq<(string, string, string)>, times: seq<Time>, end: Time)
    requires Timed(xs, times, s.now, end) && AllFresh(s, xs) && Records(xs, launches)
    ensures CanFollow(s, xs, times)
  {
  }

  ghost predicate InLaunch(s: State, i: nat, n: nat) {
    i in s.jobs && s.jobs[i].edit.Record? && s.jobs[i].phase == Launching(n)
  }

  /** The pass after it has launched `xs` and has given up on the rest. */
  function AfterLaunches(job: Job, xs: seq<Entry>): Job
    requires job.edit.Record?
  {
    job.(copy := AppendAll(job.copy, xs), edit := Record(job.edit.entries + xs), phase := Launching(0))
  }

  lemma {:induction false} FailsAreARun(s: State, i: nat, n: nat) returns (steps: seq<Step>)
    requires InLaunch(s, i, n)
    ensures Run(s, steps) && After(s, steps) == s.(jobs := s.jobs[i := s.jobs[i].(phase := Launching(0))])
    decreases n
  {
    if n == 0 {
      steps := [];
      assert s.jobs[i := s.jobs[i].(phase := Launching(0))] == s.jobs;
    } else {
      var rest := FailsAreARun(Take(s, LaunchFails(i)), i, n - 1);
      steps := [LaunchFails(i)] + rest;
      assert steps[1..] == rest;
    }
  }

  lemma AppendFirst(o: Pool, x: Entry, xs: seq<Entry>)
    ensures AppendAll(Append(o, x), xs) == AppendAll(o, [x] + xs)
  {
    AppendAllRecords(Append(o, x), xs);
    AppendAllRecords(o, [x] + xs);
    WrapAdd(o.pendingNodes + 1, |xs|);
    assert o.nodes + ([x] + xs) == o.nodes + [x] + xs;
  }

  /** The state in which the first launch has been reported, at its time. */
  function OneLaunched(s: State, i: nat, x: Entry, time: Time): State
    requires i in s.jobs && s.jobs[i].edit.Record? && s.jobs[i].phase.Launching? && s.jobs[i].phase.remaining > 0
  {
    var job := s.jobs[i];
    s.(now := time,
       cloud := s.cloud[x.instanceId := Instance(x.name, job.pool, i, true, time, true)],
       jobs := s.jobs[i := Job(job.pool, job.ver, Append(job.copy, x), Record(job.edit.entries + [x]),
                               Launching(job.phase.remaining - 1))])
  }

  lemma LaunchIsTwoSteps(s: State, i: nat, n: nat, xs: seq<Entry>, times: seq<Time>)
    requires InLaunch(s, i, n) && 0 < |xs| <= n && CanFollow(s, xs, times)
    ensures var tick, launch := Tick(times[0] - s.now), LaunchOk(i, xs[0].instanceId, xs[0].name, xs[0].instanceType);
      && CanTake(s, tick) && CanTake(Take(s, tick), launch)
      && Take(Take(s, tick), launch) == OneLaunched(s, i, xs[0], times[0])
    ensures InLaunch(OneLaunched(s, i, xs[0], times[0]), i, n - 1)
  {
    var x := xs[0];
    hide Append, Distinct;
    assert x == Entry(x.name, x.instanceId, x.instanceType, Pending, Stored(times[0]), None, None);
  }

  lemma RestFollows(s: State, i: nat, n: nat, xs: seq<Entry>, times: seq<Time>)
    requires InLaunch(s, i, n) && 0 < |xs| <= n && CanFollow(s, xs, times)
    ensures CanFollow(OneLaunched(s, i, xs[0], times[0]), xs[1..], times[1..])
  {
    forall k | 0 < k < |xs|
      ensures xs[k].instanceId != xs[0].instanceId && xs[k].name != xs[0].name
    {
      assert IdSeq(xs)[0] != IdSeq(xs)[k] && NameSeq(xs)[0] != NameSeq(xs)[k];
    }
    assert IdSeq(xs[1..]) == IdSeq(xs)[1..] && NameSeq(xs[1..]) == NameSeq(xs)[1..];
  }

  lemma AfterFirst(s: State, i: nat, xs: seq<Entry>, time: Time)
    requires i in s.jobs && s.jobs[i].edit.Record? && s.jobs[i].phase.Launching? && s.jobs[i].phase.remaining > 0
    requires |xs| > 0
    ensures AfterLaunches(OneLaunched(s, i, xs[0], time).jobs[i], xs[1..]) == AfterLaunches(s.jobs[i], xs)
  {
    AppendFirst(s.jobs[i].copy, xs[0], xs[1..]);
    hide AppendAll, Append;
    assert [xs[0]] + xs[1..] == xs;
    assert s.jobs[i].edit.entries + [xs[0]] + xs[1..] == s.jobs[i].edit.entries + xs;
  }

  lemma TwoMore(s: State, a: Step, b: Step, s': State, rest: seq<Step>)
    requires CanTake(s, a) && CanTake(Take(s, a), b) && Take(Take(s, a), b) == s' && Run(s', rest)
    ensures Run(s, [a, b] + rest) && After(s, [a, b] + rest) == After(s', rest)
  {
    hide CanTake, Take;
    var steps := [a, b] + rest;
    assert steps[1..] == [b] + rest && steps[1..][1..] == rest;
  }

  /** Launches of the code, however many are given up, are a run of the protocol's provisioner. */
  lemma {:induction false} LaunchesAreARun(s: State, i: nat, n: nat, xs: seq<Entry>, times: seq<Time>)
    returns (steps: seq<Step>)
    requires InLaunch(s, i, n) && |xs| <= n && CanFollow(s, xs, times)
    ensures Run(s, steps)
    ensures var s' := After(s, steps);
      && s'.logs == s.logs && s'.jobs == s.jobs[i := AfterLaunches(s.jobs[i], xs)] && s'.dropped == s.dropped
    decreases |xs|
  {
    if xs == [] {
      steps := FailsAreARun(s, i, n);
      assert s.jobs[i].edit.entries + xs == s.jobs[i].edit.entries;
    } else {
      LaunchIsTwoSteps(s, i, n, xs, times);
      RestFollows(s, i, n, xs, times);
      AfterFirst(s, i, xs, times[0]);
      var tick, launch := Tick(times[0] - s.now), LaunchOk(i, xs[0].instanceId, xs[0].name, xs[0].instanceType);
      hide CanTake, Take, CanFollow, Run, After, AfterLaunches;
      var rest := LaunchesAreARun(OneLaunched(s, i, xs[0], times[0]), i, n - 1, xs[1..], times[1..]);
      TwoMore(s, tick, launch, OneLaunched(s, i, xs[0], times[0]), rest);
      steps := [tick, launch] + rest;
    }
  }

  /**
   The launches of a code pass, with at most as many recorded as the count asks for, are a run of the protocol
   that leaves its pass about to write the very pool that the code writes.
   */
  lemma ProvisionerCodeIsARun(s: State, p: string, v: nat, batch: seq<Pod>, cap: Batch.Capacity,
                              calls: seq<Action>, xs: seq<Entry>, rounds: seq<Round>,
                              candidates: seq<InstanceType>, podName: string, times: seq<Time>, end: Time)
    returns (steps: seq<Step>)
    requires p in s.logs && v < |s.logs[p]|
    requires var o := s.logs[p][v].obj;
      var n := Batch.NodesNeeded(batch, cap, CurrentNodes(o), o.spec.scaling.maxNodes);
      n > 0 && Provisioner.LaunchCalls(calls, o, xs, rounds, n, candidates, podName)
    requires Timed(xs, times, s.now, end) && AllFresh(s, xs)
    ensures CanTake(s, StartProvision(p, v, batch, cap))
    ensures var s' := Take(s, StartProvision(p, v, batch, cap));
      && Run(s', steps)
      && s.next in After(s', steps).jobs
      && var job := After(s', steps).jobs[s.next];
      && CanWrite(job) && job.pool == p && job.ver == v
      && job.edit == Record(xs) && job.copy == calls[|AllCalls(rounds)|].obj
  {
    assert HasVersion(s, p, v) && ToLaunch(s.logs[p][v].obj, batch, cap)
      == Batch.NodesNeeded(batch, cap, CurrentNodes(s.logs[p][v].obj), s.logs[p][v].obj.spec.scaling.maxNodes);
    hide Provisioner.LaunchCalls, Take, CanTake, ToLaunch, CanFollow, Timed, AllFresh, Records, Run, After, AppendAll;
    var o := s.logs[p][v].obj;
    RecordedWhole(o, calls, xs, rounds, ToLaunch(o, batch, cap), candidates, podName);
    TimedCanFollow(s, xs, Successes(AllCalls(rounds)), times, end);
    ProvisionBegins(s, p, v, batch, cap, xs, times);
    assert [] + xs == xs;
    steps := LaunchesAreARun(Take(s, StartProvision(p, v, batch, cap)), s.next, ToLaunch(o, batch, cap), xs, times);
  }

  lemma RecordedWhole(o: Pool, calls: seq<Action>, xs: seq<Entry>, rounds: seq<Round>, n: nat,
                      candidates: seq<InstanceType>, podName: string)
    requires Provisioner.LaunchCalls(calls, o, xs, rounds, n, candidates, podName)
    ensures Records(xs, Successes(AllCalls(rounds))) && |xs| <= n
    ensures |calls| > |AllCalls(rounds)| && calls[|AllCalls(rounds)|].Wrote?
    ensures AppendAll(o, xs) == calls[|AllCalls(rounds)|].obj
  {
    hide AppendAll, Wrap, Enabled, Records, Rounds;
    AppendAllRecords(o, xs);
  }

  lemma ProvisionBegins(s: State, p: string, v: nat, batch: seq<Pod>, cap: Batch.Capacity, xs: seq<Entry>, times: seq<Time>)
    requires HasVersion(s, p, v) && ToLaunch(s.logs[p][v].obj, batch, cap) > 0 && CanFollow(s, xs, times)
    ensures CanTake(s, StartProvision(p, v, batch, cap))
    ensures var s', o := Take(s, StartProvision(p, v, batch, cap)), s.logs[p][v].obj;
      && CanFollow(s', xs, times)
      && s.next in s'.jobs && s'.jobs[s.next] == Job(p, v, o, Record([]), Launching(ToLaunch(o, batch, cap)))
  {
    hide ToLaunch;
  }

  // ----- Orphan cleanup -----

  /** Taking a name out of a status that was read current, with a write that succeeds, is a run of two steps. */
  lemma OrphanDropIsARun(s: State, p: string, name: string) returns (steps: seq<Step>)
    requires p in s.logs && |s.logs[p]| > 0 && OrphanPass.HasName(Last(s.logs[p]).obj.nodes, name)
    ensures Run(s, steps)
    ensures var s' := After(s, steps);
      && p in s'.logs && |s'.logs[p]| > 0
      && Last(s'.logs[p]).obj == OrphanPass.DropOne(Last(s.logs[p]).obj, name)
      && s'.logs == s.logs[p := s'.logs[p]] && s'.cloud == s.cloud
  {
    var h := s.logs[p];
    var j := OrphanPass.IndexOf(Last(h).obj.nodes, name);
    var start, write := StartOrphanDrop(p, |h| - 1, j), Write(s.next, Acknowledged);
    var s1 := Take(s, start);
    assert s1.jobs[s.next] == Job(p, |h| - 1, OrphanPass.DropOne(Last(h).obj, name), OrphanDrop(j), Writing);
    hide OrphanPass.DropOne, OrphanPass.HasName, Live, TakenOut;
    assert CanTake(s1, write);
    var s2 := Take(s1, write);
    assert Run(s2, []) && After(s2, []) == s2;
    TwoMore(s, start, write, s2, []);
    steps := [start, write] + [];
  }
}
