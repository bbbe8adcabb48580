/** The reaper's reconcile pass over one managed node. */
module Reaper {
  import opened Api
  import opened PoolEdits
  import opened Controllers

  // ----- Finding the entry -----

  /** Positions in a list of pools, in the order in which they are searched. */
  predicate Earlier(i: nat, j: nat, a: nat, b: nat) {
    i < a || (i == a && j < b)
  }

  ghost predicate NamedAt(os: seq<Pool>, i: nat, j: nat, name: string) {
    i < |os| && j < |os[i].nodes| && os[i].nodes[j].name == name
  }

  ghost predicate FirstNamed(os: seq<Pool>, i: nat, j: nat, name: string) {
    NamedAt(os, i, j, name) && forall a: nat, b: nat | NamedAt(os, a, b, name) :: !Earlier(a, b, i, j)
  }

  method FindPoolAndNode(os: seq<Pool>, name: string) returns (r: Option<(nat, nat)>)
    ensures r == None ==> forall a: nat, b: nat :: !NamedAt(os, a, b, name)
    ensures r.Some? ==> FirstNamed(os, r.value.0, r.value.1, name)
    ensures r.Some? ==> forall a: nat, b: nat | NamedAt(os, a, b, name) ::
      r.value.0 < a || (r.value.0 == a && r.value.1 <= b)
  {
    for i := 0 to |os|
      invariant forall a: nat, b: nat | a < i :: !NamedAt(os, a, b, name)
    {
      for j := 0 to |os[i].nodes|
        invariant forall b: nat | b < j :: !NamedAt(os, i, b, name)
      {
        if os[i].nodes[j].name == name {
          return Some((i, j));
        }
      }
    }
    return None;
  }

  method IsNodeIdle(pods: seq<Pod>) returns (idle: bool)
    ensures idle == Idle(pods)
    ensures idle <==> forall pod | pod in pods ::
      "DaemonSet" in pod.owners || pod.phase == "Succeeded" || pod.phase == "Failed"
  {
    for k := 0 to |pods|
      invariant forall i | 0 <= i < k :: !KeepsBusy(pods[i])
    {
      if IsDaemonSetPod(pods[k]) {
        continue;
      }
      if pods[k].phase == "Succeeded" || pods[k].phase == "Failed" {
        continue;
      }
      return false;
    }
    return true;
  }

  // ----- The calls of a pass -----

  /** The calls from the write of edit `e` on: each acknowledged write of a teardown leads to the next edit. */
  ghost predicate CallsFrom(t: seq<Action>, o: Pool, e: Edit, name: string)
    requires Enabled(o, e)
    decreases match e case Cordon(_, _, _) => 3 case Drain(_) => 2 case MarkTerminating(_) => 1 case _ => 0
  {
    && |t| > 0
    && t[0].Wrote? && t[0].obj == Apply(o, e)
    && if !t[0].ok then |t| == 1
       else match e
         case Cordon(j, _, _) =>
           |t| > 1 && t[1] == CordonedNode(name) && NextCalls(o, e) && CallsFrom(t[2..], Apply(o, e), Drain(j), name)
         case Drain(j) =>
           |t| > 1 && t[1] == DrainedNode(name) && NextCalls(o, e) && CallsFrom(t[2..], Apply(o, e), MarkTerminating(j), name)
         case MarkTerminating(j) =>
           && |t| > 1 && t[1].Terminated? && j < |o.nodes| && t[1].id == o.nodes[j].instanceId
           && NextCalls(o, e)
           && if !t[1].ok then |t| == 2
              else |t| > 2 && t[2] == DeletedNode(name) && CallsFrom(t[3..], Apply(o, e), Remove(j), name)
         case _ => |t| == 1
  }

  predicate NextCalls(o: Pool, e: Edit)
    requires Enabled(o, e)
  {
    NextEdit(e).Some? && Enabled(Apply(o, e), NextEdit(e).value)
  }

  /** All the calls of a pass that found its entry at `j` of pool `o`. */
  ghost predicate ReaperCalls(t: seq<Action>, o: Pool, j: nat, pods: seq<Pod>, now: Time, name: string)
    requires j < |o.nodes|
  {
    match ReaperStart(o, j, pods, now)
    case None => t == []
    case Some(e) => CallsFrom(t, o, e, name)
  }

  /** The entry's state in a written pool. */
  ghost predicate WroteState(a: Action, j: nat, state: NodeState, id: string) {
    a.Wrote? && a.ok && j < |a.obj.nodes| && a.obj.nodes[j].state == state && a.obj.nodes[j].instanceId == id
  }

  /**
   Whatever fails, a pass asks for at most one termination, and only after it has cordoned and drained the
   node and all three of its writes of the entry's state were acknowledged.
   */
  lemma TerminatesLast(t: seq<Action>, o: Pool, j: nat, pods: seq<Pod>, now: Time, name: string, k: nat)
    requires j < |o.nodes| && ReaperCalls(t, o, j, pods, now, name) && k < |t| && t[k].Terminated?
    ensures k == 5 && t[5].id == o.nodes[j].instanceId
    ensures WroteState(t[0], j, Cordoned, t[5].id) && t[1] == CordonedNode(name)
    ensures WroteState(t[2], j, Draining, t[5].id) && t[3] == DrainedNode(name)
    ensures WroteState(t[4], j, Terminating, t[5].id)
  {
    var e := ReaperStart(o, j, pods, now).value;
    if e.Cordon? && t[0].ok {
      DrainsFrom(t[2..], Apply(o, e), j, name, k - 2);
      assert forall i | 2 <= i < |t| :: t[i] == t[2..][i - 2];
    }
  }

  lemma DrainsFrom(t: seq<Action>, o: Pool, j: nat, name: string, k: int)
    requires Enabled(o, Drain(j)) && CallsFrom(t, o, Drain(j), name)
    ensures 0 <= k < |t| && t[k].Terminated? ==>
      && k == 3 && t[3].id == o.nodes[j].instanceId
      && WroteState(t[0], j, Draining, t[3].id) && t[1] == DrainedNode(name)
      && WroteState(t[2], j, Terminating, t[3].id)
  {
    if t[0].ok {
      TerminatesFrom(t[2..], Apply(o, Drain(j)), j, name, k - 2);
      assert forall i | 2 <= i < |t| :: t[i] == t[2..][i - 2];
    }
  }

  lemma TerminatesFrom(t: seq<Action>, o: Pool, j: nat, name: string, k: int)
    requires Enabled(o, MarkTerminating(j)) && CallsFrom(t, o, MarkTerminating(j), name)
    ensures 0 <= k < |t| && t[k].Terminated? ==>
      k == 1 && t[1].id == o.nodes[j].instanceId && WroteState(t[0], j, Terminating, t[1].id)
  {
    if |t| > 2 && t[0].ok && t[1].Terminated? && t[1].ok {
      assert CallsFrom(t[3..], Apply(o, MarkTerminating(j)), Remove(j), name);
      assert forall i | 3 <= i < |t| :: t[i] == t[3..][i - 3];
    }
  }

  // ----- What a pass writes -----

  /** Every pod of the node has finished or belongs to a daemon set. */
  predicate NothingRuns(pods: seq<Pod>) {
    forall pod | pod in pods :: "DaemonSet" in pod.owners || pod.phase == "Succeeded" || pod.phase == "Failed"
  }

  /** The whole pool with one entry replaced was written. */
  predicate WroteEntry(a: Action, o: Pool, j: nat, x: Entry)
    requires j < |o.nodes|
  {
    a.Wrote? && a.obj == o.(nodes := o.nodes[j := x])
  }

  /**
   The first call of a pass, by what it saw. An entry that is not Running is left alone. A busy node loses its
   idle timestamp; a newly idle one gets the time of the pass, with whole seconds. A node that has been idle
   for less than the cooldown, five minutes unless the pool says otherwise, is left alone; one that has been
   idle for as long or longer is written as Cordoned.
   */
  lemma FirstWritten(t: seq<Action>, o: Pool, j: nat, pods: seq<Pod>, now: Time, name: string)
    requires j < |o.nodes| && ReaperCalls(t, o, j, pods, now, name)
    ensures var x, period := o.nodes[j], o.spec.scaling.cooldownPeriod;
      if x.state != Running then t == []
      else if !NothingRuns(pods) then |t| == 1 && WroteEntry(t[0], o, j, x.(lastPodFinished := None))
      else match x.lastPodFinished
        case None => |t| == 1 && WroteEntry(t[0], o, j, x.(lastPodFinished := Some(now - now % 1_000_000_000)))
        case Some(since) =>
          if now - since < (if period == 0 then 300_000_000_000 else period) then t == []
          else |t| > 0 && WroteEntry(t[0], o, j, x.(state := Cordoned))
  {
    assert Idle(pods) <==> NothingRuns(pods) by { NothingRunsIsIdle(pods); }
    hide Idle, Wrap;
  }

  lemma NothingRunsIsIdle(pods: seq<Pod>)
    ensures Idle(pods) <==> NothingRuns(pods)
  {
    if !Idle(pods) {
      var i :| 0 <= i < |pods| && KeepsBusy(pods[i]);
      assert pods[i] in pods;
    }
  }

  /**
   The calls of a teardown and the pools they write, one by one: each goes out exactly when the write or the
   termination before it was acknowledged, and nothing but the entry's state changes until it is removed.
   */
  lemma TeardownWritten(t: seq<Action>, o: Pool, j: nat, pods: seq<Pod>, now: Time, name: string)
    requires j < |o.nodes| && ReaperCalls(t, o, j, pods, now, name)
    requires |t| > 0 && t[0].Wrote? && j < |t[0].obj.nodes| && t[0].obj.nodes[j].state == Cordoned
    ensures var x := o.nodes[j];
      && WroteEntry(t[0], o, j, x.(state := Cordoned))
      && (t[0].ok <==> |t| > 1) && (|t| > 1 ==> |t| > 2 && t[1] == CordonedNode(name))
      && (|t| > 2 ==> WroteEntry(t[2], o, j, x.(state := Draining)))
      && (|t| > 2 && t[2].ok <==> |t| > 3) && (|t| > 3 ==> |t| > 4 && t[3] == DrainedNode(name))
      && (|t| > 4 ==> WroteEntry(t[4], o, j, x.(state := Terminating)))
      && (|t| > 4 && t[4].ok <==> |t| > 5) && (|t| > 5 ==> t[5].Terminated? && t[5].id == x.instanceId)
      && (|t| > 5 && t[5].ok <==> |t| > 6) && (|t| > 6 ==> |t| == 8 && t[6] == DeletedNode(name))
      && (|t| > 6 ==> t[7].Wrote? && t[7].obj == Removed(o, j))
  {
    var e := ReaperStart(o, j, pods, now).value;
    assert e.Cordon?;
    var o1 := Apply(o, e);
    assert o1 == o.(nodes := o.nodes[j := o.nodes[j].(state := Cordoned)]);
    if t[0].ok {
      DrainWritten(t[2..], o1, j, name);
      assert forall i | 2 <= i < |t| :: t[i] == t[2..][i - 2];
      assert o1.nodes[j := o1.nodes[j].(state := Draining)] == o.nodes[j := o.nodes[j].(state := Draining)];
      assert o1.nodes[j := o1.nodes[j].(state := Terminating)] == o.nodes[j := o.nodes[j].(state := Terminating)];
      assert Removed(o1, j) == Removed(o, j) by { assert Without(o1.nodes, j) == Without(o.nodes, j); }
    }
  }

  /** The pool without the entry and with one active node less, but never less than none. */
  function Removed(o: Pool, j: nat): Pool
    requires j < |o.nodes|
  {
    o.(nodes := o.nodes[..j] + o.nodes[j + 1..],
       activeNodes := if o.activeNodes == -0x8000_0000 then 0x7fff_ffff
                      else if o.activeNodes < 1 then 0
                      else o.activeNodes - 1)
  }

  lemma DrainWritten(t: seq<Action>, o: Pool, j: nat, name: string)
    requires Enabled(o, Drain(j)) && CallsFrom(t, o, Drain(j), name)
    ensures var x := o.nodes[j];
      && |t| > 0 && WroteEntry(t[0], o, j, x.(state := Draining))
      && (t[0].ok <==> |t| > 1) && (|t| > 1 ==> |t| > 2 && t[1] == DrainedNode(name))
      && (|t| > 2 ==> WroteEntry(t[2], o, j, x.(state := Terminating)))
      && (|t| > 2 && t[2].ok <==> |t| > 3) && (|t| > 3 ==> t[3].Terminated? && t[3].id == x.instanceId)
      && (|t| > 3 && t[3].ok <==> |t| > 4) && (|t| > 4 ==> |t| == 6 && t[4] == DeletedNode(name))
      && (|t| > 4 ==> t[5].Wrote? && t[5].obj == Removed(o, j))
  {
    var o1 := Apply(o, Drain(j));
    assert o1 == o.(nodes := o.nodes[j := o.nodes[j].(state := Draining)]);
    if t[0].ok {
      TerminateWritten(t[2..], o1, j, name);
      assert forall i | 2 <= i < |t| :: t[i] == t[2..][i - 2];
      assert o1.nodes[j := o1.nodes[j].(state := Terminating)] == o.nodes[j := o.nodes[j].(state := Terminating)];
      assert Removed(o1, j) == Removed(o, j) by { assert Without(o1.nodes, j) == Without(o.nodes, j); }
    }
  }

  lemma TerminateWritten(t: seq<Action>, o: Pool, j: nat, name: string)
    requires Enabled(o, MarkTerminating(j)) && CallsFrom(t, o, MarkTerminating(j), name)
    ensures var x := o.nodes[j];
      && |t| > 0 && WroteEntry(t[0], o, j, x.(state := Terminating))
      && (t[0].ok <==> |t| > 1) && (|t| > 1 ==> t[1].Terminated? && t[1].id == x.instanceId)
      && (|t| > 1 && t[1].ok <==> |t| > 2) && (|t| > 2 ==> |t| == 4 && t[2] == DeletedNode(name))
      && (|t| > 2 ==> t[3].Wrote? && t[3].obj == Removed(o, j))
  {
    var o1 := Apply(o, MarkTerminating(j));
    assert o1 == o.(nodes := o.nodes[j := o.nodes[j].(state := Terminating)]);
    if t[0].ok && t[1].ok {
      var u := t[3..];
      assert CallsFrom(u, o1, Remove(j), name);
      assert u[0] == t[3] && |u| == 1;
      assert Without(o1.nodes, j) == Without(o.nodes, j);
    }
  }

  // ----- The pass -----

  predicate IsManaged(node: Node) {
    Lookup(node.labels, "burst.homelab.dev/managed") == "true"
  }

  method Reconcile(env: Env, node: Node, os: seq<Pool>, pods: Option<seq<Pod>>, now: Time)
    returns (found: Option<(nat, nat)>, ghost t: seq<Action>)
    modifies env
    ensures env.trace == old(env.trace) + t
    ensures found == None ==>
      t == [] && (Lookup(node.labels, "burst.homelab.dev/managed") != "true"
                  || forall a: nat, b: nat :: !NamedAt(os, a, b, node.name))
    ensures found.Some? ==>
      && Lookup(node.labels, "burst.homelab.dev/managed") == "true"
      && FirstNamed(os, found.value.0, found.value.1, node.name)
      && (pods == None ==> t == [])
      && (pods.Some? ==> ReaperCalls(t, os[found.value.0], found.value.1, pods.value, now, node.name))
  {
    var name := node.name;
    t, found := [], None;
    if !IsManaged(node) {
      return;
    }
    found := FindPoolAndNode(os, name);
    if found == None {
      return;
    }
    var copy := new PoolCopy(os[found.value.0]);
    var j := found.value.1;
    if copy.nodes[j].state != Running || pods == None {
      return;
    }
    var idle := IsNodeIdle(pods.value);
    if !idle {
      t := WriteEdit(env, copy, j, copy.nodes[j].(lastPodFinished := None), IdleReset(j, pods.value), name);
      return;
    }
    if copy.nodes[j].lastPodFinished == None {
      t := WriteEdit(env, copy, j, copy.nodes[j].(lastPodFinished := Some(Stored(now))), IdleStart(j, now, pods.value), name);
      return;
    }
    var cooldown := copy.spec.scaling.cooldownPeriod;
    if cooldown == 0 {
      cooldown := DEFAULT_TIMEOUT;
    }
    var idleDuration := now - copy.nodes[j].lastPodFinished.value;
    if idleDuration < cooldown {
      return;
    }
    t := TearDown(env, copy, j, Cordon(j, now, pods.value), name);
  }

  /** An edit of one entry through the pointer, and its write. */
  method WriteEdit(env: Env, copy: PoolCopy, j: nat, x: Entry, e: Edit, name: string) returns (ghost t: seq<Action>)
    requires j < |copy.nodes| && (e.IdleReset? || e.IdleStart?) && e.j == j
    requires Enabled(copy.Value(), e) && x == Touched(copy.nodes[j], e)
    modifies env, copy
    ensures env.trace == old(env.trace) + t
    ensures CallsFrom(t, old(copy.Value()), e, name)
  {
    copy.SetEntry(j, x);
    var ok := env.UpdateStatus(copy);
    t := [Wrote(copy.Value(), ok)];
  }

  /** Cordon, drain, terminate, delete, remove: each step only after the write before it was acknowledged. */
  method TearDown(env: Env, copy: PoolCopy, j: nat, e: Edit, name: string) returns (ghost t: seq<Action>)
    requires j < |copy.nodes| && e.Cordon? && e.j == j && Enabled(copy.Value(), e)
    modifies env, copy
    ensures env.trace == old(env.trace) + t
    ensures CallsFrom(t, old(copy.Value()), e, name)
  {
    ghost var o := copy.Value();
    copy.SetEntry(j, copy.nodes[j].(state := Cordoned));
    ghost var o1 := copy.Value();
    var ok := env.UpdateStatus(copy);
    t := [Wrote(copy.Value(), ok)];
    if !ok {
      return;
    }
    env.Touch(CordonedNode(name));
    ghost var u := DrainAndTerminate(env, copy, j, name);
    t := t + [CordonedNode(name)] + u;
    assert t[2..] == u;
  }

  method DrainAndTerminate(env: Env, copy: PoolCopy, j: nat, name: string) returns (ghost t: seq<Action>)
    requires j < |copy.nodes| && Enabled(copy.Value(), Drain(j))
    modifies env, copy
    ensures env.trace == old(env.trace) + t
    ensures CallsFrom(t, old(copy.Value()), Drain(j), name)
  {
    copy.SetEntry(j, copy.nodes[j].(state := Draining));
    var ok := env.UpdateStatus(copy);
    t := [Wrote(copy.Value(), ok)];
    if !ok {
      return;
    }
    env.Touch(DrainedNode(name));
    ghost var u := TerminateAndRemove(env, copy, j, name);
    t := t + [DrainedNode(name)] + u;
    assert t[2..] == u;
  }

  method TerminateAndRemove(env: Env, copy: PoolCopy, j: nat, name: string) returns (ghost t: seq<Action>)
    requires j < |copy.nodes| && Enabled(copy.Value(), MarkTerminating(j))
    modifies env, copy
    ensures env.trace == old(env.trace) + t
    ensures CallsFrom(t, old(copy.Value()), MarkTerminating(j), name)
  {
    copy.SetEntry(j, copy.nodes[j].(state := Terminating));
    var ok := env.UpdateStatus(copy);
    t := [Wrote(copy.Value(), ok)];
    if !ok {
      return;
    }
    var id := copy.nodes[j].instanceId;
    var done := env.TerminateNode(id);
    t := t + [Terminated(id, done)];
    if !done {
      return;
    }
    env.Touch(DeletedNode(name));
    ghost var u := RemoveEntry(env, copy, j, name);
    t := t + [DeletedNode(name)] + u;
    assert t[3..] == u;
  }

  method RemoveEntry(env: Env, copy: PoolCopy, j: nat, name: string) returns (ghost t: seq<Action>)
    requires j < |copy.nodes| && Enabled(copy.Value(), Remove(j))
    modifies env, copy
    ensures env.trace == old(env.trace) + t
    ensures CallsFrom(t, old(copy.Value()), Remove(j), name)
  {
    copy.Splice(j);
    copy.activeNodes := Wrap(copy.activeNodes - 1);
    if copy.activeNodes < 0 {
      copy.activeNodes := 0;
    }
    var ok := env.UpdateStatus(copy);
    t := [Wrote(copy.Value(), ok)];
  }
}
