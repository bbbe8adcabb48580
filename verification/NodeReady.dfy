/** The reconcile pass that makes booted nodes Running and gives up on those that take too long. */
module NodeReady {
  import opened Api
  import opened PoolEdits
  import opened Controllers
  import opened Reaper

  ghost predicate PendingAt(os: seq<Pool>, i: nat, j: nat, name: string) {
    NamedAt(os, i, j, name) && os[i].nodes[j].state == Pending
  }

  /** The entry that the pass handles: the first Pending one with the node's name. */
  ghost predicate FirstPending(os: seq<Pool>, i: nat, j: nat, name: string) {
    PendingAt(os, i, j, name) && forall a: nat, b: nat | PendingAt(os, a, b, name) :: !Earlier(a, b, i, j)
  }

  predicate TimedOut(o: Pool, j: nat, now: Time)
    requires j < |o.nodes|
  {
    now - o.nodes[j].launchedAt > OrDefault(o.spec.scaling.bootTimeout)
  }

  /** The calls for the entry at `j` of pool `o`. */
  ghost predicate NodeCalls(t: seq<Action>, o: Pool, j: nat, name: string, ready: bool, now: Time)
    requires j < |o.nodes| && o.nodes[j].state == Pending
  {
    if ready then
      && |t| == 2
      && t[0] == LabelledNode(name)
      && t[1].Wrote? && t[1].obj == Apply(o, Ready(j, now))
    else if TimedOut(o, j, now) then
      && |t| == 2
      && t[0].Terminated? && t[0].id == o.nodes[j].instanceId
      && t[1].Wrote? && t[1].obj == Apply(o, BootDrop(j, now))
    else t == []
  }

  /** What the calls are and which pool is written, in each of the three cases. */
  lemma CallsWritten(t: seq<Action>, o: Pool, j: nat, name: string, ready: bool, now: Time)
    requires j < |o.nodes| && o.nodes[j].state == Pending && NodeCalls(t, o, j, name, ready, now)
    ensures var x, period := o.nodes[j], o.spec.scaling.bootTimeout;
      if ready then
        && |t| == 2 && t[0] == LabelledNode(name) && t[1].Wrote?
        && t[1].obj == o.(nodes := o.nodes[j := x.(state := Running, readyAt := Some(now - now % 1_000_000_000))],
                          pendingNodes := Wrap(o.pendingNodes - 1), activeNodes := Wrap(o.activeNodes + 1))
      else if now - x.launchedAt > (if period == 0 then 300_000_000_000 else period) then
        && |t| == 2 && t[0].Terminated? && t[0].id == x.instanceId && t[1].Wrote?
        && t[1].obj == o.(nodes := o.nodes[..j] + o.nodes[j + 1..], pendingNodes := Wrap(o.pendingNodes - 1))
      else t == []
  {
    hide Wrap;
  }

  /** Labelled as managed, or named like a node that will be. */
  predicate IsBurst(node: Node) {
    Lookup(node.labels, "burst.homelab.dev/managed") == "true" || "burst-" <= node.name
  }

  predicate SaysReady(c: Condition) {
    c.kind == "Ready" && c.status == "True"
  }

  method IsNodeReady(node: Node) returns (ready: bool)
    ensures ready <==> exists c :: c in node.conditions && c.kind == "Ready" && c.status == "True"
  {
    for k := 0 to |node.conditions|
      invariant forall i | 0 <= i < k :: !SaysReady(node.conditions[i])
    {
      if SaysReady(node.conditions[k]) {
        return true;
      }
    }
    return false;
  }

  method Reconcile(env: Env, node: Node, os: seq<Pool>, now: Time)
    returns (found: Option<(nat, nat)>, ready: bool, ghost t: seq<Action>)
    modifies env
    ensures env.trace == old(env.trace) + t
    ensures ready <==> exists c :: c in node.conditions && c.kind == "Ready" && c.status == "True"
    ensures found == None ==> t == []
    ensures found == None && (Lookup(node.labels, "burst.homelab.dev/managed") == "true" || "burst-" <= node.name) ==>
      forall a: nat, b: nat :: !PendingAt(os, a, b, node.name)
    ensures found.Some? ==>
      && (Lookup(node.labels, "burst.homelab.dev/managed") == "true" || "burst-" <= node.name)
      && FirstPending(os, found.value.0, found.value.1, node.name)
      && (forall a: nat, b: nat | PendingAt(os, a, b, node.name) ::
            found.value.0 < a || (found.value.0 == a && found.value.1 <= b))
      && NodeCalls(t, os[found.value.0], found.value.1, node.name, ready, now)
  {
    var name := node.name;
    t := [];
    ready := IsNodeReady(node);
    if !IsBurst(node) {
      return None, ready, t;
    }
    for i := 0 to |os|
      invariant env.trace == old(env.trace) && t == []
      invariant forall a: nat, b: nat | a < i :: !PendingAt(os, a, b, name)
    {
      for j := 0 to |os[i].nodes|
        invariant env.trace == old(env.trace) && t == []
        invariant forall b: nat | b < j :: !PendingAt(os, i, b, name)
      {
        if os[i].nodes[j].name != name {
          continue;
        }
        if os[i].nodes[j].state == Pending {
          t := Handle(env, os[i], j, name, ready, now);
          return Some((i, j)), ready, t;
        }
      }
    }
    return None, ready, t;
  }

  method Handle(env: Env, o: Pool, j: nat, name: string, ready: bool, now: Time) returns (ghost t: seq<Action>)
    requires j < |o.nodes| && o.nodes[j].state == Pending
    modifies env
    ensures env.trace == old(env.trace) + t
    ensures NodeCalls(t, o, j, name, ready, now)
  {
    t := [];
    var copy := new PoolCopy(o);
    if ready {
      copy.SetEntry(j, copy.nodes[j].(state := Running, readyAt := Some(Stored(now))));
      copy.pendingNodes := Wrap(copy.pendingNodes - 1);
      copy.activeNodes := Wrap(copy.activeNodes + 1);
      env.Touch(LabelledNode(name));
      var ok := env.UpdateStatus(copy);
      t := [LabelledNode(name), Wrote(copy.Value(), ok)];
      return;
    }
    var bootTimeout := copy.spec.scaling.bootTimeout;
    if bootTimeout == 0 {
      bootTimeout := DEFAULT_TIMEOUT;
    }
    if now - copy.nodes[j].launchedAt > bootTimeout {
      var id := copy.nodes[j].instanceId;
      var done := env.TerminateNode(id);
      copy.Splice(j);
      copy.pendingNodes := Wrap(copy.pendingNodes - 1);
      var ok := env.UpdateStatus(copy);
      t := [Terminated(id, done), Wrote(copy.Value(), ok)];
    }
  }
}
