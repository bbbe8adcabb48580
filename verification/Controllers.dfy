/** What a reconcile pass works with: its copy of a pool, changed in place, and the outside world. */
module Controllers {
  import opened Api
  import opened PoolEdits

  datatype Response = Launched(id: string) | CapacityError | OtherError

  /** One call that a pass makes, and how it went. */
  datatype Action =
    | Patched(name: string, ok: bool)
    | Tried(name: string, ami: string, instanceType: string, response: Response)
    | Wrote(obj: Pool, ok: bool)
    | Terminated(id: string, ok: bool)
    | CordonedNode(name: string)
    | DrainedNode(name: string)
    | DeletedNode(name: string)
    | LabelledNode(name: string)
    | AnnotatedPod(name: string)

  /** The copy of a pool that a pass has read, with the fields that it edits. */
  class PoolCopy {
    const name: string
    const spec: Spec
    var activeNodes: Int32
    var pendingNodes: Int32
    var nodes: seq<Entry>

    constructor (o: Pool)
      ensures Value() == o
    {
      name, spec := o.name, o.spec;
      activeNodes, pendingNodes, nodes := o.activeNodes, o.pendingNodes, o.nodes;
    }

    function Value(): Pool
      reads this
    {
      Pool(name, spec, activeNodes, pendingNodes, nodes)
    }

    /** `pool.Status.Nodes = append(...)` and `PendingNodes++`. */
    method AppendPending(x: Entry)
      modifies this
      ensures Value() == Append(old(Value()), x)
    {
      nodes := nodes + [x];
      pendingNodes := Wrap(pendingNodes + 1);
    }

    /** Replaces one entry, as a write through a pointer into the list does. */
    method SetEntry(j: nat, x: Entry)
      requires j < |nodes|
      modifies this`nodes
      ensures nodes == old(nodes)[j := x]
    {
      nodes := nodes[j := x];
    }

    method Splice(j: nat)
      requires j < |nodes|
      modifies this`nodes
      ensures nodes == Without(old(nodes), j)
    {
      nodes := nodes[..j] + nodes[j + 1..];
    }
  }

  /** The cloud provider, the API server and the clock: every call is logged, and any outcome is possible. */
  class Env {
    var trace: seq<Action>
    var clock: Time

    constructor ()
      ensures trace == []
    {
      trace, clock := [], 0;
    }

    /** Any time may have passed since the last reading. */
    method Now() returns (now: Time)
      modifies this`clock
      ensures old(clock) <= now == clock
    {
      var d: int := *;
      if d > 0 {
        clock := clock + d;
      }
      now := clock;
    }

    /** Patches the machine configuration for a node of that name. */
    method PatchConfig(name: string) returns (ok: bool)
      modifies this`trace
      ensures trace == old(trace) + [Patched(name, ok)]
    {
      ok := *;
      trace := trace + [Patched(name, ok)];
    }

    method LaunchNode(name: string, ami: string, instanceType: string) returns (r: Response)
      modifies this`trace
      ensures trace == old(trace) + [Tried(name, ami, instanceType, r)]
    {
      r := *;
      trace := trace + [Tried(name, ami, instanceType, r)];
    }

    method TerminateNode(id: string) returns (ok: bool)
      modifies this`trace
      ensures trace == old(trace) + [Terminated(id, ok)]
    {
      ok := *;
      trace := trace + [Terminated(id, ok)];
    }

    method UpdateStatus(copy: PoolCopy) returns (ok: bool)
      modifies this`trace
      ensures trace == old(trace) + [Wrote(copy.Value(), ok)]
    {
      ok := *;
      trace := trace + [Wrote(copy.Value(), ok)];
    }

    method Touch(a: Action)
      requires a.CordonedNode? || a.DrainedNode? || a.DeletedNode? || a.LabelledNode? || a.AnnotatedPod?
      modifies this`trace
      ensures trace == old(trace) + [a]
    {
      trace := trace + [a];
    }
  }
}
