/**
 The committed versions of one pool. A log is legal when every version is one controller edit
 of the version just before it; everything here is proved of every legal log.
 */
module CommitLog {
  import opened Api
  import opened PoolEdits

  datatype Author = User | Pass(id: nat)

  datatype Version = Version(obj: Pool, cause: Edit, author: Author)

  type Log = seq<Version>

  function Last(h: Log): Version
    requires |h| > 0
  {
    h[|h| - 1]
  }

  function Init(h: Log): Log
    requires |h| > 0
  {
    h[..|h| - 1]
  }

  // ----- Everything ever recorded -----

  ghost function EverIds(h: Log): set<string> {
    if h == [] then {} else EverIds(Init(h)) + Ids(Last(h).obj.nodes)
  }

  ghost function EverNames(h: Log): set<string> {
    if h == [] then {} else EverNames(Init(h)) + Names(Last(h).obj.nodes)
  }

  // ----- Legal logs -----

  ghost predicate Fresh(h: Log, entries: seq<Entry>) {
    && Distinct(entries)
    && Ids(entries) !! EverIds(h)
    && Names(entries) !! EverNames(h)
  }

  /** Teardown steps two to four directly follow the previous step, by the same pass, on the same entry. */
  ghost predicate Follows(prev: Version, v: Version) {
    match v.cause
    case Drain(j) => prev.cause.Cordon? && prev.cause.j == j && prev.author == v.author
    case MarkTerminating(j) => prev.cause == Drain(j) && prev.author == v.author
    case Remove(j) => prev.cause == MarkTerminating(j) && prev.author == v.author
    case _ => true
  }

  ghost predicate LegalNext(h: Log, v: Version)
    requires |h| > 0
  {
    && Enabled(Last(h).obj, v.cause)
    && v.obj == Apply(Last(h).obj, v.cause)
    && (v.cause.Record? ==> Fresh(h, v.cause.entries))
    && Follows(Last(h), v)
  }

  ghost predicate EmptyStatus(o: Pool) {
    o.activeNodes == 0 && o.pendingNodes == 0 && o.nodes == []
  }

  ghost predicate Legal(h: Log) {
    && |h| > 0
    && if |h| == 1 then h[0].cause == Created && EmptyStatus(h[0].obj)
       else Legal(Init(h)) && LegalNext(Init(h), Last(h))
  }

  lemma LegalAppend(h: Log, v: Version)
    requires Legal(h) && LegalNext(h, v)
    ensures Legal(h + [v])
  {
    assert Init(h + [v]) == h;
  }

  lemma {:induction false} LegalPrefix(h: Log, k: nat)
    requires Legal(h) && k < |h|
    ensures Legal(h[..k + 1])
    ensures k > 0 ==> LegalNext(h[..k], h[k])
    decreases |h|
  {
    if k == |h| - 1 {
      assert h[..k + 1] == h;
    } else {
      LegalPrefix(Init(h), k);
      assert Init(h)[..k + 1] == h[..k + 1];
      assert Init(h)[..k] == h[..k];
    }
  }

  /** Version `k` is one edit of version `k - 1`. */
  lemma LegalStep(h: Log, k: nat)
    requires Legal(h) && 0 < k < |h|
    ensures Enabled(h[k - 1].obj, h[k].cause)
    ensures h[k].obj == Apply(h[k - 1].obj, h[k].cause)
    ensures Follows(h[k - 1], h[k])
  {
    hide Legal, Enabled, Apply, Follows;
    LegalPrefix(h, k);
    assert Last(h[..k]) == h[k - 1];
  }

  // ----- Counter agreement and capacity -----

  function PendingCount(nodes: seq<Entry>): nat {
    if nodes == [] then 0
    else PendingCount(nodes[..|nodes| - 1]) + if nodes[|nodes| - 1].state == Pending then 1 else 0
  }

  lemma {:induction false} PendingCountConcat(a: seq<Entry>, b: seq<Entry>)
    ensures PendingCount(a + b) == PendingCount(a) + PendingCount(b)
  {
    if b == [] {
      assert a + b == a;
    } else {
      var b' := b[..|b| - 1];
      assert (a + b)[..|a + b| - 1] == a + b';
      PendingCountConcat(a, b');
    }
  }

  lemma {:induction false} PendingCountAll(a: seq<Entry>)
    requires forall i | 0 <= i < |a| :: a[i].state == Pending
    ensures PendingCount(a) == |a|
  {
    if a != [] {
      PendingCountAll(a[..|a| - 1]);
    }
  }

  lemma {:induction false} PendingCountBound(a: seq<Entry>)
    ensures PendingCount(a) <= |a|
  {
    if a != [] {
      PendingCountBound(a[..|a| - 1]);
    }
  }

  function IsPending(x: Entry): nat {
    if x.state == Pending then 1 else 0
  }

  lemma PendingCountAt(nodes: seq<Entry>, j: nat, x: Entry)
    requires j < |nodes|
    ensures PendingCount(nodes) == PendingCount(Without(nodes, j)) + IsPending(nodes[j])
    ensures PendingCount(nodes[j := x]) == PendingCount(Without(nodes, j)) + IsPending(x)
  {
    var a, b := nodes[..j], nodes[j + 1..];
    assert nodes == a + [nodes[j]] + b;
    assert nodes[j := x] == a + [x] + b;
    assert PendingCount([x]) == IsPending(x);
    assert PendingCount([nodes[j]]) == IsPending(nodes[j]);
    PendingCountConcat(a, b);
    PendingCountConcat(a, [nodes[j]]);
    PendingCountConcat(a + [nodes[j]], b);
    PendingCountConcat(a, [x]);
    PendingCountConcat(a + [x], b);
  }

  /** The orphan cleanups that removed a Terminating entry. */
  function TerminatingDrops(h: Log): nat {
    if |h| <= 1 then 0
    else
      var prev, e := Last(Init(h)).obj, Last(h).cause;
      TerminatingDrops(Init(h)) +
      if e.OrphanDrop? && e.j < |prev.nodes| && prev.nodes[e.j].state == Terminating then 1 else 0
  }

  /** The largest node limit the pool has had. */
  function PeakMaxNodes(h: Log): int {
    if h == [] then 0
    else
      var peak, m := PeakMaxNodes(Init(h)), Last(h).obj.spec.scaling.maxNodes;
      if m > peak then m else peak
  }

  ghost predicate CountersExact(o: Pool, drops: nat) {
    && o.pendingNodes == PendingCount(o.nodes)
    && o.activeNodes == |o.nodes| - PendingCount(o.nodes) + drops
  }

  ghost predicate DroppedTerminating(o: Pool, e: Edit) {
    e.OrphanDrop? && e.j < |o.nodes| && o.nodes[e.j].state == Terminating
  }

  ghost predicate CountersKept(o: Pool, e: Edit, drops: nat)
    requires Enabled(o, e)
  {
    var o' := Apply(o, e);
    && CountersExact(o', if DroppedTerminating(o, e) then drops + 1 else drops)
    && (|| o'.activeNodes + o'.pendingNodes <= o.activeNodes + o.pendingNodes
        || (e.Record? && o'.activeNodes + o'.pendingNodes <= o.spec.scaling.maxNodes))
  }

  lemma RecordKeepsCounters(o: Pool, e: Edit, drops: nat)
    requires e.Record? && Enabled(o, e) && CountersExact(o, drops)
    requires o.activeNodes + o.pendingNodes <= INT32_MAX
    ensures CountersKept(o, e, drops)
  {
    hide Wrap;
    PendingCountBound(o.nodes);
    PendingCountConcat(o.nodes, e.entries);
    PendingCountAll(e.entries);
  }

  lemma TouchKeepsCounters(o: Pool, e: Edit, drops: nat)
    requires e.Touches() && Enabled(o, e) && CountersExact(o, drops)
    requires o.activeNodes + o.pendingNodes <= INT32_MAX
    ensures CountersKept(o, e, drops)
  {
    hide Wrap, PendingCount;
    PendingCountAt(o.nodes, e.j, Touched(o.nodes[e.j], e));
    PendingCountBound(Without(o.nodes, e.j));
  }

  /** No clamp to zero fires: the counter that a drop lowers is at least one. */
  lemma DropKeepsCounters(o: Pool, e: Edit, drops: nat)
    requires e.Drops() && Enabled(o, e) && CountersExact(o, drops)
    requires o.activeNodes + o.pendingNodes <= INT32_MAX
    ensures CountersKept(o, e, drops)
    ensures o.nodes[e.j].state == Pending ==> o.pendingNodes >= 1
    ensures o.nodes[e.j].state != Pending ==> o.activeNodes >= 1
  {
    hide Wrap, PendingCount;
    PendingCountAt(o.nodes, e.j, o.nodes[e.j]);
    PendingCountBound(Without(o.nodes, e.j));
  }

  /** One edit keeps the counters exact, and only a Record raises their sum, up to the limit in force. */
  lemma EditKeepsCounters(o: Pool, e: Edit, drops: nat)
    requires Enabled(o, e) && CountersExact(o, drops)
    requires o.activeNodes + o.pendingNodes <= INT32_MAX
    ensures CountersKept(o, e, drops)
  {
    if e.Record? {
      RecordKeepsCounters(o, e, drops);
    } else if e.Touches() {
      TouchKeepsCounters(o, e, drops);
    } else if e.Drops() {
      DropKeepsCounters(o, e, drops);
    }
  }

  /** In every committed version the counters are exact up to the dropped Terminating entries. */
  lemma {:induction false} CountersAgree(h: Log)
    requires Legal(h)
    ensures CountersExact(Last(h).obj, TerminatingDrops(h))
    ensures Last(h).obj.activeNodes + Last(h).obj.pendingNodes <= PeakMaxNodes(h) <= INT32_MAX
    decreases |h|
  {
    if |h| == 1 {
      assert Init(h) == [];
    } else {
      CountersAgree(Init(h));
      EditKeepsCounters(Last(Init(h)).obj, Last(h).cause, TerminatingDrops(Init(h)));
    }
  }

  // ----- Identity -----

  /** The position, before the edit, of the entry that the edit leaves at position `k`. */
  function Origin(o: Pool, e: Edit, k: nat): (r: Option<nat>)
    requires Enabled(o, e) && k < |Apply(o, e).nodes|
    ensures r.Some? ==> r.value < |o.nodes|
  {
    if e.Drops() then Some(if k < e.j then k else k + 1)
    else if k < |o.nodes| then Some(k)
    else None
  }

  function Rank(s: NodeState): nat {
    match s
    case Pending => 0
    case Running => 1
    case Cordoned => 2
    case Draining => 3
    case Terminating => 4
  }

  /** `y` is `x` at the same or a later point of its life. */
  ghost predicate Forward(x: Entry, y: Entry) {
    && x.instanceId == y.instanceId
    && x.name == y.name
    && x.instanceType == y.instanceType
    && x.launchedAt == y.launchedAt
    && Rank(x.state) <= Rank(y.state)
  }

  lemma EditForward(o: Pool, e: Edit, k: nat)
    requires Enabled(o, e) && k < |Apply(o, e).nodes|
    ensures match Origin(o, e, k)
      case Some(i) => Forward(o.nodes[i], Apply(o, e).nodes[k])
      case None => e.Record? && k - |o.nodes| < |e.entries| && Apply(o, e).nodes[k] == e.entries[k - |o.nodes|]
  {
    EditNodes(o, e);
    hide Wrap, Apply, Idle;
  }

  /** What an edit makes of the list of entries. */
  lemma EditNodes(o: Pool, e: Edit)
    requires Enabled(o, e)
    ensures Apply(o, e).nodes ==
      if e.Touches() then o.nodes[e.j := Touched(o.nodes[e.j], e)]
      else if e.Drops() then Without(o.nodes, e.j)
      else if e.Record? then o.nodes + e.entries
      else o.nodes
  {
    hide Wrap, Idle, Touched;
  }

  /** An edit removes at most the entry it drops and adds at most the entries it records. */
  lemma EditIdentity(o: Pool, e: Edit)
    requires Enabled(o, e) && Distinct(o.nodes)
    requires e.Record? ==> Distinct(e.entries) && Ids(e.entries) !! Ids(o.nodes) && Names(e.entries) !! Names(o.nodes)
    ensures Distinct(Apply(o, e).nodes)
    ensures e.Record? ==> Ids(Apply(o, e).nodes) == Ids(o.nodes) + Ids(e.entries)
    ensures e.Record? ==> Names(Apply(o, e).nodes) == Names(o.nodes) + Names(e.entries)
    ensures e.Drops() ==> Ids(Apply(o, e).nodes) == Ids(o.nodes) - {o.nodes[e.j].instanceId}
    ensures e.Drops() ==> Names(Apply(o, e).nodes) == Names(o.nodes) - {o.nodes[e.j].name}
    ensures !e.Record? && !e.Drops() ==> Ids(Apply(o, e).nodes) == Ids(o.nodes)
    ensures !e.Record? && !e.Drops() ==> Names(Apply(o, e).nodes) == Names(o.nodes)
  {
    if e.Record? {
      RecordIdentity(o.nodes, e.entries);
    } else if e.Drops() {
      DropIdentity(o.nodes, e.j);
    } else if e.Touches() {
      TouchIdentity(o.nodes, e.j, Touched(o.nodes[e.j], e));
    }
  }

  lemma ConcatNoDup<T>(a: seq<T>, b: seq<T>)
    ensures Elems(a + b) == Elems(a) + Elems(b)
    ensures NoDup(a) && NoDup(b) && Elems(a) !! Elems(b) ==> NoDup(a + b)
  {
    assert forall i | 0 <= i < |a| :: a[i] in Elems(a);
    assert forall i | |a| <= i < |a + b| :: (a + b)[i] in Elems(b);
  }

  lemma WithoutNoDup<T>(s: seq<T>, j: nat)
    requires j < |s| && NoDup(s)
    ensures NoDup(Without(s, j)) && Elems(Without(s, j)) == Elems(s) - {s[j]}
  {
    var c := Without(s, j);
    forall i | 0 <= i < |s| && i != j
      ensures s[i] in c
    {
      assert s[i] == c[if i < j then i else i - 1];
    }
    assert forall i | 0 <= i < |c| :: c[i] == s[if i < j then i else i + 1];
  }

  lemma RecordIdentity(a: seq<Entry>, b: seq<Entry>)
    requires Distinct(a) && Distinct(b) && Ids(a) !! Ids(b) && Names(a) !! Names(b)
    ensures Distinct(a + b) && Ids(a + b) == Ids(a) + Ids(b) && Names(a + b) == Names(a) + Names(b)
  {
    assert IdSeq(a + b) == IdSeq(a) + IdSeq(b);
    assert NameSeq(a + b) == NameSeq(a) + NameSeq(b);
    ConcatNoDup(IdSeq(a), IdSeq(b));
    ConcatNoDup(NameSeq(a), NameSeq(b));
  }

  lemma DropIdentity(a: seq<Entry>, j: nat)
    requires Distinct(a) && j < |a|
    ensures Distinct(Without(a, j))
    ensures Ids(Without(a, j)) == Ids(a) - {a[j].instanceId}
    ensures Names(Without(a, j)) == Names(a) - {a[j].name}
  {
    assert IdSeq(Without(a, j)) == Without(IdSeq(a), j);
    assert NameSeq(Without(a, j)) == Without(NameSeq(a), j);
    WithoutNoDup(IdSeq(a), j);
    WithoutNoDup(NameSeq(a), j);
  }

  lemma TouchIdentity(a: seq<Entry>, j: nat, x: Entry)
    requires j < |a| && x.instanceId == a[j].instanceId && x.name == a[j].name
    ensures Distinct(a) ==> Distinct(a[j := x])
    ensures Ids(a[j := x]) == Ids(a) && Names(a[j := x]) == Names(a)
  {
    assert IdSeq(a[j := x]) == IdSeq(a);
    assert NameSeq(a[j := x]) == NameSeq(a);
  }

  lemma {:induction false} EverContains(h: Log, k: nat)
    requires k < |h|
    ensures Ids(h[k].obj.nodes) <= EverIds(h) && Names(h[k].obj.nodes) <= EverNames(h)
    decreases |h|
  {
    if k < |h| - 1 {
      EverContains(Init(h), k);
    }
  }

  /** No two entries of a committed version share a name or an instance ID. */
  lemma {:induction false} EntriesDistinct(h: Log)
    requires Legal(h)
    ensures Distinct(Last(h).obj.nodes)
    decreases |h|
  {
    if |h| > 1 {
      EntriesDistinct(Init(h));
      EverContains(Init(h), |h| - 2);
      EditIdentity(Last(Init(h)).obj, Last(h).cause);
    }
  }

  lemma DistinctAt(h: Log, k: nat)
    requires Legal(h) && k < |h|
    ensures Distinct(h[k].obj.nodes)
  {
    LegalPrefix(h, k);
    EntriesDistinct(h[..k + 1]);
  }

  /** The new version's identities are those of the one before, plus only never-seen ones. */
  lemma IdentityStep(h: Log, k: nat)
    requires Legal(h) && 0 < k < |h|
    ensures var e := h[k].cause;
      e.Record? ==>
        && Ids(h[k].obj.nodes) == Ids(h[k - 1].obj.nodes) + Ids(e.entries)
        && Names(h[k].obj.nodes) == Names(h[k - 1].obj.nodes) + Names(e.entries)
        && Fresh(h[..k], e.entries)
    ensures !h[k].cause.Record? ==>
        && Ids(h[k].obj.nodes) <= Ids(h[k - 1].obj.nodes)
        && Names(h[k].obj.nodes) <= Names(h[k - 1].obj.nodes)
  {
    LegalPrefix(h, k);
    LegalStep(h, k);
    DistinctAt(h, k - 1);
    EverContains(h[..k], k - 1);
    EditIdentity(h[k - 1].obj, h[k].cause);
  }

  ghost function NewIds(e: Edit): set<string> {
    if e.Record? then Ids(e.entries) else {}
  }

  ghost function NewNames(e: Edit): set<string> {
    if e.Record? then Names(e.entries) else {}
  }

  ghost function TakenIds(o: Pool, e: Edit): set<string> {
    if e.Drops() && e.j < |o.nodes| then {o.nodes[e.j].instanceId} else {}
  }

  /** What one more version adds to the identities the log has seen. */
  lemma AppendIdentity(h: Log, v: Version)
    requires Legal(h) && LegalNext(h, v)
    ensures EverIds(h + [v]) == EverIds(h) + NewIds(v.cause)
    ensures EverNames(h + [v]) == EverNames(h) + NewNames(v.cause)
    ensures Ids(v.obj.nodes) == Ids(Last(h).obj.nodes) - TakenIds(Last(h).obj, v.cause) + NewIds(v.cause)
    ensures Ids(Last(h).obj.nodes) <= EverIds(h)
  {
    assert |h| > 0 && Init(h + [v]) == h;
    hide Enabled, Apply, Legal, Distinct, Elems;
    EntriesDistinct(h);
    EverContains(h, |h| - 1);
    EditIdentity(Last(h).obj, v.cause);
  }

  /** Only an empty Record, an unchanged spec and an idle reset of a busy entry can leave the pool as it was. */
  lemma UnchangedBy(o: Pool, e: Edit)
    requires Enabled(o, e) && Apply(o, e) == o
    ensures e == Record([]) || e.SetSpec? || e.IdleReset?
  {
  }

  // ----- Forward-only lifecycle -----

  /** What a version newly records, no earlier version has held. */
  lemma RecordedIsNew(h: Log, a: nat, b: nat, i: nat, k: nat)
    requires Legal(h) && a < b < |h| && h[b].cause.Record?
    requires i < |h[a].obj.nodes| && |h[b - 1].obj.nodes| <= k < |h[b].obj.nodes|
    ensures h[a].obj.nodes[i].instanceId != h[b].obj.nodes[k].instanceId
    ensures h[a].obj.nodes[i].name != h[b].obj.nodes[k].name
  {
    LegalStep(h, b);
    IdentityStep(h, b);
    EverContains(h[..b], a);
    EntryInSets(h[a].obj.nodes, i);
    EntryInSets(h[b].cause.entries, k - |h[b - 1].obj.nodes|);
  }

  /** Between any two versions, an entry that is in both has only moved forward. */
  lemma {:induction false} ForwardOnly(h: Log, a: nat, b: nat, i: nat, k: nat)
    requires Legal(h) && a <= b < |h|
    requires i < |h[a].obj.nodes| && k < |h[b].obj.nodes|
    requires
      || h[a].obj.nodes[i].instanceId == h[b].obj.nodes[k].instanceId
      || h[a].obj.nodes[i].name == h[b].obj.nodes[k].name
    ensures Forward(h[a].obj.nodes[i], h[b].obj.nodes[k])
    decreases b
  {
    if a == b {
      DistinctAt(h, b);
      SameEntry(h[b].obj.nodes, i, k);
    } else {
      LegalStep(h, b);
      EditForward(h[b - 1].obj, h[b].cause, k);
      match Origin(h[b - 1].obj, h[b].cause, k)
      case Some(m) => ForwardOnly(h, a, b - 1, i, m);
      case None => RecordedIsNew(h, a, b, i, k);
    }
  }

  /** A name or instance ID that has left the list never comes back. */
  lemma {:induction false} NoReturn(h: Log, a: nat, b: nat, c: nat)
    requires Legal(h) && a <= b <= c < |h|
    ensures Ids(h[a].obj.nodes) * Ids(h[c].obj.nodes) <= Ids(h[b].obj.nodes)
    ensures Names(h[a].obj.nodes) * Names(h[c].obj.nodes) <= Names(h[b].obj.nodes)
    decreases c
  {
    if b < c {
      NoReturn(h, a, b, c - 1);
      IdentityStep(h, c);
      EverContains(h[..c], a);
    }
  }

  // ----- Teardown -----

  /** The three versions that end in `MarkTerminating(j)`, all by one pass, start from a Running entry. */
  ghost predicate TeardownAt(h: Log, k: nat, j: nat) {
    && 3 <= k < |h|
    && j < |h[k - 3].obj.nodes| && j < |h[k - 2].obj.nodes| && j < |h[k - 1].obj.nodes| && j < |h[k].obj.nodes|
    && h[k - 2].cause.Cordon? && h[k - 2].cause.j == j
    && h[k - 1].cause == Drain(j)
    && h[k].cause == MarkTerminating(j)
    && h[k - 2].author == h[k - 1].author == h[k].author
    && h[k - 3].obj.nodes[j].state == Running
    && h[k - 2].obj.nodes == h[k - 3].obj.nodes[j := h[k - 3].obj.nodes[j].(state := Cordoned)]
    && h[k - 1].obj.nodes == h[k - 3].obj.nodes[j := h[k - 3].obj.nodes[j].(state := Draining)]
    && h[k].obj.nodes == h[k - 3].obj.nodes[j := h[k - 3].obj.nodes[j].(state := Terminating)]
  }

  lemma TeardownStep(h: Log, k: nat, j: nat)
    requires Legal(h) && k < |h| && (h[k].cause == Drain(j) || h[k].cause == MarkTerminating(j))
    ensures k > 1
    ensures Follows(h[k - 1], h[k])
    ensures j < |h[k - 1].obj.nodes|
    ensures h[k].obj.nodes == h[k - 1].obj.nodes[j := Touched(h[k - 1].obj.nodes[j], h[k].cause)]
  {
    LegalPrefix(h, 0);
    LegalStep(h, k);
  }

  lemma TeardownConsecutive(h: Log, k: nat, j: nat)
    requires Legal(h) && k < |h| && h[k].cause == MarkTerminating(j)
    ensures TeardownAt(h, k, j)
  {
    TeardownStep(h, k, j);
    TeardownStep(h, k - 1, j);
    LegalStep(h, k - 2);
    var x := h[k - 3].obj.nodes[j];
    assert h[k - 2].obj.nodes == h[k - 3].obj.nodes[j := x.(state := Cordoned)];
    assert h[k - 1].obj.nodes == h[k - 3].obj.nodes[j := x.(state := Draining)];
    assert h[k].obj.nodes == h[k - 3].obj.nodes[j := x.(state := Terminating)];
  }

  /** An instance is marked Terminating at most once in the life of its pool. */
  lemma MarkedOnce(h: Log, a: nat, b: nat, i: nat, k: nat)
    requires Legal(h) && a < |h| && b < |h|
    requires h[a].cause == MarkTerminating(i) && h[b].cause == MarkTerminating(k)
    requires i < |h[a].obj.nodes| && k < |h[b].obj.nodes|
    requires h[a].obj.nodes[i].instanceId == h[b].obj.nodes[k].instanceId
    ensures a == b
  {
    hide Legal;
    TeardownConsecutive(h, a, i);
    TeardownConsecutive(h, b, k);
    if a < b {
      ForwardOnly(h, a, b - 1, i, k);
    } else if b < a {
      ForwardOnly(h, b, a - 1, k, i);
    }
  }

  // ----- Cooldown -----

  ghost predicate IdleThrough(v: Version, id: string, t: Time) {
    exists n :: 0 <= n < |v.obj.nodes| && v.obj.nodes[n].instanceId == id && v.obj.nodes[n].lastPodFinished == Some(t)
  }

  ghost predicate Resets(v: Version, id: string) {
    v.cause.IdleReset? && v.cause.j < |v.obj.nodes| && v.obj.nodes[v.cause.j].instanceId == id
  }

  /** Version `m` recorded, from a pass that saw the node idle, that the instance became idle at `t`. */
  ghost predicate BecameIdle(v: Version, id: string, t: Time) {
    && v.cause.IdleStart?
    && Idle(v.cause.pods)
    && Stored(v.cause.at) == t
    && v.cause.j < |v.obj.nodes|
    && v.obj.nodes[v.cause.j].instanceId == id
  }

  /** From version `m` to version `k` the instance is recorded as idle since `t`, with no reset in between. */
  ghost predicate IdlePeriod(h: Log, m: nat, k: nat, id: string, t: Time) {
    && m <= k < |h|
    && BecameIdle(h[m], id, t)
    && forall i | m <= i <= k :: IdleThrough(h[i], id, t) && !Resets(h[i], id)
  }

  /** Only an IdleStart sets an idle timestamp; every other edit keeps the ones it does not clear. */
  lemma EditIdle(o: Pool, e: Edit, j: nat)
    requires Enabled(o, e) && j < |Apply(o, e).nodes| && Apply(o, e).nodes[j].lastPodFinished.Some?
    ensures !(e.IdleReset? && e.j == j)
    ensures !(e.IdleStart? && e.j == j) ==>
      && Origin(o, e, j).Some?
      && o.nodes[Origin(o, e, j).value].instanceId == Apply(o, e).nodes[j].instanceId
      && o.nodes[Origin(o, e, j).value].lastPodFinished == Apply(o, e).nodes[j].lastPodFinished
  {
    hide Wrap, Idle;
  }

  /** Where an entry's idle timestamp comes from: this very version, or the version before. */
  lemma IdleOrigin(h: Log, k: nat, j: nat) returns (i: Option<nat>)
    requires Legal(h) && k < |h| && j < |h[k].obj.nodes| && h[k].obj.nodes[j].lastPodFinished.Some?
    ensures k > 0
    ensures IdleThrough(h[k], h[k].obj.nodes[j].instanceId, h[k].obj.nodes[j].lastPodFinished.value)
    ensures !Resets(h[k], h[k].obj.nodes[j].instanceId)
    ensures i == None ==> BecameIdle(h[k], h[k].obj.nodes[j].instanceId, h[k].obj.nodes[j].lastPodFinished.value)
    ensures i.Some? ==>
      && i.value < |h[k - 1].obj.nodes|
      && h[k - 1].obj.nodes[i.value].instanceId == h[k].obj.nodes[j].instanceId
      && h[k - 1].obj.nodes[i.value].lastPodFinished == h[k].obj.nodes[j].lastPodFinished
  {
    LegalPrefix(h, 0);
    LegalStep(h, k);
    var o, e := h[k - 1].obj, h[k].cause;
    EditIdle(o, e, j);
    if Resets(h[k], h[k].obj.nodes[j].instanceId) {
      DistinctAt(h, k);
      SameEntry(h[k].obj.nodes, e.j, j);
    }
    i := if e.IdleStart? && e.j == j then None else Origin(o, e, j);
  }

  lemma {:induction false} IdleSince(h: Log, k: nat, j: nat) returns (m: nat)
    requires Legal(h) && k < |h| && j < |h[k].obj.nodes| && h[k].obj.nodes[j].lastPodFinished.Some?
    ensures IdlePeriod(h, m, k, h[k].obj.nodes[j].instanceId, h[k].obj.nodes[j].lastPodFinished.value)
    decreases k
  {
    var i := IdleOrigin(h, k, j);
    if i == None {
      m := k;
    } else {
      m := IdleSince(h, k - 1, i.value);
    }
  }

  /** The pass behind `v` found the instance recorded idle up to version `k`, for at least the cooldown. */
  ghost predicate CooldownOver(h: Log, k: nat, v: Version, id: string, cooldown: int)
    requires k < |h| && v.cause.Cordon?
  {
    exists m: nat, t: Time ::
      && IdlePeriod(h, m, k, id, t)
      && v.cause.at - t >= cooldown
      && v.cause.at - h[m].cause.at > cooldown - SECOND
  }

  /**
   An entry is committed as Cordoned only after an unbroken recorded idle period of at least the cooldown,
   opened by a pass that saw the node idle and closed by a pass that also did. Timestamps are stored with
   whole seconds, so the real distance between the two observations is the cooldown less at most a second.
   */
  lemma CooldownHonoured(h: Log, k: nat)
    requires Legal(h) && k < |h| && h[k].cause.Cordon?
    ensures k > 0 && h[k].cause.j < |h[k - 1].obj.nodes|
    ensures Idle(h[k].cause.pods)
    ensures CooldownOver(h, k - 1, h[k], h[k - 1].obj.nodes[h[k].cause.j].instanceId,
                         OrDefault(h[k - 1].obj.spec.scaling.cooldownPeriod))
  {
    LegalPrefix(h, 0);
    LegalStep(h, k);
    var m := IdleSince(h, k - 1, h[k].cause.j);
  }
}
