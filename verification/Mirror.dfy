/** What each mirror handler does to the fleet when it runs undisturbed: fresh reads,
    no other writer in between and no API error. */
module Mirror {
  import opened Options
  import opened ApiServer

  type Fleet = map<string, Node>

  const MAX_RETRIES: nat := 5

  /** syncToCluster: the target becomes a replica of `src`, except that a copy created
      here starts with an empty status. */
  function SyncNode(n: Node, src: Object): Node {
    match n.copy
    case None => Store(n, Added, src.(status := EMPTY_STATUS))
    case Some(cur) => Write(Write(n, src.(status := cur.obj.status)), src)
  }

  /** The spec of `src` is written over the source-of-truth copy, which keeps its own
      annotations and status; a missing copy is created from `src`. */
  function PushNode(n: Node, src: Object): Node {
    match n.copy
    case None => Store(n, Added, src.(status := EMPTY_STATUS))
    case Some(cur) => Write(n, cur.obj.(spec := src.spec))
  }

  /** A new object is claimed by cluster `c`.  A stale snapshot conflicts, and the stored
      copy is claimed instead. */
  function AssignNode(n: Node, snapshot: Versioned, c: string): Node {
    match n.copy
    case None => n
    case Some(cur) =>
      var base := if cur.version == snapshot.version then snapshot.obj.(status := cur.obj.status) else cur.obj;
      Write(n, base.(spec := base.spec.(sot := c)))
  }

  function DeleteNode(n: Node): Node {
    if n.copy.None? then n else Remove(n)
  }

  function FanOut(f: Fleet, src: Object, targets: set<string>): Fleet {
    map t | t in f :: if t in targets then SyncNode(f[t], src) else f[t]
  }

  function DeleteAll(f: Fleet, targets: set<string>): Fleet {
    map t | t in f :: if t in targets then DeleteNode(f[t]) else f[t]
  }

  /** The common part of the add and update handlers of cluster `c`. */
  function Propagate(f: Fleet, c: string, src: Object): Fleet {
    var sot := src.spec.sot;
    if sot == c then
      FanOut(f, src, f.Keys - {c})
    else if sot !in f then
      f
    else
      var f1 := f[sot := PushNode(f[sot], src)];
      FanOut(f1, f1[sot].copy.value.obj, f.Keys - {c, sot})
  }

  function HandleAdd(f: Fleet, c: string, snapshot: Versioned): Fleet
    requires c in f
  {
    if snapshot.obj.spec.sot == "" then f[c := AssignNode(f[c], snapshot, c)]
    else Propagate(f, c, snapshot.obj)
  }

  function HandleDelete(f: Fleet, c: string, snapshot: Versioned): Fleet {
    var sot := snapshot.obj.spec.sot;
    if sot == c || sot in f then DeleteAll(f, f.Keys - {c}) else f
  }

  function HandleEvent(f: Fleet, c: string, e: Event): Fleet
    requires c in f
  {
    match e.kind
    case Added => HandleAdd(f, c, e.snapshot)
    case Updated => Propagate(f, c, e.snapshot.obj)
    case Deleted => HandleDelete(f, c, e.snapshot)
  }

  // ----- runs: any pending event of any cluster may be handled next

  datatype Choice = Choice(cluster: string, index: nat)

  predicate Enabled(f: Fleet, ch: Choice) {
    ch.cluster in f && ch.index < |f[ch.cluster].queue|
  }

  function Dequeue(f: Fleet, ch: Choice): Fleet
    requires Enabled(f, ch)
  {
    var n := f[ch.cluster];
    f[ch.cluster := n.(queue := n.queue[..ch.index] + n.queue[ch.index + 1..])]
  }

  function Step(f: Fleet, ch: Choice): Fleet
    requires Enabled(f, ch)
  {
    HandleEvent(Dequeue(f, ch), ch.cluster, f[ch.cluster].queue[ch.index])
  }

  predicate ValidRun(f: Fleet, run: seq<Choice>) {
    run == [] || (Enabled(f, run[0]) && ValidRun(Step(f, run[0]), run[1..]))
  }

  function Run(f: Fleet, run: seq<Choice>): Fleet
    requires ValidRun(f, run)
  {
    if run == [] then f else Run(Step(f, run[0]), run[1..])
  }

  predicate Quiet(f: Fleet) {
    forall t <- f.Keys :: f[t].queue == []
  }

  predicate Holds(n: Node, obj: Object) {
    n.copy.Some? && n.copy.value.obj == obj
  }
}
