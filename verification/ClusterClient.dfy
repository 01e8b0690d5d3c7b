/** The API of all clusters as one controller uses it: one call after the other, with other writers
    and API failures between any two of them. */
module ClusterClient {
  import opened Options
  import opened ApiServer
  import opened Mirror

  datatype Foreign = Put(cluster: string, obj: Object) | Erase(cluster: string)

  /** A call may be refused, or be carried out and reported as failed. */
  datatype Fault = Works | Refused | Lost

  /** What happens at one API call: other writers' changes just before it, and perhaps an API failure. */
  datatype Slot = Slot(writes: seq<Foreign>, fault: Fault)

  function Disturb(f: Fleet, w: Foreign): (g: Fleet)
    ensures g.Keys == f.Keys
  {
    if w.cluster !in f then f
    else
      var n := f[w.cluster];
      match w
      case Put(c, obj) => f[c := Store(n, if n.copy.None? then Added else Updated, obj)]
      case Erase(c) => f[c := DeleteNode(n)]
  }

  function DisturbAll(f: Fleet, ws: seq<Foreign>): (g: Fleet)
    ensures g.Keys == f.Keys
  {
    if ws == [] then f else DisturbAll(Disturb(f, ws[0]), ws[1..])
  }

  function SlotAt(schedule: seq<Slot>, i: nat): Slot {
    if i < |schedule| then schedule[i] else Slot([], Works)
  }

  predicate Touches(slot: Slot, c: string) {
    exists w <- slot.writes :: w.cluster == c
  }

  /** One call to cluster `c`: the other writers first, then the server's answer or a failure. */
  function Answered(f: Fleet, c: string, call: Call, slot: Slot): (Response, Fleet)
    requires c in f
  {
    var g := DisturbAll(f, slot.writes);
    var (r, n) := Serve(g[c], call);
    match slot.fault
    case Works => (r, g[c := n])
    case Refused => (Failure, g)
    case Lost => (Failure, g[c := n])
  }

  /** What the other writers alone make of the fleet at `k` slots from slot `from` on. */
  function Disturbed(f: Fleet, schedule: seq<Slot>, from: nat, k: nat): (g: Fleet)
    ensures g.Keys == f.Keys
    decreases k
  {
    if k == 0 then f else Disturbed(DisturbAll(f, SlotAt(schedule, from).writes), schedule, from + 1, k - 1)
  }

  /** No API failure, and nobody deletes anything. */
  predicate Calm(schedule: seq<Slot>) {
    forall slot <- schedule :: CalmSlot(slot)
  }

  predicate CalmSlot(slot: Slot) {
    slot.fault.Works? && forall w <- slot.writes :: w.Put?
  }

  /** Versions only grow. */
  predicate Sane(n: Node) {
    n.copy.Some? ==> n.copy.value.version <= n.clock
  }

  lemma {:induction false} DisturbSane(f: Fleet, ws: seq<Foreign>, c: string)
    requires c in f
    ensures Sane(f[c]) ==> Sane(DisturbAll(f, ws)[c])
    decreases |ws|
  {
    if ws == [] {
    } else {
      DisturbSane(Disturb(f, ws[0]), ws[1..], c);
    }
  }

  /** `read` was once the stored copy, and still is if the versions agree. */
  predicate Tracks(n: Node, read: Versioned) {
    && read.version <= n.clock && Sane(n)
    && (n.copy.Some? && n.copy.value.version == read.version ==> n.copy.value == read)
  }

  lemma {:induction false} DisturbTracks(f: Fleet, ws: seq<Foreign>, c: string, read: Versioned)
    requires c in f && Tracks(f[c], read)
    ensures Tracks(DisturbAll(f, ws)[c], read)
    ensures (forall w <- ws :: w.cluster != c) ==> DisturbAll(f, ws)[c] == f[c]
    ensures f[c].copy.Some? && (forall w <- ws :: w.Put?) ==> DisturbAll(f, ws)[c].copy.Some?
    ensures (exists w <- ws :: w.cluster == c) && (forall w <- ws :: w.Put?) ==>
              DisturbAll(f, ws)[c].copy.Some? && DisturbAll(f, ws)[c].copy.value.version > read.version
    decreases |ws|
  {
    if ws == [] {
    } else {
      var g := Disturb(f, ws[0]);
      DisturbTracks(g, ws[1..], c, read);
      if ws[0].cluster == c && ws[0].Put? {
        NewerStays(g, ws[1..], c, read.version);
      }
    }
  }

  lemma {:induction false} NewerStays(f: Fleet, ws: seq<Foreign>, c: string, version: nat)
    requires c in f && f[c].clock > version
    requires f[c].copy.Some? ==> f[c].copy.value.version > version
    ensures DisturbAll(f, ws)[c].copy.Some? ==> DisturbAll(f, ws)[c].copy.value.version > version
    decreases |ws|
  {
    if ws == [] {
    } else {
      NewerStays(Disturb(f, ws[0]), ws[1..], c, version);
    }
  }

  class Client {
    var nodes: Fleet
    const schedule: seq<Slot>
    var calls: nat

    constructor (nodes: Fleet, schedule: seq<Slot>)
      ensures this.nodes == nodes && this.schedule == schedule && calls == 0
    {
      this.nodes, this.schedule, calls := nodes, schedule, 0;
    }

    /** No other writer and no API failure from now on. */
    predicate Alone()
      reads this
    {
      calls >= |schedule|
    }

    /** One API call to cluster `c`. */
    method Invoke(c: string, call: Call) returns (r: Response)
      requires c in nodes
      modifies this
      ensures nodes.Keys == old(nodes.Keys) && calls >= old(calls)
      ensures calls == old(calls) + 1
      ensures var f := DisturbAll(old(nodes), SlotAt(schedule, old(calls)).writes);
              match SlotAt(schedule, old(calls)).fault
              case Works => r == Serve(f[c], call).0 && nodes == f[c := Serve(f[c], call).1]
              case Refused => r == Failure && nodes == f
              case Lost => r == Failure && nodes == f[c := Serve(f[c], call).1]
      ensures (r, nodes) == Answered(old(nodes), c, call, SlotAt(schedule, old(calls)))
    {
      var slot := SlotAt(schedule, calls);
      calls := calls + 1;
      nodes := DisturbAll(nodes, slot.writes);
      if slot.fault.Refused? {
        return Failure;
      }
      var served := Serve(nodes[c], call);
      r := if slot.fault.Lost? then Failure else served.0;
      nodes := nodes[c := served.1];
    }
  }
}
