/** Deleting one copy deletes them all, and the echoes of the deletions die out. */
module Deletion {
  import opened Options
  import opened ApiServer
  import opened Mirror

  /** Only delete events are pending, and none at a cluster that still has a copy. */
  ghost predicate Deleting(f: Fleet) {
    forall t <- f.Keys ::
      && (f[t].queue != [] ==> f[t].copy.None?)
      && (forall e <- f[t].queue :: e.kind == Deleted)
  }

  /** Copies left, counted twice, plus events pending. */
  function Left(n: Node): nat {
    (if n.copy.Some? then 2 else 0) + |n.queue|
  }

  ghost function Remaining(f: Fleet, ts: set<string>): nat
    requires ts <= f.Keys
  {
    if ts == {} then 0
    else var t :| t in ts; Left(f[t]) + Remaining(f, ts - {t})
  }

  lemma {:induction false} RemainingSplit(f: Fleet, ts: set<string>, x: string)
    requires ts <= f.Keys && x in ts
    ensures Remaining(f, ts) == Left(f[x]) + Remaining(f, ts - {x})
  {
    var t :| t in ts && Remaining(f, ts) == Left(f[t]) + Remaining(f, ts - {t});
    if t != x {
      RemainingSplit(f, ts - {t}, x);
      RemainingSplit(f, ts - {x}, t);
      assert ts - {t} - {x} == ts - {x} - {t};
    }
  }

  lemma {:induction false} RemainingMonotone(f: Fleet, g: Fleet, ts: set<string>)
    requires ts <= f.Keys && ts <= g.Keys && forall t <- ts :: Left(g[t]) <= Left(f[t])
    ensures Remaining(g, ts) <= Remaining(f, ts)
  {
    if ts == {} {
    } else {
      var t :| t in ts;
      RemainingSplit(f, ts, t);
      RemainingSplit(g, ts, t);
      RemainingMonotone(f, g, ts - {t});
    }
  }

  function Owner(f: Fleet, ch: Choice): string
    requires Enabled(f, ch)
  {
    f[ch.cluster].queue[ch.index].snapshot.obj.spec.sot
  }

  lemma DeleteEventShape(f: Fleet, ch: Choice, t: string)
    requires Deleting(f) && Enabled(f, ch) && t in f
    ensures Step(f, ch).Keys == f.Keys
    ensures var g := Step(f, ch);
            if t == ch.cluster then g[t] == f[t].(queue := f[t].queue[..ch.index] + f[t].queue[ch.index + 1..])
            else g[t] == if Owner(f, ch) in f then DeleteNode(f[t]) else f[t]
  {
    assert f[ch.cluster].queue[ch.index] in f[ch.cluster].queue;
  }

  /** One delete event clears the whole fleet if its source of truth is a listed cluster, and deletes
      nothing otherwise. */
  lemma DeleteEventClears(f: Fleet, ch: Choice)
    requires Deleting(f) && Enabled(f, ch)
    ensures Deleting(Step(f, ch)) && Step(f, ch).Keys == f.Keys
    ensures Remaining(Step(f, ch), f.Keys) < Remaining(f, f.Keys)
    ensures if Owner(f, ch) in f
            then forall t <- f.Keys :: Step(f, ch)[t].copy.None?
            else forall t <- f.Keys :: Step(f, ch)[t].copy == f[t].copy
  {
    var c, g := ch.cluster, Step(f, ch);
    forall t <- f.Keys
      ensures g.Keys == f.Keys && Left(g[t]) <= Left(f[t]) && (t == c ==> Left(g[t]) < Left(f[t]))
      ensures g[t].queue != [] ==> g[t].copy.None?
      ensures forall e <- g[t].queue :: e.kind == Deleted
      ensures if Owner(f, ch) in f then g[t].copy.None? else g[t].copy == f[t].copy
    {
      DeleteEventShape(f, ch, t);
    }
    RemainingSplit(f, f.Keys, c);
    RemainingSplit(g, f.Keys, c);
    RemainingMonotone(f, g, f.Keys - {c});
  }

  /** Deletion completes: whatever the order, the cascade of deletions ends, and once one event
      names a listed source of truth no copy is left or ever comes back. */
  lemma {:induction false} DeletionCompletes(f: Fleet, run: seq<Choice>)
    requires Deleting(f) && ValidRun(f, run)
    ensures Run(f, run).Keys == f.Keys
    ensures |run| + Remaining(Run(f, run), f.Keys) <= Remaining(f, f.Keys)
    ensures Deleting(Run(f, run))
    ensures forall t <- f.Keys :: f[t].copy.None? ==> Run(f, run)[t].copy.None?
    ensures run != [] && Owner(f, run[0]) in f ==> forall t <- f.Keys :: Run(f, run)[t].copy.None?
    decreases |run|
  {
    if run == [] {
    } else {
      var g := Step(f, run[0]);
      DeleteEventClears(f, run[0]);
      DeletionCompletes(g, run[1..]);
    }
  }

  lemma {:induction false} RemainingBound(f: Fleet, ts: set<string>)
    requires ts <= f.Keys && forall t <- ts :: Left(f[t]) <= 2
    ensures Remaining(f, ts) <= 2 * |ts|
  {
    if ts == {} {
    } else {
      var t :| t in ts;
      RemainingSplit(f, ts, t);
      RemainingBound(f, ts - {t});
    }
  }

  /** After the copy in one cluster was deleted, at most two events per cluster are handled before
      the fleet is quiet. */
  lemma DeletionIsShort(f: Fleet, c: string, run: seq<Choice>)
    requires Deleting(f) && ValidRun(f, run)
    requires c in f && |f[c].queue| == 1 && forall t <- f.Keys :: t != c ==> f[t].queue == []
    ensures |run| <= 2 * |f.Keys|
  {
    DeletionCompletes(f, run);
    RemainingBound(f, f.Keys);
  }
}
