/** The echo storm of the mirror handlers dies out, and what it leaves behind. */
module Convergence {
  import opened Options
  import opened ApiServer
  import opened Mirror

  // ----- the invariant of a fleet whose source of truth `a` no longer changes its spec

  /** Every pending event carries `s`'s spec.  Those of the source of truth also carry its
      annotations, may show older statuses, and end with `s` itself. */
  ghost predicate Stable(f: Fleet, a: string, s: Object) {
    && "" !in f && a in f && s.spec.sot == a
    && Holds(f[a], s)
    && (forall t, e | t in f && e in f[t].queue ::
          e.kind != Deleted && e.snapshot.obj.spec == s.spec)
    && (forall e <- f[a].queue :: e.snapshot.obj.annotations == s.annotations)
    && (f[a].queue != [] ==> f[a].queue[|f[a].queue| - 1].snapshot.obj == s)
  }

  /** Informers deliver the source of truth's own events in order. */
  predicate InOrder(a: string, run: seq<Choice>) {
    forall ch <- run :: ch.cluster == a ==> ch.index == 0
  }

  predicate Mirrors(n: Node, s: Object) {
    n.copy.Some? && n.copy.value.obj.spec == s.spec && n.copy.value.obj.annotations == s.annotations
  }

  /** Handling an event of `c` re-sends `src` to everyone but the source of truth and `c`. */
  function Source(f: Fleet, ch: Choice, a: string, s: Object): Object
    requires Enabled(f, ch)
  {
    if ch.cluster == a then f[a].queue[ch.index].snapshot.obj else s
  }

  lemma StableStepShape(f: Fleet, a: string, s: Object, ch: Choice)
    requires Stable(f, a, s) && Enabled(f, ch)
    ensures Step(f, ch) == FanOut(Dequeue(f, ch), Source(f, ch, a, s), f.Keys - {a, ch.cluster})
  {
    var c, e := ch.cluster, f[ch.cluster].queue[ch.index];
    assert e in f[c].queue;
    var f0 := Dequeue(f, ch);
    if c == a {
      assert f.Keys - {c} == f.Keys - {a, c};
    } else {
      assert PushNode(f0[a], e.snapshot.obj) == f0[a];
      assert f0[a := f0[a]] == f0;
      assert f.Keys - {c, a} == f.Keys - {a, c};
    }
  }

  function RemoveAt(queue: seq<Event>, i: nat): seq<Event>
    requires i < |queue|
  {
    queue[..i] + queue[i + 1..]
  }

  /** Cluster by cluster, what handling an event makes of the fleet. */
  ghost predicate Shape(f: Fleet, g: Fleet, a: string, s: Object, ch: Choice)
    requires Enabled(f, ch)
  {
    && g.Keys == f.Keys
    && (a in f && a != ch.cluster ==> g[a] == f[a])
    && g[ch.cluster] == f[ch.cluster].(queue := RemoveAt(f[ch.cluster].queue, ch.index))
    && forall t <- f.Keys :: t != a && t != ch.cluster ==> g[t] == SyncNode(f[t], Source(f, ch, a, s))
  }

  lemma StepHasShape(f: Fleet, a: string, s: Object, ch: Choice)
    requires Stable(f, a, s) && Enabled(f, ch)
    ensures Shape(f, Step(f, ch), a, s, ch)
    ensures Source(f, ch, a, s).spec == s.spec && Source(f, ch, a, s).annotations == s.annotations
  {
    StableStepShape(f, a, s, ch);
    assert f[ch.cluster].queue[ch.index] in f[ch.cluster].queue;
  }

  predicate EventsCarry(queue: seq<Event>, spec: Spec) {
    forall e <- queue :: e.kind != Deleted && e.snapshot.obj.spec == spec
  }

  lemma RemoveCarries(queue: seq<Event>, i: nat, spec: Spec)
    requires i < |queue| && EventsCarry(queue, spec)
    ensures EventsCarry(RemoveAt(queue, i), spec)
  {}

  lemma SyncEvents(n: Node, s: Object)
    ensures SyncNode(n, s).copy.Some? && SyncNode(n, s).copy.value.obj.spec == s.spec
    ensures forall e <- SyncNode(n, s).queue :: e in n.queue || (e.kind != Deleted && e.snapshot.obj.spec == s.spec)
  {}

  lemma StableAfter(f: Fleet, g: Fleet, a: string, s: Object, ch: Choice)
    requires Stable(f, a, s) && Enabled(f, ch) && (ch.cluster == a ==> ch.index == 0)
    requires Shape(f, g, a, s, ch) && Source(f, ch, a, s).spec == s.spec
    ensures Stable(g, a, s)
    ensures g[a].queue == if ch.cluster == a then f[a].queue[1..] else f[a].queue
  {
    forall t <- g.Keys ensures EventsCarry(g[t].queue, s.spec) {
      if t == ch.cluster {
        RemoveCarries(f[t].queue, ch.index, s.spec);
      } else if t != a {
        SyncEvents(f[t], Source(f, ch, a, s));
      }
    }
    if ch.cluster == a {
      assert RemoveAt(f[a].queue, 0) == f[a].queue[1..];
    }
  }

  lemma StableStep(f: Fleet, a: string, s: Object, ch: Choice)
    requires Stable(f, a, s) && Enabled(f, ch) && (ch.cluster == a ==> ch.index == 0)
    ensures Stable(Step(f, ch), a, s) && Step(f, ch).Keys == f.Keys
    ensures Step(f, ch)[a].queue == if ch.cluster == a then f[a].queue[1..] else f[a].queue
  {
    StepHasShape(f, a, s, ch);
    StableAfter(f, Step(f, ch), a, s, ch);
  }

  // ----- the measure

  function Lag(n: Node, s: Object): nat {
    if n.copy.None? then 4 else if n.copy.value.obj == s then 0 else if Mirrors(n, s) then 2 else 3
  }

  function Weight(n: Node, s: Object): nat {
    Lag(n, s) + |n.queue|
  }

  ghost function Cost(f: Fleet, ts: set<string>, s: Object): nat
    requires ts <= f.Keys
  {
    if ts == {} then 0
    else var t :| t in ts; Weight(f[t], s) + Cost(f, ts - {t}, s)
  }

  lemma {:induction false} CostSplit(f: Fleet, ts: set<string>, s: Object, x: string)
    requires ts <= f.Keys && x in ts
    ensures Cost(f, ts, s) == Weight(f[x], s) + Cost(f, ts - {x}, s)
  {
    var t :| t in ts && Cost(f, ts, s) == Weight(f[t], s) + Cost(f, ts - {t}, s);
    if t != x {
      CostSplit(f, ts - {t}, s, x);
      CostSplit(f, ts - {x}, s, t);
      assert ts - {t} - {x} == ts - {x} - {t};
    }
  }

  lemma {:induction false} CostBound(f: Fleet, g: Fleet, ts: set<string>, s: Object, k: nat)
    requires ts <= f.Keys && ts <= g.Keys
    requires forall t <- ts :: Weight(g[t], s) <= Weight(f[t], s) + k
    ensures Cost(g, ts, s) <= Cost(f, ts, s) + k * |ts|
  {
    if ts == {} {
    } else {
      var t :| t in ts;
      CostSplit(f, ts, s, t);
      CostSplit(g, ts, s, t);
      CostBound(f, g, ts - {t}, s, k);
      assert |ts| == |ts - {t}| + 1;
      Distribute(k, |ts - {t}|);
    }
  }

  lemma Distribute(k: nat, n: nat)
    ensures k * (n + 1) == k * n + k
  {}

  /** Sending `s` settles a cluster or leaves it be; sending an object with another status costs three. */
  lemma SyncWeight(n: Node, src: Object, s: Object)
    requires src.spec == s.spec && src.annotations == s.annotations
    ensures Weight(SyncNode(n, src), s) <= Weight(n, s) + 3
    ensures src == s ==> Weight(SyncNode(n, s), s) <= Weight(n, s)
  {}

  function Others(f: Fleet, a: string): set<string> {
    f.Keys - {a}
  }

  /** Each event of the source of truth may unsettle every other cluster by three. */
  ghost function Measure(f: Fleet, a: string, s: Object): nat
    requires a in f
  {
    Total(|f[a].queue|, |Others(f, a)|, Cost(f, Others(f, a), s))
  }

  function Total(events: nat, others: nat, cost: nat): nat {
    events * (1 + 3 * others) + cost
  }

  lemma TotalOfOne(events: nat, others: nat, cost: nat)
    requires events <= 1
    ensures Total(events, others, cost) <= 1 + 3 * others + cost
  {
    if events == 0 { assert events * (1 + 3 * others) == 0; }
  }

  lemma TotalDrops(events: nat, others: nat, cost: nat, before: nat)
    requires cost <= before + 3 * others
    ensures Total(events, others, cost) < Total(events + 1, others, before)
  {
    Distribute(1 + 3 * others, events);
  }

  lemma SourceWeights(f: Fleet, a: string, s: Object, ch: Choice, t: string)
    requires Stable(f, a, s) && Enabled(f, ch) && t in Others(f, a) && t != ch.cluster
    ensures Step(f, ch).Keys == f.Keys
    ensures Weight(Step(f, ch)[t], s) <= Weight(f[t], s) + if ch.cluster == a then 3 else 0
  {
    StableStepShape(f, a, s, ch);
    assert f[ch.cluster].queue[ch.index] in f[ch.cluster].queue;
    SyncWeight(f[t], Source(f, ch, a, s), s);
  }

  lemma SourceEventCost(f: Fleet, a: string, s: Object, ch: Choice)
    requires Stable(f, a, s) && Enabled(f, ch) && ch.cluster == a
    ensures Step(f, ch).Keys == f.Keys
    ensures Cost(Step(f, ch), Others(f, a), s) <= Cost(f, Others(f, a), s) + 3 * |Others(f, a)|
  {
    StableStepShape(f, a, s, ch);
    forall t <- Others(f, a) ensures Weight(Step(f, ch)[t], s) <= Weight(f[t], s) + 3 {
      SourceWeights(f, a, s, ch, t);
    }
    CostBound(f, Step(f, ch), Others(f, a), s, 3);
  }

  lemma EchoEventCost(f: Fleet, a: string, s: Object, ch: Choice)
    requires Stable(f, a, s) && Enabled(f, ch) && ch.cluster != a
    ensures Step(f, ch).Keys == f.Keys
    ensures Cost(Step(f, ch), Others(f, a), s) < Cost(f, Others(f, a), s)
  {
    StableStepShape(f, a, s, ch);
    var c, g, ts := ch.cluster, Step(f, ch), Others(f, a);
    CostSplit(f, ts, s, c);
    CostSplit(g, ts, s, c);
    forall t <- ts - {c} ensures Weight(g[t], s) <= Weight(f[t], s) + 0 {
      SourceWeights(f, a, s, ch, t);
    }
    CostBound(f, g, ts - {c}, s, 0);
  }

  lemma MeasureCompare(f: Fleet, g: Fleet, a: string, s: Object)
    requires a in f && g.Keys == f.Keys
    requires
      || (|f[a].queue| == |g[a].queue| + 1 && Cost(g, Others(f, a), s) <= Cost(f, Others(f, a), s) + 3 * |Others(f, a)|)
      || (g[a].queue == f[a].queue && Cost(g, Others(f, a), s) < Cost(f, Others(f, a), s))
    ensures Measure(g, a, s) < Measure(f, a, s)
  {
    assert Others(g, a) == Others(f, a);
    if g[a].queue != f[a].queue {
      TotalDrops(|g[a].queue|, |Others(f, a)|, Cost(g, Others(f, a), s), Cost(f, Others(f, a), s));
    }
  }

  lemma MeasureDrops(f: Fleet, a: string, s: Object, ch: Choice)
    requires Stable(f, a, s) && Enabled(f, ch) && (ch.cluster == a ==> ch.index == 0)
    ensures a in Step(f, ch) && Measure(Step(f, ch), a, s) < Measure(f, a, s)
  {
    StableStep(f, a, s, ch);
    if ch.cluster == a {
      SourceEventCost(f, a, s, ch);
    } else {
      EchoEventCost(f, a, s, ch);
    }
    MeasureCompare(f, Step(f, ch), a, s);
  }

  // ----- whole runs

  lemma {:induction false} StableRun(f: Fleet, a: string, s: Object, run: seq<Choice>)
    requires Stable(f, a, s) && ValidRun(f, run) && InOrder(a, run)
    ensures Stable(Run(f, run), a, s) && Run(f, run).Keys == f.Keys
    ensures |run| + Measure(Run(f, run), a, s) <= Measure(f, a, s)
    decreases |run|
  {
    if run == [] {
    } else {
      StableStep(f, a, s, run[0]);
      MeasureDrops(f, a, s, run[0]);
      StableRun(Step(f, run[0]), a, s, run[1..]);
    }
  }

  /** With at most one event of the source of truth pending, any order is in order. */
  lemma {:induction false} SingleIsInOrder(f: Fleet, a: string, s: Object, run: seq<Choice>)
    requires Stable(f, a, s) && |f[a].queue| <= 1 && ValidRun(f, run)
    ensures InOrder(a, run)
    decreases |run|
  {
    if run == [] {
    } else {
      StableStep(f, a, s, run[0]);
      SingleIsInOrder(Step(f, run[0]), a, s, run[1..]);
      assert run == [run[0]] + run[1..];
    }
  }

  /** An event of the source of truth is still pending, or every cluster of `had` is a full replica. */
  ghost predicate Served(f: Fleet, a: string, s: Object, had: set<string>) {
    && had <= f.Keys
    && (forall t <- had :: f[t].copy.Some?)
    && (a in f && f[a].queue == [] ==>
          && (forall t <- f.Keys :: Mirrors(f[t], s))
          && (forall t <- had :: Holds(f[t], s)))
  }

  lemma SyncEffect(n: Node, src: Object, s: Object)
    requires src.spec == s.spec && src.annotations == s.annotations
    ensures Mirrors(SyncNode(n, src), s)
    ensures n.copy.Some? ==> Holds(SyncNode(n, src), src)
    ensures n.queue == [] ==> (SyncNode(n, s).queue == [] <==> Holds(n, s))
    ensures Holds(SyncNode(n, s), s) <==> !(n.copy.None? && s.status != EMPTY_STATUS)
  {}

  lemma ServedAfter(f: Fleet, g: Fleet, a: string, s: Object, had: set<string>, ch: Choice)
    requires Stable(f, a, s) && Enabled(f, ch) && (ch.cluster == a ==> ch.index == 0)
    requires Shape(f, g, a, s, ch) && Stable(g, a, s) && Served(f, a, s, had)
    requires Source(f, ch, a, s).spec == s.spec && Source(f, ch, a, s).annotations == s.annotations
    ensures Served(g, a, s, had)
  {
    var src := Source(f, ch, a, s);
    forall t <- f.Keys ensures f[t].copy.Some? ==> g[t].copy.Some? {
      SyncEffect(f[t], src, s);
    }
    if g[a].queue == [] {
      assert src == s;
      forall t <- f.Keys ensures Mirrors(g[t], s) && (t in had ==> Holds(g[t], s)) {
        SyncEffect(f[t], s, s);
      }
    }
  }

  lemma ServedStep(f: Fleet, a: string, s: Object, had: set<string>, ch: Choice)
    requires Stable(f, a, s) && Enabled(f, ch) && (ch.cluster == a ==> ch.index == 0)
    requires Served(f, a, s, had)
    ensures Served(Step(f, ch), a, s, had)
  {
    StableStep(f, a, s, ch);
    StepHasShape(f, a, s, ch);
    ServedAfter(f, Step(f, ch), a, s, had, ch);
  }

  lemma {:induction false} ServedRun(f: Fleet, a: string, s: Object, had: set<string>, run: seq<Choice>)
    requires Stable(f, a, s) && ValidRun(f, run) && InOrder(a, run) && Served(f, a, s, had)
    ensures Served(Run(f, run), a, s, had)
    decreases |run|
  {
    if run == [] {
    } else {
      StableStep(f, a, s, run[0]);
      ServedStep(f, a, s, had, run[0]);
      ServedRun(Step(f, run[0]), a, s, had, run[1..]);
    }
  }

  /** Convergence from the source of truth.  While its spec stands still, with its last event
      pending and any number of older status events and of echoes around, every order of handling
      ends; then every cluster has its spec and annotations, and every cluster that had a copy has
      its status too. */
  lemma ConvergesFromSource(f: Fleet, a: string, s: Object, run: seq<Choice>)
    requires Stable(f, a, s) && f[a].queue != []
    requires ValidRun(f, run) && InOrder(a, run)
    ensures |run| <= Measure(f, a, s)
    ensures Run(f, run).Keys == f.Keys && Holds(Run(f, run)[a], s)
    ensures Quiet(Run(f, run)) ==>
              forall t <- f.Keys :: Mirrors(Run(f, run)[t], s) && (f[t].copy.Some? ==> Holds(Run(f, run)[t], s))
  {
    var had := set t | t in f && f[t].copy.Some?;
    StableRun(f, a, s, run);
    ServedRun(f, a, s, had, run);
  }

  // ----- exactly when every copy ends up identical

  ghost predicate AllPresent(f: Fleet) {
    forall t <- f.Keys :: f[t].copy.Some?
  }

  ghost predicate Identical(f: Fleet, s: Object) {
    forall t <- f.Keys :: Holds(f[t], s)
  }

  function Unsettled(f: Fleet, s: Object): set<string> {
    set t | t in f && !Holds(f[t], s)
  }

  lemma UnsettledEmpty(f: Fleet, s: Object)
    ensures Unsettled(f, s) == {} <==> Identical(f, s)
  {
    forall t | t in f && !Holds(f[t], s) ensures Unsettled(f, s) != {} {
      assert t in Unsettled(f, s);
    }
  }

  /** Some pending event will reach a cluster that is not yet a full replica. */
  ghost predicate Chased(f: Fleet, s: Object) {
    Unsettled(f, s) == {} || exists t, c :: t in Unsettled(f, s) && c in f && c != t && f[c].queue != []
  }

  lemma SyncPresent(n: Node, s: Object)
    requires n.copy.Some?
    ensures Holds(SyncNode(n, s), s)
    ensures if Holds(n, s) then SyncNode(n, s) == n else SyncNode(n, s).queue != []
  {}

  lemma ChasedAfterSource(f: Fleet, g: Fleet, a: string, s: Object, ch: Choice)
    requires Stable(f, a, s) && Enabled(f, ch) && ch.cluster == a && ch.index == 0 && AllPresent(f)
    requires Shape(f, g, a, s, ch) && Stable(g, a, s)
    ensures AllPresent(g) && Chased(g, s) && Chased(f, s)
  {
    var src := Source(f, ch, a, s);
    forall t <- f.Keys ensures g[t].copy.Some? && (t != a && src == s ==> Holds(g[t], s)) {
      if t != a { SyncPresent(f[t], src); }
    }
    if t :| t in Unsettled(f, s) { assert a != t && f[a].queue != []; }
    if g[a].queue == [] {
      assert src == s;
      assert Unsettled(g, s) == {};
    } else if t :| t in Unsettled(g, s) {
      assert a in g && a != t;
    }
  }

  lemma ChasedAfterEcho(f: Fleet, g: Fleet, a: string, s: Object, ch: Choice)
    requires Stable(f, a, s) && Enabled(f, ch) && ch.cluster != a && AllPresent(f)
    requires Shape(f, g, a, s, ch) && Stable(g, a, s)
    ensures AllPresent(g) && (Chased(g, s) <==> Chased(f, s))
  {
    var c := ch.cluster;
    forall t | t in f && t != c
      ensures Holds(g[t], s) && (if Holds(f[t], s) then g[t] == f[t] else g[t].queue != [])
    {
      if t != a { SyncPresent(f[t], s); }
    }
    assert g[c].copy == f[c].copy;
    assert Unsettled(g, s) == Unsettled(f, s) * {c};
    if c in Unsettled(f, s) {
      if t, d :| t in Unsettled(f, s) && d in f && d != t && f[d].queue != [] {
        var other := if t != c then t else d;
        assert c in Unsettled(g, s) && other in g && other != c && g[other].queue != [];
      } else {
        assert f[c].queue != [];
        forall d | d in g && d != c ensures g[d].queue == [] {
          assert d !in Unsettled(f, s);
        }
        assert Unsettled(g, s) == {c};
      }
    }
  }

  lemma ChasedStep(f: Fleet, a: string, s: Object, ch: Choice)
    requires Stable(f, a, s) && Enabled(f, ch) && (ch.cluster == a ==> ch.index == 0)
    requires AllPresent(f)
    ensures AllPresent(Step(f, ch)) && (Chased(Step(f, ch), s) <==> Chased(f, s))
  {
    StableStep(f, a, s, ch);
    StepHasShape(f, a, s, ch);
    if ch.cluster == a {
      ChasedAfterSource(f, Step(f, ch), a, s, ch);
    } else {
      ChasedAfterEcho(f, Step(f, ch), a, s, ch);
    }
  }

  lemma {:induction false} ChasedRun(f: Fleet, a: string, s: Object, run: seq<Choice>)
    requires Stable(f, a, s) && ValidRun(f, run) && InOrder(a, run) && AllPresent(f)
    ensures Chased(Run(f, run), s) <==> Chased(f, s)
    ensures Quiet(Run(f, run)) ==> (Identical(Run(f, run), s) <==> Chased(f, s))
    decreases |run|
  {
    UnsettledEmpty(f, s);
    if run == [] {
    } else {
      StableStep(f, a, s, run[0]);
      ChasedStep(f, a, s, run[0]);
      ChasedRun(Step(f, run[0]), a, s, run[1..]);
    }
  }

  ghost predicate OnlyPending(f: Fleet, c: string) {
    c in f && forall t <- f.Keys :: t != c ==> f[t].queue == []
  }

  /** The one cluster that is not a replica yet has no copy at all, and there is a status to lose. */
  ghost predicate OnlyNewcomer(f: Fleet, s: Object) {
    s.status != EMPTY_STATUS && exists u <- f.Keys :: Unsettled(f, s) == {u} && f[u].copy.None?
  }

  lemma SourceStepPresent(f: Fleet, a: string, s: Object)
    requires Stable(f, a, s) && f[a].queue != []
    ensures Enabled(f, Choice(a, 0)) && AllPresent(Step(f, Choice(a, 0)))
    ensures var src := f[a].queue[0].snapshot.obj;
            forall t | t in f && t != a :: t in Step(f, Choice(a, 0)) && Step(f, Choice(a, 0))[t] == SyncNode(f[t], src)
  {
    StableStepShape(f, a, s, Choice(a, 0));
  }

  lemma FirstSourceStep(f: Fleet, a: string, s: Object)
    requires Stable(f, a, s) && f[a].queue != [] && OnlyPending(f, a)
    ensures Enabled(f, Choice(a, 0)) && AllPresent(Step(f, Choice(a, 0)))
    ensures Chased(Step(f, Choice(a, 0)), s) <==> (|f[a].queue| >= 2 || !OnlyNewcomer(f, s))
  {
    var g := Step(f, Choice(a, 0));
    StableStep(f, a, s, Choice(a, 0));
    SourceStepPresent(f, a, s);
    if |f[a].queue| >= 2 {
      if t :| t in Unsettled(g, s) { assert a in g && a != t && g[a].queue != []; }
    } else {
      forall t | t in f && t != a
        ensures g[t].queue == [] <==> Holds(f[t], s)
        ensures t in Unsettled(g, s) <==> f[t].copy.None? && s.status != EMPTY_STATUS
      {
        SyncEffect(f[t], s, s);
      }
      NewcomerOrChased(f, g, a, s);
    }
  }

  lemma NewcomerOrChased(f: Fleet, g: Fleet, a: string, s: Object)
    requires a in f && g.Keys == f.Keys && Holds(f[a], s) && Holds(g[a], s) && g[a].queue == []
    requires forall t | t in f && t != a ::
               && (g[t].queue == [] <==> Holds(f[t], s))
               && (t in Unsettled(g, s) <==> f[t].copy.None? && s.status != EMPTY_STATUS)
    ensures Chased(g, s) <==> !OnlyNewcomer(f, s)
  {
    if u :| u in f && Unsettled(f, s) == {u} && f[u].copy.None? && s.status != EMPTY_STATUS {
      assert u in Unsettled(g, s);
      forall t, c | t in Unsettled(g, s) && c in g && c != t ensures g[c].queue == [] {
        assert t in Unsettled(f, s) && c !in Unsettled(f, s);
      }
    } else if u :| u in Unsettled(g, s) {
      assert u in Unsettled(f, s) && Unsettled(f, s) != {u};
      var d :| d in Unsettled(f, s) && d != u;
      assert d in g && g[d].queue != [];
    }
  }

  /** From a single writer at the source of truth: how many events are handled at most, and
      exactly when all copies end up identical.  They do not if the source of truth's only event
      finds a single cluster out of step and has to create its copy: nothing then brings the
      status there. */
  lemma ConvergesFully(f: Fleet, a: string, s: Object, run: seq<Choice>)
    requires Stable(f, a, s) && f[a].queue != [] && OnlyPending(f, a)
    requires ValidRun(f, run) && InOrder(a, run)
    ensures |run| <= |f[a].queue| * (1 + 3 * |Others(f, a)|) + 4 * |Others(f, a)|
    ensures Run(f, run).Keys == f.Keys
    ensures Quiet(Run(f, run)) ==> (Identical(Run(f, run), s) <==> (|f[a].queue| >= 2 || !OnlyNewcomer(f, s)))
  {
    StableRun(f, a, s, run);
    InitialCost(f, Others(f, a), s);
    if Quiet(Run(f, run)) {
      assert run != [];
      assert Enabled(f, run[0]) && run[0].cluster == a && run[0] == Choice(a, 0);
      FirstSourceStep(f, a, s);
      StableStep(f, a, s, run[0]);
      ChasedRun(Step(f, run[0]), a, s, run[1..]);
    }
  }

  lemma {:induction false} InitialCost(f: Fleet, ts: set<string>, s: Object)
    requires ts <= f.Keys && forall t <- ts :: f[t].queue == []
    ensures Cost(f, ts, s) <= 4 * |ts|
  {
    if ts == {} {
    } else {
      var t :| t in ts;
      CostSplit(f, ts, s, t);
      InitialCost(f, ts - {t}, s);
    }
  }

  lemma TwoSteps(f: Fleet, first: Choice, second: Choice)
    requires Enabled(f, first) && Enabled(Step(f, first), second)
    ensures ValidRun(f, [first, second]) && Run(f, [first, second]) == Step(Step(f, first), second)
  {
    var g := Step(f, first);
    assert [first, second][1..] == [second] && [second][1..] == [];
    assert ValidRun(Step(g, second), []);
    assert ValidRun(g, [second]) && Run(g, [second]) == Step(g, second);
  }

  lemma NewcomerRun(f: Fleet, a: string, u: string, s: Object)
    requires Stable(f, a, s) && |f[a].queue| == 1 && a != u && f.Keys == {a, u} && f[u] == Node(None, 0, [])
    ensures var run := [Choice(a, 0), Choice(u, 0)];
            && ValidRun(f, run) && Run(f, run).Keys == f.Keys && Quiet(Run(f, run))
            && Holds(Run(f, run)[u], s.(status := EMPTY_STATUS))
  {
    StableStepShape(f, a, s, Choice(a, 0));
    StableStep(f, a, s, Choice(a, 0));
    var g := Step(f, Choice(a, 0));
    assert f[a].queue[0] == f[a].queue[|f[a].queue| - 1];
    assert g[u] == Store(f[u], Added, s.(status := EMPTY_STATUS));
    StableStepShape(g, a, s, Choice(u, 0));
    StableStep(g, a, s, Choice(u, 0));
    TwoSteps(f, Choice(a, 0), Choice(u, 0));
  }

  function OneNewcomer(a: string, u: string, s: Object): Fleet {
    map[a := Node(Some(Versioned(1, s)), 1, [Event(Updated, Versioned(1, s))]), u := Node(None, 0, [])]
  }

  /** The exception in the flesh: a source of truth with a status, one new cluster without a copy, one
      event.  Two events are handled, all is quiet, and the new copy has no status. */
  lemma NewcomerMissesStatus(a: string, u: string, s: Object)
    requires a != u && a != "" && u != "" && s.spec.sot == a && s.status != EMPTY_STATUS
    ensures var f, run := OneNewcomer(a, u, s), [Choice(a, 0), Choice(u, 0)];
            && Stable(f, a, s) && |f[a].queue| == 1 && OnlyPending(f, a) && OnlyNewcomer(f, s)
            && ValidRun(f, run) && u in Run(f, run) && Quiet(Run(f, run))
            && Holds(Run(f, run)[u], s.(status := EMPTY_STATUS))
  {
    var f := OneNewcomer(a, u, s);
    assert Unsettled(f, s) == {u};
    NewcomerRun(f, a, u, s);
  }
}
