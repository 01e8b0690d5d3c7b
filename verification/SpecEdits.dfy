/** What happens to a spec edited away from the source of truth, and to two rival edits. */
module SpecEdits {
  import opened Options
  import opened ApiServer
  import opened Mirror
  import opened Convergence

  /** An edit was made in cluster `c`, which follows `a`; its event is the only one pending. */
  ghost predicate Edited(f: Fleet, c: string, a: string, x: Object) {
    && "" !in f && a in f && c in f && c != a
    && x.spec.sot == a && Holds(f[c], x)
    && OnlyPending(f, c) && |f[c].queue| == 1
    && f[c].queue[0].kind != Deleted && f[c].queue[0].snapshot.obj == x
  }

  /** The source of truth takes the spec and keeps its own annotations and status. */
  function Merged(n: Node, x: Object): Object {
    match n.copy
    case None => x.(status := EMPTY_STATUS)
    case Some(cur) => cur.obj.(spec := x.spec)
  }

  ghost predicate SameSpec(f: Fleet, spec: Spec) {
    forall t <- f.Keys :: f[t].copy.Some? && f[t].copy.value.obj.spec == spec
  }

  lemma FirstEditStep(f: Fleet, c: string, a: string, x: Object)
    requires Edited(f, c, a, x)
    ensures Enabled(f, Choice(c, 0))
    ensures var g := Step(f, Choice(c, 0)); var s := Merged(f[a], x);
            && g.Keys == f.Keys
            && g[a] == PushNode(f[a], x) && Holds(g[a], s)
            && g[c] == f[c].(queue := [])
            && forall t | t in f && t != a && t != c :: g[t] == SyncNode(f[t], s)
  {
    var f0 := Dequeue(f, Choice(c, 0));
    assert f0[c].queue == [];
    assert f0[a] == f[a];
    var f1 := f0[a := PushNode(f[a], x)];
    assert Step(f, Choice(c, 0)) == FanOut(f1, f1[a].copy.value.obj, f0.Keys - {c, a});
  }

  lemma PushEvents(n: Node, x: Object)
    requires n.queue == []
    ensures Holds(PushNode(n, x), Merged(n, x))
    ensures |PushNode(n, x).queue| == if n.copy.Some? && n.copy.value.obj.spec == x.spec then 0 else 1
    ensures forall e <- PushNode(n, x).queue :: e.kind != Deleted && e.snapshot.obj == Merged(n, x)
  {}

  lemma EditIsStable(f: Fleet, c: string, a: string, x: Object)
    requires Edited(f, c, a, x)
    ensures Enabled(f, Choice(c, 0))
    ensures var g := Step(f, Choice(c, 0));
            && Stable(g, a, Merged(f[a], x)) && AllPresent(g) && SameSpec(g, x.spec)
            && |g[a].queue| <= 1 && (g[a].queue != [] <==> !(f[a].copy.Some? && f[a].copy.value.obj.spec == x.spec))
  {
    FirstEditStep(f, c, a, x);
    var g, s := Step(f, Choice(c, 0)), Merged(f[a], x);
    PushEvents(f[a], x);
    forall t <- g.Keys
      ensures g[t].copy.Some? && g[t].copy.value.obj.spec == x.spec
      ensures forall e <- g[t].queue :: e.kind != Deleted && e.snapshot.obj.spec == s.spec
    {
      if t != a && t != c {
        SyncEvents(f[t], s);
      }
    }
  }

  lemma SameSpecStep(f: Fleet, a: string, s: Object, ch: Choice)
    requires Stable(f, a, s) && Enabled(f, ch) && SameSpec(f, s.spec)
    ensures SameSpec(Step(f, ch), s.spec)
  {
    StableStepShape(f, a, s, ch);
    assert f[ch.cluster].queue[ch.index] in f[ch.cluster].queue;
    forall t <- f.Keys
      ensures t in Step(f, ch) && Step(f, ch)[t].copy.Some? && Step(f, ch)[t].copy.value.obj.spec == s.spec
    {
      SyncEvents(f[t], Source(f, ch, a, s));
    }
  }

  lemma {:induction false} SameSpecRun(f: Fleet, a: string, s: Object, run: seq<Choice>)
    requires Stable(f, a, s) && ValidRun(f, run) && InOrder(a, run) && SameSpec(f, s.spec)
    ensures SameSpec(Run(f, run), s.spec)
    decreases |run|
  {
    if run == [] {
    } else {
      StableStep(f, a, s, run[0]);
      SameSpecStep(f, a, s, run[0]);
      SameSpecRun(Step(f, run[0]), a, s, run[1..]);
    }
  }

  /** The clusters the first handling step writes to. */
  function Touched(f: Fleet, c: string, a: string, s: Object): set<string> {
    set t | t in f && t != a && t != c && !Holds(f[t], s)
  }

  /** The clusters that are no replica of `s` after the first handling step. */
  function Behind(f: Fleet, c: string, a: string, s: Object): set<string>
    requires c in f
  {
    (set t | t in Touched(f, c, a, s) && t in f && f[t].copy.None? && s.status != EMPTY_STATUS)
    + if Holds(f[c], s) then {} else {c}
  }

  /** The edit made the source of truth change, or some echo reaches each cluster left behind. */
  ghost predicate Reaches(f: Fleet, c: string, a: string, x: Object)
    requires c in f && a in f
  {
    var s := Merged(f[a], x);
    || !(f[a].copy.Some? && f[a].copy.value.obj.spec == x.spec)
    || Behind(f, c, a, s) == {}
    || exists t, u :: t in Behind(f, c, a, s) && u in Touched(f, c, a, s) && t != u
  }

  lemma AfterEdit(f: Fleet, g: Fleet, c: string, a: string, s: Object)
    requires "" !in f && a in f && c in f && c != a && OnlyPending(f, c)
    requires g.Keys == f.Keys && Holds(g[a], s) && g[c] == f[c].(queue := [])
    requires forall t | t in f && t != a && t != c :: g[t] == SyncNode(f[t], s)
    ensures Unsettled(g, s) == Behind(f, c, a, s)
    ensures forall t | t in f && t != a :: g[t].queue != [] <==> t in Touched(f, c, a, s)
  {
    forall t | t in f && t != a && t != c
      ensures t in Unsettled(g, s) <==> t in Behind(f, c, a, s)
      ensures g[t].queue != [] <==> t in Touched(f, c, a, s)
    {
      assert g[t] == SyncNode(f[t], s) && f[t].queue == [];
    }
  }

  lemma ReachesIsChased(f: Fleet, c: string, a: string, x: Object)
    requires Edited(f, c, a, x)
    ensures Enabled(f, Choice(c, 0))
    ensures Chased(Step(f, Choice(c, 0)), Merged(f[a], x)) <==> Reaches(f, c, a, x)
  {
    FirstEditStep(f, c, a, x);
    EditIsStable(f, c, a, x);
    ChasedAfterEdit(f, Step(f, Choice(c, 0)), c, a, x);
  }

  lemma ChasedAfterEdit(f: Fleet, g: Fleet, c: string, a: string, x: Object)
    requires "" !in f && a in f && c in f && c != a && OnlyPending(f, c)
    requires g.Keys == f.Keys && Holds(g[a], Merged(f[a], x)) && g[c] == f[c].(queue := [])
    requires forall t | t in f && t != a && t != c :: g[t] == SyncNode(f[t], Merged(f[a], x))
    requires g[a].queue != [] <==> !(f[a].copy.Some? && f[a].copy.value.obj.spec == x.spec)
    ensures Chased(g, Merged(f[a], x)) <==> Reaches(f, c, a, x)
  {
    var s := Merged(f[a], x);
    AfterEdit(f, g, c, a, s);
    if g[a].queue != [] {
      if t :| t in Unsettled(g, s) { assert a in g && a != t; }
    } else if t, u :| t in Behind(f, c, a, s) && u in Touched(f, c, a, s) && t != u {
      assert u in g && g[u].queue != [];
    }
  }

  /** Convergence from another cluster.  Whatever the other copies look like, every order of
      handling ends with the edited spec everywhere; the source of truth keeps its annotations and
      status if it had a copy; and all copies end up identical exactly when the edit `Reaches`. */
  lemma ConvergesFromEdit(f: Fleet, c: string, a: string, x: Object, run: seq<Choice>)
    requires Edited(f, c, a, x) && ValidRun(f, run)
    ensures |run| <= 2 + 8 * |Others(f, a)|
    ensures Run(f, run).Keys == f.Keys
    ensures run != [] ==> SameSpec(Run(f, run), x.spec) && Holds(Run(f, run)[a], Merged(f[a], x))
    ensures Quiet(Run(f, run)) ==> (Identical(Run(f, run), Merged(f[a], x)) <==> Reaches(f, c, a, x))
  {
    if run == [] {
      assert f[c].queue != [];
    } else {
      assert Enabled(f, run[0]) && run[0] == Choice(c, 0);
      var g, s := Step(f, run[0]), Merged(f[a], x);
      EditIsStable(f, c, a, x);
      FirstEditStep(f, c, a, x);
      SingleIsInOrder(g, a, s, run[1..]);
      SameSpecRun(g, a, s, run[1..]);
      StableRun(g, a, s, run[1..]);
      ReachesIsChased(f, c, a, x);
      ChasedRun(g, a, s, run[1..]);
      EditCost(f, g, c, a, s);
    }
  }

  /** An edit that reaches nobody: only annotations were changed, away from the source of truth, which
      has the spec already.  The event is handled, all is quiet, and the two copies differ. */
  lemma AnnotationEditIsStuck() returns (f: Fleet, x: Object, run: seq<Choice>)
    ensures Edited(f, "c", "a", x) && !Reaches(f, "c", "a", x)
    ensures ValidRun(f, run) && Quiet(Run(f, run))
    ensures Run(f, run).Keys == f.Keys && Holds(Run(f, run)["c"], x) && x.annotations == map["note" := "new"]
    ensures Holds(Run(f, run)["a"], x.(annotations := map[]))
  {
    x := Object(Spec("a", "body"), map["note" := "new"], EMPTY_STATUS);
    f := map["a" := Node(Some(Versioned(1, x.(annotations := map[]))), 1, []),
             "c" := Node(Some(Versioned(2, x)), 2, [Event(Updated, Versioned(2, x))])];
    run := [Choice("c", 0)];
    assert Merged(f["a"], x) == x.(annotations := map[]);
    FirstEditStep(f, "c", "a", x);
    var g := Step(f, run[0]);
    assert run[1..] == [] && ValidRun(g, []) && Run(f, run) == g;
    assert x.annotations["note"] == "new";
    assert Behind(f, "c", "a", Merged(f["a"], x)) == {"c"};
    assert Touched(f, "c", "a", Merged(f["a"], x)) == {};
  }

  lemma EditCost(f: Fleet, g: Fleet, c: string, a: string, s: Object)
    requires a in f && c in f && c != a && OnlyPending(f, c)
    requires g.Keys == f.Keys && |g[a].queue| <= 1 && g[c] == f[c].(queue := [])
    requires forall t | t in f && t != a && t != c :: g[t] == SyncNode(f[t], s)
    ensures Measure(g, a, s) <= 1 + 8 * |Others(f, a)|
  {
    forall t <- Others(g, a) ensures Weight(g[t], s) <= 5 {
      if t != c { assert g[t] == SyncNode(f[t], s); }
    }
    assert Others(g, a) == Others(f, a);
    UniformCost(g, Others(g, a), s);
    TotalOfOne(|g[a].queue|, |Others(g, a)|, Cost(g, Others(g, a), s));
  }

  lemma {:induction false} UniformCost(f: Fleet, ts: set<string>, s: Object)
    requires ts <= f.Keys && forall t <- ts :: Weight(f[t], s) <= 5
    ensures Cost(f, ts, s) <= 5 * |ts|
  {
    if ts == {} {
    } else {
      var t :| t in ts;
      CostSplit(f, ts, s, t);
      UniformCost(f, ts - {t}, s);
    }
  }

  /** A new object: the first event claims it for its cluster and sends nothing out. */
  lemma CreationIsStable(f: Fleet, a: string, o: Object)
    requires "" !in f && a in f && o.spec.sot == "" && Holds(f[a], o)
    requires OnlyPending(f, a) && |f[a].queue| == 1
    requires f[a].queue[0] == Event(Added, f[a].copy.value)
    ensures Enabled(f, Choice(a, 0))
    ensures var g, s := Step(f, Choice(a, 0)), o.(spec := o.spec.(sot := a));
            && Stable(g, a, s) && OnlyPending(g, a) && |g[a].queue| == 1
            && g.Keys == f.Keys && (forall t | t in f && t != a :: g[t] == f[t])
  {
    var f0 := Dequeue(f, Choice(a, 0));
    assert f0[a].queue == [];
    assert Step(f, Choice(a, 0)) == f0[a := AssignNode(f0[a], f[a].copy.value, a)];
    assert a != "";
  }

  /** From the creation of an object in one cluster every order of handling ends, with the object,
      now owned by that cluster, in every cluster. */
  lemma ConvergesFromCreation(f: Fleet, a: string, o: Object, run: seq<Choice>)
    requires "" !in f && a in f && o.spec.sot == "" && Holds(f[a], o)
    requires OnlyPending(f, a) && |f[a].queue| == 1
    requires f[a].queue[0] == Event(Added, f[a].copy.value)
    requires ValidRun(f, run)
    ensures |run| <= 2 + 7 * |Others(f, a)|
    ensures Run(f, run).Keys == f.Keys
    ensures Quiet(Run(f, run)) ==>
              var s := o.(spec := o.spec.(sot := a));
              && (forall t <- f.Keys :: Mirrors(Run(f, run)[t], s))
              && (Identical(Run(f, run), s) <==> !OnlyNewcomer(f[a := Node(Some(Versioned(0, s)), 0, [])], s))
  {
    if run == [] {
      assert f[a].queue != [];
    } else {
      assert Enabled(f, run[0]) && run[0] == Choice(a, 0);
      CreationIsStable(f, a, o);
      var g, s := Step(f, run[0]), o.(spec := o.spec.(sot := a));
      SingleIsInOrder(g, a, s, run[1..]);
      ConvergesFromSource(g, a, s, run[1..]);
      ConvergesFully(g, a, s, run[1..]);
      SameNewcomer(f, g, a, s);
    }
  }

  lemma SameNewcomer(f: Fleet, g: Fleet, a: string, s: Object)
    requires a in f && g.Keys == f.Keys && Holds(g[a], s) && |g[a].queue| == 1
    requires forall t | t in f && t != a :: g[t] == f[t]
    ensures OnlyNewcomer(g, s) <==> OnlyNewcomer(f[a := Node(Some(Versioned(0, s)), 0, [])], s)
    ensures |g[a].queue| * (1 + 3 * |Others(g, a)|) + 4 * |Others(g, a)| == 1 + 7 * |Others(f, a)|
  {
    var h := f[a := Node(Some(Versioned(0, s)), 0, [])];
    assert Unsettled(g, s) == Unsettled(h, s);
    assert Others(g, a) == Others(f, a);
    assert forall u | u in f && u in Unsettled(g, s) :: u != a && g[u] == h[u];
  }

  // ----- two rival writers

  /** `a` holds `x` and `b` holds `y`, both naming `a` as source of truth, and each cluster's own event
      is still pending. */
  ghost predicate Rivals(f: Fleet, a: string, b: string, x: Object, y: Object) {
    && "" !in f && a in f && b in f && a != b
    && x.spec.sot == a && y.spec.sot == a
    && Holds(f[a], x) && Holds(f[b], y)
    && |f[a].queue| == 1 && f[a].queue[0].kind != Deleted && f[a].queue[0].snapshot.obj == x
    && |f[b].queue| == 1 && f[b].queue[0].kind != Deleted && f[b].queue[0].snapshot.obj == y
  }

  /** The object whose change the first pending event of cluster `c` reports. */
  ghost predicate NextShows(f: Fleet, c: string, o: Object) {
    c in f && f[c].queue != [] && f[c].queue[0].kind != Deleted && f[c].queue[0].snapshot.obj == o
  }

  /** An event of the source of truth makes the rival a replica. */
  lemma SourceEvent(f: Fleet, a: string, b: string, o: Object)
    requires "" !in f && a in f && b in f && a != b && o.spec.sot == a && NextShows(f, a, o)
    ensures Enabled(f, Choice(a, 0)) && Step(f, Choice(a, 0)).Keys == f.Keys
    ensures Step(f, Choice(a, 0))[a] == f[a].(queue := f[a].queue[1..])
    ensures Step(f, Choice(a, 0))[b] == SyncNode(f[b], o)
  {
    var f0 := Dequeue(f, Choice(a, 0));
    assert f0[a].queue == f[a].queue[1..];
    assert Step(f, Choice(a, 0)) == FanOut(f0, o, f0.Keys - {a});
  }

  /** An event of the rival takes its spec to the source of truth. */
  lemma RivalEvent(f: Fleet, a: string, b: string, o: Object)
    requires "" !in f && a in f && b in f && a != b && o.spec.sot == a && NextShows(f, b, o)
    ensures Enabled(f, Choice(b, 0)) && Step(f, Choice(b, 0)).Keys == f.Keys
    ensures Step(f, Choice(b, 0))[a] == PushNode(f[a], o)
    ensures Step(f, Choice(b, 0))[b] == f[b].(queue := f[b].queue[1..])
  {
    var f0 := Dequeue(f, Choice(b, 0));
    assert f0[b].queue == f[b].queue[1..];
    var f1 := f0[a := PushNode(f0[a], o)];
    assert Step(f, Choice(b, 0)) == FanOut(f1, f1[a].copy.value.obj, f0.Keys - {b, a});
  }

  /** Both clusters hold `va` and `vb`; the pending events of each show the listed objects. */
  ghost predicate Facing(f: Fleet, a: string, b: string, va: Object, ea: seq<Object>, vb: Object, eb: seq<Object>) {
    && "" !in f && a in f && b in f && a != b && Holds(f[a], va) && Holds(f[b], vb)
    && Shows(f[a].queue, ea) && Shows(f[b].queue, eb)
  }

  ghost predicate Shows(queue: seq<Event>, objs: seq<Object>) {
    |queue| == |objs| && forall i | 0 <= i < |objs| :: queue[i].kind != Deleted && queue[i].snapshot.obj == objs[i]
  }

  lemma SyncShows(n: Node, o: Object, vb: Object, eb: seq<Object>)
    requires Holds(n, vb) && Shows(n.queue, eb) && o.spec != vb.spec
    ensures Holds(SyncNode(n, o), o)
    ensures Shows(SyncNode(n, o).queue, eb + if o.status == vb.status then [o] else [o.(status := vb.status), o])
  {}

  lemma PushShows(n: Node, o: Object, va: Object, ea: seq<Object>)
    requires Holds(n, va) && Shows(n.queue, ea)
    ensures Holds(PushNode(n, o), va.(spec := o.spec))
    ensures Shows(PushNode(n, o).queue, ea + if o.spec == va.spec then [] else [va.(spec := o.spec)])
  {}

  lemma SourceTurn(f: Fleet, a: string, b: string, va: Object, ea: seq<Object>, vb: Object, eb: seq<Object>)
    requires Facing(f, a, b, va, ea, vb, eb) && ea != [] && ea[0].spec.sot == a && ea[0].spec != vb.spec
    ensures Enabled(f, Choice(a, 0))
    ensures Facing(Step(f, Choice(a, 0)), a, b, va, ea[1..], ea[0],
                   eb + if ea[0].status == vb.status then [ea[0]] else [ea[0].(status := vb.status), ea[0]])
  {
    SourceEvent(f, a, b, ea[0]);
    SyncShows(f[b], ea[0], vb, eb);
  }

  lemma RivalTurn(f: Fleet, a: string, b: string, va: Object, ea: seq<Object>, vb: Object, eb: seq<Object>)
    requires Facing(f, a, b, va, ea, vb, eb) && eb != [] && eb[0].spec.sot == a
    ensures Enabled(f, Choice(b, 0))
    ensures Facing(Step(f, Choice(b, 0)), a, b, va.(spec := eb[0].spec),
                   ea + if eb[0].spec == va.spec then [] else [va.(spec := eb[0].spec)], vb, eb[1..])
  {
    RivalEvent(f, a, b, eb[0]);
    PushShows(f[a], eb[0], va, ea);
  }

  /** One event at each: the specs have changed places, and the annotations and statuses agree. */
  lemma RivalsSwap(f: Fleet, a: string, b: string, x: Object, y: Object)
    requires Rivals(f, a, b, x, y) && x.spec != y.spec && x.status == y.status
    ensures Enabled(f, Choice(a, 0)) && Enabled(Step(f, Choice(a, 0)), Choice(b, 0))
    ensures Rivals(Step(Step(f, Choice(a, 0)), Choice(b, 0)), a, b, x.(spec := y.spec), x)
  {
    SourceTurn(f, a, b, x, [x], y, [y]);
    assert Facing(Step(f, Choice(a, 0)), a, b, x, [], x, [y, x]);
    RivalTurn(Step(f, Choice(a, 0)), a, b, x, [], x, [y, x]);
  }

  lemma PrependStep(f: Fleet, ch: Choice, run: seq<Choice>)
    requires Enabled(f, ch) && ValidRun(Step(f, ch), run)
    ensures ValidRun(f, [ch] + run) && Run(f, [ch] + run) == Run(Step(f, ch), run)
  {
    assert ([ch] + run)[1..] == run;
  }

  function Rounds(a: string, b: string, n: nat): seq<Choice> {
    if n == 0 then [] else [Choice(a, 0)] + ([Choice(b, 0)] + Rounds(a, b, n - 1))
  }

  lemma {:induction false} RivalsGoRound(f: Fleet, a: string, b: string, x: Object, y: Object, n: nat)
    requires Rivals(f, a, b, x, y) && x.spec != y.spec && x.status == y.status
    ensures |Rounds(a, b, n)| == 2 * n && ValidRun(f, Rounds(a, b, n)) && !Quiet(Run(f, Rounds(a, b, n)))
    decreases n
  {
    if n == 0 {
      assert a in f && f[a].queue != [];
    } else {
      var g := Step(f, Choice(a, 0));
      RivalsSwap(f, a, b, x, y);
      RivalsGoRound(Step(g, Choice(b, 0)), a, b, x.(spec := y.spec), x, n - 1);
      PrependStep(g, Choice(b, 0), Rounds(a, b, n - 1));
      PrependStep(f, Choice(a, 0), [Choice(b, 0)] + Rounds(a, b, n - 1));
    }
  }

  // Unequal statuses: five events make them agree, and then the specs go round.

  function Opening(a: string, b: string, n: nat): seq<Choice> {
    [Choice(a, 0)] + ([Choice(b, 0)] + Closing(a, b, n))
  }

  function Closing(a: string, b: string, n: nat): seq<Choice> {
    [Choice(b, 0)] + ([Choice(b, 0)] + ([Choice(a, 0)] + Rounds(a, b, n)))
  }

  lemma LastTurn(f: Fleet, a: string, b: string, x: Object, x': Object, n: nat)
    requires Facing(f, a, b, x, [x', x], x, []) && x.spec.sot == a && x'.spec.sot == a
    requires x' == x.(spec := x'.spec) && x'.spec != x.spec
    ensures var run := [Choice(a, 0)] + Rounds(a, b, n);
            |run| > 2 * n && ValidRun(f, run) && !Quiet(Run(f, run))
  {
    SourceTurn(f, a, b, x, [x', x], x, []);
    assert [x', x][1..] == [x] && [] + [x'] == [x'];
    assert Facing(Step(f, Choice(a, 0)), a, b, x, [x], x', [x']);
    RivalsGoRound(Step(f, Choice(a, 0)), a, b, x, x', n);
    PrependStep(f, Choice(a, 0), Rounds(a, b, n));
  }

  lemma ClosingRun(f: Fleet, a: string, b: string, x: Object, x': Object, x'': Object, n: nat)
    requires Facing(f, a, b, x', [x'], x, [x'', x]) && x.spec.sot == a && x'.spec.sot == a
    requires x' == x.(spec := x'.spec) && x''.spec == x.spec && x'.spec != x.spec
    ensures var run := Closing(a, b, n); |run| > 2 * n && ValidRun(f, run) && !Quiet(Run(f, run))
  {
    var f1 := Step(f, Choice(b, 0));
    RivalTurn(f, a, b, x', [x'], x, [x'', x]);
    assert [x'] + [x] == [x', x] && [x'', x][1..] == [x] && x'.(spec := x.spec) == x;
    RivalTurn(f1, a, b, x, [x', x], x, [x]);
    assert [x', x] + [] == [x', x] && [x][1..] == [];
    LastTurn(Step(f1, Choice(b, 0)), a, b, x, x', n);
    PrependStep(f1, Choice(b, 0), [Choice(a, 0)] + Rounds(a, b, n));
    PrependStep(f, Choice(b, 0), [Choice(b, 0)] + ([Choice(a, 0)] + Rounds(a, b, n)));
  }

  lemma OpeningRun(f: Fleet, a: string, b: string, x: Object, y: Object, n: nat)
    requires Rivals(f, a, b, x, y) && x.spec != y.spec && x.status != y.status
    ensures var run := Opening(a, b, n); |run| > 2 * n && ValidRun(f, run) && !Quiet(Run(f, run))
  {
    var x', x'' := x.(spec := y.spec), x.(status := y.status);
    var f1 := Step(f, Choice(a, 0));
    SourceTurn(f, a, b, x, [x], y, [y]);
    assert [y] + [x'', x] == [y, x'', x] && [x][1..] == [];
    RivalTurn(f1, a, b, x, [], x, [y, x'', x]);
    assert [y, x'', x][1..] == [x'', x] && [] + [x'] == [x'];
    ClosingRun(Step(f1, Choice(b, 0)), a, b, x, x', x'', n);
    PrependStep(f1, Choice(b, 0), Closing(a, b, n));
    PrependStep(f, Choice(a, 0), [Choice(b, 0)] + Closing(a, b, n));
  }

  /** The next event of an informer is delivered first. */
  predicate AllInOrder(run: seq<Choice>) {
    forall ch <- run :: ch.index == 0
  }

  lemma RoundsInOrder(a: string, b: string, n: nat)
    ensures AllInOrder(Rounds(a, b, n))
  {}

  function Chase(a: string, b: string, x: Object, y: Object, n: nat): seq<Choice> {
    if x.status == y.status then Rounds(a, b, n) else Opening(a, b, n)
  }

  /** Two different specs written in two clusters at the same time chase each other for ever: for every
      n there is a run of at least 2n steps, each informer delivering in order, after which events are
      still pending. */
  lemma RivalsNeverSettle(f: Fleet, a: string, b: string, x: Object, y: Object, n: nat)
    requires Rivals(f, a, b, x, y) && x.spec != y.spec
    ensures var run := Chase(a, b, x, y, n);
            |run| >= 2 * n && ValidRun(f, run) && AllInOrder(run) && !Quiet(Run(f, run))
  {
    RoundsInOrder(a, b, n);
    if x.status == y.status {
      RivalsGoRound(f, a, b, x, y, n);
    } else {
      OpeningRun(f, a, b, x, y, n);
    }
  }

  ghost predicate RunsWithin(f: Fleet, bound: nat) {
    forall run :: ValidRun(f, run) ==> |run| <= bound
  }

  /** The number of events handled is bounded, whatever the order. */
  ghost predicate Settles(f: Fleet) {
    exists bound: nat :: RunsWithin(f, bound)
  }

  lemma AgreeingIsStable(f: Fleet, a: string, b: string, x: Object, y: Object)
    requires Rivals(f, a, b, x, y) && x.spec == y.spec
    requires forall t <- f.Keys :: t != a && t != b ==> f[t].queue == []
    ensures Stable(f, a, x)
  {}

  /** Exactly when two concurrent edits settle, in a fleet of any size with any other copies: they do if
      and only if they agree on the spec, and then every quiet end has that spec, with the annotations of
      the source of truth, everywhere. */
  lemma RivalsSettleIff(f: Fleet, a: string, b: string, x: Object, y: Object)
    requires Rivals(f, a, b, x, y)
    requires forall t <- f.Keys :: t != a && t != b ==> f[t].queue == []
    ensures Settles(f) <==> x.spec == y.spec
    ensures x.spec == y.spec ==>
              forall run | ValidRun(f, run) && Quiet(Run(f, run)) ::
                Run(f, run).Keys == f.Keys && forall t <- f.Keys :: Mirrors(Run(f, run)[t], x)
  {
    if x.spec == y.spec {
      AgreeingIsStable(f, a, b, x, y);
      forall run | ValidRun(f, run)
        ensures |run| <= Measure(f, a, x) && Run(f, run).Keys == f.Keys
        ensures Quiet(Run(f, run)) ==> forall t <- f.Keys :: Mirrors(Run(f, run)[t], x)
      {
        SingleIsInOrder(f, a, x, run);
        ConvergesFromSource(f, a, x, run);
      }
      assert RunsWithin(f, Measure(f, a, x));
    } else {
      forall bound: nat ensures !RunsWithin(f, bound) {
        RivalsNeverSettle(f, a, b, x, y, bound + 1);
        assert |Chase(a, b, x, y, bound + 1)| > bound;
      }
    }
  }
}
