/** From the creation of an object to the end: its own controller and the mirror controller handle the add
    event, and the mirror controllers of all clusters what follows. */
module Creation {
  import opened Options
  import opened ApiServer
  import opened Mirror
  import opened Convergence
  import opened SpecEdits
  import opened Owners

  /** An object was just created, without owner, in cluster `a`; nothing else is pending anywhere. */
  ghost predicate Created(f: Fleet, a: string, v: Versioned) {
    "" !in f && a in f && JustAdded(f[a], v, a) && v.obj.spec.sot == "" && OnlyPending(f, a)
  }

  /** Cluster `a` after the add event was handled: it owns `s`, and its events led up to `s`. */
  ghost predicate Settled(n: Node, a: string, s: Object) {
    && s.spec.sot == a && Holds(n, s) && n.queue != [] && n.queue[|n.queue| - 1].snapshot.obj == s
    && forall e <- n.queue ::
         e.kind != Deleted && e.snapshot.obj.spec == s.spec && e.snapshot.obj.annotations == s.annotations
  }

  lemma SettledIsStable(f: Fleet, a: string, n: Node, s: Object)
    requires "" !in f && OnlyPending(f, a) && Settled(n, a, s)
    ensures Stable(f[a := n], a, s) && OnlyPending(f[a := n], a)
  {}

  lemma {:induction false} EndMirrors(g: Fleet, a: string, s: Object, run: seq<Choice>)
    requires Stable(g, a, s) && g[a].queue != []
    requires ValidRun(g, run) && InOrder(a, run)
    ensures Run(g, run).Keys == g.Keys
    ensures Quiet(Run(g, run)) ==> forall t <- g.Keys :: Mirrors(Run(g, run)[t], s)
  {
    ConvergesFromSource(g, a, s, run);
  }

  lemma {:induction false} SettledConverges(f: Fleet, a: string, n: Node, s: Object, run: seq<Choice>)
    requires "" !in f && OnlyPending(f, a) && Settled(n, a, s)
    requires ValidRun(f[a := n], run) && InOrder(a, run)
    ensures |run| <= |n.queue| * (1 + 3 * |Others(f, a)|) + 4 * |Others(f, a)|
    ensures Run(f[a := n], run).Keys == f.Keys
    ensures Quiet(Run(f[a := n], run)) ==> forall t <- f.Keys :: Mirrors(Run(f[a := n], run)[t], s)
    ensures Quiet(Run(f[a := n], run)) && |n.queue| >= 2 ==> Identical(Run(f[a := n], run), s)
  {
    var g := f[a := n];
    SettledIsStable(f, a, n, s);
    assert g.Keys == f.Keys && Others(g, a) == Others(f, a) && g[a] == n;
    EndMirrors(g, a, s, run);
    ConvergesFully(g, a, s, run);
  }

  /** The object in the end, after both controllers of cluster `a` have handled the add event of a failover. */
  function FinalFailover(v: Versioned, a: string, mirrorFirst: bool): Object {
    var claimed := v.obj.(spec := v.obj.spec.(sot := a));
    if mirrorFirst || v.obj.status.status == "SUCCESS" then claimed else Succeeded(claimed)
  }

  /** Cluster `a` once the object is claimed, by whichever controller. */
  lemma ClaimedNode(n: Node, v: Versioned, a: string) returns (n1: Node)
    requires JustAdded(n, v, a) && v.obj.spec.sot == ""
    ensures n1 == Store(n.(queue := []), Updated, v.obj.(spec := v.obj.spec.(sot := a)))
    ensures AssignNode(n.(queue := []), v, a) == n1 && ClaimNode(n.(queue := []), v, a) == Some(n1)
  {
    n1 := AssignNode(n.(queue := []), v, a);
  }

  ghost predicate JustClaimed(n: Node, a: string) {
    n.copy.Some? && n.copy.value.obj.spec.sot == a && n.queue == [Event(Updated, n.copy.value)]
  }

  lemma RunSettles(n: Node, a: string)
    requires JustClaimed(n, a)
    ensures var o := n.copy.value.obj;
            var n' := RunFailover(n, o.status.status);
            && Settled(n', a, if o.status.status == "SUCCESS" then o else Succeeded(o)) && |n'.queue| <= 3
            && (|n'.queue| >= 2 <==> o.status.status != "SUCCESS")
  {}

  lemma GroupRunSettles(n: Node, a: string, now: string)
    requires JustClaimed(n, a)
    ensures var o := n.copy.value.obj;
            var n' := RunGroup(n, n.copy.value, a, now);
            && Settled(n', a, if o.status.health == "" then Initialised(o, a, now) else Healthy(o)) && |n'.queue| <= 2
            && (|n'.queue| >= 2 <==> o.status.health != "OK")
  {}

  lemma FailoverSettles(n: Node, v: Versioned, a: string, mirrorFirst: bool)
    requires JustAdded(n, v, a) && v.obj.spec.sot == ""
    ensures var n' := BothHandled(n, v, a, mirrorFirst);
            && Settled(n', a, FinalFailover(v, a, mirrorFirst)) && |n'.queue| <= 3
            && (|n'.queue| >= 2 <==> !mirrorFirst && v.obj.status.status != "SUCCESS")
  {
    var n1 := ClaimedNode(n, v, a);
    if !mirrorFirst {
      MirrorSecond(n, v, a, "");
      assert BothHandled(n, v, a, false) == RunFailover(n1, v.obj.status.status);
      RunSettles(n1, a);
    }
  }

  /** A new failover, from creation to the end.  Every order of handling ends within a bound with the spec
      and annotations, now owned by the cluster of creation, in every cluster.  If the failover controller
      claimed it first, every copy ends up finished; otherwise none is ever worked on. */
  lemma {:induction false} FailoverCreation(f: Fleet, a: string, v: Versioned, mirrorFirst: bool, run: seq<Choice>)
    requires Created(f, a, v)
    requires ValidRun(f[a := BothHandled(f[a], v, a, mirrorFirst)], run) && InOrder(a, run)
    ensures var n := BothHandled(f[a], v, a, mirrorFirst);
            var end := Run(f[a := n], run);
            var s := FinalFailover(v, a, mirrorFirst);
            && |n.queue| <= 3 && |run| <= |n.queue| * (1 + 3 * |Others(f, a)|) + 4 * |Others(f, a)|
            && end.Keys == f.Keys
            && (Quiet(end) ==>
                  && (forall t <- f.Keys :: Mirrors(end[t], s))
                  && (!mirrorFirst && v.obj.status.status != "SUCCESS" ==>
                        s.status.status == "SUCCESS" && Identical(end, s)))
  {
    var n, s := BothHandled(f[a], v, a, mirrorFirst), FinalFailover(v, a, mirrorFirst);
    FailoverSettles(f[a], v, a, mirrorFirst);
    SettledConverges(f, a, n, s, run);
  }

  function FinalGroup(v: Versioned, a: string, now: string, mirrorFirst: bool): Object {
    if mirrorFirst then v.obj.(spec := v.obj.spec.(sot := a)) else SettledGroup(v.obj, a, now)
  }

  lemma GroupSettles(n: Node, v: Versioned, a: string, now: string, mirrorFirst: bool)
    requires JustAdded(n, v, a) && v.obj.spec.sot == ""
    ensures var n' := GroupBothHandled(n, v, a, now, mirrorFirst);
            && Settled(n', a, FinalGroup(v, a, now, mirrorFirst)) && |n'.queue| <= 2
            && (|n'.queue| >= 2 <==> !mirrorFirst && v.obj.status.health != "OK")
  {
    var n1 := ClaimedNode(n, v, a);
    if !mirrorFirst {
      MirrorSecond(n, v, a, now);
      assert GroupBothHandled(n, v, a, now, false) == RunGroup(n1, n1.copy.value, a, now);
      GroupRunSettles(n1, a, now);
    }
  }

  /** The same for a new failover group: if the group controller claimed it first, every copy ends up
      healthy, with an active cluster. */
  lemma {:induction false} GroupCreation(f: Fleet, a: string, v: Versioned, now: string, mirrorFirst: bool,
                                         run: seq<Choice>)
    requires Created(f, a, v)
    requires ValidRun(f[a := GroupBothHandled(f[a], v, a, now, mirrorFirst)], run) && InOrder(a, run)
    ensures var n := GroupBothHandled(f[a], v, a, now, mirrorFirst);
            var end := Run(f[a := n], run);
            var s := FinalGroup(v, a, now, mirrorFirst);
            && |n.queue| <= 3 && |run| <= |n.queue| * (1 + 3 * |Others(f, a)|) + 4 * |Others(f, a)|
            && end.Keys == f.Keys
            && (Quiet(end) ==>
                  && (forall t <- f.Keys :: Mirrors(end[t], s))
                  && (!mirrorFirst && v.obj.status.health != "OK" ==>
                        IsSettled(s, v.obj, a, now) && Identical(end, s)))
  {
    var n, s := GroupBothHandled(f[a], v, a, now, mirrorFirst), FinalGroup(v, a, now, mirrorFirst);
    GroupSettles(f[a], v, a, now, mirrorFirst);
    SettledConverges(f, a, n, s, run);
  }
}
