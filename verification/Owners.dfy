/** The Failover and FailoverGroup controllers, which act only in an object's source-of-truth cluster:
    what an undisturbed handler does, and what the failover controller's event loop comes to. */
module Owners {
  import opened Options
  import opened ApiServer
  import opened Mirror

  // ----- one handler

  function Reported(o: Object, status: string, state: string, message: string): Object {
    o.(status := o.status.(status := status, state := state, message := message))
  }

  function InProgress(o: Object): Object {
    Reported(o, "IN_PROGRESS", "INITIALIZING", "Starting failover process")
  }

  function Succeeded(o: Object): Object {
    Reported(o, "SUCCESS", "COMPLETED", "Failover completed successfully")
  }

  /** The claim made by both controllers: a stale snapshot conflicts, and then nothing more is done. */
  function ClaimNode(n: Node, snapshot: Versioned, c: string): Option<Node> {
    if n.copy.None? || n.copy.value.version != snapshot.version then None
    else Some(Write(n, snapshot.obj.(spec := snapshot.obj.spec.(sot := c), status := n.copy.value.obj.status)))
  }

  function RunFailover(n: Node, status: string): Node {
    if n.copy.None? || status == "SUCCESS" then n
    else
      var n1 := if status == "" then Write(n, InProgress(n.copy.value.obj)) else n;
      Write(n1, Succeeded(n1.copy.value.obj))
  }

  function FailoverNode(n: Node, snapshot: Versioned, c: string): Node {
    if snapshot.obj.spec.sot == "" then
      match ClaimNode(n, snapshot, c)
      case None => n
      case Some(n1) => RunFailover(n1, n1.copy.value.obj.status.status)
    else if snapshot.obj.spec.sot != c then n
    else RunFailover(n, snapshot.obj.status.status)
  }

  function Initialised(o: Object, c: string, now: string): Object {
    o.(status := o.status.(health := "OK", lastHeartbeat := now,
                           activeCluster := if o.status.activeCluster == "" then c else o.status.activeCluster))
  }

  function Healthy(o: Object): Object {
    o.(status := o.status.(health := "OK"))
  }

  /** `held` is what the controller knows of the group when it has established the source of truth. */
  function RunGroup(n: Node, held: Versioned, c: string, now: string): Node {
    if n.copy.None? then n
    else
      var cur := n.copy.value;
      if held.obj.status.health == "" then
        var base := if cur.version == held.version then held.obj else cur.obj;
        Write(n, cur.obj.(status := Initialised(base, c, now).status))
      else if cur.version == held.version then
        Write(n, cur.obj.(status := Healthy(held.obj).status))
      else n
  }

  function GroupNode(n: Node, snapshot: Versioned, c: string, now: string): Node {
    if snapshot.obj.spec.sot == "" then
      match ClaimNode(n, snapshot, c)
      case None => n
      case Some(n1) => RunGroup(n1, n1.copy.value, c, now)
    else if snapshot.obj.spec.sot != c then n
    else RunGroup(n, snapshot, c, now)
  }

  // ----- the failover event loop

  /** The controller's informer in the source-of-truth cluster: the stored copy with the events not
      yet delivered, and the snapshot delivered last. */
  datatype Loop = Loop(node: Node, last: Versioned)

  /** An update event is acted on only if it changed the progress field. */
  function LoopStep(l: Loop, c: string): Loop {
    if l.node.queue == [] then l
    else
      var e := l.node.queue[0];
      var n := l.node.(queue := l.node.queue[1..]);
      var acts := e.kind == Added || (e.kind == Updated && l.last.obj.status.status != e.snapshot.obj.status.status);
      Loop(if acts then FailoverNode(n, e.snapshot, c) else n, e.snapshot)
  }

  function LoopSteps(l: Loop, c: string, k: nat): Loop
    decreases k
  {
    if k == 0 then l else LoopSteps(LoopStep(l, c), c, k - 1)
  }

  lemma {:induction false} QuietLoopStays(l: Loop, c: string, k: nat)
    requires l.node.queue == []
    ensures LoopSteps(l, c, k) == l
    decreases k
  {
    if k > 0 { QuietLoopStays(l, c, k - 1); }
  }

  ghost predicate JustAdded(n: Node, v: Versioned, c: string) {
    && c != "" && n.copy == Some(v) && v.version <= n.clock && v.obj.spec.sot in {"", c}
    && n.queue == [Event(Added, v)]
  }

  /** The stored failover is done, and the pending events no longer make the controller change it. */
  ghost predicate Draining(l: Loop, c: string) {
    && l.node.copy.Some? && l.node.copy.value.obj.status.status == "SUCCESS"
    && forall i: nat :: i < |l.node.queue| ==>
         var e := l.node.queue[i];
         && e.kind == Updated && e.snapshot.obj.spec.sot == c
         && (e.snapshot.obj.status.status == "SUCCESS" ||
             (Succeeded(l.node.copy.value.obj) == l.node.copy.value.obj
              && (e.snapshot.obj.status.status == "" ==> i == 0 && l.last.obj.status.status == "")))
  }

  lemma DrainStep(l: Loop, c: string)
    requires Draining(l, c) && l.node.queue != [] && c != ""
    ensures Draining(LoopStep(l, c), c) && LoopStep(l, c).node == l.node.(queue := l.node.queue[1..])
  {
    var l', e := LoopStep(l, c), l.node.queue[0];
    assert l'.node == l.node.(queue := l.node.queue[1..]);
    forall i: nat | i < |l'.node.queue| ensures l'.node.queue[i] == l.node.queue[i + 1] {}
  }

  lemma {:induction false} Drains(l: Loop, c: string, k: nat)
    requires Draining(l, c) && c != "" && k >= |l.node.queue|
    ensures LoopSteps(l, c, k).node == l.node.(queue := [])
    decreases k
  {
    if l.node.queue == [] {
      QuietLoopStays(l, c, k);
    } else {
      DrainStep(l, c);
      Drains(LoopStep(l, c), c, k - 1);
    }
  }

  /** One handling of a failover: what is stored, and the events it raises. */
  lemma RunFailoverEffect(n: Node)
    requires n.copy.Some?
    ensures var o := n.copy.value.obj;
            var n' := RunFailover(n, o.status.status);
            && n'.copy.Some? && n'.copy.value.obj == (if o.status.status == "SUCCESS" then o else Succeeded(o))
            && |n'.queue| <= |n.queue| + 2 && n.queue <= n'.queue
            && forall i: nat :: |n.queue| <= i < |n'.queue| ==>
                 && n'.queue[i].kind == Updated && n'.queue[i].snapshot.obj.spec == o.spec
                 && n'.queue[i].snapshot.obj.status.status in {"IN_PROGRESS", "SUCCESS"}
                 && o.status.status != "SUCCESS"
  {}

  lemma FirstHandling(n: Node, v: Versioned, c: string)
    requires JustAdded(n, v, c)
    ensures var l := LoopStep(Loop(n, v), c);
            && Draining(l, c) && |l.node.queue| <= 3
            && l.node.copy.value.obj.spec == v.obj.spec.(sot := c)
            && l.node.copy.value.obj.annotations == v.obj.annotations
            && l.node.copy.value.obj.status ==
               if v.obj.status.status == "SUCCESS" then v.obj.status
               else Succeeded(v.obj).status
  {
    var n0 := n.(queue := []);
    var n1 := if v.obj.spec.sot == "" then ClaimNode(n0, v, c).value else n0;
    assert n1.copy.value.obj == v.obj.(spec := v.obj.spec.(sot := c));
    RunFailoverEffect(n1);
    assert LoopStep(Loop(n, v), c) == Loop(RunFailover(n1, v.obj.status.status), v);
  }

  /** The failover loop quiesces: whatever the initial status, the loop stops after at most four events with
      status SUCCESS, and neither the annotations nor the rest of the spec have changed. */
  lemma FailoverLoopQuiesces(n: Node, v: Versioned, c: string, k: nat)
    requires JustAdded(n, v, c) && k >= 4
    ensures var l := LoopSteps(Loop(n, v), c, k);
            && l.node.queue == [] && l.node.copy.Some?
            && l.node.copy.value.obj.spec == v.obj.spec.(sot := c)
            && l.node.copy.value.obj.annotations == v.obj.annotations
            && l.node.copy.value.obj.status ==
               if v.obj.status.status == "SUCCESS" then v.obj.status
               else v.obj.status.(status := "SUCCESS", state := "COMPLETED",
                                  message := "Failover completed successfully")
  {
    FirstHandling(n, v, c);
    Drains(LoopStep(Loop(n, v), c), c, k - 1);
  }

  // ----- the same add event reaches the mirror controller too

  /** A new object's add event was handled by the mirror controller and by the failover controller. */
  function BothHandled(n: Node, v: Versioned, c: string, mirrorFirst: bool): Node {
    var n0 := n.(queue := []);
    if mirrorFirst then FailoverNode(AssignNode(n0, v, c), v, c) else AssignNode(FailoverNode(n0, v, c), v, c)
  }

  /** Exactly when a new failover is carried out: the failover controller has to claim it first.  If the
      mirror controller is faster, the claim conflicts and no later event asks for another try. */
  lemma MirrorMustNotClaimFirst(n: Node, v: Versioned, c: string, mirrorFirst: bool, k: nat)
    requires JustAdded(n, v, c) && v.obj.spec.sot == "" && k >= 4
    ensures var l := LoopSteps(Loop(BothHandled(n, v, c, mirrorFirst), v), c, k);
            && l.node.queue == [] && l.node.copy.Some?
            && l.node.copy.value.obj.spec.sot == c
            && (l.node.copy.value.obj.status.status == "SUCCESS" <==> !mirrorFirst || v.obj.status.status == "SUCCESS")
  {
    var n0, o := n.(queue := []), v.obj.(spec := v.obj.spec.(sot := c));
    var n' := BothHandled(n, v, c, mirrorFirst);
    var n1 := AssignNode(n0, v, c);
    assert n1 == Store(n0, Updated, o) && ClaimNode(n0, v, c) == Some(n1);
    if mirrorFirst {
      // the claim fails, and the mirror's own update shows no new status
      assert n' == n1 && n1.queue[1..] == [];
      var l1 := LoopStep(Loop(n1, v), c);
      assert LoopSteps(Loop(n1, v), c, k) == LoopSteps(l1, c, k - 1);
      QuietLoopStays(l1, c, k - 1);
    } else {
      FirstHandling(n, v, c);
      var l := LoopStep(Loop(n, v), c);
      assert n' == l.node;
      Drains(l, c, k);
    }
  }

  // ----- the failover group event loop

  /** An update event is acted on only if it changed the health. */
  function GroupLoopStep(l: Loop, c: string, now: string): Loop {
    if l.node.queue == [] then l
    else
      var e := l.node.queue[0];
      var n := l.node.(queue := l.node.queue[1..]);
      var acts := e.kind == Added || (e.kind == Updated && l.last.obj.status.health != e.snapshot.obj.status.health);
      Loop(if acts then GroupNode(n, e.snapshot, c, now) else n, e.snapshot)
  }

  function GroupLoopSteps(l: Loop, c: string, now: string, k: nat): Loop
    decreases k
  {
    if k == 0 then l else GroupLoopSteps(GroupLoopStep(l, c, now), c, now, k - 1)
  }

  /** The pending events show a healthy group, or no change of health, and only one as new as the copy. */
  ghost predicate GroupDraining(l: Loop, c: string) {
    && l.node.copy.Some?
    && forall i: nat :: i < |l.node.queue| ==>
         var e := l.node.queue[i];
         && e.kind == Updated && e.snapshot.obj.spec.sot == c
         && (e.snapshot.version == l.node.copy.value.version ==> e.snapshot == l.node.copy.value)
         && (e.snapshot.obj.status.health == "OK" ||
             (i == 0 && l.last.obj.status.health == e.snapshot.obj.status.health))
  }

  lemma GroupDrainStep(l: Loop, c: string, now: string)
    requires GroupDraining(l, c) && l.node.queue != [] && c != ""
    ensures var l' := GroupLoopStep(l, c, now);
            GroupDraining(l', c) && l'.node == l.node.(queue := l.node.queue[1..])
  {
    var l', e := GroupLoopStep(l, c, now), l.node.queue[0];
    if e.snapshot.obj.status.health == "OK" {
      assert Healthy(e.snapshot.obj) == e.snapshot.obj;
    }
    assert l'.node == l.node.(queue := l.node.queue[1..]);
    forall i: nat | i < |l'.node.queue| ensures l'.node.queue[i] == l.node.queue[i + 1] {}
  }

  lemma {:induction false} GroupDrains(l: Loop, c: string, now: string, k: nat)
    requires GroupDraining(l, c) && c != "" && k >= |l.node.queue|
    ensures GroupLoopSteps(l, c, now, k).node == l.node.(queue := [])
    decreases k
  {
    if k == 0 {
      assert l.node.queue == [];
    } else if l.node.queue == [] {
      GroupDrains(l, c, now, k - 1);
    } else {
      GroupDrainStep(l, c, now);
      GroupDrains(GroupLoopStep(l, c, now), c, now, k - 1);
    }
  }

  /** What the group controller makes of a group created as `o` in cluster `c`. */
  function SettledGroup(o: Object, c: string, now: string): Object {
    var claimed := o.(spec := o.spec.(sot := c));
    if o.status.health == "" then Initialised(claimed, c, now) else Healthy(claimed)
  }

  /** Healthy; a group without health so far is also given a heartbeat and, if it has none, this active cluster. */
  predicate IsSettled(settled: Object, o: Object, c: string, now: string) {
    && settled.spec == o.spec.(sot := c) && settled.annotations == o.annotations
    && settled.status.health == "OK"
    && settled.status.lastHeartbeat == (if o.status.health == "" then now else o.status.lastHeartbeat)
    && settled.status.activeCluster ==
       (if o.status.health == "" && o.status.activeCluster == "" then c else o.status.activeCluster)
    && settled.status.status == o.status.status && settled.status.state == o.status.state
    && settled.status.message == o.status.message
  }

  lemma FirstGroupHandling(n: Node, v: Versioned, c: string, now: string)
    requires JustAdded(n, v, c)
    ensures var l := GroupLoopStep(Loop(n, v), c, now);
            && GroupDraining(l, c) && |l.node.queue| <= 2 && l.node.copy.value.obj == SettledGroup(v.obj, c, now)
            && (forall e <- l.node.queue :: e.snapshot.obj.spec == v.obj.spec.(sot := c))
            && (forall e <- l.node.queue :: e.snapshot.obj.annotations == v.obj.annotations)
            && (l.node.queue != [] ==> l.node.queue[|l.node.queue| - 1].snapshot == l.node.copy.value)
            && (v.obj.spec.sot == "" && v.obj.status.health != "OK" ==> |l.node.queue| == 2)
  {
    var n0 := n.(queue := []);
    var n1 := if v.obj.spec.sot == "" then ClaimNode(n0, v, c).value else n0;
    assert n1.copy.value.obj == v.obj.(spec := v.obj.spec.(sot := c));
    assert GroupLoopStep(Loop(n, v), c, now) == Loop(RunGroup(n1, n1.copy.value, c, now), v);
  }

  /** The group loop quiesces: whatever the initial status, the loop stops after at most three events with
      a healthy group, active in this cluster if nothing else was set; the annotations and the rest of the
      spec have not changed. */
  lemma GroupLoopQuiesces(n: Node, v: Versioned, c: string, now: string, k: nat)
    requires JustAdded(n, v, c) && k >= 3
    ensures var l := GroupLoopSteps(Loop(n, v), c, now, k);
            && l.node.queue == [] && Holds(l.node, SettledGroup(v.obj, c, now))
            && IsSettled(SettledGroup(v.obj, c, now), v.obj, c, now)
  {
    FirstGroupHandling(n, v, c, now);
    GroupDrains(GroupLoopStep(Loop(n, v), c, now), c, now, k - 1);
  }

  /** A new group's add event was handled by the mirror controller and by the group controller. */
  function GroupBothHandled(n: Node, v: Versioned, c: string, now: string, mirrorFirst: bool): Node {
    var n0 := n.(queue := []);
    if mirrorFirst then GroupNode(AssignNode(n0, v, c), v, c, now) else AssignNode(GroupNode(n0, v, c, now), v, c)
  }

  lemma MirrorSecond(n: Node, v: Versioned, c: string, now: string)
    requires JustAdded(n, v, c) && v.obj.spec.sot == ""
    ensures var n0 := n.(queue := []);
            && AssignNode(GroupNode(n0, v, c, now), v, c) == GroupNode(n0, v, c, now)
            && AssignNode(FailoverNode(n0, v, c), v, c) == FailoverNode(n0, v, c)
  {}

  /** The same race for a new failover group: exactly when it becomes healthy.  If the mirror controller
      claims it first, its status stays as created, and no later event makes the group controller act. */
  lemma GroupAddRace(n: Node, v: Versioned, c: string, now: string, mirrorFirst: bool, k: nat)
    requires JustAdded(n, v, c) && v.obj.spec.sot == "" && k >= 3
    ensures var l := GroupLoopSteps(Loop(GroupBothHandled(n, v, c, now, mirrorFirst), v), c, now, k);
            && l.node.queue == []
            && Holds(l.node, if mirrorFirst then v.obj.(spec := v.obj.spec.(sot := c)) else SettledGroup(v.obj, c, now))
            && (l.node.copy.value.obj.status.health == "OK" <==> !mirrorFirst || v.obj.status.health == "OK")
  {
    var n0, n' := n.(queue := []), GroupBothHandled(n, v, c, now, mirrorFirst);
    var n1 := AssignNode(n0, v, c);
    assert n1 == Store(n0, Updated, v.obj.(spec := v.obj.spec.(sot := c))) && ClaimNode(n0, v, c) == Some(n1);
    if mirrorFirst {
      assert n' == n1 && GroupDraining(Loop(n1, v), c);
      GroupDrains(Loop(n1, v), c, now, k);
    } else {
      FirstGroupHandling(n, v, c, now);
      MirrorSecond(n, v, c, now);
      GroupDrains(Loop(n', v), c, now, k);
    }
  }

  /** The lost claim in the flesh: a group is created in a cluster whose mirror controller is faster.  Its
      health and active cluster stay empty, although all events have been handled. */
  lemma GroupClaimLost(now: string)
    ensures var v := Versioned(1, Object(Spec("", "body"), map[], EMPTY_STATUS));
            var n := Node(Some(v), 1, [Event(Added, v)]);
            var l := GroupLoopSteps(Loop(GroupBothHandled(n, v, "a", now, true), v), "a", now, 3);
            && JustAdded(n, v, "a") && l.node.queue == []
            && Holds(l.node, Object(Spec("a", "body"), map[], EMPTY_STATUS))
  {
    var v := Versioned(1, Object(Spec("", "body"), map[], EMPTY_STATUS));
    GroupAddRace(Node(Some(v), 1, [Event(Added, v)]), v, "a", now, true, 3);
  }
}
