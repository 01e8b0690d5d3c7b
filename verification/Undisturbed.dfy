/** A handler always ends after a bounded number of calls, and one that nobody disturbs does
    what the atomic description of `Mirror` says. */
module Undisturbed {
  import opened Options
  import opened ApiServer
  import opened Mirror
  import opened Owners
  import opened Interleaving

  function RoundsLeft(tries: nat): nat {
    if tries < MAX_RETRIES then MAX_RETRIES - tries else 1
  }

  /** An upper bound on the steps a thread still takes among `n` clusters. */
  function Budget(th: Thread, n: nat): nat {
    match th
    case Idle => 0
    case Claim(_, _, tries) => 2 * RoundsLeft(tries)
    case ClaimReread(_, tries) => 2 * RoundsLeft(tries) - 1
    case PushGet(_, _, _) => 8 * n + 14
    case PushCreate(_, _, _) => 8 * n + 13
    case PushGetAgain(_, _, _) => 8 * n + 12
    case PushUpdate(_, _, _, _, tries) => 8 * n + 1 + 2 * RoundsLeft(tries)
    case PushReread(_, _, _, tries) => 8 * n + 2 * RoundsLeft(tries)
    case Fan(_, todo) => 8 * |todo| + 1
    case SyncGet(_, _, todo) => 8 * |todo| + 8
    case SyncUpdate(_, _, todo, _) => 8 * |todo| + 7
    case SyncReread(_, _, todo) => 8 * |todo| + 6
    case SyncUpdateAgain(_, _, todo, _) => 8 * |todo| + 5
    case SyncStatus(_, _, todo, _) => 8 * |todo| + 4
    case SyncStatusReread(_, _, todo) => 8 * |todo| + 3
    case SyncStatusAgain(_, _, todo, _) => 8 * |todo| + 2
    case SyncCreate(_, _, todo) => 8 * |todo| + 2
    case DeleteSource(_, _) => 2 * n + 2
    case DeleteFan(todo) => 2 * |todo| + 1
    case DeleteOne(_, todo) => 2 * |todo| + 2
    case GroupClaim(_, _) => 6
    case GroupInit(_, _) => 5
    case GroupReread(_) => 4
    case GroupInitAgain(_, _) => 3
    case GroupHealth(_, _) => 1
    case FailoverClaim(_, _) => 9
    case FailoverRead(_, last) => if last then 4 else 8
    case FailoverWrite(_, last, _) => if last then 3 else 7
    case FailoverReread(_, last) => if last then 2 else 6
    case FailoverWriteAgain(_, last, _) => if last then 1 else 5
  }

  lemma WithoutSize(clusters: set<string>, some: set<string>)
    ensures |clusters - some| <= |clusters|
  {
    assert clusters == (clusters - some) + (clusters * some);
  }

  predicate Leaving(th: Thread) {
    th.PushUpdate? || th.PushReread? || th.DeleteSource?
  }

  lemma PushingRunsOut(th: Thread, r: Response, clusters: set<string>, now: string, rest: set<string>)
    requires th.PushUpdate? || th.PushReread?
    requires rest == clusters - {th.c, th.sot} && |rest| <= |clusters|
    ensures Budget(Next(th, r, clusters, now), |clusters|) < Budget(th, |clusters|)
  {
    var next := Next(th, r, clusters, now);
    assert next.Fan? ==> next.todo == rest;
  }

  lemma DeletingRunsOut(th: Thread, r: Response, clusters: set<string>, now: string, rest: set<string>)
    requires th.DeleteSource?
    requires rest == clusters - {th.c, th.sot} && |rest| <= |clusters|
    ensures Budget(Next(th, r, clusters, now), |clusters|) < Budget(th, |clusters|)
  {
    var next := Next(th, r, clusters, now);
    assert next.DeleteFan? ==> next.todo == rest;
  }

  lemma LeavingRunsOut(th: Thread, r: Response, clusters: set<string>, now: string)
    requires Leaving(th)
    ensures Budget(Next(th, r, clusters, now), |clusters|) < Budget(th, |clusters|)
  {
    WithoutSize(clusters, {th.c, th.sot});
    if th.DeleteSource? {
      DeletingRunsOut(th, r, clusters, now, clusters - {th.c, th.sot});
    } else {
      PushingRunsOut(th, r, clusters, now, clusters - {th.c, th.sot});
    }
  }

  lemma SyncingRunsOut(th: Thread, r: Response, clusters: set<string>, now: string)
    requires Syncing(th)
    ensures Budget(Next(th, r, clusters, now), |clusters|) < Budget(th, |clusters|)
  {}

  lemma GroupRunsOut(th: Thread, r: Response, clusters: set<string>, now: string)
    requires OfGroup(th)
    ensures Budget(Next(th, r, clusters, now), |clusters|) < Budget(th, |clusters|)
  {}

  lemma FailoverClaimRunsOut(th: Thread, r: Response, clusters: set<string>, now: string)
    requires th.FailoverClaim?
    ensures Budget(Next(th, r, clusters, now), |clusters|) < Budget(th, |clusters|)
  {}

  lemma ReportRunsOut(th: Thread, r: Response, clusters: set<string>, now: string)
    requires OfFailover(th) && !th.FailoverClaim?
    ensures Budget(Next(th, r, clusters, now), |clusters|) < Budget(th, |clusters|)
  {}

  lemma StayingRunsOut(th: Thread, r: Response, clusters: set<string>, now: string)
    requires CallOf(th).Some? && !Leaving(th) && !Syncing(th) && !OfGroup(th) && !OfFailover(th)
    ensures Budget(Next(th, r, clusters, now), |clusters|) < Budget(th, |clusters|)
  {}

  /** Whatever a call is answered, it brings the handler nearer to its end. */
  lemma CallsRunOut(th: Thread, r: Response, clusters: set<string>, now: string)
    requires CallOf(th).Some?
    ensures Budget(Next(th, r, clusters, now), |clusters|) < Budget(th, |clusters|)
  {
    if Leaving(th) {
      LeavingRunsOut(th, r, clusters, now);
    } else if Syncing(th) {
      SyncingRunsOut(th, r, clusters, now);
    } else if OfGroup(th) {
      GroupRunsOut(th, r, clusters, now);
    } else if th.FailoverClaim? {
      FailoverClaimRunsOut(th, r, clusters, now);
    } else if OfFailover(th) {
      ReportRunsOut(th, r, clusters, now);
    } else {
      StayingRunsOut(th, r, clusters, now);
    }
  }

  lemma MirrorBudget(role: Role, c: string, v: Versioned, clusters: set<string>, now: string, n: nat)
    requires role.MirrorAdd? || role.MirrorUpdate? || role.MirrorDelete?
    requires |clusters - {c}| <= n
    ensures Budget(Begin(role, c, v, clusters, now), n) <= 8 * n + 14
  {}

  lemma OwnerBudget(role: Role, c: string, v: Versioned, clusters: set<string>, now: string, n: nat)
    requires role.GroupEvent? || role.FailoverEvent?
    ensures Budget(Begin(role, c, v, clusters, now), n) <= 9
  {}

  lemma BeginBudget(role: Role, c: string, v: Versioned, clusters: set<string>, now: string)
    ensures Budget(Begin(role, c, v, clusters, now), |clusters|) <= 8 * |clusters| + 14
  {
    WithoutSize(clusters, {c});
    if role.GroupEvent? || role.FailoverEvent? {
      OwnerBudget(role, c, v, clusters, now, |clusters|);
    } else {
      MirrorBudget(role, c, v, clusters, now, |clusters|);
    }
  }

  /** The thread once its loop has picked `t`. */
  function Picked(th: Thread, t: string): Thread
    requires th.Fan? || th.DeleteFan?
  {
    if th.Fan? then SyncGet(th.src, t, th.todo - {t}) else DeleteOne(t, th.todo - {t})
  }

  lemma PickedRunsOut(th: Thread, t: string, n: nat)
    requires (th.Fan? || th.DeleteFan?) && t in th.todo
    ensures Budget(Picked(th, t), n) < Budget(th, n)
  {
    var todo := th.todo;
    assert todo == (todo - {t}) + {t};
  }

  // ----- steps counted over traces

  /** The label is a step of thread `i`: a call, or one of a loop's own steps. */
  predicate StepOf(l: Label, i: nat) {
    (l.CallApi? || l.Pick? || l.Finish?) && l.i == i
  }

  function Steps(ls: seq<Label>, i: nat): nat {
    if ls == [] then 0 else (if StepOf(ls[0], i) then 1 else 0) + Steps(ls[1..], i)
  }

  lemma CallStepRunsOut(home: string, s: Sys, i: nat, answer: Answer, now: string)
    requires Allowed(home, s, CallApi(i, answer, now)) && s.seen.Keys == s.nodes.Keys
    ensures var s' := Do(home, s, CallApi(i, answer, now));
            |s'.threads| == |s.threads| && Budget(s'.threads[i], |s.nodes.Keys|) < Budget(s.threads[i], |s.nodes.Keys|)
  {
    var th := s.threads[i];
    var (c, call) := CallOf(th).value;
    CallsRunOut(th, Reply(s.nodes[c], call, answer).0, s.nodes.Keys, now);
  }

  lemma PickRunsOut(home: string, s: Sys, i: nat, t: string)
    requires Allowed(home, s, Pick(i, t)) && s.seen.Keys == s.nodes.Keys
    ensures var s' := Do(home, s, Pick(i, t));
            && |s'.threads| == |s.threads| && s'.threads[i] == Picked(s.threads[i], t)
            && Budget(s'.threads[i], |s.nodes.Keys|) < Budget(s.threads[i], |s.nodes.Keys|)
  {
    PickedRunsOut(s.threads[i], t, |s.nodes.Keys|);
  }

  lemma StepRunsOut(home: string, s: Sys, l: Label, i: nat)
    requires s.seen.Keys == s.nodes.Keys && Allowed(home, s, l) && i < |s.threads| && StepOf(l, i)
    ensures var s' := Do(home, s, l);
            |s'.threads| == |s.threads| && Budget(s'.threads[i], |s.nodes.Keys|) < Budget(s.threads[i], |s.nodes.Keys|)
  {
    match l
    case CallApi(_, answer, now) => CallStepRunsOut(home, s, i, answer, now);
    case Pick(_, t) => PickRunsOut(home, s, i, t);
    case Finish(_) =>
  }

  /** The clusters stay, and the threads not concerned stay as they are. */
  lemma StepFrame(home: string, s: Sys, l: Label)
    requires s.seen.Keys == s.nodes.Keys && Allowed(home, s, l)
    ensures var s' := Do(home, s, l);
            && s'.nodes.Keys == s.nodes.Keys && s'.seen.Keys == s.seen.Keys
            && |s'.threads| == |s.threads| + (if l.Deliver? then 1 else 0)
            && forall i | 0 <= i < |s.threads| && !StepOf(l, i) :: s'.threads[i] == s.threads[i]
  {}

  lemma {:induction false} ThreadRunsOut(home: string, s: Sys, ls: seq<Label>, i: nat)
    requires s.seen.Keys == s.nodes.Keys && ValidTrace(home, s, ls) && i < |s.threads|
    ensures Steps(ls, i) <= Budget(s.threads[i], |s.nodes.Keys|)
    decreases |ls|
  {
    if ls == [] {
    } else {
      StepFrame(home, s, ls[0]);
      if StepOf(ls[0], i) {
        StepRunsOut(home, s, ls[0], i);
      }
      ThreadRunsOut(home, Do(home, s, ls[0]), ls[1..], i);
    }
  }

  /** Every handler is bounded: over any trace, with any other handlers, users and answers in between, a
      handler started on its way takes at most 8n + 14 steps among n clusters. */
  lemma {:induction false} HandlersAreBounded(home: string, s: Sys, ls: seq<Label>, i: nat)
    requires s.seen.Keys == s.nodes.Keys && ValidTrace(home, s, ls) && |s.threads| <= i
    ensures Steps(ls, i) <= 8 * |s.nodes.Keys| + 14
    decreases |ls|
  {
    if ls == [] {
    } else {
      StepFrame(home, s, ls[0]);
      var s' := Do(home, s, ls[0]);
      if i < |s'.threads| {
        BeginBudget(ls[0].role, ls[0].at, ls[0].snapshot, s.nodes.Keys, ls[0].now);
        ThreadRunsOut(home, s', ls[1..], i);
      } else {
        HandlersAreBounded(home, s', ls[1..], i);
      }
    }
  }

  function Todo(th: Thread): set<string> {
    match th
    case Fan(_, todo) => todo
    case SyncGet(_, _, todo) => todo
    case SyncCreate(_, _, todo) => todo
    case SyncUpdate(_, _, todo, _) => todo
    case SyncReread(_, _, todo) => todo
    case SyncUpdateAgain(_, _, todo, _) => todo
    case SyncStatus(_, _, todo, _) => todo
    case SyncStatusReread(_, _, todo) => todo
    case SyncStatusAgain(_, _, todo, _) => todo
    case DeleteFan(todo) => todo
    case DeleteOne(_, todo) => todo
    case _ => {}
  }

  /** The thread deals with listed clusters only. */
  predicate Placed(th: Thread, clusters: set<string>) {
    (CallOf(th).Some? ==> CallOf(th).value.0 in clusters) && Todo(th) <= clusters
  }

  lemma BeginIsPlaced(role: Role, c: string, v: Versioned, clusters: set<string>, now: string)
    requires c in clusters
    ensures Placed(Begin(role, c, v, clusters, now), clusters)
  {}

  lemma GroupIsPlaced(th: Thread, r: Response, clusters: set<string>, now: string)
    requires Placed(th, clusters) && OfGroup(th)
    ensures Placed(Next(th, r, clusters, now), clusters)
  {}

  lemma FailoverIsPlaced(th: Thread, r: Response, clusters: set<string>, now: string)
    requires Placed(th, clusters) && OfFailover(th)
    ensures Placed(Next(th, r, clusters, now), clusters)
  {}

  lemma SyncIsPlaced(th: Thread, r: Response, clusters: set<string>, now: string)
    requires Placed(th, clusters) && Syncing(th)
    ensures Placed(Next(th, r, clusters, now), clusters)
  {}

  lemma OtherIsPlaced(th: Thread, r: Response, clusters: set<string>, now: string)
    requires Placed(th, clusters) && !OfGroup(th) && !OfFailover(th) && !Syncing(th)
    ensures Placed(Next(th, r, clusters, now), clusters)
  {}

  lemma NextIsPlaced(th: Thread, r: Response, clusters: set<string>, now: string)
    requires Placed(th, clusters)
    ensures Placed(Next(th, r, clusters, now), clusters)
  {
    if OfGroup(th) {
      GroupIsPlaced(th, r, clusters, now);
    } else if OfFailover(th) {
      FailoverIsPlaced(th, r, clusters, now);
    } else if Syncing(th) {
      SyncIsPlaced(th, r, clusters, now);
    } else {
      OtherIsPlaced(th, r, clusters, now);
    }
  }

  ghost predicate AllPlaced(s: Sys) {
    s.seen.Keys == s.nodes.Keys && forall th <- s.threads :: Placed(th, s.nodes.Keys)
  }

  lemma ReplacedIsPlaced(s: Sys, s': Sys, i: nat, th: Thread)
    requires AllPlaced(s) && i < |s.threads| && s'.threads == s.threads[i := th]
    requires s'.seen.Keys == s.seen.Keys && s'.nodes.Keys == s.nodes.Keys && Placed(th, s.nodes.Keys)
    ensures AllPlaced(s')
  {}

  lemma StepKeepsPlaced(home: string, s: Sys, l: Label)
    requires AllPlaced(s) && Allowed(home, s, l)
    ensures AllPlaced(Do(home, s, l))
  {
    var s' := Do(home, s, l);
    match l
    case Deliver(role, c, v, now) =>
      BeginIsPlaced(role, c, v, s.nodes.Keys, now);
    case CallApi(i, answer, now) =>
      var th := s.threads[i];
      var (c, call) := CallOf(th).value;
      assert th in s.threads;
      NextIsPlaced(th, Reply(s.nodes[c], call, answer).0, s.nodes.Keys, now);
      ReplacedIsPlaced(s, s', i, s'.threads[i]);
    case Pick(i, t) =>
      assert s.threads[i] in s.threads;
      ReplacedIsPlaced(s, s', i, s'.threads[i]);
    case Finish(i) =>
      ReplacedIsPlaced(s, s', i, Idle);
    case _ =>
  }

  lemma {:induction false} TraceKeepsPlaced(home: string, s: Sys, ls: seq<Label>)
    requires AllPlaced(s) && ValidTrace(home, s, ls)
    ensures AllPlaced(Exec(home, s, ls))
    decreases |ls|
  {
    if ls == [] {
    } else {
      StepKeepsPlaced(home, s, ls[0]);
      TraceKeepsPlaced(home, Do(home, s, ls[0]), ls[1..]);
    }
  }

  /** No handler waits for another: in every reachable state each one that has not ended can take a step. */
  lemma HandlersNeverWait(home: string, s: Sys, ls: seq<Label>, i: nat, now: string)
    requires Initial(home, s) && ValidTrace(home, s, ls)
    requires i < |Exec(home, s, ls).threads| && !Exec(home, s, ls).threads[i].Idle?
    ensures exists l :: StepOf(l, i) && Allowed(home, Exec(home, s, ls), l)
  {
    TraceKeepsPlaced(home, s, ls);
    var s' := Exec(home, s, ls);
    var th := s'.threads[i];
    assert th in s'.threads;
    if CallOf(th).Some? {
      assert StepOf(CallApi(i, Fresh, now), i) && Allowed(home, s', CallApi(i, Fresh, now));
    } else if th.todo == {} {
      assert StepOf(Finish(i), i) && Allowed(home, s', Finish(i));
    } else {
      var t :| t in th.todo;
      assert StepOf(Pick(i, t), i) && Allowed(home, s', Pick(i, t));
    }
  }

  // ----- a handler that nobody disturbs

  /** The thread alone, every call answered by the server at once; the loops visit the clusters in
      some order. */
  ghost function Alone(f: Fleet, th: Thread, now: string): Fleet
    decreases Budget(th, |f.Keys|)
  {
    if CallOf(th).Some? then
      var (c, call) := CallOf(th).value;
      if c !in f then f
      else
        var (r, n) := Serve(f[c], call);
        var f' := f[c := n];
        CallsRunOut(th, r, f.Keys, now);
        assert f'.Keys == f.Keys;
        Alone(f', Next(th, r, f.Keys, now), now)
    else if (th.Fan? || th.DeleteFan?) && th.todo != {} then
      var t :| t in th.todo;
      PickedRunsOut(th, t, |f.Keys|);
      Alone(f, Picked(th, t), now)
    else f
  }

  lemma AloneCall(f: Fleet, th: Thread, now: string)
    requires CallOf(th).Some? && CallOf(th).value.0 in f
    ensures var (c, call) := CallOf(th).value;
            var (r, n) := Serve(f[c], call);
            Alone(f, th, now) == Alone(f[c := n], Next(th, r, f.Keys, now), now)
  {}

  lemma SyncAlone(f: Fleet, src: Object, t: string, todo: set<string>, now: string)
    requires t in f
    ensures Alone(f, SyncGet(src, t, todo), now) == Alone(f[t := SyncNode(f[t], src)], Fan(src, todo), now)
  {
    var n := f[t];
    assert f[t := n] == f;
    AloneCall(f, SyncGet(src, t, todo), now);
    if n.copy.None? {
      AloneCall(f, SyncCreate(src, t, todo), now);
    } else {
      var cur := n.copy.value;
      AloneCall(f, SyncUpdate(src, t, todo, cur), now);
      var n1 := Write(n, src.(status := cur.obj.status));
      var f1, held := f[t := n1], n1.copy.value;
      AloneCall(f1, SyncStatus(src, t, todo, held), now);
      assert f1[t := SyncNode(n, src)] == f[t := SyncNode(n, src)];
    }
  }

  lemma {:induction false} FanAlone(f: Fleet, src: Object, todo: set<string>, now: string)
    requires todo <= f.Keys
    ensures Alone(f, Fan(src, todo), now) == FanOut(f, src, todo)
    decreases todo
  {
    if todo == {} {
      assert FanOut(f, src, todo) == f;
    } else {
      var t :| t in todo && Alone(f, Fan(src, todo), now) == Alone(f, SyncGet(src, t, todo - {t}), now);
      SyncAlone(f, src, t, todo - {t}, now);
      var g := f[t := SyncNode(f[t], src)];
      FanAlone(g, src, todo - {t}, now);
      assert FanOut(g, src, todo - {t}) == FanOut(f, src, todo);
    }
  }

  lemma {:induction false} DeleteFanAlone(f: Fleet, todo: set<string>, now: string)
    requires todo <= f.Keys
    ensures Alone(f, DeleteFan(todo), now) == DeleteAll(f, todo)
    decreases todo
  {
    if todo == {} {
      assert DeleteAll(f, todo) == f;
    } else {
      var t :| t in todo && Alone(f, DeleteFan(todo), now) == Alone(f, DeleteOne(t, todo - {t}), now);
      var g := f[t := DeleteNode(f[t])];
      AloneCall(f, DeleteOne(t, todo - {t}), now);
      DeleteFanAlone(g, todo - {t}, now);
      assert DeleteAll(g, todo - {t}) == DeleteAll(f, todo);
    }
  }

  lemma PushAlone(f: Fleet, sot: string, c: string, src: Object, now: string)
    requires sot in f
    ensures var g := f[sot := PushNode(f[sot], src)];
            Alone(f, PushGet(sot, c, src), now) == FanOut(g, g[sot].copy.value.obj, f.Keys - {c, sot})
  {
    var n := f[sot];
    assert f[sot := n] == f;
    var g := f[sot := PushNode(n, src)];
    var created := if n.copy.None? then g else f;
    var held := created[sot].copy.value;
    AloneCall(f, PushGet(sot, c, src), now);
    if n.copy.None? {
      AloneCall(f, PushCreate(sot, c, src), now);
    }
    AloneCall(created, PushUpdate(sot, c, src, held, 0), now);
    assert Serve(created[sot], Update(WithSpec(held, src.spec))) == (Success(g[sot].copy.value), g[sot]);
    assert created[sot := g[sot]] == g && created.Keys == f.Keys;
    FanAlone(g, g[sot].copy.value.obj, f.Keys - {c, sot}, now);
  }

  lemma ClaimAlone(f: Fleet, c: string, v: Versioned, now: string)
    requires c in f
    ensures Alone(f, Claim(c, v, 0), now) == f[c := AssignNode(f[c], v, c)]
  {
    var n := f[c];
    assert f[c := n] == f;
    AloneCall(f, Claim(c, v, 0), now);
    if n.copy.Some? && n.copy.value.version != v.version {
      AloneCall(f, ClaimReread(c, 0), now);
      AloneCall(f, Claim(c, n.copy.value, 1), now);
    }
  }

  lemma DeleteAlone(f: Fleet, sot: string, c: string, now: string)
    requires sot in f && sot != c
    ensures Alone(f, DeleteSource(sot, c), now) == DeleteAll(f, f.Keys - {c})
  {
    var h := f[sot := DeleteNode(f[sot])];
    AloneCall(f, DeleteSource(sot, c), now);
    DeleteFanAlone(h, f.Keys - {c, sot}, now);
    assert DeleteAll(h, f.Keys - {c, sot}) == DeleteAll(f, f.Keys - {c});
  }

  /** The atomic handlers are exactly the undisturbed runs of the interleaved ones. */
  lemma AtomicIsUndisturbed(f: Fleet, c: string, v: Versioned, now: string)
    requires c in f && "" !in f
    ensures Alone(f, Begin(MirrorAdd, c, v, f.Keys, now), now) == HandleEvent(f, c, Event(Added, v))
    ensures Alone(f, Begin(MirrorUpdate, c, v, f.Keys, now), now) == HandleEvent(f, c, Event(Updated, v))
    ensures Alone(f, Begin(MirrorDelete, c, v, f.Keys, now), now) == HandleEvent(f, c, Event(Deleted, v))
  {
    var sot := v.obj.spec.sot;
    if sot == c {
      FanAlone(f, v.obj, f.Keys - {c}, now);
      DeleteFanAlone(f, f.Keys - {c}, now);
    } else if sot in f {
      PushAlone(f, sot, c, v.obj, now);
      DeleteAlone(f, sot, c, now);
    } else if sot == "" {
      ClaimAlone(f, c, v, now);
    }
  }

  lemma WriteAlone(f: Fleet, c: string, last: bool, held: Versioned, now: string)
    requires c in f && f[c].copy == Some(held)
    ensures var g := f[c := Write(f[c], Progress(held, last).obj)];
            Alone(f, FailoverWrite(c, last, Progress(held, last)), now) ==
            if last then g else Alone(g, FailoverRead(c, true), now)
  {
    AloneCall(f, FailoverWrite(c, last, Progress(held, last)), now);
  }

  /** One status report. */
  lemma ReportAlone(f: Fleet, c: string, last: bool, now: string)
    requires c in f && f[c].copy.Some?
    ensures var g := f[c := Write(f[c], Progress(f[c].copy.value, last).obj)];
            Alone(f, FailoverRead(c, last), now) == if last then g else Alone(g, FailoverRead(c, true), now)
  {
    assert f[c := f[c]] == f;
    AloneCall(f, FailoverRead(c, last), now);
    WriteAlone(f, c, last, f[c].copy.value, now);
  }

  /** A status report and, if it is the first, the second. */
  lemma FailoverAlone(f: Fleet, c: string, last: bool, now: string)
    requires c in f && f[c].copy.Some?
    ensures var n := f[c];
            var n1 := if last then n else Write(n, InProgress(n.copy.value.obj));
            Alone(f, FailoverRead(c, last), now) == f[c := Write(n1, Succeeded(n1.copy.value.obj))]
  {
    ReportAlone(f, c, last, now);
    if !last {
      ReportAlone(f[c := Write(f[c], InProgress(f[c].copy.value.obj))], c, true, now);
    }
  }

  lemma RunFailoverAlone(f: Fleet, c: string, v: Versioned, now: string)
    requires c in f
    ensures Alone(f, FailoverReady(c, v), now) == f[c := RunFailover(f[c], v.obj.status.status)]
  {
    assert f[c := f[c]] == f;
    if v.obj.status.status != "SUCCESS" {
      if f[c].copy.Some? {
        FailoverAlone(f, c, v.obj.status.status != "", now);
      } else {
        AloneCall(f, FailoverRead(c, v.obj.status.status != ""), now);
      }
    }
  }

  lemma HealthyAlready(f: Fleet, c: string, now: string)
    requires c in f && f[c].copy.Some? && f[c].copy.value.obj.status.health == "OK"
    ensures var held := f[c].copy.value; Alone(f, GroupHealth(c, On(held, Healthy(held.obj))), now) == f
  {
    var held := f[c].copy.value;
    assert Healthy(held.obj) == held.obj;
    AloneCall(f, GroupHealth(c, On(held, Healthy(held.obj))), now);
    assert f[c := f[c]] == f;
  }

  lemma InitAlone(f: Fleet, c: string, v: Versioned, now: string)
    requires c in f && f[c].copy.Some? && v.obj.status.health == ""
    ensures Alone(f, GroupInit(c, On(v, Initialised(v.obj, c, now))), now) == f[c := RunGroup(f[c], v, c, now)]
  {
    var cur := f[c].copy.value;
    var g := f[c := RunGroup(f[c], v, c, now)];
    assert f[c := f[c]] == f;
    AloneCall(f, GroupInit(c, On(v, Initialised(v.obj, c, now))), now);
    if cur.version != v.version {
      AloneCall(f, GroupReread(c), now);
      AloneCall(f, GroupInitAgain(c, On(cur, Initialised(cur.obj, c, now))), now);
    }
    HealthyAlready(g, c, now);
  }

  lemma RunGroupAlone(f: Fleet, c: string, v: Versioned, now: string)
    requires c in f
    ensures Alone(f, GroupReady(c, v, now), now) == f[c := RunGroup(f[c], v, c, now)]
  {
    assert f[c := f[c]] == f;
    if f[c].copy.Some? && v.obj.status.health == "" {
      InitAlone(f, c, v, now);
    } else {
      AloneCall(f, GroupReady(c, v, now), now);
    }
  }

  lemma FailoverClaimAlone(f: Fleet, c: string, v: Versioned, now: string)
    requires c in f && v.obj.spec.sot == ""
    ensures Alone(f, FailoverClaim(c, WithSot(v, c)), now) == f[c := FailoverNode(f[c], v, c)]
  {
    var claimed := ClaimNode(f[c], v, c);
    AloneCall(f, FailoverClaim(c, WithSot(v, c)), now);
    if claimed.Some? {
      var f' := f[c := claimed.value];
      RunFailoverAlone(f', c, claimed.value.copy.value, now);
      assert f'[c := FailoverNode(f[c], v, c)] == f[c := FailoverNode(f[c], v, c)];
    } else {
      assert f[c := f[c]] == f;
    }
  }

  lemma GroupClaimAlone(f: Fleet, c: string, v: Versioned, now: string)
    requires c in f && v.obj.spec.sot == ""
    ensures Alone(f, GroupClaim(c, WithSot(v, c)), now) == f[c := GroupNode(f[c], v, c, now)]
  {
    var claimed := ClaimNode(f[c], v, c);
    AloneCall(f, GroupClaim(c, WithSot(v, c)), now);
    if claimed.Some? {
      var f' := f[c := claimed.value];
      RunGroupAlone(f', c, claimed.value.copy.value, now);
      assert f'[c := GroupNode(f[c], v, c, now)] == f[c := GroupNode(f[c], v, c, now)];
    } else {
      assert f[c := f[c]] == f;
    }
  }

  /** The same for the controllers of the object's owner. */
  lemma OwnersAreUndisturbed(f: Fleet, c: string, v: Versioned, now: string)
    requires c in f && "" !in f
    ensures Alone(f, Begin(FailoverEvent, c, v, f.Keys, now), now) == f[c := FailoverNode(f[c], v, c)]
    ensures Alone(f, Begin(GroupEvent, c, v, f.Keys, now), now) == f[c := GroupNode(f[c], v, c, now)]
  {
    if v.obj.spec.sot == "" {
      FailoverClaimAlone(f, c, v, now);
      GroupClaimAlone(f, c, v, now);
    } else if v.obj.spec.sot == c {
      RunFailoverAlone(f, c, v, now);
      RunGroupAlone(f, c, v, now);
    } else {
      assert f[c := f[c]] == f;
    }
  }
}
