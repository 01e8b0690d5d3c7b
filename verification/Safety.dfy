/** What holds in every state the controllers can reach, under every interleaving. */
module Safety {
  import opened Options
  import opened ApiServer
  import opened Mirror
  import opened Interleaving

  /** Every status the source of truth ever held, and the empty one. */
  function Statuses(home: string, s: Sys): set<Status> {
    {EMPTY_STATUS} + if home in s.seen then set v <- s.seen[home] :: v.obj.status else {}
  }

  /** What constrains an object anywhere: its owner, its origin and its active cluster. */
  predicate Sound(home: string, written: set<string>, o: Object) {
    && o.spec.sot in {"", home}
    && o.spec.body in written
    && o.status.activeCluster in {"", home}
  }

  /** A copy kept in cluster `c`. */
  predicate Kept(home: string, written: set<string>, statuses: set<Status>, c: string, o: Object) {
    && Sound(home, written, o)
    && o.status in statuses
    && (c != home ==> o.spec.sot == home)
  }

  /** What the controllers write. */
  predicate CallOk(home: string, written: set<string>, statuses: set<Status>, c: string, call: Call) {
    match call
    case Create(o) => o.spec.sot == home && o.spec.body in written
    case Update(v) => v.obj.spec.sot == home && v.obj.spec.body in written
    case UpdateStatus(v) => v.obj.status.activeCluster in {"", home} && (c != home ==> v.obj.status in statuses)
    case _ => true
  }

  predicate Pushing(home: string, written: set<string>, sot: string, c: string, src: Object) {
    sot == home && c != home && src.spec.sot == home && src.spec.body in written
  }

  predicate Sending(home: string, written: set<string>, statuses: set<Status>, src: Object, todo: set<string>) {
    Kept(home, written, statuses, home, src) && src.spec.sot == home && home !in todo
  }

  predicate Owning(home: string, written: set<string>, c: string, held: Versioned) {
    c == home && Sound(home, written, held.obj) && held.obj.spec.sot == home
  }

  predicate ThreadOk(home: string, written: set<string>, statuses: set<Status>, th: Thread) {
    match th
    case Idle => true
    case Claim(c, held, _) => c == home && Sound(home, written, held.obj)
    case ClaimReread(c, _) => c == home
    case PushGet(sot, c, src) => Pushing(home, written, sot, c, src)
    case PushCreate(sot, c, src) => Pushing(home, written, sot, c, src)
    case PushGetAgain(sot, c, src) => Pushing(home, written, sot, c, src)
    case PushUpdate(sot, c, src, held, _) => Pushing(home, written, sot, c, src)
    case PushReread(sot, c, src, _) => Pushing(home, written, sot, c, src)
    case Fan(src, todo) => Sending(home, written, statuses, src, todo)
    case SyncGet(src, t, todo) => Sending(home, written, statuses, src, todo + {t})
    case SyncCreate(src, t, todo) => Sending(home, written, statuses, src, todo + {t})
    case SyncUpdate(src, t, todo, _) => Sending(home, written, statuses, src, todo + {t})
    case SyncReread(src, t, todo) => Sending(home, written, statuses, src, todo + {t})
    case SyncUpdateAgain(src, t, todo, _) => Sending(home, written, statuses, src, todo + {t})
    case SyncStatus(src, t, todo, _) => Sending(home, written, statuses, src, todo + {t})
    case SyncStatusReread(src, t, todo) => Sending(home, written, statuses, src, todo + {t})
    case SyncStatusAgain(src, t, todo, _) => Sending(home, written, statuses, src, todo + {t})
    case DeleteSource(_, _) => true
    case DeleteFan(_) => true
    case DeleteOne(_, _) => true
    case GroupClaim(c, held) => Owning(home, written, c, held)
    case GroupInit(c, held) => Owning(home, written, c, held)
    case GroupReread(c) => c == home
    case GroupInitAgain(c, held) => c == home && held.obj.status.activeCluster in {"", home}
    case GroupHealth(c, held) => c == home && held.obj.status.activeCluster in {"", home}
    case FailoverClaim(c, held) => Owning(home, written, c, held)
    case FailoverRead(c, _) => c == home
    case FailoverWrite(c, _, held) => c == home && held.obj.status.activeCluster in {"", home}
    case FailoverReread(c, _) => c == home
    case FailoverWriteAgain(c, _, held) => c == home && held.obj.status.activeCluster in {"", home}
  }

  ghost predicate StoreOk(home: string, s: Sys) {
    && home != "" && home in s.nodes && "" !in s.nodes && s.seen.Keys == s.nodes.Keys
    && (forall c, v | c in s.seen && v in s.seen[c] :: Kept(home, s.written, Statuses(home, s), c, v.obj))
    && (forall c <- s.nodes.Keys :: s.nodes[c].copy.Some? ==> s.nodes[c].copy.value in s.seen[c])
    && (forall c, e | c in s.nodes && e in s.nodes[c].queue :: e.snapshot in s.seen[c])
  }

  ghost predicate Inv(home: string, s: Sys) {
    && StoreOk(home, s)
    && forall th <- s.threads :: ThreadOk(home, s.written, Statuses(home, s), th)
  }

  // ----- one thread

  lemma CallIsOk(home: string, written: set<string>, statuses: set<Status>, th: Thread)
    requires ThreadOk(home, written, statuses, th) && CallOf(th).Some?
    ensures CallOk(home, written, statuses, CallOf(th).value.0, CallOf(th).value.1)
  {}

  predicate ReplyOk(home: string, written: set<string>, statuses: set<Status>, c: string, r: Response) {
    r.Success? ==> Kept(home, written, statuses, c, r.got.obj)
  }

  lemma BeginIsOk(home: string, written: set<string>, statuses: set<Status>, role: Role, c: string, v: Versioned,
                  clusters: set<string>, now: string)
    requires home != "" && "" !in clusters && Kept(home, written, statuses, c, v.obj)
    ensures ThreadOk(home, written, statuses, Begin(role, c, v, clusters, now))
  {}

  lemma GroupIsOk(home: string, written: set<string>, statuses: set<Status>, th: Thread, r: Response,
                  clusters: set<string>, now: string)
    requires home != "" && ThreadOk(home, written, statuses, th) && CallOf(th).Some?
    requires ReplyOk(home, written, statuses, CallOf(th).value.0, r)
    requires CallOf(th).value.1.Update? && r.Success? ==> r.got.obj.spec == CallOf(th).value.1.sent.obj.spec
    requires OfGroup(th)
    ensures ThreadOk(home, written, statuses, Next(th, r, clusters, now))
  {}

  lemma FailoverIsOk(home: string, written: set<string>, statuses: set<Status>, th: Thread, r: Response,
                     clusters: set<string>, now: string)
    requires home != "" && ThreadOk(home, written, statuses, th) && CallOf(th).Some?
    requires ReplyOk(home, written, statuses, CallOf(th).value.0, r)
    requires CallOf(th).value.1.Update? && r.Success? ==> r.got.obj.spec == CallOf(th).value.1.sent.obj.spec
    requires OfFailover(th)
    ensures ThreadOk(home, written, statuses, Next(th, r, clusters, now))
  {}

  lemma SyncIsOk(home: string, written: set<string>, statuses: set<Status>, th: Thread, r: Response,
                 clusters: set<string>, now: string)
    requires home != "" && ThreadOk(home, written, statuses, th) && CallOf(th).Some?
    requires ReplyOk(home, written, statuses, CallOf(th).value.0, r)
    requires CallOf(th).value.1.Update? && r.Success? ==> r.got.obj.spec == CallOf(th).value.1.sent.obj.spec
    requires Syncing(th)
    ensures ThreadOk(home, written, statuses, Next(th, r, clusters, now))
  {}

  lemma MirrorIsOk(home: string, written: set<string>, statuses: set<Status>, th: Thread, r: Response,
                   clusters: set<string>, now: string)
    requires home != "" && ThreadOk(home, written, statuses, th) && CallOf(th).Some?
    requires ReplyOk(home, written, statuses, CallOf(th).value.0, r)
    requires CallOf(th).value.1.Update? && r.Success? ==> r.got.obj.spec == CallOf(th).value.1.sent.obj.spec
    requires !OfGroup(th) && !OfFailover(th) && !Syncing(th)
    ensures ThreadOk(home, written, statuses, Next(th, r, clusters, now))
  {}

  lemma NextIsOk(home: string, written: set<string>, statuses: set<Status>, th: Thread, r: Response,
                 clusters: set<string>, now: string)
    requires home != "" && ThreadOk(home, written, statuses, th) && CallOf(th).Some?
    requires ReplyOk(home, written, statuses, CallOf(th).value.0, r)
    requires CallOf(th).value.1.Update? && r.Success? ==> r.got.obj.spec == CallOf(th).value.1.sent.obj.spec
    ensures ThreadOk(home, written, statuses, Next(th, r, clusters, now))
  {
    if OfGroup(th) {
      GroupIsOk(home, written, statuses, th, r, clusters, now);
    } else if OfFailover(th) {
      FailoverIsOk(home, written, statuses, th, r, clusters, now);
    } else if Syncing(th) {
      SyncIsOk(home, written, statuses, th, r, clusters, now);
    } else {
      MirrorIsOk(home, written, statuses, th, r, clusters, now);
    }
  }

  lemma ThreadOkGrows(home: string, w0: set<string>, st0: set<Status>, w1: set<string>, st1: set<Status>, th: Thread)
    requires ThreadOk(home, w0, st0, th) && w0 <= w1 && st0 <= st1
    ensures ThreadOk(home, w1, st1, th)
  {}

  // ----- one cluster

  /** The server keeps to the rules if the call does; in `home` the new status joins the known ones. */
  lemma ReplyIsOk(home: string, written: set<string>, statuses: set<Status>, c: string, n: Node, call: Call,
                  answer: Answer)
    requires EMPTY_STATUS in statuses
    requires n.copy.Some? ==> Kept(home, written, statuses, c, n.copy.value.obj)
    requires CallOk(home, written, statuses, c, call)
    requires answer.Stale? ==> call.Get? && Kept(home, written, statuses, c, answer.v.obj)
    requires answer.StaleMissing? ==> call.Get?
    ensures var (r, n') := Reply(n, call, answer);
            var statuses' := if n'.copy.Some? && c == home then statuses + {n'.copy.value.obj.status} else statuses;
            && ReplyOk(home, written, statuses', c, r)
            && (n'.copy.Some? ==> Kept(home, written, statuses', c, n'.copy.value.obj))
            && (forall e <- n'.queue :: e in n.queue || Some(e.snapshot) in [n.copy, n'.copy])
            && (call.Update? && r.Success? ==> r.got.obj.spec == call.sent.obj.spec)
  {}

  // ----- the system

  lemma PutIsOk(home: string, s: Sys, c: string, n: Node)
    requires StoreOk(home, s) && c in s.nodes
    requires n.copy.Some? ==>
               var statuses := Statuses(home, s) + if c == home then {n.copy.value.obj.status} else {};
               Kept(home, s.written, statuses, c, n.copy.value.obj)
    requires forall e <- n.queue :: e in s.nodes[c].queue || Some(e.snapshot) in [s.nodes[c].copy, n.copy]
    ensures StoreOk(home, Put(s, c, n))
    ensures Statuses(home, Put(s, c, n)) ==
            Statuses(home, s) + if c == home && n.copy.Some? then {n.copy.value.obj.status} else {}
  {
    var s', kept := Put(s, c, n), Statuses(home, s);
    assert Statuses(home, s') == kept + if c == home && n.copy.Some? then {n.copy.value.obj.status} else {};
    forall d, v | d in s'.seen && v in s'.seen[d] ensures Kept(home, s'.written, Statuses(home, s'), d, v.obj) {
      assert v in s.seen[d] || (d == c && n.copy == Some(v));
    }
    forall d, e | d in s'.nodes && e in s'.nodes[d].queue ensures e.snapshot in s'.seen[d] {
      assert d == c || e in s.nodes[d].queue;
    }
  }

  lemma LoopKeepsInv(home: string, s: Sys, l: Label)
    requires Inv(home, s) && Allowed(home, s, l) && (l.Pick? || l.Finish?)
    ensures Inv(home, Do(home, s, l))
  {
    if l.Pick? {
      assert s.threads[l.i] in s.threads;
      assert s.threads[l.i].todo - {l.t} + {l.t} == s.threads[l.i].todo;
    }
    ThreadsReplaced(home, s, Do(home, s, l));
  }

  lemma DeliverKeepsInv(home: string, s: Sys, l: Label)
    requires Inv(home, s) && Allowed(home, s, l) && l.Deliver?
    ensures Inv(home, Do(home, s, l))
  {
    BeginIsOk(home, s.written, Statuses(home, s), l.role, l.at, l.snapshot, s.nodes.Keys, l.now);
    ThreadsReplaced(home, s, Do(home, s, l));
  }

  lemma StepKeepsInv(home: string, s: Sys, l: Label)
    requires Inv(home, s) && Allowed(home, s, l)
    ensures Inv(home, Do(home, s, l))
  {
    match l
    case Deliver(_, _, _, _) =>
      DeliverKeepsInv(home, s, l);
    case CallApi(i, answer, now) =>
      CallKeepsInv(home, s, i, answer, now);
    case Pick(i, t) =>
      LoopKeepsInv(home, s, l);
    case Finish(i) =>
      LoopKeepsInv(home, s, l);
    case UserCreate(body, annotations) =>
      CreateKeepsInv(home, s, body, annotations);
    case UserEdit(c, body, annotations) =>
      EditKeepsInv(home, s, c, body, annotations);
    case UserDelete(c) =>
      PutIsOk(home, s, c, Remove(s.nodes[c]));
      ThreadsGrow(home, s, Do(home, s, l));
    case OwnerStatus(status) =>
      StatusKeepsInv(home, s, status);
  }

  lemma ThreadsReplaced(home: string, s: Sys, s': Sys)
    requires Inv(home, s) && s' == s.(threads := s'.threads)
    requires forall th <- s'.threads :: th in s.threads || ThreadOk(home, s.written, Statuses(home, s), th)
    ensures Inv(home, s')
  {
    assert Statuses(home, s') == Statuses(home, s);
  }

  lemma ThreadsGrow(home: string, s: Sys, s': Sys)
    requires Inv(home, s) && StoreOk(home, s') && s'.threads == s.threads
    requires s.written <= s'.written && Statuses(home, s) <= Statuses(home, s')
    ensures Inv(home, s')
  {
    forall th <- s'.threads ensures ThreadOk(home, s'.written, Statuses(home, s'), th) {
      ThreadOkGrows(home, s.written, Statuses(home, s), s'.written, Statuses(home, s'), th);
    }
  }

  lemma StatusKeepsInv(home: string, s: Sys, status: Status)
    requires Inv(home, s) && Allowed(home, s, OwnerStatus(status))
    ensures Inv(home, Do(home, s, OwnerStatus(status)))
  {
    var n := Write(s.nodes[home], s.nodes[home].copy.value.obj.(status := status));
    assert s.nodes[home].copy.value in s.seen[home];
    PutIsOk(home, s, home, n);
    ThreadsGrow(home, s, Put(s, home, n));
  }

  lemma UserKeepsInv(home: string, s: Sys, c: string, n: Node, body: string)
    requires Inv(home, s) && c in s.nodes && n.copy.Some?
    requires Kept(home, s.written + {body}, Statuses(home, s), c, n.copy.value.obj)
    requires forall e <- n.queue :: e in s.nodes[c].queue || Some(e.snapshot) in [s.nodes[c].copy, n.copy]
    ensures Inv(home, Put(s, c, n).(written := s.written + {body}))
  {
    var s0 := s.(written := s.written + {body});
    assert Statuses(home, s0) == Statuses(home, s);
    ThreadsGrow(home, s, s0);
    PutIsOk(home, s0, c, n);
    ThreadsGrow(home, s0, Put(s0, c, n));
  }

  lemma CreateKeepsInv(home: string, s: Sys, body: string, annotations: map<string, string>)
    requires Inv(home, s) && Allowed(home, s, UserCreate(body, annotations))
    ensures Inv(home, Do(home, s, UserCreate(body, annotations)))
  {
    UserKeepsInv(home, s, home, Store(s.nodes[home], Added, Object(Spec("", body), annotations, EMPTY_STATUS)), body);
  }

  lemma EditKeepsInv(home: string, s: Sys, c: string, body: string, annotations: map<string, string>)
    requires Inv(home, s) && Allowed(home, s, UserEdit(c, body, annotations))
    ensures Inv(home, Do(home, s, UserEdit(c, body, annotations)))
  {
    var cur := s.nodes[c].copy.value.obj;
    UserKeepsInv(home, s, c, Write(s.nodes[c], Object(cur.spec.(body := body), annotations, cur.status)), body);
  }

  /** The called cluster's side of a call, and what the thread may make of the response. */
  lemma ServedIsOk(home: string, s: Sys, th: Thread, answer: Answer)
    requires Inv(home, s) && th in s.threads && CallOf(th).Some? && CallOf(th).value.0 in s.nodes
    requires var (c, call) := CallOf(th).value;
             && (answer.Stale? ==> call.Get? && answer.v in s.seen[c])
             && (answer.StaleMissing? ==> call.Get?)
    ensures var (c, call) := CallOf(th).value;
            var (r, n) := Reply(s.nodes[c], call, answer);
            && Inv(home, Put(s, c, n))
            && ReplyOk(home, s.written, Statuses(home, Put(s, c, n)), c, r)
            && (call.Update? && r.Success? ==> r.got.obj.spec == call.sent.obj.spec)
  {
    var (c, call) := CallOf(th).value;
    var (r, n) := Reply(s.nodes[c], call, answer);
    CallIsOk(home, s.written, Statuses(home, s), th);
    ReplyIsOk(home, s.written, Statuses(home, s), c, s.nodes[c], call, answer);
    PutIsOk(home, s, c, n);
    ThreadsGrow(home, s, Put(s, c, n));
  }

  lemma CallKeepsInv(home: string, s: Sys, i: nat, answer: Answer, now: string)
    requires Inv(home, s) && Allowed(home, s, CallApi(i, answer, now))
    ensures Inv(home, Do(home, s, CallApi(i, answer, now)))
  {
    var th := s.threads[i];
    var (c, call) := CallOf(th).value;
    var (r, n) := Reply(s.nodes[c], call, answer);
    ServedIsOk(home, s, th, answer);
    var s1 := Put(s, c, n);
    assert th in s1.threads;
    NextIsOk(home, s1.written, Statuses(home, s1), th, r, s.nodes.Keys, now);
    ThreadsReplaced(home, s1, Do(home, s, CallApi(i, answer, now)));
  }

  lemma {:induction false} Reachable(home: string, s: Sys, ls: seq<Label>)
    requires Inv(home, s) && ValidTrace(home, s, ls)
    ensures Inv(home, Exec(home, s, ls))
    decreases |ls|
  {
    if ls == [] {
    } else {
      StepKeepsInv(home, s, ls[0]);
      Reachable(home, Do(home, s, ls[0]), ls[1..]);
    }
  }

  // ----- the theorems

  /** The spec bodies the users of a trace wrote. */
  function UserBodies(ls: seq<Label>): set<string> {
    if ls == [] then {}
    else
      (match ls[0]
       case UserCreate(body, _) => {body}
       case UserEdit(_, body, _) => {body}
       case _ => {}) + UserBodies(ls[1..])
  }

  lemma {:induction false} WrittenIsUserBodies(home: string, s: Sys, ls: seq<Label>)
    requires ValidTrace(home, s, ls)
    ensures Exec(home, s, ls).written == s.written + UserBodies(ls)
    decreases |ls|
  {
    if ls == [] {
    } else {
      WrittenIsUserBodies(home, Do(home, s, ls[0]), ls[1..]);
    }
  }

  lemma ReachableFromStart(home: string, s: Sys, ls: seq<Label>)
    requires Initial(home, s) && ValidTrace(home, s, ls)
    ensures Inv(home, Exec(home, s, ls)) && Exec(home, s, ls).written == UserBodies(ls)
  {
    Reachable(home, s, ls);
    WrittenIsUserBodies(home, s, ls);
  }

  /** Unique source of truth: the copy in the cluster of creation names that cluster or nothing, all
      other copies and snapshots name it, and no handler is ever about to write anything else. */
  lemma UniqueSourceOfTruth(home: string, s: Sys, ls: seq<Label>)
    requires Initial(home, s) && ValidTrace(home, s, ls)
    ensures var s' := Exec(home, s, ls);
            && (forall c <- s'.nodes.Keys :: s'.nodes[c].copy.Some? ==>
                  s'.nodes[c].copy.value.obj.spec.sot in (if c == home then {"", home} else {home}))
            && (forall c, e | c in s'.nodes && e in s'.nodes[c].queue ::
                  e.snapshot.obj.spec.sot in (if c == home then {"", home} else {home}))
            && (forall th <- s'.threads :: CallOf(th).Some? ==>
                  match CallOf(th).value.1
                  case Create(o) => o.spec.sot == home
                  case Update(v) => v.obj.spec.sot == home
                  case _ => true)
  {
    ReachableFromStart(home, s, ls);
    var s' := Exec(home, s, ls);
    forall th <- s'.threads
      ensures CallOf(th).Some? ==>
                CallOk(home, s'.written, Statuses(home, s'), CallOf(th).value.0, CallOf(th).value.1)
    {
      if CallOf(th).Some? {
        CallIsOk(home, s'.written, Statuses(home, s'), th);
      }
    }
  }

  lemma ReplyKeepsClaim(home: string, written: set<string>, statuses: set<Status>, n: Node, call: Call, answer: Answer)
    requires CallOk(home, written, statuses, home, call) && n.copy.Some? && n.copy.value.obj.spec.sot == home
    ensures var n' := Reply(n, call, answer).1; n'.copy.Some? ==> n'.copy.value.obj.spec.sot == home
  {}

  lemma StepKeepsClaim(home: string, s: Sys, l: Label)
    requires Inv(home, s) && Allowed(home, s, l)
    requires s.nodes[home].copy.Some? && s.nodes[home].copy.value.obj.spec.sot == home
    ensures var after := Do(home, s, l).nodes[home].copy; after.Some? ==> after.value.obj.spec.sot == home
  {
    if l.CallApi? {
      var th := s.threads[l.i];
      var (c, call) := CallOf(th).value;
      assert th in s.threads;
      CallIsOk(home, s.written, Statuses(home, s), th);
      if c == home {
        ReplyKeepsClaim(home, s.written, Statuses(home, s), s.nodes[home], call, l.answer);
      }
    }
  }

  /** Once claimed, the copy in the cluster of creation stays claimed for as long as it exists. */
  lemma ClaimNeverReverts(home: string, s: Sys, ls: seq<Label>, l: Label)
    requires Initial(home, s) && ValidTrace(home, s, ls) && Allowed(home, Exec(home, s, ls), l)
    ensures Exec(home, s, ls).seen.Keys == Exec(home, s, ls).nodes.Keys && home in Exec(home, s, ls).nodes
    ensures var before := Exec(home, s, ls).nodes[home].copy;
            var after := Do(home, Exec(home, s, ls), l).nodes[home].copy;
            before.Some? && before.value.obj.spec.sot == home && after.Some? ==> after.value.obj.spec.sot == home
  {
    ReachableFromStart(home, s, ls);
    var before := Exec(home, s, ls).nodes[home].copy;
    if before.Some? && before.value.obj.spec.sot == home {
      StepKeepsClaim(home, Exec(home, s, ls), l);
    }
  }

  /** Active-cluster agreement: no copy and no snapshot ever names an active cluster other than the
      source of truth. */
  lemma ActiveClusterAgrees(home: string, s: Sys, ls: seq<Label>)
    requires Initial(home, s) && ValidTrace(home, s, ls)
    ensures var s' := Exec(home, s, ls);
            && (forall c <- s'.nodes.Keys :: s'.nodes[c].copy.Some? ==>
                  s'.nodes[c].copy.value.obj.status.activeCluster in {"", home})
            && (forall c, e | c in s'.nodes && e in s'.nodes[c].queue ::
                  e.snapshot.obj.status.activeCluster in {"", home})
  {
    ReachableFromStart(home, s, ls);
  }

  /** Status authority over runs: every status found anywhere is empty or one the source of truth
      itself once held. */
  lemma StatusComesFromSource(home: string, s: Sys, ls: seq<Label>)
    requires Initial(home, s) && ValidTrace(home, s, ls)
    ensures var s' := Exec(home, s, ls);
            && home in s'.seen
            && forall c <- s'.nodes.Keys :: s'.nodes[c].copy.Some? ==>
                  || s'.nodes[c].copy.value.obj.status == EMPTY_STATUS
                  || exists v <- s'.seen[home] :: v.obj.status == s'.nodes[c].copy.value.obj.status
  {
    ReachableFromStart(home, s, ls);
  }

  lemma MirrorReply(home: string, written: set<string>, statuses: set<Status>, th: Thread, n: Node, answer: Answer)
    requires ThreadOk(home, written, statuses, th) && !OfGroup(th) && !OfFailover(th)
    requires CallOf(th).Some? && CallOf(th).value.0 == home && n.copy.Some?
    ensures var n' := Reply(n, CallOf(th).value.1, answer).1;
            n'.copy.Some? ==> n'.copy.value.obj.status == n.copy.value.obj.status
  {
    assert !CallOf(th).value.1.UpdateStatus?;
  }

  /** Status authority, one step: a mirror handler's call never changes the status of the source of
      truth's copy. */
  lemma MirrorKeepsSourceStatus(home: string, s: Sys, ls: seq<Label>, i: nat, answer: Answer, now: string)
    requires Initial(home, s) && ValidTrace(home, s, ls) && Allowed(home, Exec(home, s, ls), CallApi(i, answer, now))
    requires !OfGroup(Exec(home, s, ls).threads[i]) && !OfFailover(Exec(home, s, ls).threads[i])
    ensures Exec(home, s, ls).seen.Keys == Exec(home, s, ls).nodes.Keys && home in Exec(home, s, ls).nodes
    ensures var before := Exec(home, s, ls).nodes[home].copy;
            var after := Do(home, Exec(home, s, ls), CallApi(i, answer, now)).nodes[home].copy;
            before.Some? && after.Some? ==> after.value.obj.status == before.value.obj.status
  {
    ReachableFromStart(home, s, ls);
    var s' := Exec(home, s, ls);
    var th := s'.threads[i];
    assert th in s'.threads;
    if s'.nodes[home].copy.Some? && CallOf(th).value.0 == home {
      MirrorReply(home, s'.written, Statuses(home, s'), th, s'.nodes[home], answer);
    }
  }

  /** Nothing invented: every spec body stored or pending anywhere is one a user wrote. */
  lemma NothingInvented(home: string, s: Sys, ls: seq<Label>)
    requires Initial(home, s) && ValidTrace(home, s, ls)
    ensures var s' := Exec(home, s, ls);
            && (forall c <- s'.nodes.Keys :: s'.nodes[c].copy.Some? ==>
                  s'.nodes[c].copy.value.obj.spec.body in UserBodies(ls))
            && (forall c, e | c in s'.nodes && e in s'.nodes[c].queue :: e.snapshot.obj.spec.body in UserBodies(ls))
  {
    ReachableFromStart(home, s, ls);
  }
}
