/** All controllers on the same object at the granularity of single API calls: any number of
    handler threads, late and repeated deliveries, stale reads, API failures, users. */
module Interleaving {
  import opened Options
  import opened ApiServer
  import opened Mirror
  import opened Owners

  /** Where a handler is.  Each constructor but the loops' heads and `Idle` is about to make one call. */
  datatype Thread =
    | Idle
    // mirror: claiming a new object for cluster c
    | Claim(c: string, held: Versioned, tries: nat)
    | ClaimReread(c: string, tries: nat)
    // mirror: bringing the spec of src from cluster c to the source of truth
    | PushGet(sot: string, c: string, src: Object)
    | PushCreate(sot: string, c: string, src: Object)
    | PushGetAgain(sot: string, c: string, src: Object)
    | PushUpdate(sot: string, c: string, src: Object, held: Versioned, tries: nat)
    | PushReread(sot: string, c: string, src: Object, tries: nat)
    // mirror: sending src to the clusters of todo
    | Fan(src: Object, todo: set<string>)
    | SyncGet(src: Object, t: string, todo: set<string>)
    | SyncCreate(src: Object, t: string, todo: set<string>)
    | SyncUpdate(src: Object, t: string, todo: set<string>, held: Versioned)
    | SyncReread(src: Object, t: string, todo: set<string>)
    | SyncUpdateAgain(src: Object, t: string, todo: set<string>, held: Versioned)
    | SyncStatus(src: Object, t: string, todo: set<string>, held: Versioned)
    | SyncStatusReread(src: Object, t: string, todo: set<string>)
    | SyncStatusAgain(src: Object, t: string, todo: set<string>, held: Versioned)
    // mirror: deleting
    | DeleteSource(sot: string, c: string)
    | DeleteFan(todo: set<string>)
    | DeleteOne(t: string, todo: set<string>)
    // failover groups
    | GroupClaim(c: string, held: Versioned)
    | GroupInit(c: string, held: Versioned)
    | GroupReread(c: string)
    | GroupInitAgain(c: string, held: Versioned)
    | GroupHealth(c: string, held: Versioned)
    // failovers; `last` tells the final status write from the initial one
    | FailoverClaim(c: string, held: Versioned)
    | FailoverRead(c: string, last: bool)
    | FailoverWrite(c: string, last: bool, held: Versioned)
    | FailoverReread(c: string, last: bool)
    | FailoverWriteAgain(c: string, last: bool, held: Versioned)

  predicate OfGroup(th: Thread) {
    th.GroupClaim? || th.GroupInit? || th.GroupReread? || th.GroupInitAgain? || th.GroupHealth?
  }

  predicate OfFailover(th: Thread) {
    th.FailoverClaim? || th.FailoverRead? || th.FailoverWrite? || th.FailoverReread? || th.FailoverWriteAgain?
  }

  predicate Syncing(th: Thread) {
    th.SyncGet? || th.SyncCreate? || th.SyncUpdate? || th.SyncReread? || th.SyncUpdateAgain?
    || th.SyncStatus? || th.SyncStatusReread? || th.SyncStatusAgain?
  }

  datatype Role = MirrorAdd | MirrorUpdate | MirrorDelete | GroupEvent | FailoverEvent

  function WithSot(v: Versioned, c: string): Versioned {
    v.(obj := v.obj.(spec := v.obj.spec.(sot := c)))
  }

  function WithSpec(v: Versioned, spec: Spec): Versioned {
    v.(obj := v.obj.(spec := spec))
  }

  function WithStatus(v: Versioned, status: Status): Versioned {
    v.(obj := v.obj.(status := status))
  }

  function On(v: Versioned, obj: Object): Versioned {
    v.(obj := obj)
  }

  function Progress(v: Versioned, last: bool): Versioned {
    On(v, if last then Succeeded(v.obj) else InProgress(v.obj))
  }

  function GroupReady(c: string, v: Versioned, now: string): Thread {
    if v.obj.status.health == "" then GroupInit(c, On(v, Initialised(v.obj, c, now)))
    else GroupHealth(c, On(v, Healthy(v.obj)))
  }

  function FailoverReady(c: string, v: Versioned): Thread {
    if v.obj.status.status == "SUCCESS" then Idle else FailoverRead(c, v.obj.status.status != "")
  }

  /** A handler starts on a snapshot `v` of cluster `c`. */
  function Begin(role: Role, c: string, v: Versioned, clusters: set<string>, now: string): Thread {
    var sot := v.obj.spec.sot;
    match role
    case MirrorAdd =>
      if sot == "" then Claim(c, v, 0)
      else if sot == c then Fan(v.obj, clusters - {c})
      else if sot !in clusters then Idle
      else PushGet(sot, c, v.obj)
    case MirrorUpdate =>
      if sot == c then Fan(v.obj, clusters - {c})
      else if sot !in clusters then Idle
      else PushGet(sot, c, v.obj)
    case MirrorDelete =>
      if sot == c then DeleteFan(clusters - {c})
      else if sot !in clusters then Idle
      else DeleteSource(sot, c)
    case GroupEvent =>
      if sot == "" then GroupClaim(c, WithSot(v, c))
      else if sot != c then Idle
      else GroupReady(c, v, now)
    case FailoverEvent =>
      if sot == "" then FailoverClaim(c, WithSot(v, c))
      else if sot != c then Idle
      else FailoverReady(c, v)
  }

  /** The cluster called and the call made, if the thread is at one. */
  function CallOf(th: Thread): Option<(string, Call)> {
    match th
    case Idle => None
    case Fan(_, _) => None
    case DeleteFan(_) => None
    case Claim(c, held, _) => Some((c, Update(WithSot(held, c))))
    case ClaimReread(c, _) => Some((c, Get))
    case PushGet(sot, _, _) => Some((sot, Get))
    case PushCreate(sot, _, src) => Some((sot, Create(src)))
    case PushGetAgain(sot, _, _) => Some((sot, Get))
    case PushUpdate(sot, _, src, held, _) => Some((sot, Update(WithSpec(held, src.spec))))
    case PushReread(sot, _, _, _) => Some((sot, Get))
    case SyncGet(_, t, _) => Some((t, Get))
    case SyncCreate(src, t, _) => Some((t, Create(src)))
    case SyncUpdate(src, t, _, held) => Some((t, Update(held.(obj := src))))
    case SyncReread(_, t, _) => Some((t, Get))
    case SyncUpdateAgain(src, t, _, held) => Some((t, Update(WithSpec(held, src.spec))))
    case SyncStatus(src, t, _, held) => Some((t, UpdateStatus(WithStatus(held, src.status))))
    case SyncStatusReread(_, t, _) => Some((t, Get))
    case SyncStatusAgain(src, t, _, held) => Some((t, UpdateStatus(WithStatus(held, src.status))))
    case DeleteSource(sot, _) => Some((sot, Delete))
    case DeleteOne(t, _) => Some((t, Delete))
    case GroupClaim(c, held) => Some((c, Update(held)))
    case GroupInit(c, held) => Some((c, UpdateStatus(held)))
    case GroupReread(c) => Some((c, Get))
    case GroupInitAgain(c, held) => Some((c, UpdateStatus(held)))
    case GroupHealth(c, held) => Some((c, UpdateStatus(held)))
    case FailoverClaim(c, held) => Some((c, Update(held)))
    case FailoverRead(c, _) => Some((c, Get))
    case FailoverWrite(c, _, held) => Some((c, UpdateStatus(held)))
    case FailoverReread(c, _) => Some((c, Get))
    case FailoverWriteAgain(c, _, held) => Some((c, UpdateStatus(held)))
  }

  /** Where the thread goes on the response to its call. */
  function Next(th: Thread, r: Response, clusters: set<string>, now: string): Thread {
    match th
    case Idle => Idle
    case Fan(_, _) => th
    case DeleteFan(_) => th
    case Claim(c, _, tries) =>
      // the name read before the claim is still empty: nothing is sent on
      if r.Conflict? then ClaimReread(c, tries) else Idle
    case ClaimReread(c, tries) =>
      if r.Success? && tries + 1 < MAX_RETRIES then Claim(c, r.got, tries + 1) else Idle
    case PushGet(sot, c, src) =>
      if r.Success? then PushUpdate(sot, c, src, r.got, 0)
      else if r.NotFound? then PushCreate(sot, c, src)
      else Idle
    case PushCreate(sot, c, src) =>
      if r.Success? then PushUpdate(sot, c, src, r.got, 0)
      else if r.AlreadyExists? then PushGetAgain(sot, c, src)
      else Idle
    case PushGetAgain(sot, c, src) =>
      if r.Success? then PushUpdate(sot, c, src, r.got, 0) else Idle
    case PushUpdate(sot, c, src, held, tries) =>
      if r.Success? then Fan(r.got.obj, clusters - {c, sot})
      else if r.Conflict? then PushReread(sot, c, src, tries)
      else Idle
    case PushReread(sot, c, src, tries) =>
      if !r.Success? then Idle
      else if tries + 1 < MAX_RETRIES then PushUpdate(sot, c, src, r.got, tries + 1)
      else Fan(r.got.obj.(spec := src.spec), clusters - {c, sot})
    case SyncGet(src, t, todo) =>
      if r.Success? then SyncUpdate(src, t, todo, r.got)
      else if r.NotFound? then SyncCreate(src, t, todo)
      else Fan(src, todo)
    case SyncCreate(src, _, todo) => Fan(src, todo)
    case SyncUpdate(src, t, todo, _) =>
      if r.Success? then SyncStatus(src, t, todo, r.got)
      else if r.Conflict? then SyncReread(src, t, todo)
      else Fan(src, todo)
    case SyncReread(src, t, todo) =>
      if r.Success? then SyncUpdateAgain(src, t, todo, r.got) else Fan(src, todo)
    case SyncUpdateAgain(src, t, todo, _) =>
      if r.Success? then SyncStatus(src, t, todo, r.got) else Fan(src, todo)
    case SyncStatus(src, t, todo, _) =>
      if r.Conflict? then SyncStatusReread(src, t, todo) else Fan(src, todo)
    case SyncStatusReread(src, t, todo) =>
      if r.Success? then SyncStatusAgain(src, t, todo, r.got) else Fan(src, todo)
    case SyncStatusAgain(src, _, todo, _) => Fan(src, todo)
    case DeleteSource(sot, c) =>
      if r.Success? || r.NotFound? then DeleteFan(clusters - {c, sot}) else Idle
    case DeleteOne(_, todo) => DeleteFan(todo)
    case GroupClaim(c, _) => if r.Success? then GroupReady(c, r.got, now) else Idle
    case GroupInit(c, _) =>
      if r.Success? then GroupHealth(c, On(r.got, Healthy(r.got.obj)))
      else if r.Conflict? then GroupReread(c)
      else Idle
    case GroupReread(c) => if r.Success? then GroupInitAgain(c, On(r.got, Initialised(r.got.obj, c, now))) else Idle
    case GroupInitAgain(c, _) => if r.Success? then GroupHealth(c, On(r.got, Healthy(r.got.obj))) else Idle
    case GroupHealth(_, _) => Idle
    case FailoverClaim(c, _) => if r.Success? then FailoverReady(c, r.got) else Idle
    case FailoverRead(c, last) => if r.Success? then FailoverWrite(c, last, Progress(r.got, last)) else Idle
    case FailoverWrite(c, last, _) =>
      if r.Success? then (if last then Idle else FailoverRead(c, true))
      else if r.Conflict? then FailoverReread(c, last)
      else Idle
    case FailoverReread(c, last) => if r.Success? then FailoverWriteAgain(c, last, Progress(r.got, last)) else Idle
    case FailoverWriteAgain(c, last, _) => if r.Success? && !last then FailoverRead(c, true) else Idle
  }

  // ----- the system

  /** `seen` holds every object each cluster ever stored, `written` every spec body a user ever wrote. */
  datatype Sys = Sys(nodes: Fleet, seen: map<string, set<Versioned>>, threads: seq<Thread>, written: set<string>)

  /** How a call is answered: by the server, from a stale cache, by a failure, or by a failure after
      the server has carried it out. */
  datatype Answer = Fresh | Stale(v: Versioned) | StaleMissing | Fails | Lost

  datatype Label =
    | Deliver(role: Role, at: string, snapshot: Versioned, now: string)
    | CallApi(i: nat, answer: Answer, now: string)
    | Pick(i: nat, t: string)
    | Finish(i: nat)
    | UserCreate(body: string, annotations: map<string, string>)
    | UserEdit(at: string, body: string, annotations: map<string, string>)
    | UserDelete(at: string)
    | OwnerStatus(status: Status)

  /** The object is first created in cluster `home`; users leave its source of truth alone, and status
      is written by others only in `home` and only with an active cluster that is `home` or none. */
  predicate Allowed(home: string, s: Sys, l: Label) {
    match l
    case Deliver(_, c, v, _) => c in s.nodes && c in s.seen && v in s.seen[c]
    case CallApi(i, answer, _) =>
      && i < |s.threads| && CallOf(s.threads[i]).Some?
      && var (c, call) := CallOf(s.threads[i]).value;
         && c in s.nodes && c in s.seen
         && (answer.Stale? ==> call.Get? && answer.v in s.seen[c])
         && (answer.StaleMissing? ==> call.Get?)
    case Pick(i, t) =>
      i < |s.threads| && (s.threads[i].Fan? || s.threads[i].DeleteFan?) && t in s.threads[i].todo
    case Finish(i) =>
      i < |s.threads| && (s.threads[i].Fan? || s.threads[i].DeleteFan?) && s.threads[i].todo == {}
    case UserCreate(_, _) => home in s.nodes && s.nodes[home].copy.None?
    case UserEdit(c, _, _) => c in s.nodes && s.nodes[c].copy.Some?
    case UserDelete(c) => c in s.nodes && s.nodes[c].copy.Some?
    case OwnerStatus(status) => home in s.nodes && s.nodes[home].copy.Some? && status.activeCluster in {"", home}
  }

  /** Cluster `c` becomes `n`; what it now stores is remembered. */
  function Put(s: Sys, c: string, n: Node): Sys
    requires c in s.seen
  {
    s.(nodes := s.nodes[c := n],
       seen := s.seen[c := s.seen[c] + if n.copy.Some? then {n.copy.value} else {}])
  }

  function Reply(n: Node, call: Call, answer: Answer): (Response, Node) {
    match answer
    case Fresh => Serve(n, call)
    case Stale(v) => (Success(v), n)
    case StaleMissing => (NotFound, n)
    case Fails => (Failure, n)
    case Lost => (Failure, Serve(n, call).1)
  }

  function Do(home: string, s: Sys, l: Label): Sys
    requires Allowed(home, s, l) && s.seen.Keys == s.nodes.Keys
  {
    match l
    case Deliver(role, c, v, now) =>
      s.(threads := s.threads + [Begin(role, c, v, s.nodes.Keys, now)])
    case CallApi(i, answer, now) =>
      var th := s.threads[i];
      var (c, call) := CallOf(th).value;
      var (r, n) := Reply(s.nodes[c], call, answer);
      Put(s, c, n).(threads := s.threads[i := Next(th, r, s.nodes.Keys, now)])
    case Pick(i, t) =>
      var th := s.threads[i];
      var todo := th.todo - {t};
      s.(threads := s.threads[i := if th.Fan? then SyncGet(th.src, t, todo) else DeleteOne(t, todo)])
    case Finish(i) =>
      s.(threads := s.threads[i := Idle])
    case UserCreate(body, annotations) =>
      var n := Store(s.nodes[home], Added, Object(Spec("", body), annotations, EMPTY_STATUS));
      Put(s, home, n).(written := s.written + {body})
    case UserEdit(c, body, annotations) =>
      var cur := s.nodes[c].copy.value.obj;
      var n := Write(s.nodes[c], Object(cur.spec.(body := body), annotations, cur.status));
      Put(s, c, n).(written := s.written + {body})
    case UserDelete(c) =>
      Put(s, c, Remove(s.nodes[c]))
    case OwnerStatus(status) =>
      Put(s, home, Write(s.nodes[home], s.nodes[home].copy.value.obj.(status := status)))
  }

  predicate Initial(home: string, s: Sys) {
    && home in s.nodes && "" !in s.nodes && s.seen.Keys == s.nodes.Keys
    && (forall c <- s.nodes.Keys :: s.nodes[c].copy.None? && s.nodes[c].queue == [] && s.seen[c] == {})
    && s.threads == [] && s.written == {}
  }

  ghost predicate ValidTrace(home: string, s: Sys, ls: seq<Label>)
    decreases |ls|
  {
    ls == [] ||
    (s.seen.Keys == s.nodes.Keys && Allowed(home, s, ls[0]) && ValidTrace(home, Do(home, s, ls[0]), ls[1..]))
  }

  ghost function Exec(home: string, s: Sys, ls: seq<Label>): Sys
    requires ValidTrace(home, s, ls)
    decreases |ls|
  {
    if ls == [] then s else Exec(home, Do(home, s, ls[0]), ls[1..])
  }
}
