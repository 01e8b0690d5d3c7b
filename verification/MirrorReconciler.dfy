/** The mirror controller as it runs, one API call after the other. */
module MirrorReconciler {
  import opened Options
  import opened ApiServer
  import opened Mirror
  import opened ClusterClient
  import opened Interleaving
  import opened Retries
  import opened Scheduled

  /** The copy has the spec of `resource`, and its annotations if no conflict came in between. */
  predicate Follows(n: Node, resource: Object, again: bool) {
    && n.copy.Some? && n.copy.value.obj.spec == resource.spec
    && (!again ==> n.copy.value.obj.annotations == resource.annotations)
  }

  /** What an update from `resource` makes of `cur`: all but the status, or after a conflict the spec only. */
  function Replaced(cur: Object, resource: Object, again: bool): Object {
    if again then cur.(spec := resource.spec) else resource.(status := cur.status)
  }

  /** Other writers get in before an update and before the one that repeats it after a read. */
  predicate HitTwice(schedule: seq<Slot>, i: nat, t: string) {
    Hit(schedule, i, t) && Hit(schedule, i + 2, t)
  }

  /** The slot at which the status is sent, if the spec was sent first at slot `i`. */
  function StatusSlot(schedule: seq<Slot>, i: nat, t: string): nat {
    if Hit(schedule, i, t) then i + 3 else i + 1
  }

  function RoleOf(kind: EventKind): Role {
    match kind
    case Added => MirrorAdd
    case Updated => MirrorUpdate
    case Deleted => MirrorDelete
  }

  class Reconciler {
    const client: Client

    constructor (client: Client)
      ensures this.client == client
    {
      this.client := client;
    }

    /** The handler thread `th` with what the controller has before it. */
    ghost function At(th: Thread): Moment
      reads client
    {
      MomentOf(client, th)
    }

    /** The handler that ran is the thread `th`, from its start to its end. */
    ghost predicate Played(start: Moment)
      reads client
    {
      Plays(start, client.schedule, "", client.nodes, client.calls)
    }

    /** One update of what was read as `held`; `before` is the fleet it meets. */
    method Send(c: string, call: Call, ghost held: Versioned, ghost th: Thread)
      returns (r: Response, ghost before: Fleet)
      requires c in client.nodes && Updates(call) && call.sent.version == held.version
      requires CallOf(th) == Some((c, call))
      modifies client
      ensures client.nodes.Keys == old(client.nodes.Keys) == before.Keys && client.calls == old(client.calls) + 1
      ensures Continues(old(At(th)), At(Next(th, r, client.nodes.Keys, "")), client.schedule, "")
      ensures if r.Success?
              then
                && Stores(before[c], held.version) && client.nodes == before[c := Sent(before[c], call)]
                && client.nodes[c].copy == Some(r.got)
              else
                // an update that was carried out may be reported as failed
                || client.nodes == before
                || (r.Failure? && before[c].copy.Some? && client.nodes == before[c := Sent(before[c], call)])
      ensures Sane(old(client.nodes)[c]) ==> Sane(client.nodes[c])
      ensures Tracks(old(client.nodes)[c], held) ==> Tracks(before[c], held)
      ensures Tracks(old(client.nodes)[c], held) && old(client.nodes)[c].copy == Some(held) && Calm(client.schedule) ==>
                && before[c].copy.Some?
                && if Hit(client.schedule, old(client.calls), c) then r.Conflict? else r.Success?
      ensures old(client.Alone()) ==>
                && before == old(client.nodes)
                && match before[c].copy
                   case None => r.NotFound?
                   case Some(cur) => if cur.version == held.version then r.Success? else r.Conflict?
    {
      ghost var slot := SlotAt(client.schedule, client.calls);
      before := DisturbAll(client.nodes, slot.writes);
      SendLands(client.nodes, c, call, held, slot);
      SendMeets(client.nodes, c, call, held, slot);
      assert Calm(client.schedule) ==> CalmSlot(slot);
      r := Perform(client, c, call, th, "");
    }

    /** The read after a conflict. */
    method Reread(c: string, ghost held: Versioned, ghost th: Thread) returns (r: Response)
      requires c in client.nodes && CallOf(th) == Some((c, Get))
      modifies client
      ensures client.nodes.Keys == old(client.nodes.Keys) && client.calls == old(client.calls) + 1
      ensures Continues(old(At(th)), At(Next(th, r, client.nodes.Keys, "")), client.schedule, "")
      ensures r.Success? ==> client.nodes[c].copy == Some(r.got)
      ensures Sane(old(client.nodes)[c]) ==> Sane(client.nodes[c])
      ensures r.Success? && Tracks(old(client.nodes)[c], held) ==> Tracks(client.nodes[c], r.got)
      ensures Tracks(old(client.nodes)[c], held) && old(client.nodes)[c].copy.Some? && Calm(client.schedule) ==>
                r.Success?
      ensures old(client.Alone()) ==> client.nodes == old(client.nodes) && (client.nodes[c].copy.Some? ==> r.Success?)
    {
      ghost var slot := SlotAt(client.schedule, client.calls);
      ReadAgain(client.nodes, c, held, slot);
      assert Calm(client.schedule) ==> CalmSlot(slot);
      r := Perform(client, c, Get, th, "");
    }

    /** The retry loop at update number `tries` of `held`. */
    ghost function AtTurn(held: Versioned, tries: nat): Turn
      reads client
    {
      Turn(client.nodes, held, client.calls, tries)
    }

    /** One update of a retry loop: the edited copy is sent. */
    method Attempt(c: string, edit: Edit, held: Versioned) returns (r: Response, ghost before: Fleet)
      requires c in client.nodes
      modifies client
      ensures client.nodes.Keys == old(client.nodes.Keys) && client.calls == old(client.calls) + 1
      ensures before == DisturbAll(old(client.nodes), SlotAt(client.schedule, old(client.calls)).writes)
      ensures (r, client.nodes) == Made(old(AtTurn(held, 0)), c, edit, client.schedule)
      ensures if r.Success?
              then
                && Stores(before[c], held.version) && client.nodes == before[c := Landed(before[c], edit, held)]
                && client.nodes[c].copy == Some(r.got)
              else
                // an update that was carried out may be reported as failed
                || client.nodes == before
                || (r.Failure? && before[c].copy.Some? && client.nodes == before[c := Landed(before[c], edit, held)])
    {
      ghost var slot := SlotAt(client.schedule, client.calls);
      before := DisturbAll(client.nodes, slot.writes);
      SendLands(client.nodes, c, EditCall(edit, held), held, slot);
      r := client.Invoke(c, Update(Versioned(held.version, Apply(edit, held.obj))));
    }

    /** An update and, after a conflict, the read that follows it. */
    method Round(c: string, edit: Edit, held: Versioned, ghost tries: nat)
      returns (r: Response, again: Response, ghost before: Fleet)
      requires c in client.nodes && tries < MAX_RETRIES
      modifies client
      ensures client.nodes.Keys == old(client.nodes.Keys) && client.calls >= old(client.calls)
      ensures TurnOver(old(AtTurn(held, tries)), old(AtTurn(held, tries)), c, edit, client.schedule, r, again, before,
                       client.nodes, client.calls)
    {
      ghost var u := AtTurn(held, tries);
      r, before := Attempt(c, edit, held);
      again := r;
      if r.Conflict? {
        again := client.Invoke(c, Get);
      }
      TurnResult(u, c, edit, client.schedule, r, again, before, client.nodes);
    }

    /** The retry loops: write the edited copy, and on a conflict read it again, edit that and
        repeat, at most five times.  No update is lost: a successful write is the edit applied to
        the copy stored just before it.  Up to four conflicting writers are absorbed, and the loop
        gives up only when each of its five updates has been overtaken. */
    method UpdateWithRetry(c: string, edit: Edit, read: Versioned, ghost task: Task)
      returns (outcome: Outcome, updates: nat, ghost before: Fleet, ghost base: Versioned)
      requires c in client.nodes && Trying(task, c, edit)
      modifies client
      ensures client.nodes.Keys == old(client.nodes.Keys) == before.Keys && client.calls >= old(client.calls)
      ensures Continues(old(At(AtTry(task, read, 0))), At(Concluded(task, outcome, old(client.nodes.Keys))),
                        client.schedule, "")
      ensures 1 <= updates <= 5 && (outcome.Exhausted? ==> updates == 5)
      ensures outcome.Written? ==>
                && Stores(before[c], base.version) && client.nodes == before[c := Landed(before[c], edit, base)]
                && client.nodes[c].copy == Some(outcome.target)
      ensures outcome.Written? && Tracks(old(client.nodes)[c], read) ==>
                client.nodes == before[c := Edited(before[c], edit)]
      ensures Calm(client.schedule) && old(client.nodes)[c].copy == Some(read) && Tracks(old(client.nodes)[c], read) ==>
                && !outcome.Aborted? && Overtaken(client.schedule, old(client.calls), c, updates - 1)
                && (Beaten(client.schedule, old(client.calls), c, updates - 1) <==> outcome.Exhausted?)
      ensures old(client.Alone()) ==>
                && before == old(client.nodes)
                && match before[c].copy
                   case None => outcome.Aborted? && client.nodes == before
                   case Some(cur) => outcome.Written? && base == if cur.version == read.version then read else cur
    {
      ghost var u := AtTurn(read, 0);
      outcome, updates, before, base := Retrying(c, edit, read);
      ghost var x := Retry(outcome, updates, before, base, client.nodes, client.calls);
      assert Ends(u, c, edit, client.schedule, x);
      RetryLands(u, c, edit, client.schedule, x);
      RetryIsThread(u, c, edit, client.schedule, x, task);
      if Calm(client.schedule) && u.nodes[c].copy == Some(read) && Tracks(u.nodes[c], read) {
        RetryIsOvertaken(u, c, edit, client.schedule, x);
      }
      if old(client.Alone()) {
        RetryAlone(u, c, edit, client.schedule, x);
      }
    }

    /** The loop itself. */
    method Retrying(c: string, edit: Edit, read: Versioned)
      returns (outcome: Outcome, updates: nat, ghost before: Fleet, ghost base: Versioned)
      requires c in client.nodes
      modifies client
      ensures client.nodes.Keys == old(client.nodes.Keys) && client.calls >= old(client.calls)
      ensures OnlyEnds(old(AtTurn(read, 0)), c, edit, client.schedule,
                       Retry(outcome, updates, before, base, client.nodes, client.calls))
    {
      base := read;
      var held := read;
      updates := 0;
      before := client.nodes;
      ghost var start := AtTurn(read, 0);
      ghost var next := start;
      while updates < MAX_RETRIES
        invariant updates <= MAX_RETRIES && client.nodes.Keys == old(client.nodes.Keys)
        invariant client.calls >= old(client.calls)
        invariant next == AtTurn(held, updates)
        invariant updates < MAX_RETRIES ==> GoesOn(start, next, c, edit, client.schedule)
        invariant updates == MAX_RETRIES ==>
                    OnlyEnds(start, c, edit, client.schedule,
                             Retry(Exhausted(EditCall(edit, held).sent), updates, before, base,
                                   client.nodes, client.calls))
      {
        base := held;
        ghost var here := next;
        var r, again;
        r, again, before := Round(c, edit, held, updates);
        updates := updates + 1;
        if !r.Conflict? || !again.Success? || updates == MAX_RETRIES {
          TurnOverSince(start, here, c, edit, client.schedule, r, again, before, client.nodes, client.calls);
        }
        if r.Success? {
          return Written(r.got), updates, before, base;
        }
        if !r.Conflict? || !again.Success? {
          return Aborted, updates, before, base;
        }
        held := again.got;
        next := AtTurn(held, updates);
        TurnGoesOnSince(start, here, c, edit, client.schedule, r, again, before, next);
      }
      return Exhausted(Versioned(held.version, Apply(edit, held.obj))), updates, before, base;
    }

    /** The spec and annotations of `resource` over the copy read as `held`.  Whatever other writers do, a
        success has written the spec of `resource` over the copy stored just before, in the fleet
        `before`; and the annotations as well, unless the first update met a conflict: then those of the
        other writer stay.  One conflict is absorbed; a second one makes it give up. */
    method ReplaceSpec(t: string, resource: Object, held: Versioned, ghost todo: set<string>)
      returns (r: Response, ghost before: Fleet, ghost again: bool)
      requires t in client.nodes
      modifies client
      ensures client.nodes.Keys == old(client.nodes.Keys) == before.Keys && client.calls >= old(client.calls)
      ensures Continues(old(At(SyncUpdate(resource, t, todo, held))),
                        At(if r.Success? then SyncStatus(resource, t, todo, r.got) else Fan(resource, todo)),
                        client.schedule, "")
      ensures Sane(old(client.nodes)[t]) ==> Sane(client.nodes[t])
      ensures r.Success? ==> client.nodes[t].copy == Some(r.got)
      ensures r.Success? && Sane(old(client.nodes)[t]) ==>
                && before[t].copy.Some?
                && client.nodes == before[t := Write(before[t], Replaced(before[t].copy.value.obj, resource, again))]
      ensures Sane(old(client.nodes)[t]) && old(client.nodes)[t].copy == Some(held) && Calm(client.schedule) ==>
                && (r.Success? <==> !HitTwice(client.schedule, old(client.calls), t))
                && (again <==> Hit(client.schedule, old(client.calls), t))
                && client.calls == StatusSlot(client.schedule, old(client.calls), t)
      ensures old(client.Alone() && Stores(client.nodes[t], held.version)) ==>
                var n := old(client.nodes)[t];
                && client.nodes == old(client.nodes)[t := Write(n, Replaced(n.copy.value.obj, resource, false))]
                && r.Success?
    {
      again := false;
      ghost var th := SyncUpdate(resource, t, todo, held);
      ghost var start := At(th);
      r, before := Send(t, Update(Versioned(held.version, resource)), held, th);
      if r.Conflict? {
        ghost var sent := At(SyncReread(resource, t, todo));
        again := true;
        r, before := ReplaceSpecAgain(t, resource, held, todo);
        Onward(start, sent, At(if r.Success? then SyncStatus(resource, t, todo, r.got) else Fan(resource, todo)),
               client.schedule, "");
      }
    }

    /** After a conflict only the spec is applied again, not the annotations. */
    method ReplaceSpecAgain(t: string, resource: Object, ghost held: Versioned, ghost todo: set<string>)
      returns (r: Response, ghost before: Fleet)
      requires t in client.nodes
      modifies client
      ensures client.nodes.Keys == old(client.nodes.Keys) == before.Keys && client.calls >= old(client.calls)
      ensures Continues(old(At(SyncReread(resource, t, todo))),
                        At(if r.Success? then SyncStatus(resource, t, todo, r.got) else Fan(resource, todo)),
                        client.schedule, "")
      ensures Sane(old(client.nodes)[t]) ==> Sane(client.nodes[t])
      ensures r.Success? ==> client.nodes[t].copy == Some(r.got)
      ensures r.Success? && Sane(old(client.nodes)[t]) ==>
                && before[t].copy.Some?
                && client.nodes == before[t := Write(before[t], Replaced(before[t].copy.value.obj, resource, true))]
      ensures Tracks(old(client.nodes)[t], held) && old(client.nodes)[t].copy.Some? && Calm(client.schedule) ==>
                && (r.Success? <==> !Hit(client.schedule, old(client.calls) + 1, t))
                && client.calls == old(client.calls) + 2
    {
      ghost var start := At(SyncReread(resource, t, todo));
      r := Reread(t, held, start.thread);
      if !r.Success? {
        return r, client.nodes;
      }
      var latest := r.got;
      ghost var read := At(SyncUpdateAgain(resource, t, todo, latest));
      r, before := Send(t, Update(Versioned(latest.version, latest.obj.(spec := resource.spec))), latest,
                        read.thread);
      Onward(start, read, At(if r.Success? then SyncStatus(resource, t, todo, r.got) else Fan(resource, todo)),
             client.schedule, "");
    }

    /** One update of the status of what was read as `held`. */
    method SendStatus(t: string, status: Status, held: Versioned, ghost th: Thread)
      returns (r: Response, ghost before: Fleet)
      requires t in client.nodes && CallOf(th) == Some((t, UpdateStatus(WithStatus(held, status))))
      modifies client
      ensures client.nodes.Keys == old(client.nodes.Keys) == before.Keys && client.calls == old(client.calls) + 1
      ensures Continues(old(At(th)), At(Next(th, r, client.nodes.Keys, "")), client.schedule, "")
      ensures r.Success? ==> client.nodes[t].copy.Some? && client.nodes[t].copy.value.obj.status == status
      ensures r.Conflict? && Tracks(old(client.nodes)[t], held) ==> Tracks(client.nodes[t], held)
      ensures Tracks(old(client.nodes)[t], held) && old(client.nodes)[t].copy == Some(held) && Calm(client.schedule) ==>
                && before[t].copy.Some? && (r.Conflict? ==> client.nodes == before)
                && if Hit(client.schedule, old(client.calls), t) then r.Conflict? else r.Success?
      ensures old(client.Alone()) && old(client.nodes)[t].copy == Some(held) ==>
                && r.Success?
                && client.nodes == old(client.nodes)[t := Write(old(client.nodes)[t], held.obj.(status := status))]
    {
      r, before := Send(t, UpdateStatus(WithStatus(held, status)), held, th);
      if before[t].copy.Some? {
        SentStatus(before[t], WithStatus(held, status));
      }
    }

    /** The status of `resource` over the copy `held`.  One conflict is absorbed; a second one makes it give
        up. */
    method ReplaceStatus(t: string, resource: Object, held: Versioned, ghost todo: set<string>) returns (ok: bool)
      requires t in client.nodes
      modifies client
      ensures client.nodes.Keys == old(client.nodes.Keys) && client.calls >= old(client.calls)
      ensures Continues(old(At(SyncStatus(resource, t, todo, held))), At(Fan(resource, todo)), client.schedule, "")
      ensures ok ==> client.nodes[t].copy.Some? && client.nodes[t].copy.value.obj.status == resource.status
      ensures Sane(old(client.nodes)[t]) && old(client.nodes)[t].copy == Some(held) && Calm(client.schedule) ==>
                (ok <==> !HitTwice(client.schedule, old(client.calls), t))
      ensures old(client.Alone()) && old(client.nodes)[t].copy == Some(held) ==>
                var n := Write(old(client.nodes)[t], held.obj.(status := resource.status));
                ok && client.nodes == old(client.nodes)[t := n]
    {
      ghost var before;
      var r;
      ghost var start := At(SyncStatus(resource, t, todo, held));
      r, before := SendStatus(t, resource.status, held, start.thread);
      if r.Conflict? {
        ghost var sent := At(SyncStatusReread(resource, t, todo));
        r := ReplaceStatusAgain(t, resource, held, todo);
        Onward(start, sent, At(Fan(resource, todo)), client.schedule, "");
      }
      return r.Success?;
    }

    /** After a conflict the status is applied to the copy read again. */
    method ReplaceStatusAgain(t: string, resource: Object, ghost held: Versioned, ghost todo: set<string>)
      returns (r: Response)
      requires t in client.nodes
      modifies client
      ensures client.nodes.Keys == old(client.nodes.Keys) && client.calls >= old(client.calls)
      ensures Continues(old(At(SyncStatusReread(resource, t, todo))), At(Fan(resource, todo)), client.schedule, "")
      ensures r.Success? ==> client.nodes[t].copy.Some? && client.nodes[t].copy.value.obj.status == resource.status
      ensures Tracks(old(client.nodes)[t], held) && old(client.nodes)[t].copy.Some? && Calm(client.schedule) ==>
                (r.Success? <==> !Hit(client.schedule, old(client.calls) + 1, t))
    {
      ghost var start := At(SyncStatusReread(resource, t, todo));
      r := Reread(t, held, start.thread);
      if !r.Success? {
        return;
      }
      var latest := r.got;
      ghost var read := At(SyncStatusAgain(resource, t, todo, latest));
      ghost var before;
      r, before := SendStatus(t, resource.status, latest, read.thread);
      Onward(start, read, At(Fan(resource, todo)), client.schedule, "");
    }

    /** The copy read as `held` takes over first the spec and annotations, then the status. */
    method UpdateCopy(resource: Object, t: string, held: Versioned, ghost todo: set<string>)
      returns (ok: bool, ghost mid: Fleet, ghost again: bool)
      requires t in client.nodes
      modifies client
      ensures client.nodes.Keys == old(client.nodes.Keys) == mid.Keys && client.calls >= old(client.calls)
      ensures Continues(old(At(SyncUpdate(resource, t, todo, held))), At(Fan(resource, todo)), client.schedule, "")
      ensures ok ==> client.nodes[t].copy.Some? && client.nodes[t].copy.value.obj.status == resource.status
      ensures ok && Sane(old(client.nodes)[t]) ==> Follows(mid[t], resource, again)
      ensures Sane(old(client.nodes)[t]) && old(client.nodes)[t].copy == Some(held) && Calm(client.schedule) ==>
                var i := old(client.calls);
                && (again <==> Hit(client.schedule, i, t))
                && (ok <==> !HitTwice(client.schedule, i, t)
                            && !HitTwice(client.schedule, StatusSlot(client.schedule, i, t), t))
      ensures old(client.Alone() && client.nodes[t].copy == Some(held)) ==>
                client.nodes == old(client.nodes)[t := SyncNode(old(client.nodes)[t], resource)]
    {
      var r;
      ghost var before;
      ghost var start := At(SyncUpdate(resource, t, todo, held));
      r, before, again := ReplaceSpec(t, resource, held, todo);
      mid := client.nodes;
      if !r.Success? {
        return false, mid, again;
      }
      ghost var replaced := At(SyncStatus(resource, t, todo, r.got));
      ok := ReplaceStatus(t, resource, r.got, todo);
      Onward(start, replaced, At(Fan(resource, todo)), client.schedule, "");
    }

    /** Makes cluster `t`'s copy follow `resource`.  Whatever other writers do, a success ends with the
        source's status, or with the empty one when the copy had to be created; and at the moment `mid`
        the copy had the source's spec and, unless a conflict made the handler try `again`, annotations.
        If only other writers interfere, it succeeds exactly if they do not get in before both the spec's
        update and its repetition, nor before both the status's. */
    method SyncToCluster(resource: Object, t: string, ghost todo: set<string>)
      returns (ok: bool, ghost mid: Fleet, ghost again: bool)
      modifies client
      ensures client.nodes.Keys == old(client.nodes.Keys) && client.calls >= old(client.calls)
      ensures t in client.nodes ==>
                Continues(old(At(SyncGet(resource, t, todo))), At(Fan(resource, todo)), client.schedule, "")
      ensures ok ==>
                && t in client.nodes && client.nodes[t].copy.Some?
                && client.nodes[t].copy.value.obj.status in [resource.status, EMPTY_STATUS]
      ensures ok && Sane(old(client.nodes)[t]) ==> t in mid && Follows(mid[t], resource, again)
      ensures t in client.nodes && Tracked(old(client.nodes)[t]) && Calm(client.schedule) ==>
                var i := old(client.calls) + 1;
                && (again <==> Hit(client.schedule, i, t))
                && (ok <==> !HitTwice(client.schedule, i, t)
                            && !HitTwice(client.schedule, StatusSlot(client.schedule, i, t), t))
      ensures old(client.Alone()) && t in client.nodes ==>
                client.nodes == old(client.nodes)[t := SyncNode(old(client.nodes)[t], resource)]
    {
      mid, again := client.nodes, false;
      if t !in client.nodes {
        return false, mid, again;
      }
      ghost var start := At(SyncGet(resource, t, todo));
      var r := FirstRead(t, SyncGet(resource, t, todo));
      ghost var read := At(Next(SyncGet(resource, t, todo), r, client.nodes.Keys, ""));
      if r.NotFound? {
        ok := CreateCopy(resource, t, todo);
        Onward(start, read, At(Fan(resource, todo)), client.schedule, "");
        return ok, client.nodes, again;
      }
      if !r.Success? {
        return false, mid, again;
      }
      ok, mid, again := UpdateCopy(resource, t, r.got, todo);
      Onward(start, read, At(Fan(resource, todo)), client.schedule, "");
    }

    /** The first read of a cluster. */
    method FirstRead(t: string, ghost th: Thread) returns (r: Response)
      requires t in client.nodes && CallOf(th) == Some((t, Get))
      modifies client
      ensures client.nodes.Keys == old(client.nodes.Keys) && client.calls == old(client.calls) + 1
      ensures Continues(old(At(th)), At(Next(th, r, client.nodes.Keys, "")), client.schedule, "")
      ensures r.Success? ==> client.nodes[t].copy == Some(r.got)
      ensures r.NotFound? ==> client.nodes[t].copy.None?
      ensures Sane(old(client.nodes)[t]) ==> Sane(client.nodes[t])
      ensures Tracked(old(client.nodes)[t]) && Calm(client.schedule) ==> r.Success?
      ensures old(client.Alone()) ==>
                && client.nodes == old(client.nodes)
                && r == if client.nodes[t].copy.Some? then Success(client.nodes[t].copy.value) else NotFound
      ensures !SlotAt(client.schedule, old(client.calls)).fault.Works? ==>
                && r.Failure?
                && client.nodes == DisturbAll(old(client.nodes), SlotAt(client.schedule, old(client.calls)).writes)
    {
      ghost var slot := SlotAt(client.schedule, client.calls);
      ReadFirst(client.nodes, t, slot);
      ReadAgain(client.nodes, t, Versioned(0, Object(Spec("", ""), map[], EMPTY_STATUS)), slot);
      assert Calm(client.schedule) ==> CalmSlot(slot);
      r := Perform(client, t, Get, th, "");
    }

    method CreateCopy(resource: Object, t: string, ghost todo: set<string>) returns (ok: bool)
      requires t in client.nodes
      modifies client
      ensures client.nodes.Keys == old(client.nodes.Keys) && client.calls == old(client.calls) + 1
      ensures Continues(old(At(SyncCreate(resource, t, todo))), At(Fan(resource, todo)), client.schedule, "")
      ensures ok ==>
                && client.nodes[t].copy.Some?
                && client.nodes[t].copy.value.obj == resource.(status := EMPTY_STATUS)
      ensures old(client.Alone()) && old(client.nodes)[t].copy.None? ==>
                client.nodes == old(client.nodes)[t := SyncNode(old(client.nodes)[t], resource)]
    {
      var r := Perform(client, t, Create(resource), SyncCreate(resource, t, todo), "");
      ok := r.Success?;
    }

    /** Sends `resource` to each target, in any order; a failing target does not stop the others. */
    method SyncOthers(resource: Object, targets: set<string>)
      requires targets <= client.nodes.Keys
      modifies client
      ensures client.nodes.Keys == old(client.nodes.Keys) && client.calls >= old(client.calls)
      ensures Played(old(At(Fan(resource, targets))))
      ensures old(client.Alone()) ==> client.nodes == FanOut(old(client.nodes), resource, targets)
    {
      var todo := targets;
      ghost var start := At(Fan(resource, targets));
      while todo != {}
        invariant todo <= targets && client.nodes.Keys == old(client.nodes.Keys) && client.calls >= old(client.calls)
        invariant forall end, k :: Plays(At(Fan(resource, todo)), client.schedule, "", end, k) ==>
                                   Plays(start, client.schedule, "", end, k)
        invariant old(client.Alone()) ==> client.nodes == FanOut(old(client.nodes), resource, targets - todo)
        decreases todo
      {
        var t :| t in todo;
        ghost var head := At(Fan(resource, todo));
        var ok, mid, again := SyncToCluster(resource, t, todo - {t});
        Visited(head, t, At(Fan(resource, todo - {t})), client.schedule, "");
        todo := todo - {t};
      }
      Ended(At(Fan(resource, todo)), client.schedule, "");
      assert targets - todo == targets;
    }

    /** Brings the spec of `src` to its source-of-truth cluster and returns what is to be sent on. */
    method PushToSource(sot: string, src: Object, ghost c: string) returns (ok: bool, target: Object)
      requires sot in client.nodes
      modifies client
      ensures client.nodes.Keys == old(client.nodes.Keys) && client.calls >= old(client.calls)
      ensures Continues(old(At(PushGet(sot, c, src))),
                        At(if ok then Fan(target, client.nodes.Keys - {c, sot}) else Idle), client.schedule, "")
      ensures !SlotAt(client.schedule, old(client.calls)).fault.Works? ==>
                !ok && client.nodes == DisturbAll(old(client.nodes), SlotAt(client.schedule, old(client.calls)).writes)
      ensures old(client.Alone()) ==>
                && ok
                && client.nodes == old(client.nodes)[sot := PushNode(old(client.nodes)[sot], src)]
                && target == client.nodes[sot].copy.value.obj
    {
      ghost var start := At(PushGet(sot, c, src));
      var r := FirstRead(sot, PushGet(sot, c, src));
      ghost var read := At(Next(PushGet(sot, c, src), r, client.nodes.Keys, ""));
      if r.NotFound? {
        r := CreateSource(sot, src, c);
        Onward(start, read, At(if r.Success? then PushUpdate(sot, c, src, r.got, 0) else Idle), client.schedule, "");
        read := At(if r.Success? then PushUpdate(sot, c, src, r.got, 0) else Idle);
      }
      if !r.Success? {
        return false, src;
      }
      ghost var task := Bringing(sot, c, src);
      ghost var mid := At(AtTry(task, r.got, 0));
      Onward(start, read, mid, client.schedule, "");
      var outcome, updates, before, base := UpdateWithRetry(sot, SetSpec(src.spec), r.got, task);
      Onward(start, mid, At(Concluded(task, outcome, client.nodes.Keys)), client.schedule, "");
      if outcome.Aborted? {
        return false, src;
      }
      // after five conflicts the last unsaved edit is sent on all the same
      return true, outcome.target.obj;
    }

    /** The source of truth had no copy: one is created, or read if another writer was faster. */
    method CreateSource(sot: string, src: Object, ghost c: string) returns (r: Response)
      requires sot in client.nodes
      modifies client
      ensures client.nodes.Keys == old(client.nodes.Keys) && client.calls >= old(client.calls)
      ensures Continues(old(At(PushCreate(sot, c, src))),
                        At(if r.Success? then PushUpdate(sot, c, src, r.got, 0) else Idle), client.schedule, "")
      ensures r.Success? ==> client.nodes[sot].copy == Some(r.got)
      ensures old(client.Alone()) && old(client.nodes)[sot].copy.None? ==>
                r.Success? && client.nodes == old(client.nodes)[sot := PushNode(old(client.nodes)[sot], src)]
    {
      ghost var start := At(PushCreate(sot, c, src));
      r := Perform(client, sot, Create(src), PushCreate(sot, c, src), "");
      if r.AlreadyExists? {
        ghost var mid := At(PushGetAgain(sot, c, src));
        r := Perform(client, sot, Get, PushGetAgain(sot, c, src), "");
        Onward(start, mid, At(if r.Success? then PushUpdate(sot, c, src, r.got, 0) else Idle), client.schedule, "");
      }
    }

    /** The spec goes to the source of truth first and, if that works, from there to all others. */
    method SendThroughSource(src: Object, c: string)
      requires src.spec.sot in client.nodes && src.spec.sot != c
      modifies client
      ensures client.nodes.Keys == old(client.nodes.Keys) && client.calls >= old(client.calls)
      ensures Played(old(At(PushGet(src.spec.sot, c, src))))
      ensures !SlotAt(client.schedule, old(client.calls)).fault.Works? ==>
                client.nodes == DisturbAll(old(client.nodes), SlotAt(client.schedule, old(client.calls)).writes)
      ensures old(client.Alone()) ==> client.nodes == Propagate(old(client.nodes), c, src)
    {
      var sot := src.spec.sot;
      ghost var start := At(PushGet(sot, c, src));
      var ok, target := PushToSource(sot, src, c);
      if !ok {
        Finished(start, At(Idle), client.schedule, "");
        return;
      }
      ghost var head := At(Fan(target, client.nodes.Keys - {c, sot}));
      SyncOthers(target, client.nodes.Keys - {c, sot});
      PlaysOn(start, head, client.schedule, "", client.nodes, client.calls);
    }

    /** The handler is the thread of an update event, whatever other writers and failures come in between.
        If the source of truth cannot be read, nobody's copy is changed. */
    method HandleResourceUpdate(c: string, snapshot: Versioned)
      requires c in client.nodes
      modifies client
      ensures client.nodes.Keys == old(client.nodes.Keys) && client.calls >= old(client.calls)
      ensures "" !in client.nodes ==> Played(old(At(Begin(MirrorUpdate, c, snapshot, client.nodes.Keys, ""))))
      ensures snapshot.obj.spec.sot != c && !SlotAt(client.schedule, old(client.calls)).fault.Works? ==>
                || client.nodes == old(client.nodes)
                || client.nodes == DisturbAll(old(client.nodes), SlotAt(client.schedule, old(client.calls)).writes)
      ensures old(client.Alone()) && "" !in client.nodes ==>
                client.nodes == Propagate(old(client.nodes), c, snapshot.obj)
    {
      var sot := snapshot.obj.spec.sot;
      ghost var start := At(Begin(MirrorUpdate, c, snapshot, client.nodes.Keys, ""));
      if sot != c {
        if sot !in client.nodes {
          Ended(start, client.schedule, "");
          return;
        }
        SendThroughSource(snapshot.obj, c);
        return;
      }
      SyncOthers(snapshot.obj, client.nodes.Keys - {c});
    }

    /** A new object is claimed for cluster `c`; the empty name read before is then looked up, so this
        event sends nothing on.  Otherwise as for an update. */
    method HandleResourceAdd(c: string, snapshot: Versioned)
      requires c in client.nodes
      modifies client
      ensures client.nodes.Keys == old(client.nodes.Keys) && client.calls >= old(client.calls)
      ensures "" !in client.nodes ==> Played(old(At(Begin(MirrorAdd, c, snapshot, client.nodes.Keys, ""))))
      ensures snapshot.obj.spec.sot !in ["", c] && !SlotAt(client.schedule, old(client.calls)).fault.Works? ==>
                || client.nodes == old(client.nodes)
                || client.nodes == DisturbAll(old(client.nodes), SlotAt(client.schedule, old(client.calls)).writes)
      ensures old(client.Alone()) && "" !in client.nodes ==> client.nodes == HandleAdd(old(client.nodes), c, snapshot)
    {
      var sot := snapshot.obj.spec.sot;
      ghost var start := At(Begin(MirrorAdd, c, snapshot, client.nodes.Keys, ""));
      if sot == "" {
        var outcome, updates, before, base := UpdateWithRetry(c, SetSot(c), snapshot, Claiming(c));
        Finished(start, At(Idle), client.schedule, "");
        if outcome.Aborted? {
          return;
        }
      }
      if sot != c {
        if sot !in client.nodes {
          if sot != "" { Ended(start, client.schedule, ""); }
          return;
        }
        SendThroughSource(snapshot.obj, c);
        return;
      }
      SyncOthers(snapshot.obj, client.nodes.Keys - {c});
    }

    method DeleteCopy(t: string, ghost todo: set<string>)
      requires t in client.nodes
      modifies client
      ensures client.nodes.Keys == old(client.nodes.Keys) && client.calls == old(client.calls) + 1
      ensures Continues(old(At(DeleteOne(t, todo))), At(DeleteFan(todo)), client.schedule, "")
      ensures old(client.Alone()) ==> client.nodes == old(client.nodes)[t := DeleteNode(old(client.nodes)[t])]
    {
      var r := Perform(client, t, Delete, DeleteOne(t, todo), "");
    }

    /** Deletes every target's copy; an error at one target does not stop the others, and each gets one
        call. */
    method DeleteOthers(targets: set<string>)
      requires targets <= client.nodes.Keys
      modifies client
      ensures client.nodes.Keys == old(client.nodes.Keys) && client.calls == old(client.calls) + |targets|
      ensures Played(old(At(DeleteFan(targets))))
      ensures old(client.Alone()) ==> client.nodes == DeleteAll(old(client.nodes), targets)
    {
      var todo := targets;
      ghost var start := At(DeleteFan(targets));
      while todo != {}
        invariant todo <= targets && client.nodes.Keys == old(client.nodes.Keys)
        invariant client.calls + |todo| == old(client.calls) + |targets| && |todo| <= |targets|
        invariant forall end, k :: Plays(At(DeleteFan(todo)), client.schedule, "", end, k) ==>
                                   Plays(start, client.schedule, "", end, k)
        invariant old(client.Alone()) ==> client.nodes == DeleteAll(old(client.nodes), targets - todo)
        decreases todo
      {
        var t :| t in todo;
        ghost var head := At(DeleteFan(todo));
        DeleteCopy(t, todo - {t});
        Visited(head, t, At(DeleteFan(todo - {t})), client.schedule, "");
        assert |todo - {t}| == |todo| - 1;
        todo := todo - {t};
      }
      Ended(At(DeleteFan(todo)), client.schedule, "");
      assert targets - todo == targets;
    }

    method DeleteSourceCopy(sot: string, ghost c: string) returns (ok: bool)
      requires sot in client.nodes
      modifies client
      ensures client.nodes.Keys == old(client.nodes.Keys) && client.calls == old(client.calls) + 1
      ensures Continues(old(At(DeleteSource(sot, c))),
                        At(if ok then DeleteFan(client.nodes.Keys - {c, sot}) else Idle), client.schedule, "")
      ensures SlotAt(client.schedule, old(client.calls)).fault.Refused? ==>
                !ok && client.nodes == DisturbAll(old(client.nodes), SlotAt(client.schedule, old(client.calls)).writes)
      ensures old(client.Alone()) ==>
                ok && client.nodes == old(client.nodes)[sot := DeleteNode(old(client.nodes)[sot])]
    {
      var r := Perform(client, sot, Delete, DeleteSource(sot, c), "");
      ok := r.Success? || r.NotFound?;
    }

    /** If the source of truth's copy cannot be deleted, no other copy is. */
    method HandleResourceDelete(c: string, snapshot: Versioned)
      requires c in client.nodes
      modifies client
      ensures client.nodes.Keys == old(client.nodes.Keys) && client.calls >= old(client.calls)
      ensures "" !in client.nodes ==> Played(old(At(Begin(MirrorDelete, c, snapshot, client.nodes.Keys, ""))))
      ensures snapshot.obj.spec.sot != c && SlotAt(client.schedule, old(client.calls)).fault.Refused? ==>
                || client.nodes == old(client.nodes)
                || client.nodes == DisturbAll(old(client.nodes), SlotAt(client.schedule, old(client.calls)).writes)
      ensures old(client.Alone()) && "" !in client.nodes ==>
                client.nodes == HandleDelete(old(client.nodes), c, snapshot)
    {
      var sot := snapshot.obj.spec.sot;
      ghost var start := At(Begin(MirrorDelete, c, snapshot, client.nodes.Keys, ""));
      if sot == c {
        DeleteOthers(client.nodes.Keys - {c});
        return;
      }
      if sot !in client.nodes {
        Ended(start, client.schedule, "");
        return;
      }
      DeleteFromSource(sot, c);
    }

    /** The source of truth's copy first, and if that works all the others. */
    method DeleteFromSource(sot: string, c: string)
      requires sot in client.nodes && sot != c
      modifies client
      ensures client.nodes.Keys == old(client.nodes.Keys) && client.calls >= old(client.calls)
      ensures Played(old(At(DeleteSource(sot, c))))
      ensures SlotAt(client.schedule, old(client.calls)).fault.Refused? ==>
                client.nodes == DisturbAll(old(client.nodes), SlotAt(client.schedule, old(client.calls)).writes)
      ensures old(client.Alone()) ==> client.nodes == DeleteAll(old(client.nodes), old(client.nodes.Keys) - {c})
    {
      ghost var start := At(DeleteSource(sot, c));
      var ok := DeleteSourceCopy(sot, c);
      if !ok {
        Finished(start, At(Idle), client.schedule, "");
        return;
      }
      ghost var head := At(DeleteFan(client.nodes.Keys - {c, sot}));
      DeleteOthers(client.nodes.Keys - {c, sot});
      PlaysOn(start, head, client.schedule, "", client.nodes, client.calls);
    }

    /** Whatever other writers and failures come in between, the controller is the thread of the event's
        handler; and undisturbed it does to the fleet what `HandleEvent` says, whatever order it visits
        the clusters in. */
    method HandleResourceEvent(c: string, e: Event)
      requires c in client.nodes
      modifies client
      ensures client.nodes.Keys == old(client.nodes.Keys) && client.calls >= old(client.calls)
      ensures "" !in client.nodes ==> Played(old(At(Begin(RoleOf(e.kind), c, e.snapshot, client.nodes.Keys, ""))))
      ensures old(client.Alone()) && "" !in client.nodes ==> client.nodes == HandleEvent(old(client.nodes), c, e)
    {
      match e.kind {
        case Added => HandleResourceAdd(c, e.snapshot);
        case Updated => HandleResourceUpdate(c, e.snapshot);
        case Deleted => HandleResourceDelete(c, e.snapshot);
      }
    }
  }
}
