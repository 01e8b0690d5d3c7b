/** The Failover and FailoverGroup controllers as they run, one API call after the other. */
module OwnerReconciler {
  import opened Options
  import opened ApiServer
  import opened Mirror
  import opened ClusterClient
  import opened Owners
  import opened Interleaving
  import opened Scheduled

  /** Where the failover thread is after a status report. */
  function AfterReport(c: string, last: bool, ok: bool): Thread {
    if ok && !last then FailoverRead(c, true) else Idle
  }

  /** Where it starts on a report, and where it starts again after a conflict. */
  function ReadingFor(c: string, last: bool, again: bool): Thread {
    if again then FailoverReread(c, last) else FailoverRead(c, last)
  }

  function WritingFor(c: string, last: bool, again: bool, held: Versioned): Thread {
    if again then FailoverWriteAgain(c, last, Progress(held, last)) else FailoverWrite(c, last, Progress(held, last))
  }

  /** Where one try of a report leads: a conflict of the first one to the second. */
  function AfterTry(c: string, last: bool, again: bool, r: Response): Thread {
    if r.Conflict? && !again then FailoverReread(c, last) else AfterReport(c, last, r.Success?)
  }

  /** Where the group thread is with the first status written. */
  function AfterInit(c: string, r: Response): Thread {
    if r.Success? then GroupHealth(c, On(r.got, Healthy(r.got.obj))) else Idle
  }

  /** The report that is made, the last one or the first. */
  predicate Reporting(last: bool, status: string, state: string, message: string) {
    if last then status == "SUCCESS" && state == "COMPLETED" && message == "Failover completed successfully"
    else status == "IN_PROGRESS" && state == "INITIALIZING" && message == "Starting failover process"
  }

  lemma ReportLands(f: Fleet, c: string, held: Versioned, sent: Versioned, slot: Slot)
    requires c in f && sent.version == held.version && sent.obj == held.obj.(status := sent.obj.status)
    ensures var before := DisturbAll(f, slot.writes);
            var (r, g) := Answered(f, c, UpdateStatus(sent), slot);
            && (r.Success? ==> r.got.obj.status == sent.obj.status && g[c].copy == Some(r.got))
            && (Sane(f[c]) ==> Sane(g[c]))
            && (r.Success? && Sane(f[c]) && f[c].copy == Some(held) ==>
                  before[c].copy == Some(held) && g == before[c := Write(before[c], sent.obj)])
  {
    DisturbSane(f, slot.writes, c);
    if Sane(f[c]) && f[c].copy == Some(held) {
      DisturbTracks(f, slot.writes, c, held);
    }
  }

  lemma ReportAnswered(m: Moment, c: string, last: bool, again: bool, held: Versioned, sent: Versioned, r: Response,
                       m': Moment, schedule: seq<Slot>)
    requires c in m.nodes && m.thread == WritingFor(c, last, again, held) && sent == Progress(held, last)
    requires m'.nodes.Keys == m.nodes.Keys && m'.calls == m.calls + 1 && m'.thread == AfterTry(c, last, again, r)
    requires (r, m'.nodes) == Answered(m.nodes, c, UpdateStatus(sent), SlotAt(schedule, m.calls))
    ensures Continues(m, m', schedule, "")
  {
    AnswerContinues(m, c, UpdateStatus(sent), r, m', schedule, "");
  }

  class OwnerReconciler {
    const client: Client

    constructor (client: Client)
      ensures this.client == client
    {
      this.client := client;
    }

    /** The handler thread `th` with what the controller has before it. */
    ghost function At(th: Thread): Moment
      reads client
    {
      MomentOf(client, th)
    }

    /** Writes status, state and message.  Whatever other writers do, a success changes just these
        three fields of the copy stored right before. */
    method UpdateFailoverStatus(c: string, status: string, state: string, message: string, ghost last: bool)
      returns (ok: bool, latest: Versioned, ghost before: Fleet)
      requires c in client.nodes
      modifies client
      ensures client.nodes.Keys == old(client.nodes.Keys) == before.Keys && client.calls >= old(client.calls)
      ensures Reporting(last, status, state, message) ==>
                Continues(old(At(FailoverRead(c, last))), At(AfterReport(c, last, ok)), client.schedule, "")
      ensures ok ==> latest.obj.status.status == status && client.nodes[c].copy == Some(latest)
      ensures ok && Sane(old(client.nodes)[c]) ==>
                && before[c].copy.Some?
                && var o := before[c].copy.value.obj;
                && client.nodes == before[c := Write(before[c], Reported(o, status, state, message))]
      ensures old(client.Alone()) ==>
                && before == old(client.nodes)
                && match before[c].copy
                   case None => !ok && client.nodes == before
                   case Some(cur) =>
                     && ok
                     && client.nodes == before[c := Write(before[c], Reported(cur.obj, status, state, message))]
    {
      ghost var start := At(FailoverRead(c, last));
      latest := Versioned(0, Object(Spec("", ""), map[], EMPTY_STATUS));
      var r;
      r, before := TryReport(c, status, state, message, last, false);
      if r.Conflict? {
        ghost var mid := At(FailoverReread(c, last));
        r, before := TryReport(c, status, state, message, last, true);
        if Reporting(last, status, state, message) {
          Onward(start, mid, At(AfterReport(c, last, r.Success?)), client.schedule, "");
        }
      }
      ok := r.Success?;
      if ok {
        latest := r.got;
      }
    }

    /** One try: the copy is read and the report written over it. */
    method TryReport(c: string, status: string, state: string, message: string, ghost last: bool, ghost again: bool)
      returns (r: Response, ghost before: Fleet)
      requires c in client.nodes
      modifies client
      ensures client.nodes.Keys == old(client.nodes.Keys) == before.Keys && client.calls >= old(client.calls)
      ensures Reporting(last, status, state, message) ==>
                Continues(old(At(ReadingFor(c, last, again))), At(AfterTry(c, last, again, r)), client.schedule, "")
      ensures Sane(old(client.nodes)[c]) ==> Sane(client.nodes[c])
      ensures r.Success? ==> r.got.obj.status.status == status && client.nodes[c].copy == Some(r.got)
      ensures r.Success? && Sane(old(client.nodes)[c]) ==>
                && before[c].copy.Some?
                && var o := before[c].copy.value.obj;
                && client.nodes == before[c := Write(before[c], Reported(o, status, state, message))]
      ensures old(client.Alone()) ==>
                && before == old(client.nodes)
                && match before[c].copy
                   case None => r.NotFound? && client.nodes == before
                   case Some(cur) =>
                     && r.Success?
                     && client.nodes == before[c := Write(before[c], Reported(cur.obj, status, state, message))]
    {
      ghost var start := At(ReadingFor(c, last, again));
      r := Read(c, last, again);
      before := client.nodes;
      if r.Success? {
        var held := r.got;
        ghost var mid := At(WritingFor(c, last, again, held));
        r, before := WriteReport(c, held, status, state, message, last, again);
        if Reporting(last, status, state, message) {
          Onward(start, mid, At(AfterTry(c, last, again, r)), client.schedule, "");
        }
      }
    }

    /** The read a try begins with. */
    method Read(c: string, ghost last: bool, ghost again: bool) returns (r: Response)
      requires c in client.nodes
      modifies client
      ensures client.nodes.Keys == old(client.nodes.Keys) && client.calls >= old(client.calls) && !r.Conflict?
      ensures Continues(old(At(ReadingFor(c, last, again))),
                        At(if r.Success? then WritingFor(c, last, again, r.got) else Idle), client.schedule, "")
      ensures r.Success? ==> client.nodes[c].copy == Some(r.got)
      ensures Sane(old(client.nodes)[c]) ==> Sane(client.nodes[c])
      ensures old(client.Alone()) ==>
                && client.nodes == old(client.nodes)
                && r == if client.nodes[c].copy.Some? then Success(client.nodes[c].copy.value) else NotFound
    {
      DisturbSane(client.nodes, SlotAt(client.schedule, client.calls).writes, c);
      r := Perform(client, c, Get, ReadingFor(c, last, again), "");
    }

    /** The report over the copy read as `held`. */
    method WriteReport(c: string, held: Versioned, status: string, state: string, message: string, ghost last: bool,
                       ghost again: bool)
      returns (r: Response, ghost before: Fleet)
      requires c in client.nodes
      modifies client
      ensures client.nodes.Keys == old(client.nodes.Keys) == before.Keys && client.calls >= old(client.calls)
      ensures Reporting(last, status, state, message) ==>
                Continues(old(At(WritingFor(c, last, again, held))), At(AfterTry(c, last, again, r)),
                          client.schedule, "")
      ensures r.Success? ==> r.got.obj.status.status == status && client.nodes[c].copy == Some(r.got)
      ensures Sane(old(client.nodes)[c]) ==> Sane(client.nodes[c])
      ensures r.Success? && Sane(old(client.nodes)[c]) && old(client.nodes)[c].copy == Some(held) ==>
                && before[c].copy == Some(held)
                && client.nodes == before[c := Write(before[c], Reported(held.obj, status, state, message))]
      ensures old(client.Alone()) && old(client.nodes)[c].copy == Some(held) ==>
                && before == old(client.nodes) && r.Success?
                && client.nodes == before[c := Write(before[c], Reported(held.obj, status, state, message))]
    {
      ghost var slot := SlotAt(client.schedule, client.calls);
      before := DisturbAll(client.nodes, slot.writes);
      var sent := Versioned(held.version, Reported(held.obj, status, state, message));
      ReportLands(client.nodes, c, held, sent, slot);
      r := SendReport(c, sent, held, last, again);
    }

    /** The call of such a write. */
    method SendReport(c: string, sent: Versioned, ghost held: Versioned, ghost last: bool, ghost again: bool)
      returns (r: Response)
      requires c in client.nodes
      modifies client
      ensures client.nodes.Keys == old(client.nodes.Keys) && client.calls >= old(client.calls)
      ensures (r, client.nodes) ==
              Answered(old(client.nodes), c, UpdateStatus(sent), SlotAt(client.schedule, old(client.calls)))
      ensures sent == Progress(held, last) ==>
                Continues(old(At(WritingFor(c, last, again, held))), At(AfterTry(c, last, again, r)),
                          client.schedule, "")
    {
      ghost var start := At(WritingFor(c, last, again, held));
      r := client.Invoke(c, UpdateStatus(sent));
      if sent == Progress(held, last) {
        ReportAnswered(start, c, last, again, held, sent, r, At(AfterTry(c, last, again, r)), client.schedule);
      }
    }

    /** The common start of both controllers. */
    method Claim(c: string, snapshot: Versioned, ghost th: Thread, ghost now: string) returns (r: Response)
      requires c in client.nodes && CallOf(th) == Some((c, Update(WithSot(snapshot, c))))
      modifies client
      ensures client.nodes.Keys == old(client.nodes.Keys) && client.calls >= old(client.calls)
      ensures Continues(old(At(th)), At(Next(th, r, client.nodes.Keys, now)), client.schedule, now)
      ensures r.Success? ==> r.got.obj.spec.sot == c
      ensures old(client.Alone()) ==>
                match ClaimNode(old(client.nodes)[c], snapshot, c)
                case None => !r.Success? && client.nodes == old(client.nodes)
                case Some(n) => client.nodes == old(client.nodes)[c := n] && r == Success(n.copy.value)
    {
      r := Perform(client, c, Update(Versioned(snapshot.version, snapshot.obj.(spec := snapshot.obj.spec.(sot := c)))),
                   th, now);
    }

    /** Whatever other writers and failures come in between, the handler is the thread of a failover event.
        The lookups of the listed groups, between the two status writes, decide nothing: a failed one is
        skipped, and what is noted about the others is noted on copies the loop throws away. */
    method HandleFailover(c: string, snapshot: Versioned)
      requires c in client.nodes
      modifies client
      ensures client.nodes.Keys == old(client.nodes.Keys)
      ensures Plays(old(At(Begin(FailoverEvent, c, snapshot, client.nodes.Keys, ""))), client.schedule, "",
                    client.nodes, client.calls)
      ensures old(client.Alone()) ==>
                client.nodes == old(client.nodes)[c := FailoverNode(old(client.nodes)[c], snapshot, c)]
    {
      ghost var start := At(Begin(FailoverEvent, c, snapshot, client.nodes.Keys, ""));
      var failover := snapshot;
      if failover.obj.spec.sot == "" {
        var r := Claim(c, snapshot, start.thread, "");
        if !r.Success? {
          Finished(start, At(Idle), client.schedule, "");
          return;
        }
        failover := r.got;
      }
      if failover.obj.spec.sot != c {
        Ended(start, client.schedule, "");
        return;
      }
      ghost var ready := At(FailoverReady(c, failover));
      RunFailoverHandler(c, failover);
      PlaysOn(start, ready, client.schedule, "", client.nodes, client.calls);
    }

    /** The rest of the handler in the source-of-truth cluster. */
    method RunFailoverHandler(c: string, claimed: Versioned)
      requires c in client.nodes
      modifies client
      ensures client.nodes.Keys == old(client.nodes.Keys)
      ensures Plays(old(At(FailoverReady(c, claimed))), client.schedule, "", client.nodes, client.calls)
      ensures old(client.Alone()) ==>
                client.nodes == old(client.nodes)[c := RunFailover(old(client.nodes)[c], claimed.obj.status.status)]
    {
      ghost var start := At(FailoverReady(c, claimed));
      var failover := claimed;
      if failover.obj.status.status == "" {
        var ok, latest, before :=
          UpdateFailoverStatus(c, "IN_PROGRESS", "INITIALIZING", "Starting failover process", false);
        if !ok {
          Finished(start, At(Idle), client.schedule, "");
          return;
        }
        failover := latest;
      }
      if failover.obj.status.status == "SUCCESS" {
        Ended(start, client.schedule, "");
        return;
      }
      ghost var mid := At(FailoverRead(c, true));
      var ok, latest, before :=
        UpdateFailoverStatus(c, "SUCCESS", "COMPLETED", "Failover completed successfully", true);
      Onward(start, mid, At(Idle), client.schedule, "");
      Finished(start, At(Idle), client.schedule, "");
    }

    /** The first status of a group. */
    method Initialise(c: string, group: Versioned, now: string) returns (r: Response)
      requires c in client.nodes
      modifies client
      ensures client.nodes.Keys == old(client.nodes.Keys) && client.calls >= old(client.calls)
      ensures Continues(old(At(GroupInit(c, On(group, Initialised(group.obj, c, now))))), At(AfterInit(c, r)),
                        client.schedule, now)
      ensures old(client.Alone()) ==>
                match old(client.nodes)[c].copy
                case None => !r.Success? && client.nodes == old(client.nodes)
                case Some(cur) =>
                  var base := if cur.version == group.version then group.obj else cur.obj;
                  var o := cur.obj.(status := Initialised(base, c, now).status);
                  && client.nodes == old(client.nodes)[c := Write(old(client.nodes)[c], o)]
                  && r == Success(client.nodes[c].copy.value)
    {
      ghost var start := At(GroupInit(c, On(group, Initialised(group.obj, c, now))));
      var sent := Initialised(group.obj, c, now);
      r := Perform(client, c, UpdateStatus(Versioned(group.version, sent)), start.thread, now);
      if r.Conflict? {
        ghost var mid := At(GroupReread(c));
        r := InitialiseLatest(c, now);
        Onward(start, mid, At(AfterInit(c, r)), client.schedule, now);
      }
    }

    /** The same on the latest copy. */
    method InitialiseLatest(c: string, now: string) returns (r: Response)
      requires c in client.nodes
      modifies client
      ensures client.nodes.Keys == old(client.nodes.Keys) && client.calls >= old(client.calls)
      ensures Continues(old(At(GroupReread(c))), At(AfterInit(c, r)), client.schedule, now)
      ensures old(client.Alone()) ==>
                match old(client.nodes)[c].copy
                case None => !r.Success? && client.nodes == old(client.nodes)
                case Some(cur) =>
                  && client.nodes == old(client.nodes)[c := Write(old(client.nodes)[c], Initialised(cur.obj, c, now))]
                  && r == Success(client.nodes[c].copy.value)
    {
      ghost var start := At(GroupReread(c));
      r := Perform(client, c, Get, start.thread, now);
      if !r.Success? {
        return;
      }
      var sent := Initialised(r.got.obj, c, now);
      ghost var mid := At(GroupInitAgain(c, On(r.got, sent)));
      r := Perform(client, c, UpdateStatus(Versioned(r.got.version, sent)), mid.thread, now);
      Onward(start, mid, At(Next(mid.thread, r, client.nodes.Keys, now)), client.schedule, now);
    }

    /** Whatever other writers and failures come in between, the handler is the thread of a group event. */
    method HandleFailoverGroup(c: string, snapshot: Versioned, now: string)
      requires c in client.nodes
      modifies client
      ensures client.nodes.Keys == old(client.nodes.Keys)
      ensures Plays(old(At(Begin(GroupEvent, c, snapshot, client.nodes.Keys, now))), client.schedule, now,
                    client.nodes, client.calls)
      ensures old(client.Alone()) ==>
                client.nodes == old(client.nodes)[c := GroupNode(old(client.nodes)[c], snapshot, c, now)]
    {
      ghost var start := At(Begin(GroupEvent, c, snapshot, client.nodes.Keys, now));
      var group := snapshot;
      if group.obj.spec.sot == "" {
        var r := Claim(c, snapshot, start.thread, now);
        if !r.Success? {
          Finished(start, At(Idle), client.schedule, now);
          return;
        }
        group := r.got;
      }
      if group.obj.spec.sot != c {
        Ended(start, client.schedule, now);
        return;
      }
      ghost var ready := At(GroupReady(c, group, now));
      RunGroupHandler(c, group, now);
      PlaysOn(start, ready, client.schedule, now, client.nodes, client.calls);
    }

    /** The rest of the handler in the source-of-truth cluster. */
    method RunGroupHandler(c: string, claimed: Versioned, now: string)
      requires c in client.nodes
      modifies client
      ensures client.nodes.Keys == old(client.nodes.Keys)
      ensures Plays(old(At(GroupReady(c, claimed, now))), client.schedule, now, client.nodes, client.calls)
      ensures old(client.Alone()) ==>
                client.nodes == old(client.nodes)[c := RunGroup(old(client.nodes)[c], claimed, c, now)]
    {
      ghost var start := At(GroupReady(c, claimed, now));
      var group := claimed;
      if group.obj.status.health == "" {
        var r := Initialise(c, group, now);
        if !r.Success? {
          Finished(start, At(Idle), client.schedule, now);
          return;
        }
        group := r.got;
      }
      ghost var mid := At(GroupHealth(c, On(group, Healthy(group.obj))));
      RefreshHealth(c, group, now);
      PlaysOn(start, mid, client.schedule, now, client.nodes, client.calls);
    }

    /** The last write of the handler. */
    method RefreshHealth(c: string, group: Versioned, ghost now: string)
      requires c in client.nodes
      modifies client
      ensures client.nodes.Keys == old(client.nodes.Keys)
      ensures Plays(old(At(GroupHealth(c, On(group, Healthy(group.obj))))), client.schedule, now,
                    client.nodes, client.calls)
      ensures old(client.Alone()) ==>
                match old(client.nodes)[c].copy
                case None => client.nodes == old(client.nodes)
                case Some(cur) =>
                  client.nodes ==
                  if cur.version != group.version then old(client.nodes)
                  else
                    var o := cur.obj.(status := Healthy(group.obj).status);
                    old(client.nodes)[c := Write(old(client.nodes)[c], o)]
    {
      ghost var start := At(GroupHealth(c, On(group, Healthy(group.obj))));
      var r := Perform(client, c, UpdateStatus(Versioned(group.version, Healthy(group.obj))), start.thread, now);
      Finished(start, At(Idle), client.schedule, now);
    }
  }
}
