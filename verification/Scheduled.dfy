/** One handler thread among other writers and API failures, which a schedule lists call by call. */
module Scheduled {
  import opened Options
  import opened ApiServer
  import opened Mirror
  import opened Interleaving
  import opened Undisturbed
  import opened ClusterClient

  datatype Moment = Moment(nodes: Fleet, thread: Thread, calls: nat)

  /** The thread makes its calls until it has ended or stands at the head of a loop. */
  ghost function Advance(m: Moment, schedule: seq<Slot>, now: string): Moment
    decreases Budget(m.thread, |m.nodes.Keys|)
  {
    if CallOf(m.thread).None? then m
    else
      var (c, call) := CallOf(m.thread).value;
      if c !in m.nodes then Moment(m.nodes, Idle, m.calls)
      else
        var (r, f) := Answered(m.nodes, c, call, SlotAt(schedule, m.calls));
        CallsRunOut(m.thread, r, m.nodes.Keys, now);
        assert f.Keys == m.nodes.Keys;
        Advance(Moment(f, Next(m.thread, r, m.nodes.Keys, now), m.calls + 1), schedule, now)
  }

  lemma AdvanceStops(m: Moment, schedule: seq<Slot>, now: string)
    ensures var a := Advance(m, schedule, now);
            && a.nodes.Keys == m.nodes.Keys && a.calls >= m.calls && CallOf(a.thread).None?
            && Budget(a.thread, |m.nodes.Keys|) <= Budget(m.thread, |m.nodes.Keys|)
    decreases Budget(m.thread, |m.nodes.Keys|)
  {
    if CallOf(m.thread).Some? && CallOf(m.thread).value.0 in m.nodes {
      var m' := Called(m, schedule, now);
      CallsRunOut(m.thread, Answered(m.nodes, CallOf(m.thread).value.0, CallOf(m.thread).value.1,
                                     SlotAt(schedule, m.calls)).0, m.nodes.Keys, now);
      AdvanceStops(m', schedule, now);
    }
  }

  predicate AtLoop(th: Thread) {
    (th.Fan? || th.DeleteFan?) && th.todo != {}
  }

  /** The thread can end with the fleet `end` after `calls` calls in all, its loops visiting the clusters in
      some order. */
  ghost predicate Plays(m: Moment, schedule: seq<Slot>, now: string, end: Fleet, calls: nat)
    decreases Budget(m.thread, |m.nodes.Keys|)
  {
    var a := Advance(m, schedule, now);
    AdvanceStops(m, schedule, now);
    if AtLoop(a.thread) then
      exists t :: t in a.thread.todo &&
        (PickedRunsOut(a.thread, t, |m.nodes.Keys|);
         Plays(Moment(a.nodes, Picked(a.thread, t), a.calls), schedule, now, end, calls))
    else
      end == a.nodes && calls == a.calls
  }

  /** One call of the thread. */
  ghost function Called(m: Moment, schedule: seq<Slot>, now: string): Moment
    requires CallOf(m.thread).Some? && CallOf(m.thread).value.0 in m.nodes
  {
    var (c, call) := CallOf(m.thread).value;
    var (r, f) := Answered(m.nodes, c, call, SlotAt(schedule, m.calls));
    Moment(f, Next(m.thread, r, m.nodes.Keys, now), m.calls + 1)
  }

  /** From both moments on, the same can happen. */
  ghost predicate Continues(m: Moment, m': Moment, schedule: seq<Slot>, now: string) {
    forall end, k :: Plays(m, schedule, now, end, k) <==> Plays(m', schedule, now, end, k)
  }

  lemma CallContinues(m: Moment, schedule: seq<Slot>, now: string)
    requires CallOf(m.thread).Some? && CallOf(m.thread).value.0 in m.nodes
    ensures Advance(m, schedule, now) == Advance(Called(m, schedule, now), schedule, now)
    ensures Continues(m, Called(m, schedule, now), schedule, now)
  {
    var m' := Called(m, schedule, now);
    assert Advance(m, schedule, now) == Advance(m', schedule, now);
    forall end, k ensures Plays(m, schedule, now, end, k) <==> Plays(m', schedule, now, end, k) {
      SameAdvance(m, m', schedule, now, end, k);
    }
  }

  lemma AnswerContinues(m: Moment, c: string, call: Call, r: Response, m': Moment, schedule: seq<Slot>, now: string)
    requires c in m.nodes && CallOf(m.thread) == Some((c, call)) && m'.nodes.Keys == m.nodes.Keys
    requires (r, m'.nodes) == Answered(m.nodes, c, call, SlotAt(schedule, m.calls))
    requires m'.thread == Next(m.thread, r, m.nodes.Keys, now) && m'.calls == m.calls + 1
    ensures Continues(m, m', schedule, now)
  {
    CallContinues(m, schedule, now);
    assert m' == Called(m, schedule, now);
  }

  lemma SameAdvance(m: Moment, m': Moment, schedule: seq<Slot>, now: string, end: Fleet, calls: nat)
    requires Advance(m, schedule, now) == Advance(m', schedule, now)
    ensures Plays(m, schedule, now, end, calls) <==> Plays(m', schedule, now, end, calls)
  {}

  lemma Onward(m0: Moment, m1: Moment, m2: Moment, schedule: seq<Slot>, now: string)
    requires Continues(m0, m1, schedule, now) && Continues(m1, m2, schedule, now)
    ensures Continues(m0, m2, schedule, now)
  {}

  /** A loop visits `t` and comes back to its head. */
  lemma Visited(m: Moment, t: string, m': Moment, schedule: seq<Slot>, now: string)
    requires AtLoop(m.thread) && t in m.thread.todo
    requires Continues(Moment(m.nodes, Picked(m.thread, t), m.calls), m', schedule, now)
    ensures forall end, k :: Plays(m', schedule, now, end, k) ==> Plays(m, schedule, now, end, k)
  {
    assert Advance(m, schedule, now) == m;
    forall end, k | Plays(m', schedule, now, end, k) ensures Plays(m, schedule, now, end, k) {
      assert Plays(Moment(m.nodes, Picked(m.thread, t), m.calls), schedule, now, end, k);
    }
  }

  /** A thread with nothing to do leaves everything as it is. */
  lemma Ended(m: Moment, schedule: seq<Slot>, now: string)
    requires CallOf(m.thread).None? && !AtLoop(m.thread)
    ensures Plays(m, schedule, now, m.nodes, m.calls)
  {}

  lemma Finished(m: Moment, m': Moment, schedule: seq<Slot>, now: string)
    requires Continues(m, m', schedule, now) && CallOf(m'.thread).None? && !AtLoop(m'.thread)
    ensures Plays(m, schedule, now, m'.nodes, m'.calls)
  {
    Ended(m', schedule, now);
  }

  lemma PlaysOn(m: Moment, m': Moment, schedule: seq<Slot>, now: string, end: Fleet, calls: nat)
    requires Continues(m, m', schedule, now) && Plays(m', schedule, now, end, calls)
    ensures Plays(m, schedule, now, end, calls)
  {}

  /** What client and handler thread have before them. */
  ghost function MomentOf(client: Client, th: Thread): Moment
    reads client
  {
    Moment(client.nodes, th, client.calls)
  }

  /** One call, which is the next of thread `th`. */
  method Perform(client: Client, c: string, call: Call, ghost th: Thread, ghost now: string) returns (r: Response)
    requires c in client.nodes && CallOf(th) == Some((c, call))
    modifies client
    ensures client.nodes.Keys == old(client.nodes.Keys) && client.calls == old(client.calls) + 1
    ensures (r, client.nodes) == Answered(old(client.nodes), c, call, SlotAt(client.schedule, old(client.calls)))
    ensures Continues(old(MomentOf(client, th)), MomentOf(client, Next(th, r, client.nodes.Keys, now)),
                      client.schedule, now)
    ensures old(client.Alone()) ==>
              && r == Serve(old(client.nodes)[c], call).0
              && client.nodes == old(client.nodes)[c := Serve(old(client.nodes)[c], call).1]
  {
    ghost var m := MomentOf(client, th);
    r := client.Invoke(c, call);
    AnswerContinues(m, c, call, r, MomentOf(client, Next(th, r, client.nodes.Keys, now)), client.schedule, now);
  }
}
