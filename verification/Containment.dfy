/** What API failures cannot do: an edit that does not reach the source of truth, or a deletion that fails
    there, goes no further. */
module Containment {
  import opened Options
  import opened ApiServer
  import opened Mirror
  import opened Interleaving
  import opened Undisturbed
  import opened ClusterClient
  import opened Scheduled

  /** The thread is bringing a spec to the source of truth. */
  predicate Bringing(th: Thread, sot: string, c: string, src: Object) {
    match th
    case PushGet(s, d, o) => s == sot && d == c && o == src
    case PushCreate(s, d, o) => s == sot && d == c && o == src
    case PushGetAgain(s, d, o) => s == sot && d == c && o == src
    case PushUpdate(s, d, o, _, tries) => s == sot && d == c && o == src && tries < MAX_RETRIES
    case PushReread(s, d, o, tries) => s == sot && d == c && o == src && tries < MAX_RETRIES
    case _ => false
  }

  /** The calls it makes at least before it gives up after too many conflicts. */
  function CallsToGiveUp(th: Thread): nat {
    match th
    case PushUpdate(_, _, _, _, tries) => if tries < 5 then 2 * (5 - tries) else 0
    case PushReread(_, _, _, tries) => if tries < 5 then 2 * (5 - tries) - 1 else 0
    case _ => 11
  }

  /** What is sent on: the spec brought, in the copy stored at the source of truth unless conflicts went on. */
  ghost predicate SendsOn(m: Moment, a: Moment, sot: string, c: string, src: Object) {
    && a.thread.Fan? && a.thread.todo == m.nodes.Keys - {c, sot} && a.thread.src.spec == src.spec
    && (a.calls < m.calls + CallsToGiveUp(m.thread) ==> sot in a.nodes && Holds(a.nodes[sot], a.thread.src))
  }

  /** In cluster `t` only the other writers have been at work in one call. */
  ghost predicate UntouchedOnce(m: Moment, m': Moment, schedule: seq<Slot>, t: string) {
    && t in m.nodes && m'.nodes.Keys == m.nodes.Keys && m'.calls == m.calls + 1
    && m'.nodes[t] == DisturbAll(m.nodes, SlotAt(schedule, m.calls).writes)[t]
  }

  lemma PushCall(m: Moment, schedule: seq<Slot>, sot: string, c: string, src: Object)
    requires Bringing(m.thread, sot, c, src) && sot in m.nodes
    ensures CallOf(m.thread).Some? && CallOf(m.thread).value.0 == sot
    ensures var m' := Called(m, schedule, "");
            && m'.nodes.Keys == m.nodes.Keys && m'.calls == m.calls + 1
            && (forall t <- m.nodes.Keys :: t != sot ==> UntouchedOnce(m, m', schedule, t))
            && (m'.thread.Idle? || SendsOn(m, m', sot, c, src) ||
                (Bringing(m'.thread, sot, c, src) && CallsToGiveUp(m'.thread) + 1 >= CallsToGiveUp(m.thread)))
  {}

  // ----- other writers work on each cluster for itself

  lemma {:induction false} DisturbsLocally(f: Fleet, g: Fleet, ws: seq<Foreign>, t: string)
    requires f.Keys == g.Keys && t in f && f[t] == g[t]
    ensures DisturbAll(f, ws)[t] == DisturbAll(g, ws)[t]
    decreases |ws|
  {
    if ws == [] {
    } else {
      DisturbsLocally(Disturb(f, ws[0]), Disturb(g, ws[0]), ws[1..], t);
    }
  }

  lemma {:induction false} DisturbedLocally(f: Fleet, g: Fleet, schedule: seq<Slot>, i: nat, k: nat, t: string)
    requires f.Keys == g.Keys && t in f && f[t] == g[t]
    ensures Disturbed(f, schedule, i, k)[t] == Disturbed(g, schedule, i, k)[t]
    decreases k
  {
    if k == 0 {
    } else {
      var ws := SlotAt(schedule, i).writes;
      DisturbsLocally(f, g, ws, t);
      DisturbedLocally(DisturbAll(f, ws), DisturbAll(g, ws), schedule, i + 1, k - 1, t);
    }
  }

  /** In cluster `t` only the other writers have been at work since `m`. */
  ghost predicate Untouched(m: Moment, a: Moment, schedule: seq<Slot>, t: string) {
    && t in m.nodes && t in a.nodes && a.calls >= m.calls
    && a.nodes[t] == Disturbed(m.nodes, schedule, m.calls, a.calls - m.calls)[t]
  }

  lemma OnceIsUntouched(m: Moment, m': Moment, schedule: seq<Slot>, t: string)
    requires UntouchedOnce(m, m', schedule, t)
    ensures Untouched(m, m', schedule, t)
  {
    assert Disturbed(m.nodes, schedule, m.calls, 1) ==
           Disturbed(DisturbAll(m.nodes, SlotAt(schedule, m.calls).writes), schedule, m.calls + 1, 0);
  }

  lemma UntouchedOnward(m: Moment, m': Moment, a: Moment, schedule: seq<Slot>, t: string)
    requires UntouchedOnce(m, m', schedule, t) && Untouched(m', a, schedule, t)
    ensures Untouched(m, a, schedule, t)
  {
    DisturbedLocally(m'.nodes, DisturbAll(m.nodes, SlotAt(schedule, m.calls).writes), schedule, m'.calls,
                     a.calls - m'.calls, t);
  }

  // ----- bringing an edit to the source of truth

  ghost predicate PushedFrom(m: Moment, a: Moment, schedule: seq<Slot>, sot: string, c: string, src: Object) {
    && a.nodes.Keys == m.nodes.Keys && a.calls >= m.calls
    && (a.thread.Idle? || SendsOn(m, a, sot, c, src))
    && forall t <- m.nodes.Keys :: t != sot ==> Untouched(m, a, schedule, t)
  }

  lemma PushedOnward(m: Moment, m': Moment, a: Moment, schedule: seq<Slot>, sot: string, c: string, src: Object)
    requires m'.nodes.Keys == m.nodes.Keys && m'.calls == m.calls + 1
    requires forall t <- m.nodes.Keys :: t != sot ==> UntouchedOnce(m, m', schedule, t)
    requires CallsToGiveUp(m'.thread) + 1 >= CallsToGiveUp(m.thread) && PushedFrom(m', a, schedule, sot, c, src)
    ensures PushedFrom(m, a, schedule, sot, c, src)
  {
    forall t <- m.nodes.Keys | t != sot ensures Untouched(m, a, schedule, t) {
      UntouchedOnward(m, m', a, schedule, t);
    }
  }

  /** Whatever happens, only the source of truth is written to before something is sent on. */
  lemma {:induction false} PushStaysAtSource(m: Moment, schedule: seq<Slot>, sot: string, c: string, src: Object)
    requires Bringing(m.thread, sot, c, src) && sot in m.nodes
    ensures PushedFrom(m, Advance(m, schedule, ""), schedule, sot, c, src)
    decreases Budget(m.thread, |m.nodes.Keys|)
  {
    var m' := Called(m, schedule, "");
    PushCall(m, schedule, sot, c, src);
    CallContinues(m, schedule, "");
    CallsRunOut(m.thread, Answered(m.nodes, sot, CallOf(m.thread).value.1, SlotAt(schedule, m.calls)).0,
                m.nodes.Keys, "");
    if Bringing(m'.thread, sot, c, src) {
      PushStaysAtSource(m', schedule, sot, c, src);
      PushedOnward(m, m', Advance(m', schedule, ""), schedule, sot, c, src);
    } else {
      assert Advance(m', schedule, "") == m';
      forall t <- m.nodes.Keys | t != sot ensures Untouched(m, m', schedule, t) {
        OnceIsUntouched(m, m', schedule, t);
      }
    }
  }

  /** An edit made away from the source of truth that does not get there: whatever the handler was stopped
      by, no other cluster's copy is changed by it. */
  lemma UnsavedEditGoesNoFurther(f: Fleet, role: Role, c: string, v: Versioned, schedule: seq<Slot>, i: nat,
                                 end: Fleet, calls: nat)
    requires role in [MirrorAdd, MirrorUpdate] && "" !in f && v.obj.spec.sot in f && v.obj.spec.sot != c
    requires Plays(Moment(f, Begin(role, c, v, f.Keys, ""), i), schedule, "", end, calls)
    requires Advance(Moment(f, PushGet(v.obj.spec.sot, c, v.obj), i), schedule, "").thread.Idle?
    ensures end.Keys == f.Keys && calls >= i
    ensures forall t <- f.Keys :: t != v.obj.spec.sot ==> end[t] == Disturbed(f, schedule, i, calls - i)[t]
  {
    var m := Moment(f, PushGet(v.obj.spec.sot, c, v.obj), i);
    assert Begin(role, c, v, f.Keys, "") == m.thread;
    PushStaysAtSource(m, schedule, v.obj.spec.sot, c, v.obj);
    var a := Advance(m, schedule, "");
    assert end == a.nodes && calls == a.calls;
    forall t <- f.Keys | t != v.obj.spec.sot ensures end[t] == Disturbed(f, schedule, i, calls - i)[t] {
      assert Untouched(m, a, schedule, t);
    }
  }

  // ----- failures without other writers

  predicate NoWriters(schedule: seq<Slot>) {
    forall slot <- schedule :: slot.writes == []
  }

  predicate Works(schedule: seq<Slot>, i: nat) {
    SlotAt(schedule, i).fault.Works?
  }

  lemma {:induction false} NobodyDisturbs(f: Fleet, schedule: seq<Slot>, i: nat, k: nat)
    requires NoWriters(schedule)
    ensures Disturbed(f, schedule, i, k) == f
    decreases k
  {
    assert SlotAt(schedule, i).writes == [];
    if k == 0 {
    } else {
      NobodyDisturbs(f, schedule, i + 1, k - 1);
    }
  }

  /** A call that nobody else's write precedes. */
  lemma SoleCall(m: Moment, schedule: seq<Slot>)
    requires NoWriters(schedule) && CallOf(m.thread).Some? && CallOf(m.thread).value.0 in m.nodes
    ensures var (c, call) := CallOf(m.thread).value;
            var (r, n) := Serve(m.nodes[c], call);
            var slot := SlotAt(schedule, m.calls);
            Called(m, schedule, "") ==
            Moment(if slot.fault.Refused? then m.nodes else m.nodes[c := n],
                   Next(m.thread, if slot.fault.Works? then r else Failure, m.nodes.Keys, ""), m.calls + 1)
    ensures Advance(m, schedule, "") == Advance(Called(m, schedule, ""), schedule, "")
  {
    assert SlotAt(schedule, m.calls).writes == [];
    CallContinues(m, schedule, "");
  }

  lemma UpdateReachesIff(m: Moment, schedule: seq<Slot>, sot: string, c: string, src: Object)
    requires NoWriters(schedule) && sot in m.nodes && m.nodes[sot].copy.Some?
    requires m.thread == PushUpdate(sot, c, src, m.nodes[sot].copy.value, 0)
    ensures Advance(m, schedule, "").thread.Fan? <==> Works(schedule, m.calls)
    ensures !Works(schedule, m.calls) ==> Advance(m, schedule, "").thread.Idle?
  {
    SoleCall(m, schedule);
    var m' := Called(m, schedule, "");
    assert Advance(m', schedule, "") == m';
  }

  /** The read and the update work, and where there was no copy the creation. */
  predicate AllWork(n: Node, schedule: seq<Slot>, i: nat) {
    Works(schedule, i) && Works(schedule, i + 1) && (n.copy.None? ==> Works(schedule, i + 2))
  }

  /** Without other writers, exactly when an edit gets to the source of truth. */
  lemma PushReachesIff(f: Fleet, sot: string, c: string, src: Object, schedule: seq<Slot>, i: nat)
    requires NoWriters(schedule) && sot in f
    ensures var a := Advance(Moment(f, PushGet(sot, c, src), i), schedule, "");
            && (a.thread.Fan? <==> AllWork(f[sot], schedule, i))
            && (a.thread.Fan? || a.thread.Idle?)
  {
    var m := Moment(f, PushGet(sot, c, src), i);
    SoleCall(m, schedule);
    var m1 := Called(m, schedule, "");
    assert f[sot := f[sot]] == f;
    if !Works(schedule, i) {
      assert Advance(m1, schedule, "") == m1;
    } else if f[sot].copy.Some? {
      UpdateReachesIff(m1, schedule, sot, c, src);
    } else {
      SoleCall(m1, schedule);
      var m2 := Called(m1, schedule, "");
      if Works(schedule, i + 1) {
        UpdateReachesIff(m2, schedule, sot, c, src);
      } else {
        assert Advance(m2, schedule, "") == m2;
      }
    }
  }

  /** So with one failed call at the source of truth, all other copies stay as they were. */
  lemma FailedPushChangesNobodyElse(f: Fleet, role: Role, c: string, v: Versioned, schedule: seq<Slot>, i: nat,
                                    end: Fleet, calls: nat)
    requires role in [MirrorAdd, MirrorUpdate] && "" !in f && v.obj.spec.sot in f && v.obj.spec.sot != c
    requires NoWriters(schedule) && Plays(Moment(f, Begin(role, c, v, f.Keys, ""), i), schedule, "", end, calls)
    requires !AllWork(f[v.obj.spec.sot], schedule, i)
    ensures end.Keys == f.Keys && forall t <- f.Keys :: t != v.obj.spec.sot ==> end[t] == f[t]
  {
    PushReachesIff(f, v.obj.spec.sot, c, v.obj, schedule, i);
    UnsavedEditGoesNoFurther(f, role, c, v, schedule, i, end, calls);
    NobodyDisturbs(f, schedule, i, calls - i);
  }

  // ----- deleting

  /** A deletion that fails at the source of truth deletes no other copy. */
  lemma FailedDeletionStops(f: Fleet, c: string, v: Versioned, schedule: seq<Slot>, i: nat, end: Fleet, calls: nat)
    requires "" !in f && v.obj.spec.sot in f && v.obj.spec.sot != c && !Works(schedule, i)
    requires Plays(Moment(f, Begin(MirrorDelete, c, v, f.Keys, ""), i), schedule, "", end, calls)
    ensures calls == i + 1 && end.Keys == f.Keys
    ensures forall t <- f.Keys :: t != v.obj.spec.sot ==> end[t] == DisturbAll(f, SlotAt(schedule, i).writes)[t]
  {
    var m := Moment(f, Begin(MirrorDelete, c, v, f.Keys, ""), i);
    CallContinues(m, schedule, "");
    assert Called(m, schedule, "").thread == Idle;
    assert Advance(Called(m, schedule, ""), schedule, "") == Called(m, schedule, "");
  }

  /** The calls that fail among `k` from slot `i` on. */
  function Failures(schedule: seq<Slot>, i: nat, k: nat): nat
    decreases k
  {
    if k == 0 then 0 else (if Works(schedule, i) then 0 else 1) + Failures(schedule, i + 1, k - 1)
  }

  function Survivors(f: Fleet, ts: set<string>): set<string> {
    set t | t in ts && t in f && f[t].copy.Some?
  }

  lemma DeletionCall(f: Fleet, t: string, rest: set<string>, schedule: seq<Slot>, i: nat)
    requires NoWriters(schedule) && t in f
    ensures CallOf(DeleteOne(t, rest)) == Some((t, Delete))
    ensures var m' := Called(Moment(f, DeleteOne(t, rest), i), schedule, "");
            && m'.thread == DeleteFan(rest) && m'.calls == i + 1 && m'.nodes.Keys == f.Keys
            && (Works(schedule, i) ==> m'.nodes[t].copy.None?) && forall u <- f.Keys :: u != t ==> m'.nodes[u] == f[u]
  {
    assert SlotAt(schedule, i).writes == [];
  }

  lemma OneDeletion(f: Fleet, t: string, rest: set<string>, schedule: seq<Slot>, i: nat, end: Fleet, calls: nat)
    returns (g: Fleet)
    requires NoWriters(schedule) && t in f && Plays(Moment(f, DeleteOne(t, rest), i), schedule, "", end, calls)
    ensures g.Keys == f.Keys && Plays(Moment(g, DeleteFan(rest), i + 1), schedule, "", end, calls)
    ensures (Works(schedule, i) ==> g[t].copy.None?) && forall u <- f.Keys :: u != t ==> g[u] == f[u]
  {
    var m := Moment(f, DeleteOne(t, rest), i);
    DeletionCall(f, t, rest, schedule, i);
    CallContinues(m, schedule, "");
    var m' := Called(m, schedule, "");
    SameAdvance(m, m', schedule, "", end, calls);
    g := m'.nodes;
  }

  lemma NoDeletion(f: Fleet, schedule: seq<Slot>, i: nat, end: Fleet, calls: nat)
    requires Plays(Moment(f, DeleteFan({}), i), schedule, "", end, calls)
    ensures end == f && calls == i
  {
    assert Advance(Moment(f, DeleteFan({}), i), schedule, "") == Moment(f, DeleteFan({}), i);
  }

  lemma FirstDeletion(f: Fleet, todo: set<string>, schedule: seq<Slot>, i: nat, end: Fleet, calls: nat)
    returns (t: string, g: Fleet)
    requires NoWriters(schedule) && todo != {} && todo <= f.Keys
    requires Plays(Moment(f, DeleteFan(todo), i), schedule, "", end, calls)
    ensures t in todo && g.Keys == f.Keys && Plays(Moment(g, DeleteFan(todo - {t}), i + 1), schedule, "", end, calls)
    ensures (Works(schedule, i) ==> g[t].copy.None?) && forall u <- f.Keys :: u != t ==> g[u] == f[u]
  {
    var m := Moment(f, DeleteFan(todo), i);
    assert Advance(m, schedule, "") == m;
    t :| t in todo && Plays(Moment(f, Picked(m.thread, t), i), schedule, "", end, calls);
    g := OneDeletion(f, t, todo - {t}, schedule, i, end, calls);
  }

  /** An error at one target does not stop the others: without other writers, each target gets its call, and
      no more copies survive than calls have failed. */
  lemma {:induction false} DeletionsGoOn(f: Fleet, todo: set<string>, schedule: seq<Slot>, i: nat,
                                          end: Fleet, calls: nat)
    requires NoWriters(schedule) && todo <= f.Keys
    requires Plays(Moment(f, DeleteFan(todo), i), schedule, "", end, calls)
    ensures calls == i + |todo| && end.Keys == f.Keys
    ensures forall t <- f.Keys :: t !in todo ==> end[t] == f[t]
    ensures |Survivors(end, todo)| <= Failures(schedule, i, |todo|)
    decreases |todo|
  {
    if todo == {} {
      NoDeletion(f, schedule, i, end, calls);
      assert Survivors(end, todo) == {};
    } else {
      var t, g := FirstDeletion(f, todo, schedule, i, end, calls);
      DeletionsGoOn(g, todo - {t}, schedule, i + 1, end, calls);
      SurvivorsWithout(end, todo, t);
    }
  }

  lemma SurvivorsWithout(f: Fleet, todo: set<string>, t: string)
    requires t in todo && t in f
    ensures |todo - {t}| == |todo| - 1
    ensures |Survivors(f, todo)| == |Survivors(f, todo - {t})| + if f[t].copy.Some? then 1 else 0
  {
    assert Survivors(f, todo) == Survivors(f, todo - {t}) + if f[t].copy.Some? then {t} else {};
  }
}
