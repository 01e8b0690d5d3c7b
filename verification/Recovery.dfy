/** What an instance makes of its lock: a tick finds what the nodes hold, a lost lock is acquired again, and
    one still held is renewed. */
module Recovery {
  import opened Options
  import opened Leadership
  import opened LeaderLock

  // ----- a tick finds what the nodes hold

  /** The nodes an instance has read since its tick began, and those that held its entry when read. */
  datatype Seen = Seen(read: set<nat>, ours: set<nat>)

  function Observe(w: World, l: Label, i: nat, seen: Seen): Seen {
    match l
    case StartTick(j) => if j == i then Seen({}, {}) else seen
    case Check(j, n) =>
      if j == i then Seen(seen.read + {n}, if OwnedBy(w, n, i) then seen.ours + {n} else seen.ours) else seen
    case _ => seen
  }

  ghost function Observed(w: World, ls: seq<Label>, i: nat, seen: Seen): Seen
    requires ValidTrace(w, ls)
    decreases |ls|
  {
    if ls == [] then seen else Observed(Do(w, ls[0]), ls[1..], i, Observe(w, ls[0], i, seen))
  }

  /** Why an instance is in its phase. */
  ghost predicate Tied(w: World, i: nat, seen: Seen) {
    && i < |w.instances|
    && var inst := w.instances[i];
       && (inst.phase.Checking? ==> inst.mutex && inst.phase.read == seen.read && inst.phase.ours == seen.ours)
       && (inst.phase.Extending? ==> inst.mutex && seen.read == Nodes(w) && |seen.ours| >= Quorum(w))
       && ((inst.phase.Acquiring? || inst.phase.Undoing?) && inst.mutex ==>
             seen.read == Nodes(w) && |seen.ours| < Quorum(w))
  }

  lemma TiedOwnStep(w: World, l: Label, i: nat, seen: Seen)
    requires Tied(w, i, seen) && Allowed(w, l) && Actor(l) == Some(i) && !l.Check? && !l.CheckDone?
    ensures Tied(Do(w, l), i, Observe(w, l, i, seen))
  {
    assert Nodes(Do(w, l)) == Nodes(w);
  }

  lemma TiedCheck(w: World, l: Label, i: nat, seen: Seen)
    requires Tied(w, i, seen) && Allowed(w, l) && Actor(l) == Some(i) && l.Check?
    ensures Tied(Do(w, l), i, Observe(w, l, i, seen))
  {
    assert Nodes(Do(w, l)) == Nodes(w);
  }

  lemma TiedCheckDone(w: World, l: Label, i: nat, seen: Seen)
    requires Tied(w, i, seen) && Allowed(w, l) && Actor(l) == Some(i) && l.CheckDone?
    ensures Tied(Do(w, l), i, Observe(w, l, i, seen))
  {
    assert Nodes(Do(w, l)) == Nodes(w);
  }

  lemma TiedOtherStep(w: World, l: Label, i: nat, seen: Seen)
    requires Tied(w, i, seen) && Allowed(w, l) && Actor(l) != Some(i)
    ensures Tied(Do(w, l), i, seen) && Observe(w, l, i, seen) == seen
  {
    assert Nodes(Do(w, l)) == Nodes(w);
    assert Do(w, l).instances[i] == w.instances[i];
  }

  lemma TiedStep(w: World, l: Label, i: nat, seen: Seen)
    requires Tied(w, i, seen) && Allowed(w, l)
    ensures Tied(Do(w, l), i, Observe(w, l, i, seen))
  {
    if Actor(l) != Some(i) {
      TiedOtherStep(w, l, i, seen);
    } else if l.Check? {
      TiedCheck(w, l, i, seen);
    } else if l.CheckDone? {
      TiedCheckDone(w, l, i, seen);
    } else {
      TiedOwnStep(w, l, i, seen);
    }
  }

  lemma {:induction false} TiedRun(w: World, ls: seq<Label>, i: nat, seen: Seen)
    requires Tied(w, i, seen) && ValidTrace(w, ls)
    ensures Tied(Run(w, ls), i, Observed(w, ls, i, seen)) && |Run(w, ls).entries| == |w.entries|
    decreases |ls|
  {
    if ls == [] {
    } else {
      TiedStep(w, ls[0], i, seen);
      TiedRun(Do(w, ls[0]), ls[1..], i, Observe(w, ls[0], i, seen));
    }
  }

  /** Over any trace, a tick that ends with finding the lock still owned has read every node and found its
      entry at a quorum of them; one that ends with finding it lost has read every node and found fewer. */
  lemma ProbesAreObserved(w: World, ls: seq<Label>, l: Label, i: nat)
    requires Initial(w) && ValidTrace(w, ls) && i < |w.instances| && Allowed(Run(w, ls), l)
    requires Probed(Run(w, ls), l, i) != []
    ensures i < |Run(w, ls).instances|
    ensures var p, seen := Probed(Run(w, ls), l, i)[0], Observed(w, ls, i, Seen({}, {}));
            && (p.validity == Owned ==> seen.read == Nodes(Run(w, ls)) && |seen.ours| >= Quorum(w))
            && (p.validity == Lost && Run(w, ls).instances[i].mutex ==>
                  seen.read == Nodes(Run(w, ls)) && |seen.ours| < Quorum(w))
  {
    assert w.instances[i] in w.instances;
    TiedRun(w, ls, i, Seen({}, {}));
  }

  // ----- one call to every node

  function Checks(i: nat, k: nat): seq<Label> {
    seq(k, n requires 0 <= n < k => Check(i, n))
  }

  function Acquires(i: nat, k: nat): seq<Label> {
    seq(k, n requires 0 <= n < k => Acquire(i, n, true))
  }

  function Extends(i: nat, k: nat): seq<Label> {
    seq(k, n requires 0 <= n < k => Extend(i, n, true))
  }

  function Undos(i: nat, k: nat): seq<Label> {
    seq(k, n requires 0 <= n < k => Undo(i, n))
  }

  /** Each step leads from one world to the next. */
  ghost predicate Chained(ws: seq<World>, ls: seq<Label>) {
    && |ws| == |ls| + 1
    && forall k | 0 <= k < |ls| :: Allowed(ws[k], ls[k]) && Do(ws[k], ls[k]) == ws[k + 1]
  }

  lemma {:induction false} ChainIsRun(ws: seq<World>, ls: seq<Label>)
    requires Chained(ws, ls)
    ensures ValidTrace(ws[0], ls) && Run(ws[0], ls) == ws[|ls|]
    decreases |ls|
  {
    if ls == [] {
    } else {
      ChainIsRun(ws[1..], ls[1..]);
    }
  }

  predicate IsFree(w: World, n: nat) {
    n < |w.entries| && w.entries[n].None?
  }

  function FirstNodes(w: World, n: nat): set<nat> {
    set k: nat | k < n && IsNode(w, k)
  }

  function OursAmong(w: World, i: nat, n: nat): set<nat> {
    set k: nat | k < n && OwnedBy(w, k, i)
  }

  function FreeAmong(w: World, n: nat): set<nat> {
    set k: nat | k < n && IsFree(w, k)
  }

  /** The first `n` nodes have been asked: those that were free hold `i`'s entry. */
  function Taken(w: World, i: nat, n: nat): seq<Option<Entry>> {
    seq(|w.entries|, k requires 0 <= k < |w.entries| =>
      if k < n && w.entries[k].None? then Some(Entry(i, w.now)) else w.entries[k])
  }

  /** The first `n` nodes have been asked: those that held `i`'s entry hold it anew. */
  function Renewed(w: World, i: nat, n: nat): seq<Option<Entry>> {
    seq(|w.entries|, k requires 0 <= k < |w.entries| =>
      if k < n && OwnedBy(w, k, i) then Some(Entry(i, w.now)) else w.entries[k])
  }

  /** The first `n` nodes have been asked: none of them holds `i`'s entry. */
  function Cleared(w: World, i: nat, n: nat): seq<Option<Entry>> {
    seq(|w.entries|, k requires 0 <= k < |w.entries| =>
      if k < n && OwnedBy(w, k, i) then None else w.entries[k])
  }

  // ----- the checks

  function CheckedWorld(w: World, i: nat, n: nat): World
    requires i < |w.instances|
  {
    With(w, i, w.instances[i].(phase := Checking(FirstNodes(w, n), OursAmong(w, i, n))))
  }

  lemma CheckStep(w: World, i: nat, n: nat)
    requires i < |w.instances| && n < |w.entries|
    ensures Allowed(CheckedWorld(w, i, n), Check(i, n))
    ensures Do(CheckedWorld(w, i, n), Check(i, n)) == CheckedWorld(w, i, n + 1)
  {
    assert IsNode(w, n);
    assert FirstNodes(w, n + 1) == FirstNodes(w, n) + {n};
    assert OursAmong(w, i, n + 1) == OursAmong(w, i, n) + if OwnedBy(w, n, i) then {n} else {};
  }

  lemma ChecksRun(w: World, i: nat)
    requires i < |w.instances|
    ensures ValidTrace(CheckedWorld(w, i, 0), Checks(i, |w.entries|))
    ensures Run(CheckedWorld(w, i, 0), Checks(i, |w.entries|)) == CheckedWorld(w, i, |w.entries|)
  {
    var N := |w.entries|;
    var ws := seq(N + 1, k requires 0 <= k <= N => CheckedWorld(w, i, k));
    forall k | 0 <= k < N ensures Allowed(ws[k], Checks(i, N)[k]) && Do(ws[k], Checks(i, N)[k]) == ws[k + 1] {
      CheckStep(w, i, k);
    }
    ChainIsRun(ws, Checks(i, N));
  }

  lemma AllNodes(w: World)
    ensures FirstNodes(w, |w.entries|) == Nodes(w)
  {}

  // ----- the acquisitions

  function AcquiredWorld(w: World, i: nat, tries: nat, n: nat): World
    requires i < |w.instances|
  {
    With(w, i, w.instances[i].(phase := Acquiring(tries, w.now, FirstNodes(w, n), FreeAmong(w, n))))
    .(entries := Taken(w, i, n))
  }

  lemma AcquireStep(w: World, i: nat, tries: nat, n: nat)
    requires i < |w.instances| && n < |w.entries|
    ensures Allowed(AcquiredWorld(w, i, tries, n), Acquire(i, n, true))
    ensures Do(AcquiredWorld(w, i, tries, n), Acquire(i, n, true)) == AcquiredWorld(w, i, tries, n + 1)
  {
    assert IsNode(w, n);
    assert FirstNodes(w, n + 1) == FirstNodes(w, n) + {n};
    assert FreeAmong(w, n + 1) == FreeAmong(w, n) + if IsFree(w, n) then {n} else {};
    assert Taken(w, i, n)[n] == w.entries[n];
    assert Taken(w, i, n + 1) == if IsFree(w, n) then Taken(w, i, n)[n := Some(Entry(i, w.now))] else Taken(w, i, n);
  }

  lemma AcquiresRun(w: World, i: nat, tries: nat)
    requires i < |w.instances|
    ensures ValidTrace(AcquiredWorld(w, i, tries, 0), Acquires(i, |w.entries|))
    ensures Run(AcquiredWorld(w, i, tries, 0), Acquires(i, |w.entries|)) == AcquiredWorld(w, i, tries, |w.entries|)
  {
    var N := |w.entries|;
    var ws := seq(N + 1, k requires 0 <= k <= N => AcquiredWorld(w, i, tries, k));
    forall k | 0 <= k < N ensures Allowed(ws[k], Acquires(i, N)[k]) && Do(ws[k], Acquires(i, N)[k]) == ws[k + 1] {
      AcquireStep(w, i, tries, k);
    }
    ChainIsRun(ws, Acquires(i, N));
  }

  // ----- the extensions

  function ExtendedWorld(w: World, i: nat, n: nat): World
    requires i < |w.instances|
  {
    With(w, i, w.instances[i].(phase := Extending(w.now, FirstNodes(w, n), OursAmong(w, i, n))))
    .(entries := Renewed(w, i, n))
  }

  lemma ExtendStep(w: World, i: nat, n: nat)
    requires i < |w.instances| && n < |w.entries|
    ensures Allowed(ExtendedWorld(w, i, n), Extend(i, n, true))
    ensures Do(ExtendedWorld(w, i, n), Extend(i, n, true)) == ExtendedWorld(w, i, n + 1)
  {
    assert IsNode(w, n);
    assert FirstNodes(w, n + 1) == FirstNodes(w, n) + {n};
    assert OursAmong(w, i, n + 1) == OursAmong(w, i, n) + if OwnedBy(w, n, i) then {n} else {};
    assert Renewed(w, i, n)[n] == w.entries[n];
    assert Renewed(w, i, n + 1) ==
           if OwnedBy(w, n, i) then Renewed(w, i, n)[n := Some(Entry(i, w.now))] else Renewed(w, i, n);
  }

  lemma ExtendsRun(w: World, i: nat)
    requires i < |w.instances|
    ensures ValidTrace(ExtendedWorld(w, i, 0), Extends(i, |w.entries|))
    ensures Run(ExtendedWorld(w, i, 0), Extends(i, |w.entries|)) == ExtendedWorld(w, i, |w.entries|)
  {
    var N := |w.entries|;
    var ws := seq(N + 1, k requires 0 <= k <= N => ExtendedWorld(w, i, k));
    forall k | 0 <= k < N ensures Allowed(ws[k], Extends(i, N)[k]) && Do(ws[k], Extends(i, N)[k]) == ws[k + 1] {
      ExtendStep(w, i, k);
    }
    ChainIsRun(ws, Extends(i, N));
  }

  // ----- cleaning up after a failed attempt

  function UndoneWorld(w: World, i: nat, tries: nat, n: nat): World
    requires i < |w.instances|
  {
    With(w, i, w.instances[i].(phase := Undoing(tries, FirstNodes(w, n)))).(entries := Cleared(w, i, n))
  }

  lemma UndoStep(w: World, i: nat, tries: nat, n: nat)
    requires i < |w.instances| && n < |w.entries|
    ensures Allowed(UndoneWorld(w, i, tries, n), Undo(i, n))
    ensures Do(UndoneWorld(w, i, tries, n), Undo(i, n)) == UndoneWorld(w, i, tries, n + 1)
  {
    assert IsNode(w, n);
    assert FirstNodes(w, n + 1) == FirstNodes(w, n) + {n};
    assert Cleared(w, i, n)[n] == w.entries[n];
    assert Cleared(w, i, n + 1) == if OwnedBy(w, n, i) then Cleared(w, i, n)[n := None] else Cleared(w, i, n);
  }

  lemma UndosRun(w: World, i: nat, tries: nat)
    requires i < |w.instances|
    ensures ValidTrace(UndoneWorld(w, i, tries, 0), Undos(i, |w.entries|))
    ensures Run(UndoneWorld(w, i, tries, 0), Undos(i, |w.entries|)) == UndoneWorld(w, i, tries, |w.entries|)
  {
    var N := |w.entries|;
    var ws := seq(N + 1, k requires 0 <= k <= N => UndoneWorld(w, i, tries, k));
    forall k | 0 <= k < N ensures Allowed(ws[k], Undos(i, N)[k]) && Do(ws[k], Undos(i, N)[k]) == ws[k + 1] {
      UndoStep(w, i, tries, k);
    }
    ChainIsRun(ws, Undos(i, N));
  }

  // ----- whole ticks

  /** Between two ticks, with the process alive and every message handled. */
  ghost predicate Resting(w: World, i: nat) {
    && i < |w.instances|
    && var inst := w.instances[i];
       inst.phase.Waiting? && !inst.shutdown && inst.channel == [] && WellFormed(inst.consumer)
  }

  /** A tick that finds the lock held. */
  function CheckTick(w: World, i: nat): seq<Label> {
    [StartTick(i)] + (Checks(i, |w.entries|) + [CheckDone(i)])
  }

  /** Where it leads: the lock is extended, or acquired again. */
  function AfterChecks(w: World, i: nat): World
    requires i < |w.instances|
  {
    if |OursAmong(w, i, |w.entries|)| >= Quorum(w) then ExtendedWorld(w, i, 0) else AcquiredWorld(w, i, 0, 0)
  }

  lemma TickStarts(w: World, i: nat)
    requires i < |w.instances| && w.instances[i].phase.Waiting? && !w.instances[i].shutdown && w.instances[i].mutex
    ensures Allowed(w, StartTick(i)) && Do(w, StartTick(i)) == CheckedWorld(w, i, 0)
  {
    assert FirstNodes(w, 0) == {} && OursAmong(w, i, 0) == {};
  }

  lemma ChecksEnd(w: World, i: nat)
    requires i < |w.instances| && !w.instances[i].shutdown && w.instances[i].mutex
    ensures Allowed(CheckedWorld(w, i, |w.entries|), CheckDone(i))
    ensures Do(CheckedWorld(w, i, |w.entries|), CheckDone(i)) == AfterChecks(w, i)
  {
    assert FirstNodes(w, 0) == {} && OursAmong(w, i, 0) == {} && FreeAmong(w, 0) == {};
    AllNodes(w);
    assert Nodes(CheckedWorld(w, i, |w.entries|)) == Nodes(w);
    assert Renewed(w, i, 0) == w.entries && Taken(w, i, 0) == w.entries;
  }

  lemma CheckTickRun(w: World, i: nat)
    requires i < |w.instances| && w.instances[i].phase.Waiting? && !w.instances[i].shutdown && w.instances[i].mutex
    ensures ValidTrace(w, CheckTick(w, i)) && Run(w, CheckTick(w, i)) == AfterChecks(w, i)
  {
    TickStarts(w, i);
    ChecksRun(w, i);
    ChecksEnd(w, i);
    Surrounded(w, StartTick(i), CheckedWorld(w, i, 0), Checks(i, |w.entries|), CheckedWorld(w, i, |w.entries|),
               CheckDone(i), AfterChecks(w, i));
  }

  /** A run between two single steps. */
  lemma Surrounded(w: World, first: Label, w1: World, ls: seq<Label>, w2: World, last: Label, end: World)
    requires Allowed(w, first) && Do(w, first) == w1
    requires ValidTrace(w1, ls) && Run(w1, ls) == w2
    requires Allowed(w2, last) && Do(w2, last) == end
    ensures ValidTrace(w, [first] + (ls + [last])) && Run(w, [first] + (ls + [last])) == end
  {
    Followed(w1, ls, w2, last, end);
    OneStep(w, first, ls + [last]);
  }

  lemma Followed(w: World, ls: seq<Label>, w1: World, last: Label, end: World)
    requires ValidTrace(w, ls) && Run(w, ls) == w1
    requires Allowed(w1, last) && Do(w1, last) == end
    ensures ValidTrace(w, ls + [last]) && Run(w, ls + [last]) == end
  {
    assert ValidTrace(end, []) && [last] + [] == [last];
    OneStep(w1, last, []);
    ThenRun(w, ls, [last]);
  }

  /** The acquisition of a quorum and the start message it sends. */
  function Winning(w: World, i: nat): seq<Label> {
    Acquires(i, |w.entries|) + [AcquireDone(i)] + [Handle(i)]
  }

  function WonWorld(w: World, i: nat): World
    requires i < |w.instances|
  {
    var inst := w.instances[i];
    With(w, i, inst.(phase := Waiting, mutex := true, lease := Some(Lease(w.now, FreeAmong(w, |w.entries|))),
                     consumer := OnMessage(inst.consumer, true)))
    .(entries := Taken(w, i, |w.entries|))
  }

  lemma WinningRun(w: World, i: nat, tries: nat)
    requires i < |w.instances| && w.instances[i].channel == [] && |FreeAmong(w, |w.entries|)| >= Quorum(w)
    ensures ValidTrace(AcquiredWorld(w, i, tries, 0), Winning(w, i))
    ensures Run(AcquiredWorld(w, i, tries, 0), Winning(w, i)) == WonWorld(w, i)
  {
    var N := |w.entries|;
    var start, asked := AcquiredWorld(w, i, tries, 0), AcquiredWorld(w, i, tries, N);
    AcquiresRun(w, i, tries);
    var done := Do(asked, AcquireDone(i));
    assert done.instances[i].channel == [true] && [true][1..] == [];
    assert Do(done, Handle(i)) == WonWorld(w, i);
    Followed(start, Acquires(i, N), asked, AcquireDone(i), done);
    Followed(start, Acquires(i, N) + [AcquireDone(i)], done, Handle(i), WonWorld(w, i));
  }

  /** The instance's own steps from resting to leading. */
  function Regaining(w: World, i: nat): seq<Label>
    requires i < |w.instances|
  {
    (if w.instances[i].mutex then CheckTick(w, i) else [StartTick(i)]) + Winning(w, i)
  }

  /** A lost lock is acquired again.  Whether the instance kept a lock object or not: if fewer than a quorum of
      any number of nodes hold its entry and a quorum is free, its next tick acquires it and it leads, with a
      fresh entry at every node that was free. */
  lemma LostLockIsReacquired(w: World, i: nat)
    requires Resting(w, i) && |FreeAmong(w, |w.entries|)| >= Quorum(w)
    requires w.instances[i].mutex ==> |OursAmong(w, i, |w.entries|)| < Quorum(w)
    ensures ValidTrace(w, Regaining(w, i))
    ensures var w' := Run(w, Regaining(w, i));
            && Leads(w', i) && w'.now == w.now && w'.instances[i].mutex
            && w'.instances[i].lease == Some(Lease(w.now, FreeAmong(w, |w.entries|)))
            && forall n: nat :: IsFree(w, n) ==> Grants(w', n, i, w.now)
  {
    var first := if w.instances[i].mutex then CheckTick(w, i) else [StartTick(i)];
    var asking := AcquiredWorld(w, i, 0, 0);
    if w.instances[i].mutex {
      CheckTickRun(w, i);
    } else {
      assert FirstNodes(w, 0) == {} && FreeAmong(w, 0) == {} && Taken(w, i, 0) == w.entries;
      assert Do(w, StartTick(i)) == asking && ValidTrace(asking, []);
      OneStep(w, StartTick(i), []);
      assert [StartTick(i)] + [] == [StartTick(i)];
    }
    WinningRun(w, i, 0);
    ThenRun(w, first, Winning(w, i));
    MessageDecides(w.instances[i].consumer, true);
    forall n: nat | IsFree(w, n) ensures Grants(WonWorld(w, i), n, i, w.now) {
      assert Taken(w, i, |w.entries|)[n] == Some(Entry(i, w.now));
    }
  }

  /** In particular an instance whose entries have all gone leads again, whatever the number of nodes. */
  lemma ExpiredLockIsReacquired(w: World, i: nat)
    requires Resting(w, i) && w.entries != [] && forall e <- w.entries :: e.None?
    ensures ValidTrace(w, Regaining(w, i)) && Leads(Run(w, Regaining(w, i)), i)
  {
    var N := |w.entries|;
    assert forall n: nat :: n < N ==> w.entries[n] in w.entries;
    assert OursAmong(w, i, N) == {};
    assert FreeAmong(w, N) == Nodes(w) by {
      forall n: nat ensures n in FreeAmong(w, N) <==> n in Nodes(w) {
        if n < N { assert w.entries[n] in w.entries && IsNode(w, n) && IsFree(w, n); }
      }
    }
    NodeCount(w, N);
    LostLockIsReacquired(w, i);
  }

  /** The instance's own steps of a tick that renews the lock. */
  function Renewing(w: World, i: nat): seq<Label>
    requires i < |w.instances|
  {
    CheckTick(w, i) + (Extends(i, |w.entries|) + [ExtendDone(i)])
  }

  /** A held lock is renewed: if a quorum holds the instance's entry, its next tick sets those entries anew,
      starts a new lease and sends no message. */
  lemma HeldLockIsRenewed(w: World, i: nat)
    requires Resting(w, i) && w.instances[i].mutex && |OursAmong(w, i, |w.entries|)| >= Quorum(w)
    ensures ValidTrace(w, Renewing(w, i))
    ensures var w' := Run(w, Renewing(w, i));
            var lease := Lease(w.now, OursAmong(w, i, |w.entries|));
            && w'.now == w.now && w'.instances == w.instances[i := w.instances[i].(lease := Some(lease))]
            && forall n: nat :: OwnedBy(w, n, i) ==> Grants(w', n, i, w.now)
  {
    var N := |w.entries|;
    var start, asked := ExtendedWorld(w, i, 0), ExtendedWorld(w, i, N);
    CheckTickRun(w, i);
    ExtendsRun(w, i);
    var end := Do(asked, ExtendDone(i));
    Followed(start, Extends(i, N), asked, ExtendDone(i), end);
    ThenRun(w, CheckTick(w, i), Extends(i, N) + [ExtendDone(i)]);
    forall n: nat | OwnedBy(w, n, i) ensures Grants(end, n, i, w.now) {
      assert Renewed(w, i, N)[n] == Some(Entry(i, w.now));
    }
  }

  lemma AttemptFails(w: World, i: nat, tries: nat)
    requires i < |w.instances| && w.instances[i].phase.Acquiring? && w.instances[i].phase.tries == tries
    ensures Allowed(w, AcquireFails(i)) && Do(w, AcquireFails(i)) == UndoneWorld(w, i, tries, 0)
  {
    assert FirstNodes(w, 0) == {} && Cleared(w, i, 0) == w.entries;
  }

  /** The instance after it has cleaned up. */
  function GivenUp(w: World, i: nat, tries: nat): World
    requires i < |w.instances|
  {
    var inst := w.instances[i];
    With(w, i, if tries + 1 < 3 then inst.(phase := Acquiring(tries + 1, w.now, {}, {}))
               else inst.(phase := Waiting, channel := inst.channel + [false]))
    .(entries := Cleared(w, i, |w.entries|))
  }

  lemma UndoingEnds(w: World, i: nat, tries: nat)
    requires i < |w.instances|
    ensures var cleared := UndoneWorld(w, i, tries, |w.entries|);
            Allowed(cleared, UndoDone(i)) && Do(cleared, UndoDone(i)) == GivenUp(w, i, tries)
  {
    AllNodes(w);
    assert Nodes(UndoneWorld(w, i, tries, |w.entries|)) == Nodes(w);
  }

  /** An attempt that failed is undone: afterwards no node holds the instance's entry, and the entries of
      others are as they were; then it is tried again, three times in all, and then a stop is sent. */
  lemma FailedAttempt(w: World, i: nat, tries: nat)
    requires i < |w.instances| && w.instances[i].phase.Acquiring? && w.instances[i].phase.tries == tries
    ensures var ls := [AcquireFails(i)] + (Undos(i, |w.entries|) + [UndoDone(i)]);
            && ValidTrace(w, ls)
            && var w', inst := Run(w, ls), w.instances[i];
               && |w'.entries| == |w.entries| && |w'.instances| == |w.instances|
               && (forall n: nat :: n < |w.entries| ==>
                     !OwnedBy(w', n, i) && (!OwnedBy(w, n, i) ==> w'.entries[n] == w.entries[n]))
               && w'.instances[i] == if tries + 1 < 3 then inst.(phase := Acquiring(tries + 1, w.now, {}, {}))
                                     else inst.(phase := Waiting, channel := inst.channel + [false])
  {
    var N := |w.entries|;
    AttemptFails(w, i, tries);
    UndosRun(w, i, tries);
    UndoingEnds(w, i, tries);
    Surrounded(w, AcquireFails(i), UndoneWorld(w, i, tries, 0), Undos(i, N), UndoneWorld(w, i, tries, N),
               UndoDone(i), GivenUp(w, i, tries));
  }
}
