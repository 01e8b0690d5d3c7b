/** The consumer of leadership messages, which starts and stops the controllers, and the election
    loop that sends them. */
module Leadership {
  import opened Options

  // ----- the consumer (cmd/main.go)

  /** Contexts are numbered in order of creation.  A run is a started manager or provider, recorded
      by the context it was started with. */
  datatype Consumer = Consumer(managerCtx: nat, providerCtx: nat, created: nat, cancelled: set<nat>,
                               managerRuns: seq<nat>, providerRuns: seq<nat>, wasLeader: bool, done: bool)

  const FRESH := Consumer(0, 1, 2, {}, [], [], false, false)

  function OnMessage(c: Consumer, isLeader: bool): Consumer {
    if c.done then c
    else if isLeader then
      c.(managerRuns := c.managerRuns + [c.managerCtx],
         providerRuns := c.providerRuns + [c.providerCtx], wasLeader := true)
    else
      c.(cancelled := c.cancelled + {c.managerCtx, c.providerCtx},
         managerCtx := c.created, providerCtx := c.created + 1, created := c.created + 2, wasLeader := false)
  }

  /** The process context ends, and with it the current contexts; the older ones ended before. */
  function OnDone(c: Consumer): Consumer {
    c.(cancelled := c.cancelled + {c.managerCtx, c.providerCtx}, done := true)
  }

  predicate ManagerLive(c: Consumer) {
    exists x <- c.managerRuns :: x !in c.cancelled
  }

  predicate ProviderLive(c: Consumer) {
    exists x <- c.providerRuns :: x !in c.cancelled
  }

  function OnMessages(c: Consumer, ms: seq<bool>): Consumer
    decreases |ms|
  {
    if ms == [] then c else OnMessages(OnMessage(c, ms[0]), ms[1..])
  }

  ghost predicate WellFormed(c: Consumer) {
    && c.managerCtx < c.created && c.providerCtx < c.created
    && c.managerCtx !in c.cancelled && c.providerCtx !in c.cancelled
    && (forall x <- c.cancelled :: x < c.created)
    && (forall x <- c.managerRuns :: x in c.cancelled || x == c.managerCtx)
    && (forall x <- c.providerRuns :: x in c.cancelled || x == c.providerCtx)
    && !c.done
  }

  /** A false leaves nothing running; a true leaves both running. */
  lemma MessageDecides(c: Consumer, isLeader: bool)
    requires WellFormed(c)
    ensures WellFormed(OnMessage(c, isLeader))
    ensures ManagerLive(OnMessage(c, isLeader)) == ProviderLive(OnMessage(c, isLeader)) == isLeader
  {
    var c' := OnMessage(c, isLeader);
    if isLeader {
      assert c'.managerRuns[|c.managerRuns|] == c.managerCtx && c'.providerRuns[|c.providerRuns|] == c.providerCtx;
    }
  }

  /** Stop is effective: after any messages, repeated ones included, something runs exactly when the
      last message was true, and once the process context has ended nothing does. */
  lemma {:induction false} StopIsEffective(c: Consumer, ms: seq<bool>)
    requires WellFormed(c) && ms != []
    ensures WellFormed(OnMessages(c, ms))
    ensures ManagerLive(OnMessages(c, ms)) == ProviderLive(OnMessages(c, ms)) == ms[|ms| - 1]
    ensures !ManagerLive(OnDone(OnMessages(c, ms))) && !ProviderLive(OnDone(OnMessages(c, ms)))
    decreases |ms|
  {
    MessageDecides(c, ms[0]);
    if |ms| == 1 {
      assert OnMessages(c, ms) == OnMessage(c, ms[0]);
    } else {
      StopIsEffective(OnMessage(c, ms[0]), ms[1..]);
    }
  }

  class LeadershipConsumer {
    var managerCtx: nat
    var providerCtx: nat
    var created: nat
    var cancelled: set<nat>
    var managerRuns: seq<nat>
    var providerRuns: seq<nat>
    var wasLeader: bool
    var done: bool

    function State(): Consumer
      reads this
    {
      Consumer(managerCtx, providerCtx, created, cancelled, managerRuns, providerRuns, wasLeader, done)
    }

    constructor ()
      ensures State() == FRESH
    {
      managerCtx, providerCtx, created, cancelled := 0, 1, 2, {};
      managerRuns, providerRuns, wasLeader, done := [], [], false, false;
    }

    method HandleMessage(isLeader: bool)
      modifies this
      ensures State() == OnMessage(old(State()), isLeader)
    {
      if done {
        return;
      }
      if isLeader {
        managerRuns := managerRuns + [managerCtx];
        providerRuns := providerRuns + [providerCtx];
        wasLeader := true;
      } else {
        cancelled := cancelled + {managerCtx};
        cancelled := cancelled + {providerCtx};
        managerCtx := created;
        providerCtx := created + 1;
        created := created + 2;
        wasLeader := false;
      }
    }

    method HandleDone()
      modifies this
      ensures State() == OnDone(old(State()))
    {
      cancelled := cancelled + {managerCtx};
      cancelled := cancelled + {providerCtx};
      done := true;
    }

    /** The consumer goroutine over the messages it receives. */
    method Consume(ms: seq<bool>)
      modifies this
      ensures State() == OnMessages(old(State()), ms)
    {
      for i := 0 to |ms|
        invariant OnMessages(State(), ms[i..]) == OnMessages(old(State()), ms)
      {
        HandleMessage(ms[i]);
        assert ms[i..][1..] == ms[i + 1..];
      }
    }
  }

  // ----- the election loop (internal/redis/manager.go)

  datatype Validity = Owned | Lost | Unknown

  /** What the lock library answers during one tick: whether the lock is still ours, whether an
      extension succeeds and whether an acquisition succeeds. */
  datatype Probe = Probe(validity: Validity, extended: bool, locked: bool)

  predicate Reacquires(held: bool, p: Probe) {
    (!held || p.validity == Lost) && p.locked
  }

  /** The message a tick sends, if any: a successful extension sends none. */
  function Message(held: bool, p: Probe): Option<bool> {
    if held && p.validity == Unknown then Some(false)
    else if held && p.validity == Owned then (if p.extended then None else Some(false))
    else Some(p.locked)
  }

  function Messages(held: bool, ps: seq<Probe>): seq<bool>
    decreases |ps|
  {
    if ps == [] then []
    else
      (match Message(held, ps[0]) case None => [] case Some(m) => [m])
      + Messages(held || Reacquires(held, ps[0]), ps[1..])
  }

  class ElectionManager {
    var mutex: bool
    var leaderChan: seq<bool>

    constructor ()
      ensures !mutex && leaderChan == []
    {
      mutex, leaderChan := false, [];
    }

    method AcquireLeadership(locked: bool) returns (ok: bool)
      modifies this`mutex
      ensures ok == locked && mutex == (old(mutex) || locked)
    {
      if !locked {
        return false;
      }
      mutex := true;
      return true;
    }

    method ExtendLeadership(extended: bool) returns (ok: bool)
      ensures ok == (mutex && extended)
    {
      if !mutex {
        return false;
      }
      return extended;
    }

    method ReleaseLeadership(unlocked: bool) returns (ok: bool)
      modifies this`mutex
      ensures ok == (!old(mutex) || unlocked) && mutex == (old(mutex) && !unlocked)
    {
      if !mutex {
        return true;
      }
      if !unlocked {
        return false;
      }
      mutex := false;
      return true;
    }

    method IsLeader(validity: Validity) returns (leader: bool, failed: bool)
      ensures failed == (mutex && validity == Unknown) && leader == (mutex && validity == Owned)
    {
      if !mutex {
        return false, false;
      }
      return validity == Owned, validity == Unknown;
    }

    /** Closing the manager gives the lock back; a failure to do so is only logged. */
    method Close(unlocked: bool)
      modifies this`mutex
      ensures mutex == (old(mutex) && !unlocked)
    {
      var ok := ReleaseLeadership(unlocked);
    }

    method Tick(p: Probe)
      modifies this
      ensures mutex == (old(mutex) || Reacquires(old(mutex), p))
      ensures leaderChan == old(leaderChan) + match Message(old(mutex), p) case None => [] case Some(m) => [m]
    {
      var leader, failed := IsLeader(p.validity);
      if failed {
        leaderChan := leaderChan + [false];
        return;
      }
      if leader {
        var ok := ExtendLeadership(p.extended);
        if !ok {
          leaderChan := leaderChan + [false];
        }
      } else {
        var ok := AcquireLeadership(p.locked);
        leaderChan := leaderChan + [ok];
      }
    }

    /** The goroutine: one acquisition at once, which is a tick without a lock object, then one tick after
        the other, and a last false when the context ends. */
    method StartLeaderElection(locked: bool, ps: seq<Probe>)
      requires !mutex
      modifies this
      ensures leaderChan == old(leaderChan) + Messages(false, [FirstProbe(locked)] + ps) + [false]
    {
      FirstMessages(leaderChan, locked, ps);
      var ok := AcquireLeadership(locked);
      leaderChan := leaderChan + [ok];
      ghost var all := leaderChan + Messages(locked, ps);
      assert ps[0..] == ps;
      for i := 0 to |ps|
        invariant leaderChan + Messages(mutex, ps[i..]) == all
      {
        TickMessages(leaderChan, mutex, ps[i], ps[i..]);
        assert ps[i..][1..] == ps[i + 1..];
        Tick(ps[i]);
      }
      leaderChan := leaderChan + [false];
    }
  }

  /** What the acquisition before the first tick amounts to. */
  function FirstProbe(locked: bool): Probe {
    Probe(Lost, false, locked)
  }

  lemma FirstMessages(sent: seq<bool>, locked: bool, ps: seq<Probe>)
    ensures sent + Messages(false, [FirstProbe(locked)] + ps) == sent + [locked] + Messages(locked, ps)
  {
    assert ([FirstProbe(locked)] + ps)[1..] == ps;
  }

  lemma TickMessages(sent: seq<bool>, held: bool, p: Probe, ps: seq<Probe>)
    requires ps != [] && ps[0] == p
    ensures sent + Messages(held, ps) ==
            sent + (match Message(held, p) case None => [] case Some(m) => [m])
            + Messages(held || Reacquires(held, p), ps[1..])
  {}

  /** Whether a lock object is kept when tick `k` begins. */
  function HeldBefore(held: bool, ps: seq<Probe>, k: nat): bool
    requires k <= |ps|
    decreases k
  {
    if k == 0 then held else HeldBefore(held || Reacquires(held, ps[0]), ps[1..], k - 1)
  }

  /** Tick `k` finds the lock missing and gets it. */
  predicate Starts(held: bool, ps: seq<Probe>, k: nat)
    requires k < |ps|
  {
    Reacquires(HeldBefore(held, ps, k), ps[k])
  }

  lemma StartsShift(held: bool, ps: seq<Probe>, k: nat)
    requires 0 < k < |ps|
    ensures Starts(held, ps, k) == Starts(held || Reacquires(held, ps[0]), ps[1..], k - 1)
  {}

  /** A start is sent exactly by the ticks that find the lock missing and get it. */
  lemma {:induction false} StartsIffReacquired(held: bool, ps: seq<Probe>)
    ensures true in Messages(held, ps) <==> exists k: nat :: k < |ps| && Starts(held, ps, k)
    decreases |ps|
  {
    if ps == [] {
    } else {
      var held' := held || Reacquires(held, ps[0]);
      StartsIffReacquired(held', ps[1..]);
      assert Starts(held, ps, 0) <==> Message(held, ps[0]) == Some(true);
      if k: nat :| k < |ps| && Starts(held, ps, k) && k > 0 {
        StartsShift(held, ps, k);
      }
      if k: nat :| k < |ps[1..]| && Starts(held', ps[1..], k) {
        StartsShift(held, ps, k + 1);
      }
    }
  }

  /** The lock is found valid and is extended. */
  predicate Renews(p: Probe) {
    p.validity == Owned && p.extended
  }

  /** Tick `k` starts the manager and all later ones renew the lock. */
  ghost predicate LastStart(held: bool, ps: seq<Probe>, k: nat) {
    k < |ps| && Starts(held, ps, k) && forall j | k < j < |ps| :: Renews(ps[j])
  }

  lemma LastStartShift(held: bool, ps: seq<Probe>, k: nat)
    requires 0 < k
    ensures ps != [] ==> (LastStart(held, ps, k) <==> LastStart(held || Reacquires(held, ps[0]), ps[1..], k - 1))
  {
    if k < |ps| {
      StartsShift(held, ps, k);
      if LastStart(held || Reacquires(held, ps[0]), ps[1..], k - 1) {
        forall j | k < j < |ps| ensures Renews(ps[j]) {
          assert Renews(ps[1..][j - 1]);
        }
      }
    }
  }

  ghost predicate AllRenew(ps: seq<Probe>) {
    forall p <- ps :: Renews(p)
  }

  lemma LastStartHead(held: bool, ps: seq<Probe>)
    requires ps != []
    ensures LastStart(held, ps, 0) <==> Reacquires(held, ps[0]) && AllRenew(ps[1..])
  {
    if LastStart(held, ps, 0) {
      forall p <- ps[1..] ensures Renews(p) {
        var j: nat :| j < |ps[1..]| && ps[1..][j] == p;
        assert p == ps[j + 1];
      }
    } else if AllRenew(ps[1..]) {
      forall j | 0 < j < |ps| ensures Renews(ps[j]) {
        assert ps[j] in ps[1..] by { assert ps[1..][j - 1] == ps[j]; }
      }
    }
  }

  /** What runs after any ticks: what the last start left running, or what ran before if all went well. */
  lemma {:induction false} LiveAfterTicks(c: Consumer, held: bool, ps: seq<Probe>)
    requires WellFormed(c)
    ensures WellFormed(OnMessages(c, Messages(held, ps)))
    ensures ManagerLive(OnMessages(c, Messages(held, ps))) <==>
              || (ManagerLive(c) && (ps == [] || held) && AllRenew(ps))
              || exists k: nat :: LastStart(held, ps, k)
    decreases |ps|
  {
    if ps == [] {
    } else {
      var m, held' := Message(held, ps[0]), held || Reacquires(held, ps[0]);
      var c' := if m.Some? then OnMessage(c, m.value) else c;
      if m.Some? {
        MessageDecides(c, m.value);
        assert ([m.value] + Messages(held', ps[1..]))[1..] == Messages(held', ps[1..]);
      } else {
        assert [] + Messages(held', ps[1..]) == Messages(held', ps[1..]);
      }
      LiveAfterTicks(c', held', ps[1..]);
      LastStartHead(held, ps);
      ConsRenews(ps);
      LastStartTail(held, held', ps);
    }
  }

  lemma ConsRenews(ps: seq<Probe>)
    requires ps != []
    ensures AllRenew(ps) <==> Renews(ps[0]) && AllRenew(ps[1..])
  {
    assert ps == [ps[0]] + ps[1..];
  }

  lemma LastStartTail(held: bool, held': bool, ps: seq<Probe>)
    requires ps != [] && held' == (held || Reacquires(held, ps[0]))
    ensures (exists k: nat :: LastStart(held, ps, k)) <==>
            LastStart(held, ps, 0) || exists k: nat :: LastStart(held', ps[1..], k)
  {
    if k: nat :| LastStart(held, ps, k) && k > 0 {
      LastStartShift(held, ps, k);
    }
    if k: nat :| LastStart(held', ps[1..], k) {
      LastStartShift(held, ps, k + 1);
    }
  }

  /** Exactly when the manager runs: if some tick finds the lock missing and gets it, and every later tick
      finds it valid and extends it. */
  lemma RunsIffLastStart(c: Consumer, held: bool, ps: seq<Probe>)
    requires WellFormed(c) && !ManagerLive(c)
    ensures ManagerLive(OnMessages(c, Messages(held, ps))) <==> exists k: nat :: LastStart(held, ps, k)
  {
    LiveAfterTicks(c, held, ps);
  }

  /** One failed check or extension stops the manager for as long as the lock is not lost: the lock is
      extended again and again, and nothing runs. */
  lemma HeldLockIdleManager(c: Consumer, bad: Probe, ps: seq<Probe>)
    requires WellFormed(c)
    requires bad.validity == Unknown || (bad.validity == Owned && !bad.extended)
    requires forall p <- ps :: p.validity != Lost
    ensures !ManagerLive(OnMessages(c, Messages(true, [bad] + ps)))
  {
    var all := [bad] + ps;
    LiveAfterTicks(c, true, all);
    assert !Renews(bad) && bad in all;
    forall k: nat ensures !LastStart(true, all, k) {
      if k < |all| {
        StillHeld(all, k);
        assert all[k] == bad || all[k] in ps;
      }
    }
  }

  lemma {:induction false} StillHeld(ps: seq<Probe>, k: nat)
    requires k <= |ps|
    ensures HeldBefore(true, ps, k)
  {
    if k == 0 {
    } else {
      StillHeld(ps[1..], k - 1);
    }
  }

  const GETS := FirstProbe(true)

  const HICCUP := Probe(Unknown, true, true)

  const RENEWS := Probe(Owned, true, true)

  /** Seen in a run: the lock is acquired, one check fails, and however often the lock is renewed after
      that, the manager that was running stays stopped. */
  lemma HiccupIdlesManager(n: nat)
    ensures ManagerLive(OnMessages(FRESH, Messages(false, [GETS])))
    ensures !ManagerLive(OnMessages(FRESH, Messages(false, [GETS] + ([HICCUP] + seq(n, i => RENEWS)))))
  {
    var renewals := seq(n, i => RENEWS);
    var rest := [HICCUP] + renewals;
    assert WellFormed(FRESH);
    assert LastStart(false, [GETS], 0);
    RunsIffLastStart(FRESH, false, [GETS]);
    MessageDecides(FRESH, true);
    HeldLockIdleManager(OnMessage(FRESH, true), HICCUP, renewals);
    assert ([GETS] + rest)[1..] == rest;
    assert ([true] + Messages(true, rest))[1..] == Messages(true, rest);
  }
}
