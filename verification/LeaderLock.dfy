/** The distributed lock behind leader election: any number of instances, any number of Redis
    nodes, each node keeping the key until it expires or is deleted by its owner.  Time is in
    tenths of a second. */
module LeaderLock {
  import opened Options
  import opened Leadership

  const TTL: nat := 1800

  /** The TTL less 1 % drift: no node drops an entry earlier than this after it was set. */
  const VALIDITY: nat := TTL - TTL / 100

  const TRIES: nat := 3

  datatype Entry = Entry(owner: nat, setAt: nat)

  /** The last successful acquisition or extension: when it began, and the nodes that granted it. */
  datatype Lease = Lease(start: nat, votes: set<nat>)

  /** What the election loop of an instance is doing. */
  datatype Phase =
    | Waiting
    | Checking(read: set<nat>, ours: set<nat>)
    | Extending(start: nat, asked: set<nat>, got: set<nat>)
    | Acquiring(tries: nat, start: nat, asked: set<nat>, got: set<nat>)
    | Undoing(tries: nat, asked: set<nat>)
    | Stopped

  datatype Instance = Instance(phase: Phase, mutex: bool, lease: Option<Lease>, channel: seq<bool>,
                               consumer: Consumer, shutdown: bool)

  datatype World = World(now: nat, entries: seq<Option<Entry>>, instances: seq<Instance>)

  /** A grant may be lost on its way back; then it is not `heard`.  Requests to set or extend an entry may
      also reach a node late, at any time; requests to delete one reach it in time or never. */
  datatype Label =
    | Tick(dt: nat)
    | Expire(n: nat)
    | StartTick(i: nat)
    | Check(i: nat, n: nat)
    | CheckFails(i: nat)
    | CheckDone(i: nat)
    | Extend(i: nat, n: nat, heard: bool)
    | ExtendDone(i: nat)
    | ExtendFails(i: nat)
    | Acquire(i: nat, n: nat, heard: bool)
    | AcquireDone(i: nat)
    | AcquireFails(i: nat)
    | Undo(i: nat, n: nat)
    | UndoDone(i: nat)
    | Handle(i: nat)
    | Shutdown(i: nat)
    | Stop(i: nat)
    | Release(i: nat, n: nat)
    | LateAcquire(i: nat, n: nat)
    | LateExtend(i: nat, n: nat)

  function Quorum(w: World): nat {
    |w.entries| / 2 + 1
  }

  predicate OwnedBy(w: World, n: nat, i: nat) {
    n < |w.entries| && w.entries[n].Some? && w.entries[n].value.owner == i
  }

  predicate IsNode(w: World, n: nat) {
    n < |w.entries|
  }

  function Nodes(w: World): set<nat> {
    set n: nat | n < |w.entries| && IsNode(w, n)
  }

  predicate Allowed(w: World, l: Label) {
    match l
    case Tick(_) => true
    case Expire(n) => n < |w.entries| && w.entries[n].Some? && w.now >= w.entries[n].value.setAt + VALIDITY
    case StartTick(i) => i < |w.instances| && w.instances[i].phase.Waiting? && !w.instances[i].shutdown
    case Check(i, n) =>
      i < |w.instances| && n < |w.entries| && w.instances[i].phase.Checking? && n !in w.instances[i].phase.read
    case CheckFails(i) => i < |w.instances| && w.instances[i].phase.Checking?
    case CheckDone(i) =>
      i < |w.instances| && w.instances[i].phase.Checking? && w.instances[i].phase.read == Nodes(w)
    case Extend(i, n, _) =>
      i < |w.instances| && n < |w.entries| && w.instances[i].phase.Extending? && n !in w.instances[i].phase.asked
    case ExtendDone(i) =>
      i < |w.instances| && w.instances[i].phase.Extending? && |w.instances[i].phase.got| >= Quorum(w)
    case ExtendFails(i) => i < |w.instances| && w.instances[i].phase.Extending?
    case Acquire(i, n, _) =>
      i < |w.instances| && n < |w.entries| && w.instances[i].phase.Acquiring? && n !in w.instances[i].phase.asked
    case AcquireDone(i) =>
      i < |w.instances| && w.instances[i].phase.Acquiring? && |w.instances[i].phase.got| >= Quorum(w)
    case AcquireFails(i) => i < |w.instances| && w.instances[i].phase.Acquiring?
    case Undo(i, n) =>
      i < |w.instances| && n < |w.entries| && w.instances[i].phase.Undoing? && n !in w.instances[i].phase.asked
    case UndoDone(i) => i < |w.instances| && w.instances[i].phase.Undoing?
    case Handle(i) => i < |w.instances| && w.instances[i].channel != []
    case Shutdown(i) => i < |w.instances|
    case Stop(i) => i < |w.instances| && w.instances[i].phase.Waiting? && w.instances[i].shutdown
    case Release(i, n) => i < |w.instances| && n < |w.entries| && w.instances[i].shutdown && w.instances[i].mutex
    case LateAcquire(i, n) => i < |w.instances| && n < |w.entries|
    case LateExtend(i, n) => i < |w.instances| && n < |w.entries|
  }

  function With(w: World, i: nat, inst: Instance): World
    requires i < |w.instances|
  {
    w.(instances := w.instances[i := inst])
  }

  function Send(inst: Instance, m: bool): Instance {
    inst.(channel := inst.channel + [m], phase := Waiting)
  }

  function Do(w: World, l: Label): World
    requires Allowed(w, l)
  {
    match l
    case Tick(dt) => w.(now := w.now + dt)
    case Expire(n) => w.(entries := w.entries[n := None])
    case StartTick(i) =>
      var inst := w.instances[i];
      With(w, i, inst.(phase := if inst.mutex then Checking({}, {}) else Acquiring(0, w.now, {}, {})))
    case Check(i, n) =>
      var inst := w.instances[i];
      With(w, i, inst.(phase := Checking(inst.phase.read + {n},
                                         inst.phase.ours + if OwnedBy(w, n, i) then {n} else {})))
    case CheckFails(i) => With(w, i, Send(w.instances[i], false))
    case CheckDone(i) =>
      var inst := w.instances[i];
      With(w, i, inst.(phase := if |inst.phase.ours| >= Quorum(w) then Extending(w.now, {}, {})
                                else Acquiring(0, w.now, {}, {})))
    case Extend(i, n, heard) =>
      var inst := w.instances[i];
      var ours := OwnedBy(w, n, i);
      With(w, i, inst.(phase := Extending(inst.phase.start, inst.phase.asked + {n},
                                          inst.phase.got + if ours && heard then {n} else {})))
      .(entries := if ours then w.entries[n := Some(Entry(i, w.now))] else w.entries)
    case ExtendDone(i) =>
      var inst := w.instances[i];
      With(w, i, inst.(phase := Waiting, lease := Some(Lease(inst.phase.start, inst.phase.got))))
    case ExtendFails(i) => With(w, i, Send(w.instances[i], false))
    case Acquire(i, n, heard) =>
      var inst := w.instances[i];
      var free := w.entries[n].None?;
      With(w, i, inst.(phase := Acquiring(inst.phase.tries, inst.phase.start, inst.phase.asked + {n},
                                          inst.phase.got + if free && heard then {n} else {})))
      .(entries := if free then w.entries[n := Some(Entry(i, w.now))] else w.entries)
    case AcquireDone(i) =>
      var inst := w.instances[i];
      With(w, i, Send(inst, true).(mutex := true, lease := Some(Lease(inst.phase.start, inst.phase.got))))
    case AcquireFails(i) =>
      var inst := w.instances[i];
      With(w, i, inst.(phase := Undoing(inst.phase.tries, {})))
    case Undo(i, n) =>
      var inst := w.instances[i];
      With(w, i, inst.(phase := Undoing(inst.phase.tries, inst.phase.asked + {n})))
      .(entries := if OwnedBy(w, n, i) then w.entries[n := None] else w.entries)
    case UndoDone(i) =>
      var inst := w.instances[i];
      With(w, i, if inst.phase.tries + 1 < TRIES then inst.(phase := Acquiring(inst.phase.tries + 1, w.now, {}, {}))
                 else Send(inst, false))
    case Handle(i) =>
      var inst := w.instances[i];
      With(w, i, inst.(channel := inst.channel[1..], consumer := OnMessage(inst.consumer, inst.channel[0])))
    case Shutdown(i) =>
      var inst := w.instances[i];
      With(w, i, inst.(shutdown := true, consumer := OnDone(inst.consumer)))
    case Stop(i) => With(w, i, Send(w.instances[i], false).(phase := Stopped))
    case Release(i, n) => w.(entries := if OwnedBy(w, n, i) then w.entries[n := None] else w.entries)
    case LateAcquire(i, n) =>
      w.(entries := if w.entries[n].None? then w.entries[n := Some(Entry(i, w.now))] else w.entries)
    case LateExtend(i, n) =>
      w.(entries := if OwnedBy(w, n, i) then w.entries[n := Some(Entry(i, w.now))] else w.entries)
  }

  predicate Initial(w: World) {
    && (forall e <- w.entries :: e.None?)
    && (forall inst <- w.instances :: inst == Instance(Waiting, false, None, [], FRESH, false))
  }

  /** The instance runs its controllers, or a message to start them is on its way. */
  predicate Active(inst: Instance) {
    !inst.shutdown && (ManagerLive(inst.consumer) || true in inst.channel)
  }

  /** The timing assumption: an active instance is within the validity of its last success, counted
      from when that began.  So each success is followed in time by the next one or by a stop that
      has been handled. */
  ghost predicate Timely(w: World) {
    forall inst <- w.instances :: Active(inst) && inst.lease.Some? ==> w.now < inst.lease.value.start + VALIDITY
  }

  ghost predicate TimelyTrace(w: World, ls: seq<Label>)
    decreases |ls|
  {
    Timely(w) && (ls == [] || (Allowed(w, ls[0]) && TimelyTrace(Do(w, ls[0]), ls[1..])))
  }

  ghost function Exec(w: World, ls: seq<Label>): World
    requires TimelyTrace(w, ls)
    decreases |ls|
  {
    if ls == [] then w else Exec(Do(w, ls[0]), ls[1..])
  }

  // ----- the invariant

  /** Node `n` holds `i`'s entry, set at `since` or later. */
  predicate Grants(w: World, n: nat, i: nat, since: nat) {
    OwnedBy(w, n, i) && w.entries[n].value.setAt >= since
  }

  ghost predicate Running(w: World, i: nat, inst: Instance) {
    && inst.mutex && inst.lease.Some?
    && inst.lease.value.start <= w.now
    && |inst.lease.value.votes| >= Quorum(w) && inst.lease.value.votes <= Nodes(w)
    && (forall n <- inst.lease.value.votes :: Grants(w, n, i, inst.lease.value.start))
    && !inst.phase.Acquiring? && !inst.phase.Undoing?
    && (inst.phase.Checking? ==> inst.lease.value.votes * inst.phase.read <= inst.phase.ours)
  }

  ghost predicate Gathering(w: World, i: nat, start: nat, got: set<nat>) {
    && start <= w.now && got <= Nodes(w)
    && (w.now < start + VALIDITY ==> forall n <- got :: Grants(w, n, i, start))
  }

  ghost predicate Ok(w: World, i: nat, inst: Instance) {
    && (Active(inst) ==> Running(w, i, inst))
    && (inst.phase.Checking? ==> inst.phase.ours <= Nodes(w))
    && (inst.phase.Extending? && !inst.shutdown ==> Gathering(w, i, inst.phase.start, inst.phase.got))
    && (inst.phase.Acquiring? && !inst.shutdown ==> Gathering(w, i, inst.phase.start, inst.phase.got))
    && if inst.shutdown then inst.consumer.done && !ManagerLive(inst.consumer) else WellFormed(inst.consumer)
  }

  ghost predicate Inv(w: World) {
    && (forall e <- w.entries :: e.Some? ==> e.value.setAt <= w.now)
    && forall i: nat :: i < |w.instances| ==> Ok(w, i, w.instances[i])
  }

  /** A grant of `i` that is still valid survives. */
  ghost predicate Respects(w: World, w': World, i: nat) {
    && w'.now >= w.now && |w'.entries| == |w.entries|
    && forall n: nat, since: nat :: Grants(w, n, i, since) && w.now < since + VALIDITY ==> Grants(w', n, i, since)
  }

  lemma BystanderOk(w: World, w': World, i: nat, inst: Instance)
    requires Ok(w, i, inst) && Respects(w, w', i)
    requires Active(inst) ==> inst.lease.Some? && w.now < inst.lease.value.start + VALIDITY
    ensures Ok(w', i, inst)
  {
    assert Nodes(w') == Nodes(w);
  }

  /** Only `i` itself, giving up, takes a valid grant of `i` away. */
  lemma EntriesRespect(w: World, l: Label, i: nat)
    requires Inv(w) && Allowed(w, l)
    requires !(l.Undo? && l.i == i) && !(l.Release? && l.i == i)
    ensures Respects(w, Do(w, l), i)
  {
    forall n: nat, since: nat | Grants(w, n, i, since) && w.now < since + VALIDITY
      ensures Grants(Do(w, l), n, i, since)
    {
      assert w.entries[n] in w.entries;
    }
  }

  lemma EntriesAge(w: World, l: Label)
    requires Inv(w) && Allowed(w, l)
    ensures forall e <- Do(w, l).entries :: e.Some? ==> e.value.setAt <= Do(w, l).now
  {
    forall e <- Do(w, l).entries ensures e.Some? ==> e.value.setAt <= Do(w, l).now {
      assert e in w.entries || e == None || e.value.setAt == w.now;
    }
  }

  /** The instance a label is about. */
  function Actor(l: Label): Option<nat> {
    match l
    case Tick(_) => None
    case Expire(_) => None
    case Release(_, _) => None
    case LateAcquire(_, _) => None
    case LateExtend(_, _) => None
    case StartTick(i) => Some(i)
    case Check(i, _) => Some(i)
    case CheckFails(i) => Some(i)
    case CheckDone(i) => Some(i)
    case Extend(i, _, _) => Some(i)
    case ExtendDone(i) => Some(i)
    case ExtendFails(i) => Some(i)
    case Acquire(i, _, _) => Some(i)
    case AcquireDone(i) => Some(i)
    case AcquireFails(i) => Some(i)
    case Undo(i, _) => Some(i)
    case UndoDone(i) => Some(i)
    case Handle(i) => Some(i)
    case Shutdown(i) => Some(i)
    case Stop(i) => Some(i)
  }

  lemma CheckingOk(w: World, l: Label, i: nat)
    requires Inv(w) && Allowed(w, l) && Timely(w) && Actor(l) == Some(i)
    requires l.Check? || l.CheckDone?
    ensures Ok(Do(w, l), i, Do(w, l).instances[i])
  {
    var w', inst := Do(w, l), w.instances[i];
    assert Ok(w, i, inst);
    assert Nodes(w') == Nodes(w);
    if l.Check? {
      assert IsNode(w, l.n);
    } else if Active(inst) {
      var votes := inst.lease.value.votes;
      assert votes * inst.phase.read == votes;
      SubsetSize(votes, inst.phase.ours);
    }
  }

  lemma ElectingOk(w: World, l: Label, i: nat)
    requires Inv(w) && Allowed(w, l) && Timely(w) && Actor(l) == Some(i)
    requires l.StartTick? || l.CheckFails? || l.ExtendFails? || l.AcquireFails? || l.UndoDone?
    ensures Ok(Do(w, l), i, Do(w, l).instances[i])
  {
    assert Ok(w, i, w.instances[i]);
    assert Nodes(Do(w, l)) == Nodes(w);
  }

  lemma SubsetSize(a: set<nat>, b: set<nat>)
    requires a <= b
    ensures |a| <= |b|
  {
    assert b == a + (b - a);
  }

  /** One more node was asked, and perhaps granted. */
  lemma AskedOk(w: World, w': World, i: nat, inst: Instance, phase: Phase, n: nat)
    requires Ok(w, i, inst) && Respects(w, w', i) && w'.now == w.now && IsNode(w, n)
    requires Active(inst) ==> inst.lease.Some? && w.now < inst.lease.value.start + VALIDITY
    requires (inst.phase.Extending? && phase.Extending?) || (inst.phase.Acquiring? && phase.Acquiring?)
    requires phase.start == inst.phase.start
    requires phase.got == inst.phase.got || (phase.got == inst.phase.got + {n} && Grants(w', n, i, w.now))
    ensures Ok(w', i, inst.(phase := phase))
  {
    assert Nodes(w') == Nodes(w);
  }

  lemma ExtendOk(w: World, l: Label, i: nat)
    requires Inv(w) && Allowed(w, l) && Timely(w) && l.Extend? && l.i == i
    ensures Ok(Do(w, l), i, Do(w, l).instances[i])
  {
    var w', inst := Do(w, l), w.instances[i];
    assert inst in w.instances && Ok(w, i, inst);
    EntriesRespect(w, l, i);
    assert w'.instances[i] == inst.(phase := w'.instances[i].phase);
    AskedOk(w, w', i, inst, w'.instances[i].phase, l.n);
  }

  lemma AcquireOk(w: World, l: Label, i: nat)
    requires Inv(w) && Allowed(w, l) && Timely(w) && l.Acquire? && l.i == i
    ensures Ok(Do(w, l), i, Do(w, l).instances[i])
  {
    var w', inst := Do(w, l), w.instances[i];
    assert inst in w.instances && Ok(w, i, inst);
    EntriesRespect(w, l, i);
    assert w'.instances[i] == inst.(phase := w'.instances[i].phase);
    AskedOk(w, w', i, inst, w'.instances[i].phase, l.n);
  }

  lemma UndoingOk(w: World, l: Label, i: nat)
    requires Inv(w) && Allowed(w, l) && l.Undo? && l.i == i
    ensures Ok(Do(w, l), i, Do(w, l).instances[i])
  {
    assert Ok(w, i, w.instances[i]);
    assert Nodes(Do(w, l)) == Nodes(w);
  }

  lemma SucceedingOk(w: World, l: Label, i: nat)
    requires Inv(w) && Allowed(w, l) && Timely(Do(w, l)) && Actor(l) == Some(i)
    requires l.ExtendDone? || l.AcquireDone?
    ensures Ok(Do(w, l), i, Do(w, l).instances[i])
  {
    var w', inst := Do(w, l), w.instances[i];
    assert Ok(w, i, inst);
    assert w'.instances[i] in w'.instances;
    assert Nodes(w') == Nodes(w);
  }

  lemma ConsumingOk(w: World, l: Label, i: nat)
    requires Inv(w) && Allowed(w, l) && Timely(w) && Actor(l) == Some(i)
    requires l.Handle? || l.Shutdown? || l.Stop?
    ensures Ok(Do(w, l), i, Do(w, l).instances[i])
  {
    var w', inst := Do(w, l), w.instances[i];
    assert Ok(w, i, inst);
    assert Nodes(w') == Nodes(w);
    if l.Handle? {
      assert inst.channel[0] in inst.channel;
      if !inst.shutdown { MessageDecides(inst.consumer, inst.channel[0]); }
    }
  }

  lemma StepKeepsInv(w: World, l: Label)
    requires Inv(w) && Allowed(w, l) && Timely(w) && Timely(Do(w, l))
    ensures Inv(Do(w, l))
  {
    var w' := Do(w, l);
    EntriesAge(w, l);
    forall i: nat | i < |w'.instances| ensures Ok(w', i, w'.instances[i]) {
      if Actor(l) == Some(i) {
        if l.Extend? { ExtendOk(w, l, i); }
        else if l.Acquire? { AcquireOk(w, l, i); }
        else if l.Undo? { UndoingOk(w, l, i); }
        else if l.Check? || l.CheckDone? { CheckingOk(w, l, i); }
        else if l.ExtendDone? || l.AcquireDone? { SucceedingOk(w, l, i); }
        else if l.Handle? || l.Shutdown? || l.Stop? { ConsumingOk(w, l, i); }
        else { ElectingOk(w, l, i); }
      } else {
        OtherOk(w, l, i);
      }
    }
  }

  lemma OtherOk(w: World, l: Label, i: nat)
    requires Inv(w) && Allowed(w, l) && Timely(w) && i < |w.instances| && Actor(l) != Some(i)
    ensures i < |Do(w, l).instances| && Ok(Do(w, l), i, Do(w, l).instances[i])
  {
    var inst := w.instances[i];
    assert inst in w.instances && Ok(w, i, inst);
    if l.Release? && l.i == i {
      assert Nodes(Do(w, l)) == Nodes(w);
    } else {
      EntriesRespect(w, l, i);
      BystanderOk(w, Do(w, l), i, inst);
    }
  }

  lemma {:induction false} TraceKeepsInv(w: World, ls: seq<Label>)
    requires Inv(w) && TimelyTrace(w, ls)
    ensures Inv(Exec(w, ls)) && Timely(Exec(w, ls)) && |Exec(w, ls).entries| == |w.entries|
    decreases |ls|
  {
    if ls == [] {
    } else {
      StepKeepsInv(w, ls[0]);
      TraceKeepsInv(Do(w, ls[0]), ls[1..]);
    }
  }

  lemma MajoritiesMeet(w: World, a: set<nat>, b: set<nat>)
    requires a <= Nodes(w) && b <= Nodes(w) && |a| >= Quorum(w) && |b| >= Quorum(w)
    ensures exists n :: n in a && n in b
  {
    NodeCount(w, |w.entries|);
    SubsetSize(a + b, Nodes(w));
    assert |a + b| + |a * b| == |a| + |b|;
    assert a * b != {};
    var n :| n in a * b;
    assert n in a && n in b;
  }

  lemma {:induction false} NodeCount(w: World, k: nat)
    requires k == |w.entries|
    ensures |Nodes(w)| == k
    decreases k
  {
    if k == 0 {
      assert Nodes(w) == {};
    } else {
      var v := w.(entries := w.entries[..k - 1]);
      NodeCount(v, k - 1);
      assert forall n <- Nodes(w) :: n == k - 1 || IsNode(v, n);
      assert forall n <- Nodes(v) :: IsNode(w, n);
      assert IsNode(w, k - 1);
      assert Nodes(w) == Nodes(v) + {k - 1};
    }
  }

  lemma InitialOk(w: World)
    requires Initial(w)
    ensures Inv(w)
  {
    forall i: nat | i < |w.instances| ensures Ok(w, i, w.instances[i]) {
      assert w.instances[i] in w.instances;
    }
  }

  /** Single running leader.  However many instances and nodes there are, whatever grants get lost,
      entries expire and instances stop: as long as the timing assumption holds, no two instances
      ever run their controllers at the same instant. */
  lemma SingleRunningLeader(w: World, ls: seq<Label>, i: nat, j: nat)
    requires Initial(w) && TimelyTrace(w, ls)
    requires i < |Exec(w, ls).instances| && j < |Exec(w, ls).instances|
    requires ManagerLive(Exec(w, ls).instances[i].consumer) && ManagerLive(Exec(w, ls).instances[j].consumer)
    ensures i == j
  {
    InitialOk(w);
    TraceKeepsInv(w, ls);
    var w' := Exec(w, ls);
    assert Ok(w', i, w'.instances[i]) && Ok(w', j, w'.instances[j]);
    var a, b := w'.instances[i].lease.value, w'.instances[j].lease.value;
    MajoritiesMeet(w', a.votes, b.votes);
    var n :| n in a.votes && n in b.votes;
    assert Grants(w', n, i, a.start) && Grants(w', n, j, b.start);
  }

  // ----- the timing assumption cannot be dropped

  ghost predicate ValidTrace(w: World, ls: seq<Label>)
    decreases |ls|
  {
    ls == [] || (Allowed(w, ls[0]) && ValidTrace(Do(w, ls[0]), ls[1..]))
  }

  ghost function Run(w: World, ls: seq<Label>): World
    requires ValidTrace(w, ls)
    decreases |ls|
  {
    if ls == [] then w else Run(Do(w, ls[0]), ls[1..])
  }

  const BOOT := Instance(Waiting, false, None, [], FRESH, false)

  lemma OneStep(w: World, l: Label, ls: seq<Label>)
    requires Allowed(w, l) && ValidTrace(Do(w, l), ls)
    ensures ValidTrace(w, [l] + ls) && Run(w, [l] + ls) == Run(Do(w, l), ls)
  {
    assert ([l] + ls)[1..] == ls;
  }

  /** Instance `i` asks for the only node's entry. */
  function Trying(w: World, i: nat, tries: nat): World
    requires i < |w.instances|
  {
    With(w, i, BOOT.(phase := Acquiring(tries, w.now, {}, {})))
  }

  function Granted(w: World, i: nat, tries: nat): World
    requires i < |w.instances|
  {
    With(w, i, BOOT.(phase := Acquiring(tries, w.now, {0}, {0}))).(entries := [Some(Entry(i, w.now))])
  }

  function Elected(w: World, i: nat): World
    requires i < |w.instances|
  {
    With(w, i, Instance(Waiting, true, Some(Lease(w.now, {0})), [true], FRESH, false))
    .(entries := [Some(Entry(i, w.now))])
  }

  function Leading(w: World, i: nat): World
    requires i < |w.instances|
  {
    With(w, i, Instance(Waiting, true, Some(Lease(w.now, {0})), [], OnMessage(FRESH, true), false))
    .(entries := [Some(Entry(i, w.now))])
  }

  lemma GrantStep(w: World, i: nat, tries: nat)
    requires i < |w.instances| && w.entries == [None]
    ensures Allowed(Trying(w, i, tries), Acquire(i, 0, true))
    ensures Do(Trying(w, i, tries), Acquire(i, 0, true)) == Granted(w, i, tries)
  {
    assert {} + {0} == {0};
    assert w.entries[0 := Some(Entry(i, w.now))] == [Some(Entry(i, w.now))];
  }

  lemma ElectStep(w: World, i: nat, tries: nat)
    requires i < |w.instances| && w.entries == [None]
    ensures Allowed(Granted(w, i, tries), AcquireDone(i))
    ensures Do(Granted(w, i, tries), AcquireDone(i)) == Elected(w, i)
  {
    assert BOOT.channel + [true] == [true];
  }

  lemma LeadStep(w: World, i: nat)
    requires i < |w.instances| && w.entries == [None]
    ensures Allowed(Elected(w, i), Handle(i))
    ensures Do(Elected(w, i), Handle(i)) == Leading(w, i)
  {
    assert [true][1..] == [];
  }

  function Wins(i: nat): seq<Label> {
    [Acquire(i, 0, true)] + ([AcquireDone(i)] + [Handle(i)])
  }

  /** An instance that asks for the only node's free entry ends up leading. */
  lemma TryingLeads(w: World, i: nat, tries: nat)
    requires i < |w.instances| && w.entries == [None]
    ensures ValidTrace(Trying(w, i, tries), Wins(i)) && Run(Trying(w, i, tries), Wins(i)) == Leading(w, i)
  {
    GrantStep(w, i, tries);
    ElectStep(w, i, tries);
    LeadStep(w, i);
    assert ValidTrace(Leading(w, i), []);
    OneStep(Elected(w, i), Handle(i), []);
    assert [Handle(i)] + [] == [Handle(i)];
    OneStep(Granted(w, i, tries), AcquireDone(i), [Handle(i)]);
    OneStep(Trying(w, i, tries), Acquire(i, 0, true), [AcquireDone(i)] + [Handle(i)]);
  }

  /** An instance that has just been started acquires the only node and starts its controllers. */
  lemma Takeover(w: World, i: nat)
    requires i < |w.instances| && w.entries == [None] && w.instances[i] == BOOT
    ensures ValidTrace(w, [StartTick(i)] + Wins(i)) && Run(w, [StartTick(i)] + Wins(i)) == Leading(w, i)
  {
    TryingLeads(w, i, 0);
    OneStep(w, StartTick(i), Wins(i));
  }

  ghost predicate Reaches(w: World, w': World) {
    exists ls :: ValidTrace(w, ls) && Run(w, ls) == w'
  }

  predicate Leads(w: World, i: nat) {
    i < |w.instances| && ManagerLive(w.instances[i].consumer)
  }

  lemma LeadingLeads(w: World, i: nat)
    requires i < |w.instances|
    ensures Leads(Leading(w, i), i)
    ensures forall j | 0 <= j < |w.instances| && j != i && Leads(w, j) :: Leads(Leading(w, i), j)
  {
    MessageDecides(FRESH, true);
  }

  /** An instance that is late by a single instant shares the lead with the next one. */
  lemma LateInstanceSharesTheLead()
    ensures exists w, w' :: Initial(w) && Reaches(w, w') && w'.now == VALIDITY && Leads(w', 0) && Leads(w', 1)
  {
    var w := World(0, [None], [BOOT, BOOT]);
    Takeover(w, 0);
    LeadingLeads(w, 0);
    var w1 := Leading(w, 0);
    var late := w1.(now := VALIDITY);
    var free := late.(entries := [None]);
    assert Do(w1, Tick(VALIDITY)) == late && Do(late, Expire(0)) == free;
    Takeover(free, 1);
    LeadingLeads(free, 1);
    var second := [StartTick(1)] + Wins(1);
    OneStep(late, Expire(0), second);
    OneStep(w1, Tick(VALIDITY), [Expire(0)] + second);
    ThenRun(w, [StartTick(0)] + Wins(0), [Tick(VALIDITY)] + ([Expire(0)] + second));
    assert Reaches(w, Leading(free, 1));
  }

  lemma {:induction false} ThenRun(w: World, first: seq<Label>, second: seq<Label>)
    requires ValidTrace(w, first) && ValidTrace(Run(w, first), second)
    ensures ValidTrace(w, first + second) && Run(w, first + second) == Run(Run(w, first), second)
    decreases |first|
  {
    if first == [] {
      assert first + second == second;
    } else {
      ThenRun(Do(w, first[0]), first[1..], second);
      OneStep(w, first[0], first[1..] + second);
      assert first + second == [first[0]] + (first[1..] + second);
    }
  }

  // ----- nor can the assumption on deletions

  /** A deletion sent by instance `i` when it gave up an attempt reaches node `n` only now. */
  function LateDelete(w: World, i: nat, n: nat): World {
    if OwnedBy(w, n, i) then w.(entries := w.entries[n := None]) else w
  }

  /** The first attempt fails, its clean-up is under way, and the second one is made. */
  lemma SecondTry(w: World)
    requires w.entries == [None] && 0 < |w.instances| && w.instances[0] == BOOT
    ensures var ls := [StartTick(0)] + ([AcquireFails(0)] + ([UndoDone(0)] + []));
            ValidTrace(w, ls) && Run(w, ls) == Trying(w, 0, 1)
  {
    var w1 := Trying(w, 0, 0);
    var w2 := With(w, 0, BOOT.(phase := Undoing(0, {})));
    var w3 := Trying(w, 0, 1);
    assert Do(w, StartTick(0)) == w1 && Do(w1, AcquireFails(0)) == w2 && Do(w2, UndoDone(0)) == w3;
    assert ValidTrace(w3, []);
    OneStep(w2, UndoDone(0), []);
    OneStep(w1, AcquireFails(0), [UndoDone(0)] + []);
    OneStep(w, StartTick(0), [AcquireFails(0)] + ([UndoDone(0)] + []));
  }

  lemma SecondTryLeads(w: World)
    requires w.entries == [None] && 0 < |w.instances| && w.instances[0] == BOOT
    ensures Reaches(w, Leading(w, 0))
  {
    SecondTry(w);
    TryingLeads(w, 0, 1);
    ThenRun(w, [StartTick(0)] + ([AcquireFails(0)] + ([UndoDone(0)] + [])), Wins(0));
  }

  /** A deletion that arrives late takes the entry of the leader's second attempt, which has the same
      value, and at once another instance leads too, long before anything has expired. */
  lemma LateDeleteSharesTheLead()
    ensures exists w, w1, w2 ::
              && Initial(w) && Reaches(w, w1) && Reaches(LateDelete(w1, 0, 0), w2)
              && w2.now == 0 && Leads(w2, 0) && Leads(w2, 1)
  {
    var w := World(0, [None], [BOOT, BOOT]);
    SecondTryLeads(w);
    LeadingLeads(w, 0);
    var free := LateDelete(Leading(w, 0), 0, 0);
    assert free == Leading(w, 0).(entries := [None]);
    Takeover(free, 1);
    LeadingLeads(free, 1);
    assert Reaches(free, Leading(free, 1));
  }

  // ----- the loop of an instance is the election loop

  /** The message an instance sends in a step, if any. */
  function Emitted(w: World, l: Label, i: nat): seq<bool>
    requires Allowed(w, l)
  {
    if Actor(l) != Some(i) then []
    else match l
         case CheckFails(_) => [false]
         case ExtendFails(_) => [false]
         case AcquireDone(_) => [true]
         case UndoDone(_) => if w.instances[i].phase.tries + 1 < TRIES then [] else [false]
         case Stop(_) => [false]
         case _ => []
  }

  /** What a tick that ends with this step has found. */
  function Probed(w: World, l: Label, i: nat): seq<Probe>
    requires Allowed(w, l)
  {
    if Actor(l) != Some(i) then []
    else match l
         case CheckFails(_) => [Probe(Unknown, false, false)]
         case ExtendDone(_) => [Probe(Owned, true, false)]
         case ExtendFails(_) => [Probe(Owned, false, false)]
         case AcquireDone(_) => [Probe(Lost, false, true)]
         case UndoDone(_) => if w.instances[i].phase.tries + 1 < TRIES then [] else [Probe(Lost, false, false)]
         case _ => []
  }

  ghost function Sent(w: World, ls: seq<Label>, i: nat): seq<bool>
    requires ValidTrace(w, ls)
    decreases |ls|
  {
    if ls == [] then [] else Emitted(w, ls[0], i) + Sent(Do(w, ls[0]), ls[1..], i)
  }

  ghost function Probes(w: World, ls: seq<Label>, i: nat): seq<Probe>
    requires ValidTrace(w, ls)
    decreases |ls|
  {
    if ls == [] then [] else Probed(w, ls[0], i) + Probes(Do(w, ls[0]), ls[1..], i)
  }

  predicate Coherent(inst: Instance) {
    inst.phase.Checking? || inst.phase.Extending? ==> inst.mutex
  }

  lemma LoopPhases(w: World, l: Label, i: nat)
    requires Allowed(w, l) && i < |w.instances| && Coherent(w.instances[i])
    ensures i < |Do(w, l).instances| && Coherent(Do(w, l).instances[i])
    ensures w.instances[i].phase.Stopped? || l == Stop(i) ==> Do(w, l).instances[i].phase.Stopped?
  {}

  lemma StopIsLast(w: World, l: Label, i: nat)
    requires Allowed(w, l) && i < |w.instances|
    ensures w.instances[i].phase.Stopped? ==> Emitted(w, l, i) == [] && Probed(w, l, i) == []
    ensures l == Stop(i) ==> Emitted(w, l, i) == [false] && Probed(w, l, i) == []
  {}

  lemma WithinTick(w: World, l: Label, i: nat)
    requires Allowed(w, l) && i < |w.instances| && l != Stop(i) && Probed(w, l, i) == []
    ensures Emitted(w, l, i) == [] && Do(w, l).instances[i].mutex == w.instances[i].mutex
  {}

  lemma LoopMessage(w: World, l: Label, i: nat)
    requires Allowed(w, l) && i < |w.instances| && Coherent(w.instances[i])
    requires Probed(w, l, i) != []
    ensures var held, p := w.instances[i].mutex, Probed(w, l, i)[0];
            && Probed(w, l, i) == [p]
            && Emitted(w, l, i) == (match Message(held, p) case None => [] case Some(m) => [m])
            && Do(w, l).instances[i].mutex == (held || Reacquires(held, p))
  {}

  lemma {:induction false} StoppedIsSilent(w: World, ls: seq<Label>, i: nat)
    requires ValidTrace(w, ls) && i < |w.instances| && w.instances[i].phase.Stopped?
    ensures Sent(w, ls, i) == [] && Probes(w, ls, i) == []
    decreases |ls|
  {
    if ls == [] {
    } else {
      LoopPhases(w, ls[0], i);
      StopIsLast(w, ls[0], i);
      StoppedIsSilent(Do(w, ls[0]), ls[1..], i);
    }
  }

  /** The messages on `ps` and then on `rest`. */
  lemma MessagesStep(held: bool, held': bool, ps: seq<Probe>, emitted: seq<bool>, rest: seq<Probe>, last: seq<bool>)
    requires if ps == [] then emitted == [] && held' == held
             else && ps == [ps[0]] && held' == (held || Reacquires(held, ps[0]))
                  && emitted == match Message(held, ps[0]) case None => [] case Some(m) => [m]
    ensures emitted + (Messages(held', rest) + last) == Messages(held, ps + rest) + last
  {
    if ps == [] {
      assert ps + rest == rest;
    } else {
      assert (ps + rest)[1..] == rest;
    }
  }

  /** Over any trace, timely or not, an instance sends what the election loop sends on what its ticks
      found, and a last false if it was stopped. */
  lemma {:induction false} SendsWhatTheLoopSends(w: World, ls: seq<Label>, i: nat)
    requires ValidTrace(w, ls) && i < |w.instances| && Coherent(w.instances[i])
    ensures Sent(w, ls, i) == Messages(w.instances[i].mutex, Probes(w, ls, i)) + if Stop(i) in ls then [false] else []
    decreases |ls|
  {
    if ls == [] {
    } else {
      var w', ps := Do(w, ls[0]), Probed(w, ls[0], i);
      LoopPhases(w, ls[0], i);
      if ls[0] == Stop(i) {
        StopIsLast(w, ls[0], i);
        StoppedIsSilent(w', ls[1..], i);
      } else {
        if ps == [] { WithinTick(w, ls[0], i); } else { LoopMessage(w, ls[0], i); }
        SendsWhatTheLoopSends(w', ls[1..], i);
        MessagesStep(w.instances[i].mutex, w'.instances[i].mutex, ps, Emitted(w, ls[0], i), Probes(w', ls[1..], i),
                     if Stop(i) in ls[1..] then [false] else []);
        assert Stop(i) in ls <==> Stop(i) in ls[1..];
      }
    }
  }

  function Received(w: World, l: Label, i: nat): seq<bool>
    requires Allowed(w, l)
  {
    if l == Handle(i) then [w.instances[i].channel[0]] else []
  }

  lemma HandleStep(w: World, l: Label, i: nat)
    requires Allowed(w, l) && l == Handle(i)
    ensures var inst, inst' := w.instances[i], Do(w, l).instances[i];
            && inst.channel + [] == [inst.channel[0]] + inst'.channel
            && inst'.consumer == OnMessages(inst.consumer, [inst.channel[0]]) && inst'.shutdown == inst.shutdown
  {
    var inst := w.instances[i];
    assert inst.channel == [inst.channel[0]] + inst.channel[1..];
    assert OnMessages(inst.consumer, [inst.channel[0]]) == OnMessage(inst.consumer, inst.channel[0]);
  }

  lemma EmitStep(w: World, l: Label, i: nat)
    requires Allowed(w, l) && i < |w.instances| && l != Handle(i)
    ensures i < |Do(w, l).instances|
    ensures w.instances[i].channel + Emitted(w, l, i) == Do(w, l).instances[i].channel
  {}

  lemma ConsumerStays(w: World, l: Label, i: nat)
    requires Allowed(w, l) && i < |w.instances| && l != Handle(i) && l != Shutdown(i)
    ensures i < |Do(w, l).instances|
    ensures Do(w, l).instances[i].consumer == w.instances[i].consumer
    ensures Do(w, l).instances[i].shutdown == w.instances[i].shutdown
  {}

  lemma ChannelStep(w: World, l: Label, i: nat)
    requires Allowed(w, l) && i < |w.instances|
    ensures i < |Do(w, l).instances|
    ensures w.instances[i].channel + Emitted(w, l, i) == Received(w, l, i) + Do(w, l).instances[i].channel
    ensures l != Shutdown(i) ==>
              && Do(w, l).instances[i].consumer == OnMessages(w.instances[i].consumer, Received(w, l, i))
              && Do(w, l).instances[i].shutdown == w.instances[i].shutdown
  {
    if l == Handle(i) {
      HandleStep(w, l, i);
    } else {
      EmitStep(w, l, i);
      if l != Shutdown(i) { ConsumerStays(w, l, i); }
    }
  }

  lemma {:induction false} OnMessagesAppend(c: Consumer, ms: seq<bool>, ns: seq<bool>)
    ensures OnMessages(c, ms + ns) == OnMessages(OnMessages(c, ms), ns)
    decreases |ms|
  {
    if ms == [] {
      assert ms + ns == ns;
    } else {
      OnMessagesAppend(OnMessage(c, ms[0]), ms[1..], ns);
      assert (ms + ns)[1..] == ms[1..] + ns;
    }
  }

  lemma FollowStep(c: Consumer, channel: seq<bool>, emitted: seq<bool>, received: seq<bool>, channel': seq<bool>,
                   rest: seq<bool>)
    requires channel + emitted == received + channel'
    ensures OnMessages(OnMessages(c, received), channel' + rest) == OnMessages(c, channel + (emitted + rest))
  {
    OnMessagesAppend(c, received, channel' + rest);
    assert channel + (emitted + rest) == (channel + emitted) + rest == received + (channel' + rest);
  }

  /** While the process lives, the consumer with the messages still in its channel is where the messages
      sent take it. */
  lemma {:induction false} ConsumerFollowsLoop(w: World, ls: seq<Label>, i: nat)
    requires ValidTrace(w, ls) && i < |w.instances| && Shutdown(i) !in ls
    ensures i < |Run(w, ls).instances|
    ensures OnMessages(Run(w, ls).instances[i].consumer, Run(w, ls).instances[i].channel)
         == OnMessages(w.instances[i].consumer, w.instances[i].channel + Sent(w, ls, i))
    decreases |ls|
  {
    var inst := w.instances[i];
    if ls == [] {
      assert inst.channel + Sent(w, ls, i) == inst.channel;
    } else {
      var w' := Do(w, ls[0]);
      ChannelStep(w, ls[0], i);
      ConsumerFollowsLoop(w', ls[1..], i);
      FollowStep(inst.consumer, inst.channel, Emitted(w, ls[0], i), Received(w, ls[0], i), w'.instances[i].channel,
                 Sent(w', ls[1..], i));
    }
  }

  /** Exactly when an instance whose channel is empty runs its controllers: if one of its ticks found the
      lock missing and got it, and all its later ticks found it valid and extended it. */
  lemma LeadsIffLastStart(w: World, ls: seq<Label>, i: nat)
    requires Initial(w) && ValidTrace(w, ls) && i < |w.instances| && Shutdown(i) !in ls
    ensures i < |Run(w, ls).instances|
    ensures Run(w, ls).instances[i].channel == [] ==>
              (Leads(Run(w, ls), i) <==> exists k: nat :: LastStart(false, Probes(w, ls, i), k))
  {
    assert w.instances[i] in w.instances && w.instances[i] == BOOT;
    ConsumerFollowsLoop(w, ls, i);
    SendsWhatTheLoopSends(w, ls, i);
    NeverStopped(w, ls, i);
    assert [] + Sent(w, ls, i) == Messages(false, Probes(w, ls, i));
    RunsIffLastStart(FRESH, false, Probes(w, ls, i));
  }

  lemma {:induction false} NeverStopped(w: World, ls: seq<Label>, i: nat)
    requires ValidTrace(w, ls) && i < |w.instances| && Shutdown(i) !in ls && !w.instances[i].shutdown
    ensures Stop(i) !in ls
    decreases |ls|
  {
    if ls == [] {
    } else {
      ChannelStep(w, ls[0], i);
      NeverStopped(Do(w, ls[0]), ls[1..], i);
      assert ls == [ls[0]] + ls[1..];
    }
  }
}
