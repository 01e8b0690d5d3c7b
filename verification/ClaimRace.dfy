/** The add event of a new object reaches the mirror controller and the object's own controller at once:
    their API calls in every order. */
module ClaimRace {
  import opened Options
  import opened ApiServer
  import opened Mirror
  import opened Owners
  import opened Interleaving
  import opened Undisturbed

  /** The cluster of creation and the two handlers. */
  datatype Race = Race(node: Node, mirror: Thread, owner: Thread)

  /** A thread makes its next call, if it is at one. */
  function CallOnce(n: Node, th: Thread, c: string, now: string): (Node, Thread) {
    if CallOf(th).None? then (n, th)
    else
      var (r, n') := Serve(n, CallOf(th).value.1);
      (n', Next(th, r, {c}, now))
  }

  function Turn(race: Race, c: string, now: string, mirrorMoves: bool): Race {
    if mirrorMoves then
      var (n, th) := CallOnce(race.node, race.mirror, c, now);
      race.(node := n, mirror := th)
    else
      var (n, th) := CallOnce(race.node, race.owner, c, now);
      race.(node := n, owner := th)
  }

  /** `turns` says whose call is served next. */
  function Turns(race: Race, c: string, now: string, turns: seq<bool>): Race
    decreases |turns|
  {
    if turns == [] then race else Turns(Turn(race, c, now, turns[0]), c, now, turns[1..])
  }

  function StartRace(n: Node, v: Versioned, c: string, role: Role, now: string): Race {
    Race(n.(queue := []), Begin(MirrorAdd, c, v, {c}, now), Begin(role, c, v, {c}, now))
  }

  /** What the two handlers do one after the other. */
  function InTurn(n: Node, v: Versioned, c: string, role: Role, now: string, mirrorFirst: bool): Node {
    if role.FailoverEvent? then BothHandled(n, v, c, mirrorFirst) else GroupBothHandled(n, v, c, now, mirrorFirst)
  }

  /** The mirror handler's claim can change nothing more in a cluster whose copy is claimed. */
  ghost predicate Harmless(n: Node, th: Thread, c: string) {
    && n.copy.Some? && n.copy.value.version <= n.clock && n.copy.value.obj.spec.sot == c
    && match th
       case Idle => true
       case ClaimReread(d, _) => d == c
       case Claim(d, held, _) =>
         d == c && held.version <= n.clock && (held.version == n.copy.value.version ==> held == n.copy.value)
       case _ => false
  }

  lemma HarmlessTurn(n: Node, th: Thread, c: string, now: string)
    requires Harmless(n, th, c)
    ensures CallOnce(n, th, c, now).0 == n && Harmless(n, CallOnce(n, th, c, now).1, c)
  {}

  /** The owner's handler works on a claimed copy of cluster `c`. */
  predicate AtWork(th: Thread, c: string) {
    match th
    case Idle => true
    case GroupInit(d, held) => d == c
    case GroupReread(d) => d == c
    case GroupInitAgain(d, held) => d == c
    case GroupHealth(d, held) => d == c
    case FailoverRead(d, _) => d == c
    case FailoverWrite(d, _, held) => d == c
    case FailoverReread(d, _) => d == c
    case FailoverWriteAgain(d, _, held) => d == c
    case _ => false
  }

  lemma WorkTurn(n: Node, th: Thread, mirror: Thread, c: string, now: string)
    requires AtWork(th, c) && Harmless(n, mirror, c)
    ensures var (n', th') := CallOnce(n, th, c, now);
            AtWork(th', c) && Harmless(n', mirror, c)
  {}

  lemma AloneTurn(n: Node, th: Thread, c: string, now: string)
    requires AtWork(th, c)
    ensures var (n', th') := CallOnce(n, th, c, now);
            Alone(map[c := n], th, now) == Alone(map[c := n'], th', now)
  {
    if CallOf(th).Some? {
      AloneCall(map[c := n], th, now);
      var (n', th') := CallOnce(n, th, c, now);
      assert map[c := n][c := n'] == map[c := n'] && map[c := n].Keys == {c};
    }
  }

  /** Once the owner has claimed the object, the mirror's calls do not disturb it. */
  lemma {:induction false} OwnerAhead(race: Race, c: string, now: string, turns: seq<bool>)
    requires AtWork(race.owner, c) && Harmless(race.node, race.mirror, c)
    ensures var end := Turns(race, c, now, turns);
            end.owner.Idle? ==> map[c := end.node] == Alone(map[c := race.node], race.owner, now)
    decreases |turns|
  {
    if turns == [] {
    } else {
      var next := Turn(race, c, now, turns[0]);
      if turns[0] {
        HarmlessTurn(race.node, race.mirror, c, now);
      } else {
        WorkTurn(race.node, race.owner, race.mirror, c, now);
        AloneTurn(race.node, race.owner, c, now);
      }
      OwnerAhead(next, c, now, turns[1..]);
    }
  }

  /** Once the mirror has claimed the object, the owner's claim comes to nothing. */
  ghost predicate TooLate(race: Race, c: string) {
    && race.mirror.Idle? && race.node.copy.Some?
    && match race.owner
       case Idle => true
       case GroupClaim(_, held) => held.version != race.node.copy.value.version
       case FailoverClaim(_, held) => held.version != race.node.copy.value.version
       case _ => false
  }

  lemma {:induction false} MirrorAhead(race: Race, c: string, now: string, turns: seq<bool>)
    requires TooLate(race, c)
    ensures Turns(race, c, now, turns).node == race.node
    decreases |turns|
  {
    if turns == [] {
    } else {
      MirrorAhead(Turn(race, c, now, turns[0]), c, now, turns[1..]);
    }
  }

  lemma MirrorFirst(n: Node, v: Versioned, c: string, role: Role, now: string)
    requires JustAdded(n, v, c) && v.obj.spec.sot == "" && (role.FailoverEvent? || role.GroupEvent?)
    ensures var race := StartRace(n, v, c, role, now);
            var next := Turn(race, c, now, true);
            TooLate(next, c) && next.node == AssignNode(race.node, v, c)
  {}

  lemma OwnerFirst(n: Node, v: Versioned, c: string, role: Role, now: string)
    requires JustAdded(n, v, c) && v.obj.spec.sot == "" && (role.FailoverEvent? || role.GroupEvent?)
    ensures var race := StartRace(n, v, c, role, now);
            var next := Turn(race, c, now, false);
            && AtWork(next.owner, c) && Harmless(next.node, next.mirror, c)
            && Alone(map[c := next.node], next.owner, now) == Alone(map[c := race.node], race.owner, now)
  {
    var race := StartRace(n, v, c, role, now);
    var next := Turn(race, c, now, false);
    AloneCall(map[c := race.node], race.owner, now);
    assert map[c := race.node][c := next.node] == map[c := next.node] && map[c := race.node].Keys == {c};
  }

  /** In whatever order the calls of the two handlers are served, the outcome is that of the two handlers
      one after the other, the one first whose claim is served first. */
  lemma CallOrderIsHandlerOrder(n: Node, v: Versioned, c: string, role: Role, now: string, turns: seq<bool>)
    requires JustAdded(n, v, c) && v.obj.spec.sot == "" && (role.FailoverEvent? || role.GroupEvent?)
    ensures var end := Turns(StartRace(n, v, c, role, now), c, now, turns);
            end.mirror.Idle? && end.owner.Idle? ==> turns != [] && end.node == InTurn(n, v, c, role, now, turns[0])
  {
    var race := StartRace(n, v, c, role, now);
    if turns == [] {
    } else {
      var next := Turn(race, c, now, turns[0]);
      if turns[0] {
        MirrorFirst(n, v, c, role, now);
        MirrorAhead(next, c, now, turns[1..]);
      } else {
        OwnerFirst(n, v, c, role, now);
        OwnerAhead(next, c, now, turns[1..]);
        OwnersAreUndisturbed(map[c := race.node], c, v, now);
        MirrorSecond(n, v, c, now);
        var end := Turns(race, c, now, turns);
        assert map[c := end.node][c] == end.node;
      }
    }
  }

  /** Exactly when a new object is taken up by its own controller, over every order of the calls and then
      of its event loop: if that controller's claim is served before the mirror controller's, or there was
      nothing to do. */
  lemma FirstClaimDecides(n: Node, v: Versioned, c: string, now: string, turns: seq<bool>, k: nat)
    requires JustAdded(n, v, c) && v.obj.spec.sot == "" && turns != [] && k >= 4
    ensures var end := Turns(StartRace(n, v, c, FailoverEvent, now), c, now, turns);
            end.mirror.Idle? && end.owner.Idle? ==>
              var l := LoopSteps(Loop(end.node, v), c, k);
              && l.node.queue == [] && l.node.copy.Some?
              && (l.node.copy.value.obj.status.status == "SUCCESS" <==> !turns[0] || v.obj.status.status == "SUCCESS")
    ensures var end := Turns(StartRace(n, v, c, GroupEvent, now), c, now, turns);
            end.mirror.Idle? && end.owner.Idle? ==>
              var l := GroupLoopSteps(Loop(end.node, v), c, now, k);
              && l.node.queue == [] && l.node.copy.Some?
              && (l.node.copy.value.obj.status.health == "OK" <==> !turns[0] || v.obj.status.health == "OK")
  {
    CallOrderIsHandlerOrder(n, v, c, FailoverEvent, now, turns);
    CallOrderIsHandlerOrder(n, v, c, GroupEvent, now, turns);
    MirrorMustNotClaimFirst(n, v, c, turns[0], k);
    GroupAddRace(n, v, c, now, turns[0], k);
  }
}
