/** One API call under interference, and the retry loop of the mirror controller on values. */
module Retries {
  import opened Options
  import opened ApiServer
  import opened Mirror
  import opened ClusterClient
  import opened Interleaving
  import opened Scheduled

  /** The changes a controller makes to the object it holds. */
  datatype Edit = SetSpec(spec: Spec) | SetSot(cluster: string)

  function Apply(edit: Edit, obj: Object): Object {
    match edit
    case SetSpec(spec) => obj.(spec := spec)
    case SetSot(c) => obj.(spec := obj.spec.(sot := c))
  }

  /** Another writer gets in just before update number `i`, counted from 0, of a retry loop that
      starts at slot `from`; between two updates there is a read. */
  predicate Beaten(schedule: seq<Slot>, from: nat, c: string, i: nat) {
    Touches(SlotAt(schedule, from + 2 * i), c)
  }

  predicate Overtaken(schedule: seq<Slot>, from: nat, c: string, k: nat) {
    forall i: nat :: i < k ==> Beaten(schedule, from, c, i)
  }

  /** The edited `held` is stored; an update leaves the status alone. */
  function Landed(n: Node, edit: Edit, held: Versioned): Node
    requires n.copy.Some?
  {
    Write(n, Apply(edit, held.obj.(status := n.copy.value.obj.status)))
  }

  /** The edit applied to whatever is stored. */
  function Edited(n: Node, edit: Edit): Node
    requires n.copy.Some?
  {
    Write(n, Apply(edit, n.copy.value.obj))
  }

  predicate Stores(n: Node, version: nat) {
    n.copy.Some? && n.copy.value.version == version
  }

  datatype Outcome =
    | Written(target: Versioned)
    | Exhausted(target: Versioned)
    | Aborted

  predicate Updates(call: Call) {
    call.Update? || call.UpdateStatus?
  }

  /** The cluster once such a call has been carried out. */
  function Sent(n: Node, call: Call): Node
    requires n.copy.Some? && Updates(call)
  {
    var cur := n.copy.value.obj;
    if call.Update? then Write(n, call.sent.obj.(status := cur.status))
    else Write(n, cur.(status := call.sent.obj.status))
  }

  /** What a retry loop is for. */
  datatype Task = Claiming(c: string) | Bringing(sot: string, c: string, src: Object)

  /** The handler thread at update number `tries` of its retry loop. */
  function AtTry(task: Task, held: Versioned, tries: nat): Thread {
    match task
    case Claiming(c) => Thread.Claim(c, held, tries)
    case Bringing(sot, c, src) => PushUpdate(sot, c, src, held, tries)
  }

  predicate Trying(task: Task, c: string, edit: Edit) {
    match task
    case Claiming(d) => d == c && edit == SetSot(c)
    case Bringing(sot, _, src) => sot == c && edit == SetSpec(src.spec)
  }

  /** Where the handler thread is after its retry loop. */
  function Concluded(task: Task, outcome: Outcome, clusters: set<string>): Thread {
    if task.Claiming? || outcome.Aborted? then Idle else Fan(outcome.target.obj, clusters - {task.c, task.sot})
  }

  /** Where it is after one round of it. */
  function AfterRound(task: Task, edit: Edit, tries: nat, r: Response, again: Response, clusters: set<string>): Thread {
    if r.Success? then Concluded(task, Written(r.got), clusters)
    else if !r.Conflict? || !again.Success? then Idle
    else if tries + 1 < MAX_RETRIES then AtTry(task, again.got, tries + 1)
    else Concluded(task, Exhausted(Versioned(again.got.version, Apply(edit, again.got.obj))), clusters)
  }

  lemma RoundStarts(task: Task, c: string, edit: Edit, held: Versioned, tries: nat)
    requires Trying(task, c, edit)
    ensures CallOf(AtTry(task, held, tries)) == Some((c, EditCall(edit, held)))
  {}

  lemma RoundRereads(task: Task, c: string, edit: Edit, held: Versioned, tries: nat, clusters: set<string>)
    requires Trying(task, c, edit)
    ensures CallOf(Next(AtTry(task, held, tries), Conflict, clusters, "")) == Some((c, Get))
  {}

  lemma RoundEnds(task: Task, c: string, edit: Edit, held: Versioned, tries: nat, r: Response, again: Response,
                  clusters: set<string>)
    requires Trying(task, c, edit) && tries < MAX_RETRIES
    ensures var next := Next(AtTry(task, held, tries), r, clusters, "");
            AfterRound(task, edit, tries, r, again, clusters) ==
            if r.Conflict? then Next(next, again, clusters, "") else next
  {}

  lemma SentStatus(n: Node, v: Versioned)
    requires n.copy.Some?
    ensures Sent(n, UpdateStatus(v)).copy.Some? && Sent(n, UpdateStatus(v)).copy.value.obj.status == v.obj.status
  {}

  lemma SendLands(f: Fleet, c: string, call: Call, held: Versioned, slot: Slot)
    requires c in f && Updates(call) && call.sent.version == held.version
    ensures var before := DisturbAll(f, slot.writes);
            var (r, g) := Answered(f, c, call, slot);
            && g.Keys == f.Keys
            && (if r.Success?
                then
                  && Stores(before[c], held.version) && g == before[c := Sent(before[c], call)]
                  && g[c].copy == Some(r.got)
                else
                  || g == before
                  || (r.Failure? && before[c].copy.Some? && g == before[c := Sent(before[c], call)]))
            && (slot.fault.Works? ==>
                  match before[c].copy
                  case None => r.NotFound?
                  case Some(cur) => if cur.version == held.version then r.Success? else r.Conflict?)
  {
    var before := DisturbAll(f, slot.writes);
    assert before[c := before[c]] == before;
  }

  lemma SendMeets(f: Fleet, c: string, call: Call, held: Versioned, slot: Slot)
    requires c in f && Updates(call) && call.sent.version == held.version
    ensures var before := DisturbAll(f, slot.writes);
            var (r, g) := Answered(f, c, call, slot);
            && (Sane(f[c]) ==> Sane(g[c]))
            && (Tracks(f[c], held) ==> Tracks(before[c], held))
            && (Tracks(f[c], held) && f[c].copy == Some(held) && CalmSlot(slot) ==>
                  && before[c].copy.Some?
                  && if Touches(slot, c) then r.Conflict? else r.Success?)
  {
    DisturbSane(f, slot.writes, c);
    if Tracks(f[c], held) {
      DisturbTracks(f, slot.writes, c, held);
    }
  }

  predicate Hit(schedule: seq<Slot>, i: nat, t: string) {
    Touches(SlotAt(schedule, i), t)
  }

  predicate Tracked(n: Node) {
    n.copy.Some? && Sane(n)
  }

  function EditCall(edit: Edit, held: Versioned): (call: Call)
    ensures call.Update?
  {
    Update(Versioned(held.version, Apply(edit, held.obj)))
  }

  lemma ReadFirst(f: Fleet, c: string, slot: Slot)
    requires c in f
    ensures var (r, g) := Answered(f, c, Get, slot);
            && (!slot.fault.Works? ==> r.Failure? && g == DisturbAll(f, slot.writes))
            && (Tracked(f[c]) && CalmSlot(slot) ==> r.Success?)
  {
    var g := DisturbAll(f, slot.writes);
    assert g[c := g[c]] == g;
    if Tracked(f[c]) {
      DisturbTracks(f, slot.writes, c, f[c].copy.value);
    }
  }

  lemma ReadAgain(f: Fleet, c: string, held: Versioned, slot: Slot)
    requires c in f
    ensures var (r, g) := Answered(f, c, Get, slot);
            && g.Keys == f.Keys
            && (r.Success? ==> g[c].copy == Some(r.got))
            && (r.NotFound? ==> g[c].copy.None?)
            && (Sane(f[c]) ==> Sane(g[c]))
            && (r.Success? && Tracks(f[c], held) ==> Tracks(g[c], r.got))
            && (Tracks(f[c], held) && f[c].copy.Some? && CalmSlot(slot) ==> r.Success?)
  {
    DisturbSane(f, slot.writes, c);
    if Tracks(f[c], held) {
      DisturbTracks(f, slot.writes, c, held);
    }
  }

  // ----- the retry loop on values

  /** What became of a retry loop: `before` is the fleet its last update met, `base` the copy it edited. */
  datatype Retry = Retry(outcome: Outcome, updates: nat, before: Fleet, base: Versioned, nodes: Fleet, calls: nat)

  /** A retry loop about to make update number `tries` of `held` at call number `i`. */
  datatype Turn = Turn(nodes: Fleet, held: Versioned, i: nat, tries: nat)

  /** The update, and after a conflict the read. */
  ghost function Made(u: Turn, c: string, edit: Edit, schedule: seq<Slot>): (Response, Fleet)
    requires c in u.nodes
  {
    Answered(u.nodes, c, EditCall(edit, u.held), SlotAt(schedule, u.i))
  }

  ghost function Reads(u: Turn, g: Fleet, c: string, schedule: seq<Slot>): (Response, Fleet)
    requires c in g
  {
    Answered(g, c, Get, SlotAt(schedule, u.i + 1))
  }

  /** The next turn, if there is one: a conflicting update is repeated on the copy read after it, up to
      five updates in all. */
  ghost function NextTurn(u: Turn, c: string, edit: Edit, schedule: seq<Slot>): (next: Option<Turn>)
    requires c in u.nodes && u.tries < MAX_RETRIES
    ensures next.Some? ==> c in next.value.nodes && u.tries < next.value.tries < MAX_RETRIES
  {
    var (r, g) := Made(u, c, edit, schedule);
    if !r.Conflict? then None
    else
      var (again, h) := Reads(u, g, c, schedule);
      if again.Success? && u.tries + 1 < MAX_RETRIES then Some(Turn(h, again.got, u.i + 2, u.tries + 1)) else None
  }

  /** How the loop ends with this turn, if there is no next one. */
  ghost function LastTurn(u: Turn, c: string, edit: Edit, schedule: seq<Slot>): Retry
    requires c in u.nodes && u.tries < MAX_RETRIES
  {
    var before := DisturbAll(u.nodes, SlotAt(schedule, u.i).writes);
    var (r, g) := Made(u, c, edit, schedule);
    if !r.Conflict? then
      Retry(if r.Success? then Written(r.got) else Aborted, u.tries + 1, before, u.held, g, u.i + 1)
    else
      var (again, h) := Reads(u, g, c, schedule);
      Retry(if again.Success? then Exhausted(EditCall(edit, again.got).sent) else Aborted,
            u.tries + 1, before, u.held, h, u.i + 2)
  }

  ghost predicate Ends(u: Turn, c: string, edit: Edit, schedule: seq<Slot>, x: Retry)
    decreases MAX_RETRIES - u.tries
  {
    && c in u.nodes && u.tries < MAX_RETRIES
    && match NextTurn(u, c, edit, schedule)
       case Some(next) => Ends(next, c, edit, schedule, x)
       case None => x == LastTurn(u, c, edit, schedule)
  }

  /** Both loops end in the same way. */
  ghost predicate GoesOn(u: Turn, u': Turn, c: string, edit: Edit, schedule: seq<Slot>) {
    forall x :: Ends(u, c, edit, schedule, x) <==> Ends(u', c, edit, schedule, x)
  }

  /** The loop ends in just this way. */
  ghost predicate OnlyEnds(u: Turn, c: string, edit: Edit, schedule: seq<Slot>, x: Retry) {
    forall y :: Ends(u, c, edit, schedule, y) <==> y == x
  }

  lemma TurnGoesOn(u: Turn, c: string, edit: Edit, schedule: seq<Slot>)
    requires c in u.nodes && u.tries < MAX_RETRIES
    ensures match NextTurn(u, c, edit, schedule)
            case Some(next) => GoesOn(u, next, c, edit, schedule)
            case None => OnlyEnds(u, c, edit, schedule, LastTurn(u, c, edit, schedule))
  {}

  /** The loop that began with turn `start` goes on after turn `u` with the copy read again, or has ended. */
  ghost predicate TurnOver(start: Turn, u: Turn, c: string, edit: Edit, schedule: seq<Slot>, r: Response,
                           again: Response, before: Fleet, nodes: Fleet, i: nat)
  {
    if r.Conflict? && again.Success? && u.tries + 1 < MAX_RETRIES then
      c in nodes && GoesOn(start, Turn(nodes, again.got, i, u.tries + 1), c, edit, schedule)
    else
      var outcome := if r.Success? then Written(r.got)
                     else if !r.Conflict? || !again.Success? then Aborted
                     else Exhausted(EditCall(edit, again.got).sent);
      OnlyEnds(start, c, edit, schedule, Retry(outcome, u.tries + 1, before, u.held, nodes, i))
  }

  lemma TurnOverSince(start: Turn, u: Turn, c: string, edit: Edit, schedule: seq<Slot>, r: Response, again: Response,
                      before: Fleet, nodes: Fleet, i: nat)
    requires GoesOn(start, u, c, edit, schedule)
    requires TurnOver(u, u, c, edit, schedule, r, again, before, nodes, i)
    ensures TurnOver(start, u, c, edit, schedule, r, again, before, nodes, i)
  {}

  lemma TurnGoesOnSince(start: Turn, u: Turn, c: string, edit: Edit, schedule: seq<Slot>, r: Response,
                        again: Response, before: Fleet, next: Turn)
    requires GoesOn(start, u, c, edit, schedule) && r.Conflict? && again.Success?
    requires next.held == again.got && next.tries == u.tries + 1
    requires TurnOver(u, u, c, edit, schedule, r, again, before, next.nodes, next.i)
    ensures next.tries < MAX_RETRIES ==> GoesOn(start, next, c, edit, schedule)
  {
    TurnOverSince(start, u, c, edit, schedule, r, again, before, next.nodes, next.i);
    assert next == Turn(next.nodes, again.got, next.i, u.tries + 1);
  }

  /** A turn as it was made. */
  lemma TurnResult(u: Turn, c: string, edit: Edit, schedule: seq<Slot>, r: Response, again: Response, before: Fleet,
                   nodes: Fleet)
    requires c in u.nodes && u.tries < MAX_RETRIES && before == DisturbAll(u.nodes, SlotAt(schedule, u.i).writes)
    requires var (made, g) := Made(u, c, edit, schedule);
             made == r && if r.Conflict? then c in g && (again, nodes) == Reads(u, g, c, schedule) else nodes == g
    ensures TurnOver(u, u, c, edit, schedule, r, again, before, nodes, if r.Conflict? then u.i + 2 else u.i + 1)
  {
    TurnGoesOn(u, c, edit, schedule);
  }

  lemma TurnLands(u: Turn, c: string, edit: Edit, schedule: seq<Slot>)
    requires c in u.nodes
    ensures var before := DisturbAll(u.nodes, SlotAt(schedule, u.i).writes);
            var (r, g) := Made(u, c, edit, schedule);
            && g.Keys == u.nodes.Keys
            && (r.Success? ==>
                  && Stores(before[c], u.held.version) && g == before[c := Landed(before[c], edit, u.held)]
                  && g[c].copy == Some(r.got)
                  && (Tracks(u.nodes[c], u.held) ==> g == before[c := Edited(before[c], edit)]))
            && (r.Conflict? && Tracks(u.nodes[c], u.held) ==> Tracks(g[c], u.held))
  {
    SendLands(u.nodes, c, EditCall(edit, u.held), u.held, SlotAt(schedule, u.i));
    SendMeets(u.nodes, c, EditCall(edit, u.held), u.held, SlotAt(schedule, u.i));
  }

  lemma NextTracks(u: Turn, c: string, edit: Edit, schedule: seq<Slot>)
    requires c in u.nodes && u.tries < MAX_RETRIES && NextTurn(u, c, edit, schedule).Some?
    ensures var next := NextTurn(u, c, edit, schedule).value;
            && next.nodes.Keys == u.nodes.Keys && next.i == u.i + 2 && next.tries == u.tries + 1
            && (Tracks(u.nodes[c], u.held) ==> Tracks(next.nodes[c], next.held))
  {
    TurnLands(u, c, edit, schedule);
    ReadAgain(Made(u, c, edit, schedule).1, c, u.held, SlotAt(schedule, u.i + 1));
  }

  /** What a loop may promise that meets the copy read as `held`. */
  ghost predicate Lands(u: Turn, c: string, edit: Edit, x: Retry)
    requires c in u.nodes
  {
    && x.nodes.Keys == x.before.Keys == u.nodes.Keys && x.calls > u.i && u.tries < x.updates <= MAX_RETRIES
    && (x.outcome.Exhausted? ==> x.updates == MAX_RETRIES)
    && (x.outcome.Written? ==>
          && Stores(x.before[c], x.base.version) && x.nodes == x.before[c := Landed(x.before[c], edit, x.base)]
          && x.nodes[c].copy == Some(x.outcome.target)
          && (Tracks(u.nodes[c], u.held) ==> x.nodes == x.before[c := Edited(x.before[c], edit)]))
  }

  lemma LastLands(u: Turn, c: string, edit: Edit, schedule: seq<Slot>)
    requires c in u.nodes && u.tries < MAX_RETRIES && NextTurn(u, c, edit, schedule).None?
    ensures Lands(u, c, edit, LastTurn(u, c, edit, schedule))
  {
    TurnLands(u, c, edit, schedule);
    var (r, g) := Made(u, c, edit, schedule);
    if r.Conflict? {
      ReadAgain(g, c, u.held, SlotAt(schedule, u.i + 1));
    }
  }

  /** No lost update: what is written is the edit applied to the copy stored just before. */
  lemma {:induction false} RetryLands(u: Turn, c: string, edit: Edit, schedule: seq<Slot>, x: Retry)
    requires Ends(u, c, edit, schedule, x)
    ensures Lands(u, c, edit, x)
    decreases MAX_RETRIES - u.tries
  {
    var next := NextTurn(u, c, edit, schedule);
    if next.None? {
      LastLands(u, c, edit, schedule);
    } else {
      NextTracks(u, c, edit, schedule);
      RetryLands(next.value, c, edit, schedule, x);
    }
  }

  lemma CalmTurn(u: Turn, c: string, edit: Edit, schedule: seq<Slot>)
    requires c in u.nodes && u.tries < MAX_RETRIES
    requires Calm(schedule) && u.nodes[c].copy == Some(u.held) && Tracks(u.nodes[c], u.held)
    ensures match NextTurn(u, c, edit, schedule)
            case Some(next) => Hit(schedule, u.i, c) && next.nodes[c].copy == Some(next.held)
            case None =>
              match LastTurn(u, c, edit, schedule).outcome
              case Written(_) => !Hit(schedule, u.i, c)
              case Exhausted(_) => Hit(schedule, u.i, c)
              case Aborted => false
  {
    var (r, g) := Made(u, c, edit, schedule);
    assert CalmSlot(SlotAt(schedule, u.i)) && CalmSlot(SlotAt(schedule, u.i + 1));
    SendLands(u.nodes, c, EditCall(edit, u.held), u.held, SlotAt(schedule, u.i));
    SendMeets(u.nodes, c, EditCall(edit, u.held), u.held, SlotAt(schedule, u.i));
    if r.Conflict? {
      ReadAgain(g, c, u.held, SlotAt(schedule, u.i + 1));
    }
  }

  /** With other writers but no failures, each conflict is another writer getting in before an update. */
  lemma {:induction false} RetryIsOvertaken(u: Turn, c: string, edit: Edit, schedule: seq<Slot>, x: Retry)
    requires Ends(u, c, edit, schedule, x)
    requires Calm(schedule) && u.nodes[c].copy == Some(u.held) && Tracks(u.nodes[c], u.held)
    ensures !x.outcome.Aborted? && x.updates > u.tries && Overtaken(schedule, u.i, c, x.updates - u.tries - 1)
    ensures Beaten(schedule, u.i, c, x.updates - u.tries - 1) <==> x.outcome.Exhausted?
    decreases MAX_RETRIES - u.tries
  {
    var next := NextTurn(u, c, edit, schedule);
    CalmTurn(u, c, edit, schedule);
    if next.None? {
    } else {
      NextTracks(u, c, edit, schedule);
      RetryIsOvertaken(next.value, c, edit, schedule, x);
      OvertakenMore(schedule, u.i, c, x.updates - u.tries - 2);
    }
  }

  lemma OvertakenMore(schedule: seq<Slot>, i: nat, c: string, k: nat)
    requires Hit(schedule, i, c) && Overtaken(schedule, i + 2, c, k)
    ensures Overtaken(schedule, i, c, k + 1) && (Beaten(schedule, i, c, k + 1) <==> Beaten(schedule, i + 2, c, k))
  {
    forall j: nat | j < k + 1 ensures Beaten(schedule, i, c, j) {
      if j > 0 { assert Beaten(schedule, i + 2, c, j - 1); }
    }
  }

  lemma RetryAlone(u: Turn, c: string, edit: Edit, schedule: seq<Slot>, x: Retry)
    requires Ends(u, c, edit, schedule, x) && u.tries == 0 && u.i >= |schedule|
    ensures x.before == u.nodes
    ensures match u.nodes[c].copy
            case None => x.outcome.Aborted? && x.nodes == u.nodes
            case Some(cur) => x.outcome.Written? && x.base == if cur.version == u.held.version then u.held else cur
  {
    assert u.nodes[c := u.nodes[c]] == u.nodes;
  }

  /** Where the handler thread is after this turn. */
  ghost function ThreadAfter(u: Turn, c: string, edit: Edit, schedule: seq<Slot>, task: Task): Moment
    requires c in u.nodes && u.tries < MAX_RETRIES
  {
    match NextTurn(u, c, edit, schedule)
    case Some(next) => Moment(next.nodes, AtTry(task, next.held, next.tries), next.i)
    case None =>
      var x := LastTurn(u, c, edit, schedule);
      Moment(x.nodes, Concluded(task, x.outcome, u.nodes.Keys), x.calls)
  }

  lemma ThreadIsAfter(u: Turn, c: string, edit: Edit, schedule: seq<Slot>, task: Task)
    requires c in u.nodes && u.tries < MAX_RETRIES && Trying(task, c, edit)
    ensures var (r, g) := Made(u, c, edit, schedule);
            var next := Next(AtTry(task, u.held, u.tries), r, u.nodes.Keys, "");
            && c in g
            && ThreadAfter(u, c, edit, schedule, task) ==
               if r.Conflict? then
                 var (again, h) := Reads(u, g, c, schedule);
                 Moment(h, Next(next, again, u.nodes.Keys, ""), u.i + 2)
               else Moment(g, next, u.i + 1)
  {
    var (r, g) := Made(u, c, edit, schedule);
    TurnLands(u, c, edit, schedule);
    RoundEnds(task, c, edit, u.held, u.tries, r, if r.Conflict? then Reads(u, g, c, schedule).0 else r, u.nodes.Keys);
  }

  lemma UpdateIsThread(u: Turn, c: string, edit: Edit, schedule: seq<Slot>, task: Task)
    requires c in u.nodes && u.tries < MAX_RETRIES && Trying(task, c, edit)
    ensures var (r, g) := Made(u, c, edit, schedule);
            && g.Keys == u.nodes.Keys
            && Continues(Moment(u.nodes, AtTry(task, u.held, u.tries), u.i),
                         Moment(g, Next(AtTry(task, u.held, u.tries), r, u.nodes.Keys, ""), u.i + 1), schedule, "")
  {
    RoundStarts(task, c, edit, u.held, u.tries);
    TurnLands(u, c, edit, schedule);
    CallContinues(Moment(u.nodes, AtTry(task, u.held, u.tries), u.i), schedule, "");
  }

  lemma RereadIsThread(u: Turn, g: Fleet, c: string, edit: Edit, schedule: seq<Slot>, task: Task)
    requires c in g && u.tries < MAX_RETRIES && Trying(task, c, edit)
    ensures var (again, h) := Reads(u, g, c, schedule);
            var sent := Next(AtTry(task, u.held, u.tries), Conflict, g.Keys, "");
            Continues(Moment(g, sent, u.i + 1), Moment(h, Next(sent, again, g.Keys, ""), u.i + 2), schedule, "")
  {
    RoundRereads(task, c, edit, u.held, u.tries, g.Keys);
    CallContinues(Moment(g, Next(AtTry(task, u.held, u.tries), Conflict, g.Keys, ""), u.i + 1), schedule, "");
  }

  lemma TurnIsThread(u: Turn, c: string, edit: Edit, schedule: seq<Slot>, task: Task)
    requires c in u.nodes && u.tries < MAX_RETRIES && Trying(task, c, edit)
    ensures Continues(Moment(u.nodes, AtTry(task, u.held, u.tries), u.i), ThreadAfter(u, c, edit, schedule, task),
                      schedule, "")
  {
    var (r, g) := Made(u, c, edit, schedule);
    UpdateIsThread(u, c, edit, schedule, task);
    if r.Conflict? {
      var (again, h) := Reads(u, g, c, schedule);
      var sent := Next(AtTry(task, u.held, u.tries), Conflict, u.nodes.Keys, "");
      RereadIsThread(u, g, c, edit, schedule, task);
      ThreadIsAfter(u, c, edit, schedule, task);
      Onward(Moment(u.nodes, AtTry(task, u.held, u.tries), u.i), Moment(g, sent, u.i + 1),
             Moment(h, Next(sent, again, u.nodes.Keys, ""), u.i + 2), schedule, "");
    } else {
      ThreadIsAfter(u, c, edit, schedule, task);
    }
  }

  /** The handler thread makes the same calls. */
  lemma {:induction false} RetryIsThread(u: Turn, c: string, edit: Edit, schedule: seq<Slot>, x: Retry, task: Task)
    requires Ends(u, c, edit, schedule, x) && Trying(task, c, edit)
    ensures Continues(Moment(u.nodes, AtTry(task, u.held, u.tries), u.i),
                      Moment(x.nodes, Concluded(task, x.outcome, u.nodes.Keys), x.calls), schedule, "")
    decreases MAX_RETRIES - u.tries
  {
    var next := NextTurn(u, c, edit, schedule);
    TurnIsThread(u, c, edit, schedule, task);
    if next.None? {
    } else {
      NextTracks(u, c, edit, schedule);
      RetryIsThread(next.value, c, edit, schedule, x, task);
      Onward(Moment(u.nodes, AtTry(task, u.held, u.tries), u.i), ThreadAfter(u, c, edit, schedule, task),
             Moment(x.nodes, Concluded(task, x.outcome, u.nodes.Keys), x.calls), schedule, "");
    }
  }
}
