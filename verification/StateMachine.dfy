/** The failover step machine and the workload scale-down it performs. */
module StateMachine {
  import opened Options

  // ----- workloads of the active cluster

  datatype Workload = Workload(kind: string, name: string)

  /** spec.replicas of each existing deployment and stateful set; it may be unset. */
  type Store = map<Workload, Option<int>>

  predicate Supported(w: Workload) {
    w.kind == "Deployment" || w.kind == "StatefulSet"
  }

  /** The first `k` workloads of the list scaled to zero. */
  function Zeroed(s: Store, ws: seq<Workload>, k: nat): Store
    requires k <= |ws|
  {
    if k == 0 then s else Zeroed(s, ws, k - 1)[ws[k - 1] := Some(0)]
  }

  /** Every workload of the list is of a supported kind and exists. */
  predicate Scalable(s: Store, ws: seq<Workload>) {
    forall w <- ws :: Supported(w) && w in s
  }

  /** A run of the scale step got through the first `k` workloads. */
  ghost predicate StoppedAt(before: Store, after: Store, ws: seq<Workload>, k: nat) {
    k <= |ws| && after == Zeroed(before, ws, k)
  }

  predicate AllZero(s: Store, ws: seq<Workload>) {
    forall w <- ws :: w in s && s[w] == Some(0)
  }

  /** The effect of an update that may report failure after it was carried out. */
  ghost predicate Scaled(before: Store, after: Store, w: Workload, replicas: int, ok: bool) {
    || (!ok && after == before)
    || (w in before && after == before[w := Some(replicas)])
  }

  /** What may happen to one API call: it is refused, or it is carried out and the answer is lost. */
  datatype Fault = Works | Refused | Lost

  class WorkloadClient {
    var store: Store
    const faults: seq<Fault>
    var calls: nat

    constructor (store: Store, faults: seq<Fault>)
      ensures this.store == store && this.faults == faults && calls == 0
    {
      this.store, this.faults, calls := store, faults, 0;
    }

    /** No API call fails from now on. */
    predicate Healthy()
      reads this
    {
      calls >= |faults|
    }

    method Get(w: Workload) returns (found: bool, replicas: Option<int>)
      modifies this`calls
      ensures calls == old(calls) + 1
      ensures found ==> w in store && replicas == store[w]
      ensures old(Healthy()) ==> (found <==> w in store)
    {
      var fault := if calls < |faults| then faults[calls] else Works;
      calls := calls + 1;
      if !fault.Works? || w !in store {
        return false, None;
      }
      return true, store[w];
    }

    /** A success has set the replicas; a failure may have. */
    method Update(w: Workload, replicas: int) returns (ok: bool)
      modifies this
      ensures calls == old(calls) + 1
      ensures Scaled(old(store), store, w, replicas, ok)
      ensures old(Healthy()) ==> (ok <==> w in old(store)) && (!ok ==> store == old(store))
    {
      var fault := if calls < |faults| then faults[calls] else Works;
      calls := calls + 1;
      if fault.Refused? || w !in store {
        return false;
      }
      store := store[w := Some(replicas)];
      return fault.Works?;
    }

    method ScaleDeployment(name: string, replicas: int) returns (ok: bool)
      modifies this
      ensures calls >= old(calls)
      ensures Scaled(old(store), store, Workload("Deployment", name), replicas, ok)
      ensures old(Healthy()) ==>
                && (ok <==> Workload("Deployment", name) in old(store))
                && (!ok ==> store == old(store))
    {
      var w := Workload("Deployment", name);
      var found, current := Get(w);
      if !found {
        return false;
      }
      if current == Some(replicas) {
        assert store == store[w := Some(replicas)];
        return true;
      }
      ok := Update(w, replicas);
    }

    method ScaleStatefulSet(name: string, replicas: int) returns (ok: bool)
      modifies this
      ensures calls >= old(calls)
      ensures Scaled(old(store), store, Workload("StatefulSet", name), replicas, ok)
      ensures old(Healthy()) ==>
                && (ok <==> Workload("StatefulSet", name) in old(store))
                && (!ok ==> store == old(store))
    {
      var w := Workload("StatefulSet", name);
      var found, current := Get(w);
      if !found {
        return false;
      }
      ok := Update(w, replicas);
    }

    /** The scale step: the workloads in order, until one cannot be scaled.  A run leaves a prefix of the
        list at zero and touches nothing else; the prefix is the whole list if the run succeeds.  With a
        healthy API it stops only at a workload that is of an unsupported kind or missing. */
    method ScaleWorkloads(ws: seq<Workload>) returns (ok: bool, ghost reached: nat)
      modifies this
      ensures reached <= |ws| && (ok ==> reached == |ws|) && calls >= old(calls)
      ensures store == Zeroed(old(store), ws, reached)
      ensures forall w <- ws[..reached] :: Supported(w) && w in old(store)
      ensures old(Healthy()) && !ok ==> reached < |ws| && (!Supported(ws[reached]) || ws[reached] !in old(store))
    {
      var done := 0;
      reached := 0;
      while done < |ws|
        invariant done == reached <= |ws| && calls >= old(calls)
        invariant store == Zeroed(old(store), ws, reached)
        invariant store.Keys == old(store.Keys)
        invariant forall w <- ws[..reached] :: Supported(w) && w in old(store)
      {
        var w := ws[done];
        ghost var before := store;
        var scaled;
        if w.kind == "Deployment" {
          scaled := ScaleDeployment(w.name, 0);
        } else if w.kind == "StatefulSet" {
          scaled := ScaleStatefulSet(w.name, 0);
        } else {
          return false, reached;
        }
        assert w == Workload(w.kind, w.name) && Scaled(before, store, w, 0, scaled);
        assert ws[..done + 1] == ws[..done] + [w];
        if !scaled {
          return false, if store == before then done else done + 1;
        }
        done := done + 1;
        reached := done;
      }
      ok := true;
    }

    /** Any number of runs of the scale step.  Together they leave what the furthest of them alone would
        have left, and once one has succeeded the store is that of one uninterrupted run. */
    method RetryScaleDown(ws: seq<Workload>, runs: nat) returns (oks: seq<bool>, ghost stops: seq<nat>)
      modifies this
      ensures |oks| == |stops| == runs && Within(stops, |ws|) && Furthest(stops) <= |ws|
      ensures store == Zeroed(old(store), ws, Furthest(stops))
      ensures forall i | 0 <= i < runs && oks[i] :: stops[i] == |ws|
      ensures true in oks ==> store == Zeroed(old(store), ws, |ws|) && AllZero(store, ws)
    {
      oks, stops := [], [];
      for i := 0 to runs
        invariant |oks| == |stops| == i && Within(stops, |ws|)
        invariant store == Rerun(old(store), ws, stops)
        invariant forall j | 0 <= j < i && oks[j] :: stops[j] == |ws|
      {
        var ok;
        ghost var reached;
        ok, reached := ScaleWorkloads(ws);
        RerunAppend(old(store), ws, stops, reached);
        oks, stops := oks + [ok], stops + [reached];
      }
      RetriesAddUp(old(store), ws, stops);
    }
  }

  // ----- repeated runs of the scale step

  lemma {:induction false} ZeroedAt(s: Store, ws: seq<Workload>, k: nat, w: Workload)
    requires k <= |ws|
    ensures w in Zeroed(s, ws, k) <==> w in s || w in ws[..k]
    ensures w in Zeroed(s, ws, k) ==> Zeroed(s, ws, k)[w] == if w in ws[..k] then Some(0) else s[w]
  {
    if k == 0 {
    } else {
      ZeroedAt(s, ws, k - 1, w);
      assert ws[..k] == ws[..k - 1] + [ws[k - 1]];
    }
  }

  lemma ZeroedAgain(s: Store, ws: seq<Workload>, j: nat, k: nat)
    requires j <= |ws| && k <= |ws|
    ensures Zeroed(Zeroed(s, ws, j), ws, k) == Zeroed(s, ws, if j < k then k else j)
  {
    var m := if j < k then k else j;
    var a, b := Zeroed(Zeroed(s, ws, j), ws, k), Zeroed(s, ws, m);
    forall w ensures (w in a <==> w in b) && (w in a ==> a[w] == b[w]) {
      ZeroedAt(Zeroed(s, ws, j), ws, k, w);
      ZeroedAt(s, ws, j, w);
      ZeroedAt(s, ws, m, w);
      PrefixIn(ws, j, m, w);
      PrefixIn(ws, k, m, w);
    }
  }

  lemma PrefixIn(ws: seq<Workload>, j: nat, m: nat, w: Workload)
    requires j <= m <= |ws|
    ensures w in ws[..j] ==> w in ws[..m]
  {
    if w in ws[..j] {
      var i: nat :| i < j && ws[..j][i] == w;
      assert ws[..m][i] == w;
    }
  }

  predicate Within(stops: seq<nat>, n: nat) {
    forall i | 0 <= i < |stops| :: stops[i] <= n
  }

  /** Runs that got through the first stops[0], stops[1], ... workloads. */
  function Rerun(s: Store, ws: seq<Workload>, stops: seq<nat>): Store
    requires Within(stops, |ws|)
    decreases |stops|
  {
    if stops == [] then s else Rerun(Zeroed(s, ws, stops[0]), ws, stops[1..])
  }

  function Furthest(stops: seq<nat>): (m: nat)
    ensures Within(stops, m) && (stops != [] ==> m in stops)
  {
    if stops == [] then 0
    else var rest := Furthest(stops[1..]); if stops[0] < rest then rest else stops[0]
  }

  /** Scale-down retry: any number of runs, failed ones included, leave what the furthest of them alone
      would have left; so once one has succeeded the store is that of one uninterrupted run. */
  lemma {:induction false} RetriesAddUp(s: Store, ws: seq<Workload>, stops: seq<nat>)
    requires Within(stops, |ws|)
    ensures Furthest(stops) <= |ws|
    ensures Rerun(s, ws, stops) == Zeroed(s, ws, Furthest(stops))
    ensures |ws| in stops ==> Rerun(s, ws, stops) == Zeroed(s, ws, |ws|) && AllZero(Rerun(s, ws, stops), ws)
    decreases |stops|
  {
    if stops == [] {
    } else {
      RetriesAddUp(Zeroed(s, ws, stops[0]), ws, stops[1..]);
      ZeroedAgain(s, ws, stops[0], Furthest(stops[1..]));
      if |ws| in stops {
        AllOfThemZero(s, ws);
      }
    }
  }

  lemma {:induction false} RerunAppend(s: Store, ws: seq<Workload>, stops: seq<nat>, k: nat)
    requires Within(stops, |ws|) && k <= |ws|
    ensures Rerun(s, ws, stops + [k]) == Zeroed(Rerun(s, ws, stops), ws, k)
    decreases |stops|
  {
    if stops == [] {
      assert [k][1..] == [];
    } else {
      RerunAppend(Zeroed(s, ws, stops[0]), ws, stops[1..], k);
      assert (stops + [k])[1..] == stops[1..] + [k];
    }
  }

  /** A store that one run, however far it came, left with all of the list at zero. */
  lemma ZeroIsDone(s: Store, ws: seq<Workload>, k: nat)
    requires k <= |ws| && AllZero(Zeroed(s, ws, k), ws)
    ensures Zeroed(s, ws, k) == Zeroed(s, ws, |ws|)
  {
    var a, b := Zeroed(s, ws, k), Zeroed(s, ws, |ws|);
    assert ws[..|ws|] == ws;
    forall w ensures (w in a <==> w in b) && (w in a ==> a[w] == b[w]) {
      ZeroedAt(s, ws, k, w);
      ZeroedAt(s, ws, |ws|, w);
      PrefixIn(ws, k, |ws|, w);
    }
  }

  lemma AllOfThemZero(s: Store, ws: seq<Workload>)
    ensures AllZero(Zeroed(s, ws, |ws|), ws)
  {
    assert ws[..|ws|] == ws;
    forall w <- ws ensures w in Zeroed(s, ws, |ws|) && Zeroed(s, ws, |ws|)[w] == Some(0) {
      ZeroedAt(s, ws, |ws|, w);
    }
  }

  // ----- the machine

  datatype Kind = PreFlightChecks | ScaleWorkload | Complete

  datatype State = State(name: string, kind: Kind)

  const CONSISTENCY_WORKFLOW := ["PreFlightChecks", "ScaleWorkload", "Complete"]

  const REGISTERED := map["PreFlightChecks" := State("PreFlightChecks", PreFlightChecks),
                          "ScaleWorkload" := State("ScaleWorkload", ScaleWorkload),
                          "Complete" := State("Complete", Complete)]

  function GetWorkflow(mode: string): Option<seq<string>> {
    if mode == "CONSISTENCY" then Some(CONSISTENCY_WORKFLOW) else None
  }

  predicate ValidateWorkflow(workflow: Option<seq<string>>) {
    workflow.Some? && workflow.value != []
  }

  /** Distinct step names, each registered under its own name. */
  ghost predicate Executable(steps: seq<string>, states: map<string, State>) {
    && steps != []
    && (forall i, j | 0 <= i < j < |steps| :: steps[i] != steps[j])
    && forall n <- steps :: n in states && states[n].name == n
  }

  function Advanced(i: nat, n: nat): nat {
    if i + 1 < n then i + 1 else i
  }

  class StateMachine {
    const steps: seq<string>
    const workloads: seq<Workload>
    const client: WorkloadClient
    const reachable: bool   // whether the active cluster has a client
    var states: map<string, State>
    var current: Option<State>

    constructor (steps: seq<string>, states: map<string, State>, workloads: seq<Workload>, client: WorkloadClient,
                 reachable: bool)
      requires ValidateWorkflow(Some(steps))
      ensures this.steps == steps && this.states == states && this.workloads == workloads && this.client == client
      ensures this.reachable == reachable
      ensures steps == CONSISTENCY_WORKFLOW && states == REGISTERED ==> Consistent()
      ensures current == if steps[0] in states then Some(states[steps[0]]) else None
    {
      this.steps, this.states, this.workloads := steps, states, workloads;
      this.client, this.reachable := client, reachable;
      current := if steps[0] in states then Some(states[steps[0]]) else None;
    }

    /** The machine stands at step `i`. */
    predicate At(i: nat)
      reads this
    {
      i < |steps| && steps[i] in states && current == Some(states[steps[i]])
    }

    /** The consistency workflow, standing somewhere; at its end every listed workload is at zero. */
    predicate Consistent()
      reads this, client
    {
      && steps == CONSISTENCY_WORKFLOW && states == REGISTERED
      && (At(0) || At(1) || At(2))
      && (At(2) ==> AllZero(client.store, workloads))
    }

    /** With a healthy API, exactly when a step succeeds: the scale step if the active cluster is reachable
        and every workload can be scaled, the others always. */
    method ExecuteState(state: State) returns (ok: bool)
      modifies client
      ensures client.calls >= old(client.calls)
      ensures old(client.Healthy()) ==>
                (ok <==> state.kind != ScaleWorkload || (reachable && Scalable(old(client.store), workloads)))
      ensures state.kind == ScaleWorkload && !reachable ==> !ok && client.store == old(client.store)
      ensures state.kind != ScaleWorkload ==> ok && client.store == old(client.store)
      ensures state.kind == ScaleWorkload ==>
                exists k: nat :: StoppedAt(old(client.store), client.store, workloads, k) && (ok ==> k == |workloads|)
    {
      match state.kind {
        case PreFlightChecks => ok := true;
        case Complete => ok := true;
        case ScaleWorkload =>
          if !reachable {
            assert StoppedAt(client.store, client.store, workloads, 0);
            return false;
          }
          ghost var reached;
          ok, reached := client.ScaleWorkloads(workloads);
          assert ok ==> workloads[..reached] == workloads;
          assert StoppedAt(old(client.store), client.store, workloads, reached);
      }
    }

    /** A success moves on by one step, or stays at the last; a failure stays.  A successful scale step
        leaves every listed workload at zero, and no other step changes any. */
    method Execute() returns (ok: bool)
      modifies this`current, client
      ensures forall i: nat :: Executable(steps, states) && old(At(i)) ==> At(if ok then Advanced(i, |steps|) else i)
      ensures !ok ==> current == old(current)
      ensures ok ==> old(current).Some?
      ensures ok && old(current).value.kind == ScaleWorkload ==> AllZero(client.store, workloads)
      ensures old(current).Some? && old(current).value.kind != ScaleWorkload ==> client.store == old(client.store)
      ensures old(AllZero(client.store, workloads)) ==> AllZero(client.store, workloads)
      ensures old(Consistent()) ==> Consistent()
      ensures exists k: nat :: StoppedAt(old(client.store), client.store, workloads, k)
      ensures client.calls >= old(client.calls)
      ensures Executable(steps, states) && old(client.Healthy()) ==>
                forall i: nat :: old(At(i)) ==>
                  (ok <==> states[steps[i]].kind != ScaleWorkload ||
                           (reachable && Scalable(old(client.store), workloads)))
      ensures Executable(steps, states) && !reachable ==>
                forall i: nat :: old(At(i)) && states[steps[i]].kind == ScaleWorkload ==>
                  !ok && client.store == old(client.store)
    {
      assert StoppedAt(client.store, client.store, workloads, 0);
      if current.None? {
        return false;
      }
      ok := ExecuteState(current.value);
      if current.value.kind == ScaleWorkload {
        ghost var k: nat :| StoppedAt(old(client.store), client.store, workloads, k) && (ok ==> k == |workloads|);
        StillZero(old(client.store), workloads, k);
        if ok { AllOfThemZero(old(client.store), workloads); }
      }
      if !ok {
        return false;
      }
      var index := 0;
      while index < |steps| && steps[index] != current.value.name
        invariant index <= |steps|
        invariant forall j | 0 <= j < index :: steps[j] != current.value.name
      {
        index := index + 1;
      }
      if index == |steps| {
        return false;
      }
      if index == |steps| - 1 {
        return true;
      }
      if steps[index + 1] !in states {
        return false;
      }
      current := Some(states[steps[index + 1]]);
      return true;
    }

    /** A caller that executes the machine n times.  After k successes, whatever failures lie between them,
        it is k steps on or at the last step, and all the executions together leave what one run of the
        scale step leaves.  In the consistency workflow two successes mean the scale-down is complete. */
    method Drive(n: nat) returns (outcomes: seq<bool>)
      requires Executable(steps, states) && At(0)
      modifies this`current, client
      ensures |outcomes| == n
      ensures At(if Successes(outcomes) < |steps| then Successes(outcomes) else |steps| - 1)
      ensures exists k: nat :: StoppedAt(old(client.store), client.store, workloads, k)
      ensures old(Consistent()) ==> Consistent()
      ensures reachable && old(client.Healthy()) && Scalable(old(client.store), workloads) ==>
                && (forall i | 0 <= i < n :: outcomes[i])
                && At(if n < |steps| then n else |steps| - 1)
      ensures old(Consistent()) && Successes(outcomes) >= 2 ==>
                && AllZero(client.store, workloads)
                && client.store == Zeroed(old(client.store), workloads, |workloads|)
    {
      outcomes := [];
      ghost var reached: nat := 0;
      ghost var fine := reachable && client.Healthy() && Scalable(client.store, workloads);
      for i := 0 to n
        invariant |outcomes| == i && At(Position(0, |steps|, outcomes))
        invariant reached <= |workloads| && client.store == Zeroed(old(client.store), workloads, reached)
        invariant old(Consistent()) ==> Consistent()
        invariant client.calls >= old(client.calls)
        invariant fine ==> forall j | 0 <= j < i :: outcomes[j]
      {
        ghost var before := client.store;
        assert At(Position(0, |steps|, outcomes));
        StillScalable(old(client.store), workloads, reached);
        var ok := Execute();
        ghost var k: nat :| StoppedAt(before, client.store, workloads, k);
        ZeroedAgain(old(client.store), workloads, reached, k);
        reached := if reached < k then k else reached;
        PositionAppend(0, |steps|, outcomes, ok);
        outcomes := outcomes + [ok];
      }
      StepsCountSuccesses(0, |steps|, outcomes);
      if fine { AllSucceed(outcomes); }
      assert StoppedAt(old(client.store), client.store, workloads, reached);
      if old(Consistent()) && Successes(outcomes) >= 2 {
        assert At(2);
        ZeroIsDone(old(client.store), workloads, reached);
      }
    }
  }

  /** A machine for a failover mode, or none if the mode has no workflow. */
  method NewStateMachine(mode: string, workloads: seq<Workload>, client: WorkloadClient, reachable: bool)
    returns (m: StateMachine?)
    ensures m != null <==> mode == "CONSISTENCY"
    ensures m != null ==>
              && m.steps == ["PreFlightChecks", "ScaleWorkload", "Complete"]
              && m.states.Keys == {"PreFlightChecks", "ScaleWorkload", "Complete"}
              && m.states["PreFlightChecks"].kind == PreFlightChecks
              && m.states["ScaleWorkload"].kind == ScaleWorkload
              && m.states["Complete"].kind == Complete
    ensures m != null ==> fresh(m) && m.client == client && m.workloads == workloads && m.reachable == reachable
    ensures m != null ==> m.At(0) && m.Consistent()
    ensures m != null ==> Executable(m.steps, m.states)
  {
    var workflow := GetWorkflow(mode);
    if workflow.None? {
      return null;
    }
    m := new StateMachine(workflow.value, REGISTERED, workloads, client, reachable);
  }

  lemma StillScalable(s: Store, ws: seq<Workload>, k: nat)
    requires k <= |ws|
    ensures Scalable(s, ws) ==> Scalable(Zeroed(s, ws, k), ws)
  {
    forall w <- ws ensures Scalable(s, ws) ==> Supported(w) && w in Zeroed(s, ws, k) {
      ZeroedAt(s, ws, k, w);
    }
  }

  lemma {:induction false} AllSucceed(outcomes: seq<bool>)
    requires forall i | 0 <= i < |outcomes| :: outcomes[i]
    ensures Successes(outcomes) == |outcomes|
  {
    if outcomes == [] {
    } else {
      AllSucceed(outcomes[1..]);
    }
  }

  lemma StillZero(s: Store, ws: seq<Workload>, k: nat)
    requires k <= |ws|
    ensures AllZero(s, ws) ==> AllZero(Zeroed(s, ws, k), ws)
  {
    forall w <- ws ensures AllZero(s, ws) ==> w in Zeroed(s, ws, k) && Zeroed(s, ws, k)[w] == Some(0) {
      ZeroedAt(s, ws, k, w);
    }
  }

  /** The step reached by executions with these outcomes. */
  function Position(i: nat, n: nat, outcomes: seq<bool>): nat
    decreases |outcomes|
  {
    if outcomes == [] then i else Position(if outcomes[0] then Advanced(i, n) else i, n, outcomes[1..])
  }

  lemma {:induction false} PositionAppend(i: nat, n: nat, outcomes: seq<bool>, ok: bool)
    ensures var j := Position(i, n, outcomes); Position(i, n, outcomes + [ok]) == if ok then Advanced(j, n) else j
    decreases |outcomes|
  {
    if outcomes == [] {
      assert [ok][1..] == [];
    } else {
      PositionAppend(if outcomes[0] then Advanced(i, n) else i, n, outcomes[1..], ok);
      assert (outcomes + [ok])[1..] == outcomes[1..] + [ok];
    }
  }

  function Successes(outcomes: seq<bool>): nat {
    if outcomes == [] then 0 else (if outcomes[0] then 1 else 0) + Successes(outcomes[1..])
  }

  /** After k successes, however many failures lie between them, the machine is k steps on, or at the end. */
  lemma {:induction false} StepsCountSuccesses(i: nat, n: nat, outcomes: seq<bool>)
    requires i < n
    ensures Position(i, n, outcomes) == if i + Successes(outcomes) < n then i + Successes(outcomes) else n - 1
    decreases |outcomes|
  {
    if outcomes == [] {
    } else {
      StepsCountSuccesses(if outcomes[0] then Advanced(i, n) else i, n, outcomes[1..]);
    }
  }
}
