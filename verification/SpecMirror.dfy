/** Last-writer-wins synchronisation of one object's spec and annotations to all clusters.
    Timestamps are positive numbers; 0 stands for the zero time of an object without one. */
module SpecMirror {
  import opened Options

  datatype Value = Text(text: string) | Stamp(time: nat)

  type Annotations = map<string, Value>

  const PREFIX := "hahomelabs.com/"

  const LAST_MODIFIED := "hahomelabs.com/last-modified"

  datatype Copy = Copy(spec: string, annotations: Annotations)

  predicate ShouldMirrorAnnotation(key: string) {
    PREFIX <= key
  }

  /** None if the annotation does not parse. */
  function GetLastModified(a: Annotations): Option<nat> {
    if LAST_MODIFIED !in a then Some(0)
    else match a[LAST_MODIFIED]
         case Stamp(t) => Some(t)
         case Text(_) => None
  }

  function SetLastModified(a: Annotations, now: nat): Annotations {
    a[LAST_MODIFIED := Stamp(now)]
  }

  function Merge(current: Annotations, incoming: Annotations): Annotations {
    map k | k in current.Keys + incoming.Keys && (k in current || ShouldMirrorAnnotation(k)) ::
      if k in incoming && ShouldMirrorAnnotation(k) then incoming[k] else current[k]
  }

  /** The copy already stored is kept. */
  predicate Keeps(incoming: nat, current: nat) {
    incoming != 0 && current != 0 && incoming <= current
  }

  /** One cluster after a call with object `obj`, whose own stamp was `incoming`. */
  function Synced(copy: Option<Copy>, obj: Copy, incoming: nat, now: nat): (r: Option<Copy>)
    ensures copy.Some? ==> r.Some?
  {
    var stamped := Copy(obj.spec, SetLastModified(obj.annotations, now));
    match copy
    case None => Some(stamped)
    case Some(cur) =>
      match GetLastModified(cur.annotations)
      case None => copy
      case Some(t) =>
        if Keeps(incoming, t) then copy else Some(Copy(obj.spec, Merge(cur.annotations, stamped.annotations)))
  }

  type Clusters = map<string, Option<Copy>>

  function Absent(clusters: Clusters, among: set<string>): set<string> {
    set c | c in among && c in clusters && clusters[c].None?
  }

  /** How a cluster answers during a call: all calls work, none does, reads work but writes are refused,
      or reads work and writes are carried out and reported as failed. */
  datatype Link = Up | Down | ReadOnly | Lossy

  type Links = map<string, Link>

  function LinkTo(links: Links, c: string): Link {
    if c in links then links[c] else Up
  }

  /** The call has to write to a cluster in this state. */
  predicate Writes(copy: Option<Copy>, incoming: nat) {
    match copy
    case None => true
    case Some(cur) => match GetLastModified(cur.annotations)
                      case None => false
                      case Some(t) => !Keeps(incoming, t)
  }

  /** A cluster at which the call fails whatever happens elsewhere. */
  predicate Broken(clusters: Clusters, links: Links, c: string, incoming: nat)
    requires c in clusters
  {
    || LinkTo(links, c).Down?
    || (clusters[c].Some? && GetLastModified(clusters[c].value.annotations).None?)
    || (!LinkTo(links, c).Up? && Writes(clusters[c], incoming))
  }

  /** When a call succeeds: the object's own stamp parses, no cluster is broken, and there is no more to
      create than one fresh object serves. */
  predicate Succeeds(clusters: Clusters, obj: Copy, versioned: bool, links: Links) {
    && GetLastModified(obj.annotations).Some?
    && (forall c <- clusters.Keys :: !Broken(clusters, links, c, GetLastModified(obj.annotations).value))
    && |Absent(clusters, clusters.Keys)| <= if versioned then 0 else 1
  }

  /** One call of `SyncSpec`: the object, whether it carries server metadata, the time, and how the
      clusters answer. */
  datatype SpecCall = SpecCall(obj: Copy, versioned: bool, now: nat, links: Links)

  class SpecMirror {
    var clusters: Clusters

    constructor (clusters: Clusters)
      ensures this.clusters == clusters
    {
      this.clusters := clusters;
    }

    /** One cluster's turn.  A create is refused if the object carries server metadata, and one that
        succeeds puts it in.  A failed turn leaves the cluster untouched or, if only the answer got lost,
        synced. */
    method SyncOne(c: string, obj: Copy, incoming: nat, now: nat, versioned: bool, links: Links) returns (ok: bool)
      requires c in clusters
      modifies this
      ensures ok == (!Broken(old(clusters), links, c, incoming) && (old(clusters)[c].None? ==> !versioned))
      ensures ok ==> clusters == old(clusters)[c := Synced(old(clusters)[c], obj, incoming, now)]
      ensures !ok ==>
                || clusters == old(clusters)
                || (LinkTo(links, c).Lossy? &&
                    clusters == old(clusters)[c := Synced(old(clusters)[c], obj, incoming, now)])
    {
      var link := LinkTo(links, c);
      if link.Down? {
        return false;
      }
      var stamped := Copy(obj.spec, SetLastModified(obj.annotations, now));
      match clusters[c] {
        case None =>
          if versioned || link.ReadOnly? {
            return false;
          }
          clusters := clusters[c := Some(stamped)];
        case Some(current) =>
          var t := GetLastModified(current.annotations);
          if t.None? {
            return false;
          }
          if Keeps(incoming, t.value) {
            return true;
          }
          if link.ReadOnly? {
            return false;
          }
          clusters := clusters[c := Some(Copy(obj.spec, Merge(current.annotations, stamped.annotations)))];
      }
      return link.Up?;
    }

    /** A cluster's turn in a call that met the clusters as `before` and is through with `done`. */
    method Turn(c: string, obj: Copy, incoming: nat, now: nat, versioned: bool, links: Links,
                ghost before: Clusters, ghost done: set<string>, ghost initially: bool)
      returns (ok: bool, hasVersion: bool)
      requires c in before && c !in done && done <= before.Keys
      requires CreatedSoFar(before, done, versioned, initially)
      requires GetLastModified(obj.annotations) == Some(incoming)
      requires SyncedIn(before, clusters, done, obj, incoming, now, links)
      modifies this
      ensures ok ==> SyncedIn(before, clusters, done + {c}, obj, incoming, now, links)
      ensures ok ==> CreatedSoFar(before, done + {c}, hasVersion, initially)
      ensures !ok ==> !Succeeds(before, obj, initially, links)
      ensures !ok ==> AllSyncedOr(before, clusters, obj, now)
    {
      ghost var current := clusters;
      hasVersion := versioned || clusters[c].None?;
      ok := SyncOne(c, obj, incoming, now, versioned, links);
      if ok {
        TurnDone(before, current, clusters, done, c, obj, incoming, now, links);
        CountStep(before, done, c, versioned, initially);
      } else {
        TurnFailed(before, current, clusters, done, c, obj, now, links);
        FailsAt(before, done, c, versioned, obj, initially, links);
      }
    }

    /** The clusters are visited in any order.  A failed call leaves each of them synced or untouched. */
    method SyncSpec(obj: Copy, versioned: bool, now: nat, links: Links) returns (ok: bool)
      modifies this
      ensures ok <==> Succeeds(old(clusters), obj, versioned, links)
      ensures AllSyncedOr(old(clusters), clusters, obj, now)
      ensures ok ==> AllSynced(old(clusters), clusters, obj, now)
    {
      var stamp := GetLastModified(obj.annotations);
      if stamp.None? {
        return false;
      }
      var incoming := stamp.value;
      var hasVersion := versioned;
      var todo := clusters.Keys;
      ghost var before, done := clusters, {};
      NothingDone(before, obj, incoming, now, links);
      while todo != {}
        invariant done <= before.Keys && todo == before.Keys - done
        invariant SyncedIn(before, clusters, done, obj, incoming, now, links)
        invariant CreatedSoFar(before, done, hasVersion, versioned)
        decreases todo
      {
        var c :| c in todo;
        ok, hasVersion := Turn(c, obj, incoming, now, hasVersion, links, before, done, versioned);
        if !ok {
          return;
        }
        todo := todo - {c};
        done := done + {c};
      }
      assert done == before.Keys;
      AllDone(before, clusters, hasVersion, obj, versioned, now, links);
      return true;
    }

    /** Any sequence of calls, failed ones included, whatever the clusters answer: while the clock does not
        go back, no copy disappears and no stamp decreases. */
    method SyncAll(calls: seq<SpecCall>, start: nat) returns (oks: seq<bool>)
      requires Ordered(calls, start)
      modifies this
      ensures |oks| == |calls| && clusters.Keys == old(clusters.Keys)
      ensures forall c <- clusters.Keys :: Advanced(old(clusters)[c], clusters[c], start)
    {
      oks := [];
      ghost var now := start;
      for i := 0 to |calls|
        invariant |oks| == i && clusters.Keys == old(clusters.Keys)
        invariant now == if i == 0 then start else calls[i - 1].now
        invariant start <= now
        invariant forall c <- clusters.Keys :: Advanced(old(clusters)[c], clusters[c], start)
        invariant forall c <- clusters.Keys :: Timed(old(clusters)[c], start) ==> Timed(clusters[c], now)
      {
        ghost var before := clusters;
        var call := calls[i];
        var ok := SyncSpec(call.obj, call.versioned, call.now, call.links);
        forall c <- clusters.Keys
          ensures Advanced(old(clusters)[c], clusters[c], start)
          ensures Timed(old(clusters)[c], start) ==> Timed(clusters[c], call.now)
        {
          OneCallAdvances(old(clusters)[c], before[c], clusters[c], call.obj, call.now, start, now);
        }
        oks := oks + [ok];
        now := call.now;
      }
    }
  }

  /** The cluster was left alone or synced. */
  predicate SyncedOr(copy: Option<Copy>, copy': Option<Copy>, obj: Copy, now: nat) {
    || copy' == copy
    || (GetLastModified(obj.annotations).Some?
        && copy' == Synced(copy, obj, GetLastModified(obj.annotations).value, now))
  }

  ghost predicate AllSyncedOr(before: Clusters, clusters: Clusters, obj: Copy, now: nat) {
    clusters.Keys == before.Keys && forall c <- before.Keys :: SyncedOr(before[c], clusters[c], obj, now)
  }

  /** Each cluster ends as its own sync makes it. */
  ghost predicate AllSynced(before: Clusters, clusters: Clusters, obj: Copy, now: nat) {
    && clusters.Keys == before.Keys && GetLastModified(obj.annotations).Some?
    && forall c <- before.Keys :: clusters[c] == Synced(before[c], obj, GetLastModified(obj.annotations).value, now)
  }

  /** The clock does not go back. */
  predicate Ordered(calls: seq<SpecCall>, start: nat) {
    && (forall i | 0 <= i < |calls| :: start <= calls[i].now)
    && forall i, j | 0 <= i < j < |calls| :: calls[i].now <= calls[j].now
  }

  /** A copy with a stamp that is not ahead of the clock. */
  predicate Timed(copy: Option<Copy>, now: nat) {
    && copy.Some? && GetLastModified(copy.value.annotations).Some?
    && GetLastModified(copy.value.annotations).value <= now
  }

  /** No copy has disappeared, and a stamp that was not ahead of the clock has not gone back. */
  predicate Advanced(copy: Option<Copy>, copy': Option<Copy>, start: nat) {
    && (copy.Some? ==> copy'.Some?)
    && (Timed(copy, start) ==>
          && GetLastModified(copy'.value.annotations).Some?
          && GetLastModified(copy.value.annotations).value <= GetLastModified(copy'.value.annotations).value)
  }

  lemma OneCallAdvances(first: Option<Copy>, copy: Option<Copy>, copy': Option<Copy>, obj: Copy, now: nat, start: nat,
                        before: nat)
    requires Advanced(first, copy, start) && (Timed(first, start) ==> Timed(copy, before))
    requires SyncedOr(copy, copy', obj, now) && before <= now
    ensures Advanced(first, copy', start) && (Timed(first, start) ==> Timed(copy', now))
  {
    if Timed(first, start) && copy' != copy {
      LastWriterWins(copy.value, obj, GetLastModified(obj.annotations).value, now);
    }
  }

  /** The clusters of `done` are synced and were not broken, and the others are as they were. */
  ghost predicate SyncedIn(before: Clusters, clusters: Clusters, done: set<string>, obj: Copy, incoming: nat, now: nat,
                           links: Links)
  {
    && clusters.Keys == before.Keys
    && (forall c <- done :: c in before && clusters[c] == Synced(before[c], obj, incoming, now))
    && (forall c <- done :: c in before && !Broken(before, links, c, incoming))
    && forall c <- before.Keys :: c !in done ==> clusters[c] == before[c]
  }

  lemma TurnDone(before: Clusters, current: Clusters, next: Clusters, done: set<string>, c: string,
                 obj: Copy, incoming: nat, now: nat, links: Links)
    requires SyncedIn(before, current, done, obj, incoming, now, links) && c in before && c !in done
    requires !Broken(current, links, c, incoming)
    requires next == current[c := Synced(current[c], obj, incoming, now)]
    ensures SyncedIn(before, next, done + {c}, obj, incoming, now, links)
  {}

  lemma TurnFailed(before: Clusters, current: Clusters, next: Clusters, done: set<string>, c: string,
                   obj: Copy, now: nat, links: Links)
    requires GetLastModified(obj.annotations).Some? && c in before && c !in done
    requires SyncedIn(before, current, done, obj, GetLastModified(obj.annotations).value, now, links)
    requires
      || next == current
      || next == current[c := Synced(current[c], obj, GetLastModified(obj.annotations).value, now)]
    ensures AllSyncedOr(before, next, obj, now)
  {
    forall d <- before.Keys ensures SyncedOr(before[d], next[d], obj, now) {
      assert d in done || current[d] == before[d];
    }
  }

  lemma AllDone(before: Clusters, clusters: Clusters, hasVersion: bool, obj: Copy, versioned: bool, now: nat,
                links: Links)
    requires GetLastModified(obj.annotations).Some?
    requires SyncedIn(before, clusters, before.Keys, obj, GetLastModified(obj.annotations).value, now, links)
    requires CreatedSoFar(before, before.Keys, hasVersion, versioned)
    ensures Succeeds(before, obj, versioned, links)
    ensures AllSynced(before, clusters, obj, now) && AllSyncedOr(before, clusters, obj, now)
  {}

  lemma FailsAt(before: Clusters, done: set<string>, c: string, hasVersion: bool, obj: Copy, versioned: bool,
                links: Links)
    requires GetLastModified(obj.annotations).Some? && c in before && c !in done && done <= before.Keys
    requires CreatedSoFar(before, done, hasVersion, versioned)
    requires
      || Broken(before, links, c, GetLastModified(obj.annotations).value)
      || (before[c].None? && hasVersion)
    ensures !Succeeds(before, obj, versioned, links)
  {
    AbsentGrows(before, done, c);
    AbsentAmong(before, done + {c}, before.Keys);
  }

  lemma AbsentGrows(clusters: Clusters, done: set<string>, c: string)
    requires c !in done && c in clusters
    ensures Absent(clusters, done + {c}) == Absent(clusters, done) + if clusters[c].None? then {c} else {}
    ensures c !in Absent(clusters, done)
  {}

  lemma NothingDone(before: Clusters, obj: Copy, incoming: nat, now: nat, links: Links)
    ensures SyncedIn(before, before, {}, obj, incoming, now, links) && Absent(before, {}) == {}
  {}

  /** The object carries server metadata from the start or because it was created in one of `done`. */
  ghost predicate CreatedSoFar(before: Clusters, done: set<string>, hasVersion: bool, versioned: bool) {
    && (versioned ==> hasVersion)
    && |Absent(before, done)| == if hasVersion && !versioned then 1 else 0
  }

  lemma CountStep(before: Clusters, done: set<string>, c: string, hasVersion: bool, versioned: bool)
    requires c in before && c !in done && (before[c].None? ==> !hasVersion)
    requires CreatedSoFar(before, done, hasVersion, versioned)
    ensures CreatedSoFar(before, done + {c}, hasVersion || before[c].None?, versioned)
  {
    AbsentGrows(before, done, c);
  }

  lemma AbsentAmong(clusters: Clusters, some: set<string>, all: set<string>)
    requires some <= all
    ensures |Absent(clusters, some)| <= |Absent(clusters, all)|
  {
    var a, b := Absent(clusters, some), Absent(clusters, all);
    assert b == a + (b - a);
  }

  // ----- what a call means for one copy

  function StampOf(copy: Copy): nat
    requires GetLastModified(copy.annotations).Some?
  {
    GetLastModified(copy.annotations).value
  }

  /** Last writer wins: a stored copy takes the incoming spec and the new stamp, unless both sides are
      stamped and the stored one is not older; then it does not change at all. */
  lemma LastWriterWins(cur: Copy, obj: Copy, incoming: nat, now: nat)
    requires GetLastModified(cur.annotations).Some?
    ensures var new' := Synced(Some(cur), obj, incoming, now).value;
            if 0 < incoming <= StampOf(cur) then new' == cur
            else new'.spec == obj.spec && GetLastModified(new'.annotations) == Some(now)
  {
    assert ShouldMirrorAnnotation(LAST_MODIFIED) by {
      assert LAST_MODIFIED[..|PREFIX|] == PREFIX;
    }
  }

  /** Annotations outside the mirrored prefix are never added, changed or removed in a stored copy, and
      no key disappears. */
  lemma ForeignAnnotationsStay(cur: Copy, obj: Copy, incoming: nat, now: nat)
    requires GetLastModified(cur.annotations).Some?
    ensures var new' := Synced(Some(cur), obj, incoming, now).value;
            && cur.annotations.Keys <= new'.annotations.Keys
            && forall k | !ShouldMirrorAnnotation(k) ::
                 (k in new'.annotations <==> k in cur.annotations)
                 && (k in cur.annotations ==> new'.annotations[k] == cur.annotations[k])
  {
    assert ShouldMirrorAnnotation(LAST_MODIFIED) by {
      assert LAST_MODIFIED[..|PREFIX|] == PREFIX;
    }
  }

  /** The mirrored prefix. */
  lemma MirroredIff(k: string)
    ensures ShouldMirrorAnnotation(k) <==> exists rest :: k == "hahomelabs.com/" + rest
  {
    if ShouldMirrorAnnotation(k) {
      assert k == "hahomelabs.com/" + k[|PREFIX|..];
    }
  }

  /** A copy that takes the incoming object over gets every annotation with the prefix: an incoming value
      wins, and a stored one without an incoming one stays. */
  lemma MirroredAnnotationsArrive(cur: Copy, obj: Copy, incoming: nat, now: nat, k: string)
    requires GetLastModified(cur.annotations).Some? && !(0 < incoming <= StampOf(cur))
    requires ShouldMirrorAnnotation(k) && k != LAST_MODIFIED
    ensures var annotations := Synced(Some(cur), obj, incoming, now).value.annotations;
            && (k in annotations <==> k in cur.annotations || k in obj.annotations)
            && (k in obj.annotations ==> annotations[k] == obj.annotations[k])
            && (k in cur.annotations && k !in obj.annotations ==> annotations[k] == cur.annotations[k])
  {}

  /** A copy that had to be created is the incoming object with the new stamp. */
  lemma CreatedCopyIsTheObject(obj: Copy, incoming: nat, now: nat)
    ensures var copy := Synced(None, obj, incoming, now);
            && copy.Some? && copy.value.spec == obj.spec && GetLastModified(copy.value.annotations) == Some(now)
            && forall k | k != LAST_MODIFIED ::
                 && (k in copy.value.annotations <==> k in obj.annotations)
                 && (k in obj.annotations ==> copy.value.annotations[k] == obj.annotations[k])
  {}

  /** A stamp that does not parse, on the object or on any copy, makes the call fail. */
  lemma BadStampFails(clusters: Clusters, obj: Copy, versioned: bool, links: Links, c: string, text: string)
    requires || (LAST_MODIFIED in obj.annotations && obj.annotations[LAST_MODIFIED] == Text(text))
             || (c in clusters && clusters[c].Some? && LAST_MODIFIED in clusters[c].value.annotations
                 && clusters[c].value.annotations[LAST_MODIFIED] == Text(text))
    ensures !Succeeds(clusters, obj, versioned, links)
  {}

  predicate BadStamp(a: Annotations) {
    LAST_MODIFIED in a && a[LAST_MODIFIED].Text?
  }

  /** With clusters that answer, a call succeeds exactly if every stamp there is parses and no more clusters
      lack the object than one fresh object serves.  An object without a stamp is no error. */
  lemma HealthyCallSucceedsIff(clusters: Clusters, obj: Copy, versioned: bool, links: Links)
    requires forall c <- clusters.Keys :: LinkTo(links, c).Up?
    ensures Succeeds(clusters, obj, versioned, links) <==>
              && !BadStamp(obj.annotations)
              && (forall c <- clusters.Keys :: clusters[c].Some? ==> !BadStamp(clusters[c].value.annotations))
              && |Absent(clusters, clusters.Keys)| <= if versioned then 0 else 1
  {
    if Succeeds(clusters, obj, versioned, links) {
      forall c <- clusters.Keys | clusters[c].Some?
        ensures !BadStamp(clusters[c].value.annotations)
      {
        assert !Broken(clusters, links, c, GetLastModified(obj.annotations).value);
      }
    }
  }

  /** Without a stamp on both sides to compare, the incoming spec is taken. */
  lemma UnstampedIsTakenOver(cur: Copy, obj: Copy, now: nat)
    requires !BadStamp(cur.annotations) && !BadStamp(obj.annotations)
    requires LAST_MODIFIED !in cur.annotations || LAST_MODIFIED !in obj.annotations
    ensures GetLastModified(obj.annotations).Some?
    ensures Synced(Some(cur), obj, GetLastModified(obj.annotations).value, now).value.spec == obj.spec
  {}

  // ----- sequences of calls

  datatype Write = Write(obj: Copy, incoming: nat, now: nat)

  function SyncedAll(cur: Copy, ws: seq<Write>): Copy
    decreases |ws|
  {
    if ws == [] then cur
    else SyncedAll(Synced(Some(cur), ws[0].obj, ws[0].incoming, ws[0].now).value, ws[1..])
  }

  /** Stamps never go back while the clock does not. */
  lemma {:induction false} StampsAreMonotone(cur: Copy, ws: seq<Write>)
    requires GetLastModified(cur.annotations).Some?
    requires ws != [] ==> StampOf(cur) <= ws[0].now
    requires forall i, j | 0 <= i < j < |ws| :: ws[i].now <= ws[j].now
    ensures GetLastModified(SyncedAll(cur, ws).annotations).Some?
    ensures StampOf(cur) <= StampOf(SyncedAll(cur, ws))
    decreases |ws|
  {
    if ws == [] {
    } else {
      LastWriterWins(cur, ws[0].obj, ws[0].incoming, ws[0].now);
      StampsAreMonotone(Synced(Some(cur), ws[0].obj, ws[0].incoming, ws[0].now).value, ws[1..]);
    }
  }

  /** The stamp written is the time of the call, not of the edit.  So an edit that followed the one just
      synced survives exactly if it was also made after that sync, or carries no stamp. */
  lemma LaterEditSurvivesIff(cur: Copy, first: Write, second: Write)
    requires GetLastModified(cur.annotations).Some? && !Keeps(first.incoming, StampOf(cur))
    requires first.incoming < second.incoming || second.incoming == 0
    requires 0 < first.now && first.obj.spec != second.obj.spec
    ensures SyncedAll(cur, [first, second]).spec == second.obj.spec <==>
            second.incoming == 0 || first.now < second.incoming
  {
    LastWriterWins(cur, first.obj, first.incoming, first.now);
    var mid := Synced(Some(cur), first.obj, first.incoming, first.now).value;
    LastWriterWins(mid, second.obj, second.incoming, second.now);
    assert [first, second][1..] == [second] && [second][1..] == [];
    assert SyncedAll(mid, [second]) == Synced(Some(mid), second.obj, second.incoming, second.now).value;
  }
}
