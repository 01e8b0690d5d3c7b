/** The custom resource that is mirrored, one cluster's API server for it, and the
    five calls the controllers make.  Only one namespaced name is modelled, so a
    cluster holds at most one copy. */
module ApiServer {
  import opened Options

  /** `sot` is spec.sourceOfTruthCluster; `body` stands for every other spec field. */
  datatype Spec = Spec(sot: string, body: string)

  /** The first three fields are those of a FailoverGroup, the last three those of a Failover. */
  datatype Status = Status(activeCluster: string, health: string, lastHeartbeat: string,
                           status: string, state: string, message: string)

  const EMPTY_STATUS := Status("", "", "", "", "", "")

  datatype Object = Object(spec: Spec, annotations: map<string, string>, status: Status)

  datatype Versioned = Versioned(version: nat, obj: Object)

  datatype EventKind = Added | Updated | Deleted

  datatype Event = Event(kind: EventKind, snapshot: Versioned)

  /** One cluster: the stored copy, the last resource version handed out, and the
      informer events not yet handled. */
  datatype Node = Node(copy: Option<Versioned>, clock: nat, queue: seq<Event>)

  datatype Call =
    | Get
    | Create(obj: Object)
    | Update(sent: Versioned)
    | UpdateStatus(sent: Versioned)
    | Delete

  datatype Response =
    | Success(got: Versioned)
    | NotFound
    | Conflict
    | AlreadyExists
    | Failure

  /** Stores `obj` under a fresh version and raises the event for it. */
  function Store(n: Node, kind: EventKind, obj: Object): Node {
    var v := Versioned(n.clock + 1, obj);
    Node(Some(v), n.clock + 1, n.queue + [Event(kind, v)])
  }

  /** Overwrites the stored copy; writing what is already there changes nothing and raises no event. */
  function Write(n: Node, obj: Object): Node
    requires n.copy.Some?
  {
    if obj == n.copy.value.obj then n else Store(n, Updated, obj)
  }

  function Remove(n: Node): Node
    requires n.copy.Some?
  {
    Node(None, n.clock + 1, n.queue + [Event(Deleted, n.copy.value)])
  }

  /** What the server does with one call that reaches it.  A plain create or update
      ignores the status, a status update ignores everything else, and both kinds of
      update need the version to match. */
  function Serve(n: Node, call: Call): (Response, Node) {
    match call
    case Get =>
      (if n.copy.Some? then Success(n.copy.value) else NotFound, n)
    case Create(obj) =>
      if n.copy.Some? then (AlreadyExists, n)
      else
        var n' := Store(n, Added, obj.(status := EMPTY_STATUS));
        (Success(n'.copy.value), n')
    case Update(sent) =>
      if n.copy.None? then (NotFound, n)
      else if n.copy.value.version != sent.version then (Conflict, n)
      else
        var n' := Write(n, sent.obj.(status := n.copy.value.obj.status));
        (Success(n'.copy.value), n')
    case UpdateStatus(sent) =>
      if n.copy.None? then (NotFound, n)
      else if n.copy.value.version != sent.version then (Conflict, n)
      else
        var n' := Write(n, n.copy.value.obj.(status := sent.obj.status));
        (Success(n'.copy.value), n')
    case Delete =>
      if n.copy.None? then (NotFound, n) else (Success(n.copy.value), Remove(n))
  }
}
