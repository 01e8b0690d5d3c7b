# Multicluster Failover Operator: a verified model

The operator keeps one `Failover` or `FailoverGroup` object replicated over any number of
Kubernetes clusters, elects one running instance with a Redis lock, and scales workloads
down during a failover. This project models that behaviour in Dafny and proves what holds
of it. `dafny verify dfyconfig.toml` checks everything.

## What is modelled

**The mirror protocol.** `ApiServer` is one cluster: the stored copy, its resource version
and the informer events not yet handled, with the server's answer to each call. `Mirror`
gives each handler as one atomic step on the whole fleet and defines runs, in which any
pending event of any cluster may be handled next. On top of it:

- `Convergence`, `SpecEdits`, `Deletion`: the echo storm of the controllers' own writes ends,
  with a bound on the number of events handled, and what is stored afterwards, with the exact
  condition for all copies to be identical. Two rival edits settle if and only if they agree.
- `ClusterClient`, `Retries`, `MirrorReconciler`, `OwnerReconciler`: the handlers as they run, with
  retry loops and loops over clusters, while other writers and API failures strike between any
  two calls. Undisturbed, they do what `Mirror` and `Owners` say; under any schedule of other
  writers and failures, they do what the threads of `Interleaving` do (`Scheduled`).
- `Containment`: what API failures cannot do. An edit or a deletion that fails at the source of
  truth goes no further.
- `Interleaving`, `Safety`: the handlers as threads that make one API call at a time, with late
  and repeated deliveries, stale reads, failures (also after the write took effect) and users.
  Safety properties hold in every reachable state.
- `Undisturbed`: every handler thread ends after a bounded number of steps and never waits, and
  alone it does exactly what the atomic description says, so the two views are of one protocol.
- `Owners`: the `Failover` and `FailoverGroup` controllers and their event loops. `ClaimRace`: their
  race with the mirror controller for a new object, over every order of API calls. `Creation`: from
  the creation of an object to the end, with its own controller and the mirror controllers.

**Leader election.** `LeaderLock` is a timed transition system of any number of instances and
Redis nodes; `Leadership` is the election loop and the consumer that starts and stops the
controllers. The messages sent in `LeaderLock` are proved to be those of the loop in `Leadership`.
`Recovery`: a tick finds what the nodes hold, a lost lock is acquired again, a held one renewed.

**Spec mirroring** (`SpecMirror`), **the failover step machine and scale-down** (`StateMachine`)
and **the fan-in wait** (`FanIn`).

## What is assumed of code that is not in the repository

- API server: an update or status update needs the stored resource version; a plain create or
  update ignores the status, a status update ignores everything else; writing what is already
  stored changes no version and raises no event; a successful call returns the stored object, which
  replaces the caller's. Creating an object that carries a resource version is refused.
- No cluster is named by the empty string, and each handler works on its own copy of an event.
- A Redis node sets the key if it is absent, and extends or deletes it only for the value stored; it
  keeps an entry for at least 178.2 s after it was set (180 s less 1 % drift) and loses no data. A
  request to set or extend an entry may reach a node at any later time; a request to delete one takes
  effect in the phase of the loop that sent it or never. The lock value of an instance, its ID, is the
  same in all its attempts and no other instance's. A manager start is bound to the context current
  when its message is received.
- Timing, for the single-leader theorem: an instance that runs its controllers, or has a start message
  in its channel, is within 178.2 s of the start of its last successful acquisition or extension.

## What the proofs found

- A cluster that gets its copy created keeps an empty status if it was the only one out of step
  (`Convergence.ConvergesFully`, `Convergence.NewcomerMissesStatus`).
- An edit of annotations away from the source of truth, with the spec unchanged, goes nowhere and stays
  where it was made (`SpecEdits.AnnotationEditIsStuck`).
- Two concurrent edits are passed back and forth for ever unless their specs are equal
  (`SpecEdits.RivalsSettleIff`).
- If the mirror controller claims a new `Failover` or `FailoverGroup` before its own controller does,
  that controller's claim conflicts and no later event makes it try again
  (`ClaimRace.FirstClaimDecides`, `Owners.GroupClaimLost`).
- After one failed check or extension the manager stays stopped for as long as the instance keeps the
  lock (`Leadership.HeldLockIdleManager`, `Leadership.HiccupIdlesManager`).
- A deletion sent after a failed attempt to get the lock, arriving after the next attempt has succeeded,
  lets a second instance lead at once: both attempts use the instance's ID as value
  (`LeaderLock.LateDeleteSharesTheLead`).
- `SyncSpec` stamps a copy with the time of the call, so a later edit made before that call is dropped
  (`SpecMirror.LaterEditSurvivesIff`); with two clusters lacking the object it always fails.
- A delete event whose object was never claimed deletes nothing (`Deletion.DeleteEventClears`).

## Model

| member | source | states |
|---|---|---|
| ClusterClient.Client.Invoke | internal/controller/mirror/manager.go:719-749 | one API call: other writers first, then the server's answer at the called cluster, or a failure, with or without the call carried out; nothing else changed |
| MirrorReconciler.Reconciler.Attempt | internal/controller/mirror/manager.go:323-346 | one update of a retry loop, as the server answers it: a success stores the edit over exactly the copy read; a failure may have been carried out |
| MirrorReconciler.Reconciler.Round | internal/controller/mirror/manager.go:480-503 | an update and the read after its conflict: either the loop goes on with the copy read again, or it has ended, in just one way |
| MirrorReconciler.Reconciler.UpdateWithRetry | internal/controller/mirror/manager.go:478-510 | the handler thread's retry loop, under any schedule; no lost updates: a success equals the edit applied atomically to the copy stored just before it; at most five updates; without failures it gives up only if each of the five was overtaken, so up to four conflicting writers are absorbed |
| MirrorReconciler.Reconciler.ReplaceSpec | internal/controller/mirror/manager.go:718-742 | the thread's spec update under any schedule; a success has written the source's spec over the copy stored just before, and the annotations unless the first update met a conflict; the status is kept; without failures it succeeds exactly if other writers do not get in before both updates |
| MirrorReconciler.Reconciler.ReplaceStatus | internal/controller/mirror/manager.go:744-782 | the thread's status update under any schedule; a success ends with the source's status; without failures it succeeds exactly if other writers do not get in before both updates; undisturbed nothing else changes |
| MirrorReconciler.Reconciler.SyncToCluster | internal/controller/mirror/manager.go:643-786 | the thread's sync of one cluster under any schedule; a success ends with the source's status, or an empty one after a create, and at some moment the copy had the source's spec and, without a conflict, annotations; without failures it succeeds exactly if neither update is hit twice; undisturbed the target becomes a replica |
| MirrorReconciler.Reconciler.SyncOthers | internal/controller/mirror/manager.go:512-521 | under any schedule, the thread's loop over the targets in some order; undisturbed each becomes what a sync makes of it and no other cluster changes |
| MirrorReconciler.Reconciler.PushToSource | internal/controller/mirror/manager.go:414-510 | the thread's push under any schedule; if the first read fails nothing is changed; undisturbed the source of truth takes the spec, keeps annotations and status, and is what is sent on |
| MirrorReconciler.Reconciler.SendThroughSource | internal/controller/mirror/manager.go:410-523 | under any schedule, the thread from the first read at the source of truth to the last sync; if that read fails nobody's copy is changed; undisturbed the fleet becomes what `Propagate` says |
| MirrorReconciler.Reconciler.HandleResourceUpdate | internal/controller/mirror/manager.go:384-538 | under any schedule of other writers and failures, the handler plays the thread of an update event to its end; if the source of truth cannot be read nobody's copy is changed; undisturbed the fleet becomes what `Propagate` says |
| MirrorReconciler.Reconciler.HandleResourceAdd | internal/controller/mirror/manager.go:189-381 | the same for an add event; undisturbed, an unclaimed object is claimed and nothing is sent on |
| MirrorReconciler.Reconciler.DeleteOthers | internal/controller/mirror/manager.go:617-638 | under any schedule, one deletion per target, in some order, whichever fail; undisturbed every target's copy is deleted |
| MirrorReconciler.Reconciler.HandleResourceDelete | internal/controller/mirror/manager.go:541-640 | under any schedule, the thread of a delete event; if the deletion at the source of truth is refused no other copy is deleted; undisturbed, all other copies are deleted if the source of truth is a listed cluster |
| MirrorReconciler.Reconciler.HandleResourceEvent | internal/controller/mirror/manager.go:157-186 | under any schedule, each kind of event plays the thread of its handler; undisturbed it does to the fleet what the atomic handler does |
| Retries.RetryLands | internal/controller/mirror/manager.go:478-510 | every retry loop, failures included: what is written is the edit applied to the copy stored just before |
| Retries.RetryIsOvertaken | internal/controller/mirror/manager.go:478-510 | without failures, update number k conflicts exactly if another writer gets in before it, and the loop gives up exactly after five of them |
| Retries.RetryIsThread | internal/controller/mirror/manager.go:223-250 | the retry loop makes the calls of the handler thread and ends where it does |
| Containment.PushStaysAtSource | internal/controller/mirror/manager.go:425-510 | under any schedule only the source of truth is written to before something is sent on, and that is the brought spec, in its stored copy unless eleven calls went by in conflicts |
| Containment.UnsavedEditGoesNoFurther | internal/controller/mirror/manager.go:453-456 | an edit that does not reach the source of truth, for whatever reason, changes no other cluster's copy |
| Containment.PushReachesIff | internal/controller/mirror/manager.go:430-508 | without other writers an edit reaches the source of truth if and only if the read, the update and, without a copy there, the creation work |
| Containment.FailedPushChangesNobodyElse | internal/controller/mirror/manager.go:505-508 | without other writers, one failed call at the source of truth leaves all other copies as they were |
| Containment.FailedDeletionStops | internal/controller/mirror/manager.go:590-615 | a deletion that fails at the source of truth is the handler's only call, and deletes no other copy |
| Containment.DeletionsGoOn | internal/controller/mirror/manager.go:617-638 | each target gets its deletion whichever fail: no more copies survive than calls have failed |
| Convergence.StableStep | internal/controller/mirror/manager.go:411-537 | handling any event keeps: the source of truth's copy unchanged, every pending event carrying its spec, its own pending events in order |
| Convergence.MeasureDrops | internal/controller/mirror/manager.go:411-537 | every handled event lowers a measure of differing fields and pending events |
| Convergence.ConvergesFromSource | internal/controller/mirror/manager.go:525-537 | while the source of truth's spec stands still, every order of handling ends; then every cluster has its spec and annotations, and every cluster that had a copy its status |
| Convergence.ConvergesFully | internal/controller/mirror/manager.go:643-786 | a bound on the events handled, and all copies end identical if and only if there were two source events or the one lagging cluster was not a newcomer with a status to miss |
| Convergence.NewcomerMissesStatus | internal/controller/mirror/manager.go:671-690 | a source of truth with a status and one new cluster: two events are handled, all is quiet, and the new copy has an empty status |
| Convergence.ChasedRun | internal/controller/mirror/manager.go:512-521 | once all copies exist, a run ends with identical copies if and only if at its start some pending event is of another cluster than one out of step |
| SpecEdits.FirstEditStep | internal/controller/mirror/manager.go:410-523 | one edit elsewhere: the source of truth takes the spec only, the editing cluster is untouched, all others are synced from the source of truth |
| SpecEdits.ConvergesFromEdit | internal/controller/mirror/manager.go:410-523 | from one edit in a non-source cluster every order ends within a bound, that spec is everywhere, the source of truth keeps annotations and status, and all copies are identical if and only if the edit reaches every cluster left behind |
| SpecEdits.AnnotationEditIsStuck | internal/controller/mirror/manager.go:459-523 | annotations changed away from the source of truth: the event is handled, all is quiet, and the copies differ |
| SpecEdits.ConvergesFromCreation | internal/controller/mirror/manager.go:214-262 | from the creation of an object, with the mirror controllers alone, every order ends within a bound, with the object, owned by the cluster of creation, everywhere |
| SpecEdits.RivalsNeverSettle | internal/controller/mirror/manager.go:384-538 | two concurrent different specs, in a fleet of any size and with any annotations and statuses, give runs of every length, each informer in order, that leave an event to handle |
| SpecEdits.RivalsSettleIff | internal/controller/mirror/manager.go:384-538 | with only the events of two concurrent edits pending, in any fleet, the number of events handled is bounded if and only if the two specs are equal, and then that spec ends up everywhere |
| Deletion.DeleteEventClears | internal/controller/mirror/manager.go:569-639 | one delete event leaves no copy if its source of truth is listed and changes no copy otherwise; events and copies left decrease |
| Deletion.DeletionCompletes | internal/controller/mirror/manager.go:541-640 | in every order the cascade of deletions ends, no copy comes back, and after an event with a listed source of truth none is left |
| Deletion.DeletionIsShort | internal/controller/mirror/manager.go:541-640 | at most two events per cluster are handled |
| Safety.CallIsOk | internal/controller/mirror/manager.go:302-346 | whatever a handler is about to write names the source of truth, carries a body some user wrote, and outside the source cluster a status it once held |
| Safety.NextIsOk | internal/controller/mirror/manager.go:643-786 | a handler stays within its rules on every answer |
| Safety.StepKeepsInv | internal/controller/mirror/manager.go:189-786 | every step of every controller and user keeps the safety invariant |
| Safety.UniqueSourceOfTruth | internal/controller/mirror/manager.go:202-262 | in every reachable state the copy in the cluster of creation names it or nothing, all other copies and events name it, and no handler is about to write an unclaimed object |
| Safety.ClaimNeverReverts | internal/controller/failovergroups/manager.go:148-165 | no step makes a claimed copy unclaimed while it exists |
| Safety.ActiveClusterAgrees | internal/controller/failovergroups/manager.go:167-202 | in every reachable state every active cluster named in a copy or event is the source of truth |
| Safety.StatusComesFromSource | internal/controller/mirror/manager.go:744-782 | in every reachable state each status is empty or one the source of truth once held |
| Safety.MirrorKeepsSourceStatus | internal/controller/mirror/manager.go:302-353 | no call of a mirror handler changes the status of the source of truth's copy |
| Safety.NothingInvented | internal/controller/mirror/manager.go:459-502 | in every reachable state each spec body stored or pending was written by a user |
| Undisturbed.CallsRunOut | internal/controller/mirror/manager.go:224-250 | whatever a call is answered, the handler comes nearer to its end |
| Undisturbed.HandlersAreBounded | internal/controller/mirror/manager.go:28-30 | over any trace, whatever happens in between, a handler started on its way takes at most 8n + 14 steps among n clusters |
| Undisturbed.HandlersNeverWait | internal/controller/mirror/manager.go:157-186 | in every reachable state each handler that has not ended can take a step |
| Undisturbed.AtomicIsUndisturbed | internal/controller/mirror/manager.go:189-640 | an undisturbed handler thread does exactly what the atomic handler does |
| Undisturbed.OwnersAreUndisturbed | internal/controller/failovers/manager.go:133-223 | the same for the two owner controllers |
| OwnerReconciler.OwnerReconciler.UpdateFailoverStatus | internal/controller/failovers/manager.go:226-261 | the thread's report under any schedule; whatever other writers do, a success changes only status, state and message of the copy stored just before |
| OwnerReconciler.OwnerReconciler.Claim | internal/controller/failovers/manager.go:150-158 | undisturbed, a fresh snapshot is claimed; a stale one is refused and nothing changes |
| OwnerReconciler.OwnerReconciler.HandleFailover | internal/controller/failovers/manager.go:133-223 | under any schedule, the handler plays the thread of a failover event to its end; undisturbed, the failover is claimed, started and finished, or skipped, as its snapshot says |
| OwnerReconciler.OwnerReconciler.Initialise | internal/controller/failovergroups/manager.go:167-202 | undisturbed, health and heartbeat are set and an unset active cluster becomes this one, on the latest copy if the snapshot is stale |
| OwnerReconciler.OwnerReconciler.HandleFailoverGroup | internal/controller/failovergroups/manager.go:132-231 | under any schedule, the handler plays the thread of a group event to its end; undisturbed, the group is claimed and initialised, or its health refreshed, only in the source-of-truth cluster |
| Owners.FailoverLoopQuiesces | internal/controller/failovers/manager.go:99-109 | whatever the initial status, the event loop is idle after at most four events with status SUCCESS, state COMPLETED and the closing message; other status fields, annotations and the rest of the spec unchanged |
| Owners.GroupLoopQuiesces | internal/controller/failovergroups/manager.go:93-109 | whatever the initial status, the group controller's event loop is idle after at most three events with a healthy group; one without health so far has got a heartbeat and, if it had none, this active cluster; the rest unchanged |
| Owners.MirrorMustNotClaimFirst | internal/controller/failovers/manager.go:149-158 | a new failover ends in SUCCESS if and only if its controller handles the add event before the mirror controller does, or it was created that way |
| Owners.GroupAddRace | internal/controller/failovergroups/manager.go:98-108 | a new group ends up healthy, in its controller's own event loop, if and only if that controller handles the add event first, or it was created that way |
| Owners.GroupClaimLost | internal/controller/failovergroups/manager.go:148-157 | a group whose claim was lost: all events are handled and health and active cluster are empty |
| ClaimRace.CallOrderIsHandlerOrder | internal/controller/failovers/manager.go:149-158 | in whatever order the API calls of the two handlers of an add event are served, the outcome is that of one handler after the other, the one first whose claim is served first |
| ClaimRace.FirstClaimDecides | internal/controller/failovergroups/manager.go:148-157 | over every order of calls and the event loop after it, a new failover ends in SUCCESS, and a new group healthy, if and only if its own controller's claim is served first or it was created that way |
| Creation.FailoverCreation | internal/controller/failovers/manager.go:133-223 | from the creation of a failover every order ends within a bound with its spec everywhere, and every copy is in SUCCESS if its own controller claimed it first |
| Creation.GroupCreation | internal/controller/failovergroups/manager.go:132-231 | the same for a group: every copy healthy, with heartbeat and active cluster as its controller sets them, if that controller claimed it first |
| Leadership.MessageDecides | cmd/main.go:163-191 | after a false nothing runs, after a true manager and provider run |
| Leadership.StopIsEffective | cmd/main.go:154-194 | after any messages something runs if and only if the last was true, and nothing once the process context has ended |
| Leadership.LeadershipConsumer.HandleMessage | cmd/main.go:163-191 | the contexts, runs and flag after one message |
| Leadership.LeadershipConsumer.HandleDone | cmd/main.go:158-162 | both current contexts are cancelled |
| Leadership.LeadershipConsumer.Consume | cmd/main.go:156-193 | the state after any sequence of messages |
| Leadership.ElectionManager.Tick | internal/redis/manager.go:124-150 | the message one tick sends and what it keeps |
| Leadership.ElectionManager.StartLeaderElection | internal/redis/manager.go:105-154 | all messages sent: the first acquisition, the ticks after it, and a last false when the context ends |
| Leadership.StartsIffReacquired | internal/redis/manager.go:133-150 | a start is sent if and only if some tick finds the lock lost, or no lock object, and acquires it |
| Leadership.RunsIffLastStart | internal/redis/manager.go:124-150 | after any ticks the manager runs if and only if some tick found the lock missing and got it and every later tick found it valid and extended it |
| Leadership.HeldLockIdleManager | internal/redis/manager.go:133-142 | after one failed check or extension nothing runs for as long as the lock is not lost |
| Leadership.HiccupIdlesManager | internal/redis/manager.go:126-142 | a run: lock acquired, one check fails, then any number of extensions; the manager stays stopped |
| LeaderLock.StepKeepsInv | internal/redis/manager.go:104-224 | every step of instances, nodes and time keeps: a running instance's majority of nodes holds its entry since its last success began |
| LeaderLock.SingleRunningLeader | internal/redis/manager.go:104-190 | over all timely runs, with grants lost and requests to set or extend arriving late, no two instances run their controllers at the same instant |
| LeaderLock.LateInstanceSharesTheLead | cmd/main.go:96-100 | one instance late by a single instant shares the lead with the next |
| LeaderLock.LateDeleteSharesTheLead | internal/redis/manager.go:159-166 | a deletion that arrives after the next attempt has succeeded: two instances lead, with no time passed |
| LeaderLock.SendsWhatTheLoopSends | internal/redis/manager.go:105-154 | over any trace an instance sends exactly the election loop's messages on what its ticks found, and a last false if stopped |
| LeaderLock.LeadsIffLastStart | cmd/main.go:154-194 | an instance with no message waiting runs its controllers if and only if one of its ticks got the missing lock and all later ones extended it |
| Recovery.ProbesAreObserved | internal/redis/manager.go:126-149 | over any trace, a tick that finds the lock owned has read every node and found its entry at a quorum; one that finds it lost has read every node and found fewer |
| Recovery.LostLockIsReacquired | internal/redis/manager.go:143-149 | with any number of nodes: an instance that holds fewer than a quorum while a quorum is free acquires the lock with its next tick and leads, with fresh entries |
| Recovery.ExpiredLockIsReacquired | internal/redis/manager.go:143-149 | in particular when its entries have all gone |
| Recovery.HeldLockIsRenewed | internal/redis/manager.go:133-142 | an instance whose entry a quorum holds renews those entries and its lease with its next tick, and sends nothing |
| Recovery.FailedAttempt | internal/redis/manager.go:159-170 | a failed attempt leaves no entry of the instance and touches no other; after the third a stop is sent |
| SpecMirror.SpecMirror.SyncOne | internal/mirror/spec_mirror.go:35-82 | one cluster is created, skipped or merged; when that fails it is untouched or, if only the answer was lost, synced |
| SpecMirror.SpecMirror.SyncSpec | internal/mirror/spec_mirror.go:24-85 | exactly when the call succeeds, with clusters that do not answer, refuse writes or lose answers; each cluster ends as its own merge whatever the order; after a failure each is synced or untouched |
| SpecMirror.LastWriterWins | internal/mirror/spec_mirror.go:56-66 | a copy takes the incoming spec and the new stamp unless both are stamped and it is not older; then it is unchanged |
| SpecMirror.ForeignAnnotationsStay | internal/mirror/spec_mirror.go:65-76 | annotations outside the prefix are untouched and no key disappears |
| SpecMirror.MirroredAnnotationsArrive | internal/mirror/spec_mirror.go:70-76 | in a copy taken over, each annotation with the prefix but the stamp is there exactly if stored or incoming, the incoming value wins, and a stored one without an incoming one stays |
| SpecMirror.MirroredIff | internal/mirror/types.go:62-66 | an annotation is mirrored if and only if its key begins with hahomelabs.com/ |
| SpecMirror.CreatedCopyIsTheObject | internal/mirror/spec_mirror.go:42-47 | a created copy has the spec and annotations of the object and the new stamp |
| SpecMirror.HealthyCallSucceedsIff | internal/mirror/spec_mirror.go:24-85 | with clusters that answer, a call succeeds if and only if every stamp there is parses and at most one copy, or none if the object carries server metadata, is missing; having no stamp is no error |
| SpecMirror.UnstampedIsTakenOver | internal/mirror/spec_mirror.go:56-63 | without a stamp on either side the incoming spec is taken |
| SpecMirror.BadStampFails | internal/mirror/types.go:71-83 | a stamp that does not parse, on the object or any copy, makes the call fail |
| SpecMirror.StampsAreMonotone | internal/mirror/types.go:83-91 | one copy under any syncs with a clock that does not go back: no stamp decreases |
| SpecMirror.SpecMirror.SyncAll | internal/mirror/spec_mirror.go:24-85 | over any sequence of calls, failed ones included, with a clock that does not go back: no copy disappears and no stamp decreases |
| SpecMirror.LaterEditSurvivesIff | internal/mirror/spec_mirror.go:25-32 | an edit later than the one just synced survives if and only if it was made after that sync, or carries no stamp |
| FanIn.WaitForAll | internal/controller/deployments/manager.go:295-353 | the wait is a schedule that ends with one message per worker; the errors are the timeouts in some order, and success means no timeout; the cron job wait has the same shape |
| FanIn.NobodyBlocks | internal/controller/deployments/manager.go:306-343 | in every schedule of any number of workers: no worker blocks on its send, some move is possible until the end, at most two moves per worker are made, and then nothing is left over and the errors are the timeouts |
| StateMachine.WorkloadClient.ScaleDeployment | internal/controller/deployments/manager.go:37-65 | a success sets the replicas, a failure changes nothing or has set them; with a healthy API it succeeds exactly if the deployment exists |
| StateMachine.WorkloadClient.ScaleStatefulSet | internal/controller/statefulsets/manager.go:41-63 | the same for a stateful set |
| StateMachine.WorkloadClient.ScaleWorkloads | internal/controller/failovers/statemachine/scale_workload.go:51-69 | a run leaves exactly a prefix of the list at zero, all of it on success; with a healthy API it stops only at an unsupported or missing workload |
| StateMachine.RetriesAddUp | internal/controller/failovers/statemachine/scale_workload.go:51-69 | runs that got through given prefixes of the list leave what the furthest alone would |
| StateMachine.WorkloadClient.RetryScaleDown | internal/controller/failovers/statemachine/scale_workload.go:51-69 | any number of runs leave what the furthest alone would; once one has succeeded the store is that of one uninterrupted run, all listed workloads at zero |
| StateMachine.StateMachine.ExecuteState | internal/controller/failovers/statemachine/scale_workload.go:38-70 | only the scale step touches workloads, and a successful one has scaled them all; with a healthy API it succeeds exactly if the active cluster is reachable and every workload supported and present, and the other steps always do; unreachable it fails and changes nothing |
| StateMachine.StateMachine.Execute | internal/controller/failovers/statemachine/machine.go:86-129 | for any workflow of distinct registered steps a success moves one step on or stays at the last, a failure stays; with a healthy API it fails exactly at a scale step that cannot be done; in the consistency workflow standing at Complete means every listed workload is at zero |
| StateMachine.StepsCountSuccesses | internal/controller/failovers/statemachine/machine.go:101-128 | after k successes, with any failures between, the position is k steps on or the last step |
| StateMachine.StateMachine.Drive | internal/controller/failovers/statemachine/machine.go:86-129 | the machine executed n times: after k successes it stands k steps on or at the last step; all executions together leave what one run of the scale step leaves; after two successes of the consistency workflow that is the whole list at zero; if the cluster is reachable, the API healthy and every workload fine, all n succeed |
| StateMachine.NewStateMachine | internal/controller/failovers/statemachine/machine.go:58-81 | a machine exists exactly for the consistency mode; it has that workflow, its states registered under their names, and starts at the first step |

## Left out

- LeaderLock.SingleRunningLeader: a deletion that reaches a node late is excluded, because with one the property is false (`LeaderLock.LateDeleteSharesTheLead`).
- Creation.FailoverCreation: the failover controller's handling of the add event is one step here; `ClaimRace` has its calls interleaved with the mirror controller's, and `Safety` with everything else.
- SpecMirror.SpecMirror.SyncSpec: other writers between its read and its write; a conflict is a refused write.
- Informer event coalescing and the old object of mirror update events, which those handlers do not read.
- Objects of different names, the interplay of a Failover with its groups, and the group lookups of the failover controller, whose results are written to loop-local copies only.
- Convergence while the owner controllers or users go on writing the source of truth's spec; status writes there are covered as older pending events.
- Timestamps as text: a stamp is a number, and text at its place is a parse error.
- Update in place of annotation maps shared between objects; objects are values here.
- The choice of the machine's cluster in `NewStateMachine`; `reachable` says whether the active cluster has a client.
- Other writers of workloads during a scale-down.
- Readiness checks and polling inside the fan-in wait: whether a resource gets there in time is an input.
- The status-sync queues, the status mirror and its reflection wrapper, which nothing drives.
- Helm release, kustomization, ingress, virtual service and volume replication managers, and annotation helpers: one read and one write each.
- Configuration, logging, and the unimplemented health checks, heartbeats, uptime workflow and rollback.
