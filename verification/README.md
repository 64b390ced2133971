# Verification of the concurrency queue and its admission protocol

Pipelines-as-Code lets a Repository limit how many of its PipelineRuns execute at
once. This project models the code that enforces the limit, from the heap behind the
waiting queue up to the patches that start a run in the cluster, and proves what that
code is for: no more runs than the limit, no run started twice or against the wrong
version of its object, no slot lost, nobody stuck.

The layers, each built on the ones before it:

| file | what it models |
|---|---|
| QueueOrder.dfy | the abstract waiting queue: a sequence sorted by (priority, sequence) |
| PriorityQueue.dfy | the indexed binary heap, with the operations of Go's container/heap written out |
| Semaphore.dfy | the resizable counting semaphore over that heap |
| Admission.dfy | the admission protocol for one repository, as functions on its state |
| AdmissionInvariant.dfy, AdmissionSteps.dfy | its invariant, and that every operation keeps it |
| AdmissionRuns.dfy, AdmissionSystem.dfy | leases, and all interleavings of operations and workers |
| AdmissionProperties.dfy, AdmissionEffects.dfy, HandOff.dfy | what holds over whole runs |
| Progress.dfy, AdmissionAnswers.dfy | what an admission answers, and what recording a batch leaves of it |
| QueueHistory.dfy | every manager step as a history of the semaphore's operations; first come, first served |
| Manager.dfy | the manager in the code's form: maps that share admission records |
| Cluster.dfy, Start.dfy, StartProtocol.dfy | PipelineRuns, start patches, and the whole protocol |
| StartHistory.dfy | every start that the loop performs is a history of that protocol |
| AdmissionPass.dfy | the loop that admits, starts and records until it is done, as a function with its laws |
| AdmissionLoop.dfy | the same loop in the code's form, on the manager |
| LoopAmongOthers.dfy | the same loop with other workers between and during its rounds |
| Reconciler.dfy | the end of a run: hand on the slot, then write the terminal state |
| Recovery.dfy, StartUp.dfy | rebuilding the queue at start-up, from what the cluster lists |
| Restart.dfy | a restart re-establishes the invariant of the start protocol |
| ExecutionOrder.dfy | the execution-order annotation, printed and parsed |

Three smaller cores stand beside it:

| file | what it models |
|---|---|
| TaskResolution.dfy | fetching tasks and pipelines once per event, precedence, and inlining |
| HostPolicy.dfy | the hosts a controller learns, under optimistic concurrency |
| Labels.dfy | making a text a legal label value |

Wrappers.dfy and Strings.dfy hold optional values, results and string functions.

How to read the results. `Semaphores.Queue` has no permit counter: there is room
exactly when the limit is zero or fewer than `limit` keys are running.
`PrioritySemaphore.Valid` says that the code's counter agrees, after every history.
`Admissions.Repo` is the manager's state for one repository key; `Id` stands for the
identity of an admission record, which the code compares to recognise a lease that was
invalidated. `AdmissionSystem.Sound` is the invariant of all runs: it holds at the
start (`StartIsSound`) and after every step (`NextKeepsSound`), so a lemma that
requires it speaks about every reachable state.

Assumptions about the surroundings:

- Limits are at least 0 (the API schema allows no negative limit) and queue keys are
  not empty.
- A lease is finished once. Workers change UID, attempt and outcome of their own
  copies, never a key, and never take an attempt back.
- The clock is non-decreasing where a property says so, and only there.
- For `StartProtocol`: the limit is positive and within n, and may change at every
  step; there is no RemoveRepository step, and InitQueues only comes in between two
  histories (`Restarts`); PipelineRun names are not reused, runs are created pending,
  only start patches clear "pending", finishing is final for a run, a terminal state is
  only written for a run that finishes, and a key is only taken out of the queue for an
  owner that has finished or is gone. `Clusters` makes none of these assumptions.
- For `HostPolicy`: the URL, IDNA and IP libraries are parameters (`Hosts`); `Stable`
  says that what they normalise reads back as itself and holds no comma. Only this
  code writes the annotation; everything else in the ConfigMap may be edited.
- For `TaskResolution`: a name is answered the same way each time it is fetched
  (`Environment`). YAML, annotations and URL joining are parameters.

Where the code and its comments or documentation differ, the model follows the code:

- The doc comment of `AddListToRunningQueue` (pkg/queue/queue_manager.go:86-89) says
  that runs move to the running queue. Without a limit the code returns every waiting
  key, as its comment at lines 105-107 says, and moves none, so that a second call
  returns the same keys (`UnlimitedGrantsAgain`, `UnlimitedReturnsTwice`).
  `AddRunningMovesIffLimited` gives the exact condition in terms of the state before the
  call. The only caller outside the tests, `InitQueues`, skips repositories without a
  limit, so this case is not reached from there.

## Model

| member | source | states |
|---|---|---|
| QueueOrder.OrderedMeaning | pkg/queue/priority_queue.go:57-62 | the recursive order used throughout is, by index, strict order by (priority, sequence) without a key twice |
| QueueOrder.InsertKeepsOrder | pkg/queue/priority_queue.go:31-37 | adding an entry with a new key and tie-breaker keeps the queue strictly sorted |
| QueueOrder.OrderIsUnique | pkg/queue/priority_queue.go:57-62 | a queue is determined by the set of its entries: there is one order it can be served in |
| QueueOrder.WithoutUndoesInsert | pkg/queue/priority_queue.go:31-44 | removing a key right after adding it restores the queue |
| PriorityQueues.RootIsLeast | pkg/queue/priority_queue.go:51-62 | no item of a heap comes before its root |
| PriorityQueues.PriorityQueue.Swap | pkg/queue/priority_queue.go:64-68 | exchanges two items and keeps back-pointers and key index exact |
| PriorityQueues.PriorityQueue.Up | pkg/queue/priority_queue.go:35 | restores the heap order from a hole by moving it up |
| PriorityQueues.PriorityQueue.Down | pkg/queue/priority_queue.go:41-47 | restores the heap order from a hole by moving it down, or reports that nothing moved |
| PriorityQueues.PriorityQueue.Push | pkg/queue/priority_queue.go:70-76 | appends one item and indexes it |
| PriorityQueues.PriorityQueue.Pop | pkg/queue/priority_queue.go:78-86 | takes the last item, un-indexes it and clears its position |
| PriorityQueues.PriorityQueue.HeapRemove | pkg/queue/priority_queue.go:39-44 | removes the item at any position and leaves a heap of the others |
| PriorityQueues.PriorityQueue.Add | pkg/queue/priority_queue.go:31-37 | inserts a new key into the sorted queue with the next tie-breaker; a known key changes nothing |
| PriorityQueues.PriorityQueue.Remove | pkg/queue/priority_queue.go:39-44 | removes exactly the key from the sorted queue, and nothing if it is absent |
| PriorityQueues.PriorityQueue.PopLeast | pkg/queue/priority_queue.go:46-49 | takes the head of the sorted queue |
| PriorityQueues.PriorityQueue.Peek | pkg/queue/priority_queue.go:51-53 | shows the head of the sorted queue |
| PriorityQueues.PriorityQueue.Restore | pkg/queue/semaphore.go:130-143 | pushes a popped item back under its old priority and tie-breaker |
| Semaphores.PrioritySemaphore.constructor | pkg/queue/semaphore.go:22-31 | a new semaphore is the empty queue with its limit |
| Semaphores.PrioritySemaphore.CurrentPending | pkg/queue/semaphore.go:40-49 | lists every waiting key once |
| Semaphores.PrioritySemaphore.CurrentRunning | pkg/queue/semaphore.go:51-60 | lists every running key once |
| Semaphores.PrioritySemaphore.ResizeTo | pkg/queue/semaphore.go:62-79 | never fails, in either direction, and only changes the limit; used permits become min(running, limit) |
| Semaphores.PrioritySemaphore.RemoveFromQueue | pkg/queue/semaphore.go:81-86 | drops the key from the waiting queue only |
| Semaphores.PrioritySemaphore.AddToQueue | pkg/queue/semaphore.go:163-175 | queues a key that neither waits nor runs, and says whether it did |
| Semaphores.PrioritySemaphore.AcquireNext | pkg/queue/semaphore.go:102-118 | moves the head to the running set exactly when the limit leaves room |
| Semaphores.PrioritySemaphore.NextPendingKey | pkg/queue/semaphore.go:120-128 | the key of the head, empty if nothing waits |
| Semaphores.PrioritySemaphore.RequeueKey | pkg/queue/semaphore.go:130-143 | moves a running key back to its old place in the queue; the permit is released exactly when one was used |
| Semaphores.PrioritySemaphore.ReleaseKey | pkg/queue/semaphore.go:145-161 | takes a key out of the running set without ever releasing a permit that is not held |
| Semaphores.RunKeepsWellFormed | pkg/queue/semaphore.go:11-18 | over every history of operations the queue stays sorted, waiting and running stay apart, and tie-breakers stay unique |
| Semaphores.RunningIsBounded | pkg/queue/semaphore.go:102-161 | while a positive limit stays, no history takes the running set above it, or above where it started |
| Semaphores.ExcessOnlyDrains | pkg/queue/semaphore.go:145-161 | at or above a positive limit nothing is granted and the running set only shrinks |
| Semaphores.GrantedStaysRunning | pkg/queue/semaphore.go:102-143 | a granted key is not granted again until it is released or requeued, whatever happens in between |
| Semaphores.RequeueUndoesAcquire | pkg/queue/semaphore.go:129-143 | requeueing what was just acquired restores queue and running set exactly |
| Semaphores.GrantIsLeast | pkg/queue/semaphore.go:102-118 | the granted key precedes everything that still waits |
| Semaphores.FirstComeFirstServed | pkg/queue/semaphore.go:102-175 | with a non-decreasing clock every grant of the semaphore was inserted before everything that still waits, requeues and resizes included |
| AdmissionSteps.RemoveFromQueueKeeps | pkg/queue/queue_manager.go:149-163 | taking a key out of the queue keeps claims, candidates and reservations consistent and takes the key from its record |
| AdmissionSteps.ForgetAdmissionKeeps | pkg/queue/admission.go:87-95 | forgetting an admission keeps the invariant: only an idle record without candidates goes |
| AdmissionSteps.ReacquireEffect | pkg/queue/admission.go:148-153 | re-acquiring only reserves the record's own waiting candidates and moves no other key |
| AdmissionSteps.FillEffect | pkg/queue/admission.go:154-176 | a new batch takes waiting, unclaimed keys in queue order, at most up to its limit, and claims exactly them |
| AdmissionSteps.ReleaseOwnerKeeps | pkg/queue/admission.go:135-144 | releasing a finished batch owner takes its key out of the queue and keeps the record |
| AdmissionSteps.AcquireAdmissionKeeps | pkg/queue/admission.go:97-188 | every admission keeps the invariant and never finds the claims missing |
| AdmissionSteps.FinishAdmissionKeeps | pkg/queue/admission.go:190-239 | recording a batch keeps the invariant; its only possible error is "unfinished" |
| AdmissionRuns.AcquireLease | pkg/queue/admission.go:97-188 | a lease is only given on an idle record, and holds exactly the record's reserved candidates |
| AdmissionSystem.NextKeepsSound | pkg/queue/admission.go:97-239 | every step of every interleaving keeps claims, candidates, reservations, order and leases consistent |
| AdmissionSystem.RunKeepsSound | pkg/queue/admission.go:97-239 | the invariant holds in every reachable state |
| AdmissionProperties.ClaimsAreCandidates | pkg/queue/admission.go:70-188 | in every reachable state a key is claimed by a record if and only if it is one of its candidates; no candidate twice, none shared |
| AdmissionProperties.CandidatesAreQueued | pkg/queue/admission.go:30-47 | in every reachable state a reserved candidate runs and an unreserved one waits; between leases the attempted ones keep their slot |
| AdmissionProperties.DefensiveErrorsUnreachable | pkg/queue/admission.go:128-131 | the errors for missing claims, a missing queue and a candidate that cannot be restored occur in no run |
| AdmissionProperties.FinishConservesKeys | pkg/queue/admission.go:190-239 | key by key: gone candidates leave the queue, unattempted retries go back to waiting, claims of gone and succeeded ones end, stale results change nothing |
| AdmissionProperties.RunningLeavesOnlyBy | pkg/queue/queue_manager.go:141-184 | a key leaves the running set only by its owner's release, a removal, or a reported result |
| AdmissionProperties.GivenIsNew | pkg/queue/admission.go:145-188 | whatever any step hands out was not running before, or was just taken out, or is this record's own attempt; it is running afterwards if and only if the step has a limit |
| AdmissionProperties.NoDoubleGrant | pkg/queue/admission.go:145-176 | between a grant of a key by a step that has a limit and the next grant by any step, some step took it out of the running set, except for its own admission retrying an attempt |
| AdmissionProperties.UnlimitedGrantsAgain | pkg/queue/queue_manager.go:105-110 | whatever AddListToRunningQueue returns without a limit, the same call returns again right afterwards |
| AdmissionProperties.AddRunningMovesIffLimited | pkg/queue/queue_manager.go:105-121 | the keys that AddListToRunningQueue returns are running afterwards if and only if there is a limit, or nothing waits and the whole list is running already |
| AdmissionProperties.UnlimitedReturnsTwice | pkg/queue/queue_manager.go:105-110 | a concrete run: without a limit two calls return the same key |
| AdmissionEffects.NextBounded | pkg/queue/queue_manager.go:97-121 | while the limit stays positive and within n, however it changes, no manager step takes the running set above n |
| HandOff.PromotionHoldsOne | pkg/queue/admission.go:154-176 | a promotion record never holds more than one candidate |
| HandOff.AtMostOneHandOff | pkg/queue/admission.go:207-234 | over every run a promotion record, also one converted from a batch owner, records at most one successful start |
| HandOff.SingleHandOff | pkg/queue/admission.go:97-234 | over any run in which nobody queues a leaving owner again: once its promotion has recorded a successful start, every later promotion call of the owner is granted nothing, whatever happens in between, as long as nobody lists the owner's key again |
| HandOff.QueuedOnlyByLists | pkg/queue/admission.go:145-147 | a key gets into the queue only by a list that names it |
| HandOff.OwnerLeftInRuns | pkg/queue/admission.go:112-144 | once an owner hands over, its key stays out of the queue as long as nobody lists it again |
| HandOff.PromotionLeaves | pkg/queue/admission.go:112-142 | a promotion that is not refused leaves its owner outside the queue |
| HandOff.NoSlotLost | pkg/reconciler/reconciler.go:329-338 | whenever a promotion gets through without an error, under any interleaving that does not list the owner again, the owner neither runs nor waits and its record holds no unfinished candidate |
| HandOff.OwnerKeyIsInjective | pkg/queue/admission.go:57-59 | owner keys tell PipelineRuns apart, since a UID holds no slash |
| HandOff.RecordStaysOrGoes | pkg/queue/admission.go:97-239 | no step replaces the live record of an owner by another one; only an admission of the owner makes one where there was none |
| Progress.OwnHeadIsGranted | pkg/queue/admission.go:145-187 | if the head is claimed by the owner's idle record and there is room, the owner's call returns a lease with the head |
| Progress.ReacquireIsMaximal | pkg/queue/admission.go:148-153 | after resuming, as long as there is room, the head is not one of the record's own waiting candidates |
| Progress.FillIsMaximal | pkg/queue/admission.go:159-172 | a batch ends only at its limit, at a claimed head, or without room |
| Progress.FirstBatchIsMaximal | pkg/queue/admission.go:155-176 | a first initial admission that is leased ends with a batch as large as the limit, a claimed head, or a queue that grants nothing more |
| Progress.FirstBatchFillsSlots | pkg/queue/admission.go:155-176 | when nothing is claimed, a first initial admission leases the front of the waiting keys: as many as there are free slots, or all of them |
| Progress.FirstAdmission | pkg/queue/admission.go:97-187 | a first admission of any mode, exactly: it is refused if and only if the head it finds is claimed; else it leases the front of the queue up to the limit, to the first claimed key and to the room there is, and leaves the rest in its order; a promotion takes at most one, counts its own owner's slot and claim as free, and finds no work for an owner outside the queue |
| Progress.PromotionTakesHead | pkg/queue/admission.go:112-176 | a finished owner that holds a slot within the limit and has no record yet always hands the slot on: its promotion leases exactly the head behind it unless another admission owns the head |
| AdmissionAnswers.KnownOwner | pkg/queue/admission.go:97-188 | an admission of an owner that has a record, exactly: no work, busy, another mode, its reserved candidates, a wait for its unreserved ones, an empty lease when it is done, or a new batch as for a first admission; a resume of a finishing owner first takes its key out |
| AdmissionAnswers.GrantResumes | pkg/queue/admission.go:148-187 | a record with candidates is leased those that hold a slot or get the heads that are its own, in their order, or waits if there are none, and takes nothing new |
| AdmissionAnswers.FinishSettles | pkg/queue/admission.go:207-238 | after its results are recorded a record is idle; with candidates left it reports "unfinished" and stays as it was; without, a promotion record stays, a released batch owner becomes a promotion record that is not done, and any other goes if and only if it was done or started something |
| AdmissionAnswers.ConvertedOwnerHandsOn | pkg/queue/admission.go:227-230 | a batch owner that was released and has nothing unfinished left hands its slot on: its next promotion call, whatever others do before, gets the front of the queue it finds unless that is claimed or there is no room |
| AdmissionAnswers.RemovalOfClaim | pkg/queue/queue_manager.go:149-163 | removing a claimed key marks its record done, takes exactly this candidate and this claim, and drops the record if and only if nothing else holds it |
| AdmissionAnswers.RemovalTakesNext | pkg/queue/queue_manager.go:165-184 | after a removal the next head is taken if and only if it is unclaimed and there is room |
| Clusters.FencedStart | pkg/reconciler/reconciler.go:588-618 | whenever a start patch is delivered, it commits if and only if the object is exactly the version that was found startable |
| Clusters.StaleForever | pkg/reconciler/reconciler.go:588-618 | a patch that cannot commit now never will |
| Clusters.ChangeShutsOut | pkg/reconciler/reconciler.go:448-464 | any change, deletion or replacement of the run shuts out earlier patches, and no patch commits twice |
| StartProtocol.MoveKeepsSafe | pkg/reconciler/queue_pipelineruns.go:129-167 | every move of cluster, patches, manager and workers keeps the invariant: a run that is started, or that a patch in flight can start, has its slot |
| StartProtocol.OnlyColdKeysLeave | pkg/queue/admission.go:207-225 | a key leaves the running set only when nothing can start its run any more |
| StartProtocol.TryKeepsSafe | pkg/reconciler/queue_pipelineruns.go:129-153 | reading a run and sending its start patch keeps the invariant |
| StartProtocol.AnswerKeepsSafe | pkg/reconciler/queue_pipelineruns.go:153-167 | settling a start by its answer or by the read-back keeps the invariant |
| StartProtocol.ClusterLimit | pkg/reconciler/queue_pipelineruns.go:129-167 | while the limit stays within n, in every reachable state at most n runs are started and not yet finishing, and each has its slot |
| StartProtocol.TriedRunStarts | pkg/reconciler/queue_pipelineruns.go:139-153 | trying a leased candidate whose run can be started, and delivering its patch, makes the run one of at most n active ones, each with its slot |
| Starts.StartAnswer | pkg/reconciler/queue_pipelineruns.go:129-167 | what starting a candidate answers, in terms of the two reads and the patch: gone if and only if the key names no run, or a read shows none, another one, or one that is no longer startable; succeeded if and only if the patch applied or the read-back confirms it; otherwise a retry with an error |
| StartHistories.StartIsHistory | pkg/reconciler/queue_pipelineruns.go:129-167 | every start that the loop performs, among any other moves, is a history of moves of the start protocol and leaves the lease with the candidate it returns |
| StartHistories.StartKeepsLimit | pkg/reconciler/queue_pipelineruns.go:129-167 | so while a start is performed, and in whatever follows it, at most n runs are started and not yet finishing |
| QueueHistories.EventActs | pkg/queue/queue_manager.go:90-184 | every step of the manager acts on its queue by operations of the semaphore: first releases, drops, requeues, resizes and additions, then grants |
| QueueHistories.ManagerQueueIsReachable | pkg/queue/semaphore.go:11-18 | over every run the manager's queue is one that a PrioritySemaphore reaches by its own operations |
| QueueHistories.ManagerServesInOrder | pkg/queue/queue_manager.go:90-121 | with a clock that does not go back, over every run of the manager, whatever a step newly sets running was inserted before everything that still waits after it |
| Managers.FillBatch | pkg/queue/admission.go:159-172 | the batch loop computes the specified batch |
| Managers.ReacquireOwn | pkg/queue/admission.go:148-153 | the resume loop computes the specified reservations |
| Managers.AddAll | pkg/queue/admission.go:145-147 | the list loop queues the list in order |
| Managers.ReservedCandidates | pkg/queue/admission.go:177-182 | the lease holds the reserved candidates in order |
| Managers.Manager.constructor | pkg/queue/queue_manager.go:36-44 | a new manager holds nothing |
| Managers.Manager.GetSemaphore | pkg/queue/queue_manager.go:50-84 | opens the queue or gives it the current limit |
| Managers.Manager.ForgetCandidateOf | pkg/queue/admission.go:77-85 | takes the candidate from the record that claims it, and drops an abandoned record |
| Managers.Manager.Remove | pkg/queue/queue_manager.go:149-163 | takes a key out of the claims, the running set and the waiting queue |
| Managers.Manager.ForgetAdmissionOf | pkg/queue/admission.go:87-95 | drops an idle record without candidates |
| Managers.Manager.RegisterState | pkg/queue/admission.go:121-126 | makes the record of a new owner, and the inner maps with the first one |
| Managers.Manager.ReleaseOwnerOf | pkg/queue/admission.go:135-144 | releases a finished batch owner |
| Managers.Manager.GrantFor | pkg/queue/admission.go:145-187 | the granting half of an admission, record and claims included |
| Managers.Manager.AcquireAdmissionFor | pkg/queue/admission.go:97-188 | an admission changes the state and answers as specified, with a new record only for a new owner |
| Managers.Manager.FinishOneFor | pkg/queue/admission.go:203-226 | one result is recorded as specified |
| Managers.Manager.FinishAdmissionFor | pkg/queue/admission.go:190-239 | a batch is recorded as specified; a lease whose record is gone changes nothing |
| Managers.Manager.AcquireUnownedKey | pkg/queue/admission.go:70-75 | the head is taken unless an admission claims it |
| Managers.Manager.AddListToRunning | pkg/queue/queue_manager.go:90-122 | queues the list and takes up to the limit |
| Managers.Manager.AddToPending | pkg/queue/queue_manager.go:124-139 | queues the list |
| Managers.Manager.RemoveAndTakeItem | pkg/queue/queue_manager.go:165-184 | removes a key and takes the next |
| Managers.Manager.RemoveRepositoryState | pkg/queue/queue_manager.go:312-320 | drops queue, admissions and claims together |
| AdmissionPasses.StartEachMeaning | pkg/reconciler/queue_pipelineruns.go:83-107 | from the answers: every new candidate becomes what its start answers; a run is started if and only if one of them succeeded; dropped are exactly the gone ones; the errors are exactly the retries and, outside a promotion, the starts that could not be reported |
| AdmissionPasses.SeenIsReported | pkg/reconciler/queue_pipelineruns.go:83-92 | a key that was handed out before, in this lease or an earlier one, is reported and not started |
| AdmissionPasses.RoundShrinks | pkg/reconciler/queue_pipelineruns.go:114-125 | a round that goes on takes all its keys out of the queue and the list for good |
| AdmissionPasses.PassKeeps | pkg/reconciler/queue_pipelineruns.go:56-127 | after any number of rounds the manager is consistent, no key was returned twice, and what was seen is out of reach |
| AdmissionPasses.PassTakesOutOnly | pkg/reconciler/queue_pipelineruns.go:56-127 | a key leaves the queue only if it is that of an owner that is released, or if the pass leased it and the answers to its start say that it is gone |
| AdmissionPasses.PassLists | pkg/reconciler/queue_pipelineruns.go:114-125 | a pass that goes on lists exactly the keys of its list that it has not given up |
| AdmissionPasses.PassEndsWell | pkg/reconciler/queue_pipelineruns.go:108-112 | a pass that ends without an error started a run in its last round, which holds its slot, or ended on an admission that leased nothing |
| AdmissionPasses.PassErrors | pkg/reconciler/queue_pipelineruns.go:68-113 | every error has its reason: a refused admission, a leased run that could not be started or reported, or unfinished candidates |
| AdmissionLoop.StartAll | pkg/reconciler/queue_pipelineruns.go:83-107 | the start loop computes the specified candidates, errors and outcomes; StartEachMeaning says what they are |
| AdmissionLoop.OneRound | pkg/reconciler/queue_pipelineruns.go:68-125 | one round on the manager, without other workers in between, computes the specified round |
| AdmissionLoop.ProcessQueueAdmission | pkg/reconciler/queue_pipelineruns.go:56-127 | the loop on the manager, without other workers in between, computes the specified pass, terminates, and never reports a key returned twice; a key leaves the queue only when it is gone or its owner is released |
| AdmissionLoop.StartNextPipelineRunInQueue | pkg/reconciler/reconciler.go:441-446 | resumes, and promotes only without an error; without an error in the end the finished owner is nowhere in the queue and holds nothing unfinished |
| StartUp.FilterPipelineRunByState | pkg/queue/queue_manager.go:191-224 | the filter loop: entries that do not parse or name no run are skipped, a failed read ends it |
| StartUp.FilterKeeps | pkg/queue/queue_manager.go:191-224 | a key is kept if and only if some entry names it and the run it names is in the wanted state |
| StartUp.InitQueues | pkg/queue/queue_manager.go:228-310 | rebuilds the queue of one repository from the listed runs and their execution orders, up to the first failure; a repository without a limit is only emptied |
| StartUp.RestoredExactly | pkg/queue/queue_manager.go:228-310 | after a rebuild without a failure a key is in the queue if and only if the execution order of a started run names it and it is still started, or that of a queued run names it and it is still queued and pending |
| StartUp.StartedAreRunning | pkg/queue/queue_manager.go:228-310 | when the lists agree with what is read, a rebuild without a failure sets exactly the started runs running if they fit the limit, and n of them if they do not |
| Restarts.SafeIffActiveRun | pkg/queue/queue_manager.go:228-310 | when no start is under way, a rebuild re-establishes the invariant of the start protocol if and only if it sets every active run running |
| Restarts.RestartIsSafe | pkg/queue/queue_manager.go:228-310 | when no start is under way and the runs annotated as started fit the limit, the rebuilt queue holds exactly their slots and the invariant of the start protocol holds again |
| Restarts.SafeIffActiveFit | pkg/queue/queue_manager.go:228-310 | if no started run has finished, the restart is safe if and only if the active runs fit the limit |
| Restarts.FinishedRunsMayFill | pkg/queue/queue_manager.go:252-283 | when the runs created first fill the limit, finished or not, an active run created later is left without a slot: that the active runs fit the limit is not enough |
| Restarts.LimitAfterRestart | pkg/queue/queue_manager.go:228-310 | from such a restart on, in every reachable state at most n runs are started and not yet finishing, and each has its slot |
| StartUp.PrintedOrderNames | pkg/pipelineascode/concurrency.go:77-87 | an execution order as it is printed names exactly its own runs when it is read back at start-up |
| Recovery.RecoveryRebuild | pkg/queue/queue_manager.go:228-310 | the started runs run if they fit the limit, else exactly n of them and the rest wait ahead of all queued runs; nothing else is in the queue and nothing is claimed |
| ExecutionOrder.GetOrderByName | pkg/pipelineascode/concurrency.go:77-87 | the printing loop computes the comma-separated list of keys |
| ExecutionOrder.KeyRoundTrip | pkg/queue/queue_manager_interface.go:33-60 | a printed key parses back if and only if both parts are trimmed, not empty and valid path segments |
| ExecutionOrder.AcceptedIsPlain | pkg/queue/queue_manager_interface.go:49-60 | every accepted key, from any text, consists of two such parts |
| ExecutionOrder.ReprintIsStable | pkg/queue/queue_manager_interface.go:33-60 | printing an accepted key again and parsing it gives the same run |
| ExecutionOrder.OrderRoundTrip | pkg/pipelineascode/concurrency.go:77-87 | splitting and parsing the printed list gives exactly the runs in their order |
| TaskResolution.InlineTasks | pkg/resolve/resolve.go:142-167 | the inlining loop computes the specified list |
| TaskResolution.InlineResult | pkg/resolve/resolve.go:142-167 | inlining succeeds if and only if every inlinable reference is known; it keeps length, order and all other tasks |
| TaskResolution.InlineTwice | pkg/resolve/remote.go:214-248 | a second inlining pass changes nothing |
| TaskResolution.TableIsFirst | pkg/resolve/remote.go:194-211 | the table of a run holds, for every name, the first task of that name |
| TaskResolution.FetchTasks | pkg/resolve/remote.go:179-200 | the fetch loop with its cache gives what fetching every name again gives |
| TaskResolution.ResolveRemoteResources | pkg/resolve/remote.go:80-262 | the result with the per-event caches is the result that fetches everything again for every run |
| TaskResolution.ResolvedRun | pkg/resolve/remote.go:80-262 | a result is given if and only if it is the one that precedence asks for: each inlinable task embeds the first of its name among those fetched for the annotations of the run, then those for the annotations of its pipeline, then the .tekton tasks; everything else is kept |
| TaskResolution.ResolvedInOrder | pkg/resolve/remote.go:80-262 | an event resolves if and only if each of its runs does, one by one and in their order |
| HostPolicy.ParseAllowlist | pkg/vcshost/vcshost.go:277-297 | the parsing loop computes the specified list |
| HostPolicy.CollectResult | pkg/vcshost/vcshost.go:277-297 | whatever is read is canonical and without repetition |
| HostPolicy.CollectExactly | pkg/vcshost/vcshost.go:277-297 | a list reads if and only if each of its entries that is not blank names a host, and it holds exactly the canonical forms of those |
| HostPolicy.JoinRoundTrip | pkg/vcshost/vcshost.go:311-314 | a list of canonical, distinct hosts survives writing and reading |
| HostPolicy.CanonicalIsStable | pkg/vcshost/vcshost.go:72-77 | folding a host twice is folding it once, and keeps public hosts public |
| HostPolicy.StepKeepsSound | pkg/hostpolicy/hostpolicy.go:103-145 | every read, write, conflict and edit keeps the annotation clean and only appends to it |
| HostPolicy.LearnedHostsOnlyGrow | pkg/hostpolicy/hostpolicy.go:103-145 | over every interleaving of calls and edits the learned list only grows, stays canonical and distinct, and reads back as written |
| HostPolicy.AcceptedStaysTrusted | pkg/hostpolicy/hostpolicy.go:64-80 | a host accepted while the controller manages the policy is accepted by Trusted whenever it manages it |
| HostPolicy.TrustedIffLearned | pkg/hostpolicy/hostpolicy.go:200-211 | while the controller manages the policy, Trusted accepts a host if and only if it is public or learned |
| HostPolicy.TrustedUnderList | pkg/hostpolicy/hostpolicy.go:64-80 | under an administrator's list a host is accepted if and only if every entry of the list can be read and one of them means that host |
| HostPolicy.PrivateIsNeverLearned | pkg/hostpolicy/hostpolicy.go:103-145 | over every interleaving a learned host is neither public nor private |
| HostPolicy.KnownIsAccepted | pkg/hostpolicy/hostpolicy.go:103-145 | while the controller manages the policy, a call for a public or learned host is accepted without a write |
| HostPolicy.PrivateIsRefused | pkg/hostpolicy/hostpolicy.go:103-145 | a call for a private host that is not learned is refused and writes nothing |
| HostPolicy.NewHostIsLearned | pkg/hostpolicy/hostpolicy.go:103-145 | a call for a new host that is neither public nor private, on the version it read, appends it |
| Labels.SanitizeLabelValue | pkg/formatting/k8labels.go:64-72 | the loop computes the specified text |
| Labels.CleanValueIsLegal | pkg/formatting/k8labels.go:31-52 | the result is always a legal label value, is empty if and only if the text has no letter or digit, and is a fixed point |
| Labels.CleanedCharacter | pkg/formatting/k8labels.go:31-72 | what becomes of one character between others that a label value may hold: a colon or a slash becomes a dash, a space an underscore, a bracket two, any other is left out |
| Strings.SplitJoin | pkg/vcshost/vcshost.go:280-314 | splitting undoes joining for parts without the separator |
| Strings.JoinSplit | pkg/vcshost/vcshost.go:280-314 | joining undoes splitting for every text |
| Strings.TrimOf | pkg/queue/queue_manager_interface.go:49-60 | trimming takes exactly the white space around a text |
| ExecutionOrder.PaddedKeyParses | pkg/queue/queue_manager_interface.go:49-60 | white space around a key and around its two parts does not change what it parses to |
| HostPolicy.LearnedOnlyBy | pkg/hostpolicy/hostpolicy.go:103-145 | the learned list changes only by a call that concludes on what is in force now, for a host that is neither public nor private nor known, which is appended |
| AdmissionAnswers.ForgettingDropsIdle | pkg/queue/admission.go:87-95 | forgetting an admission drops the record of the owner if and only if nobody holds it and it claims no key, and changes nothing else |
| HostPolicy.DecideUnderList | pkg/hostpolicy/hostpolicy.go:103-145 | under an administrator's list a call accepts exactly the hosts that it means, and learns none |
| Labels.LongTextKeepsItsEnd | pkg/formatting/k8labels.go:31-52 | of a text that is too long the last characters are kept |
| StartUp.FilterFails | pkg/queue/queue_manager.go:191-224 | the filter fails if and only if some entry names a run that cannot be read, with the first such entry |
| StartUp.RestoredUpToFailure | pkg/queue/queue_manager.go:228-310 | what is restored when entries cannot be read: exactly what the runs before the first such one name, and queued runs only if all started ones can be read; the rebuild fails if and only if there is one |
| AdmissionEffects.ClaimLeavesOnlyBy | pkg/queue/queue_manager.go:149-163 | a claim ends only with its owner's release, with its own finished lease, or with a removal of the key |
| LoopAmongOthers.RoundAmongOthers | pkg/reconciler/queue_pipelineruns.go:67-125 | a round whose candidates were all gone, among any other workers: all its candidates leave the queue and only what others list can come in; if they list nothing, what is left is strictly less than what the round could reach |
| LoopAmongOthers.LoopEnds | pkg/reconciler/queue_pipelineruns.go:56-127 | among any other workers the loop has at most as many rounds as there were keys to be handed out when it began, plus the keys that others list meanwhile |
| LoopAmongOthers.NeverHandedTwice | pkg/reconciler/queue_pipelineruns.go:66-92 | among any other workers no round, nor the last one, is handed a key of an earlier round, unless somebody listed the key again after it was handed out |
| LoopAmongOthers.HandedOverAmongOthers | pkg/reconciler/reconciler.go:441-446 | among any other workers, a removal of the repository included: when the last round of a finished owner's promotion has nothing to hand on or ends without an error, the owner is nowhere in the queue and holds nothing unfinished, as long as nobody queues it again or begins a new batch for it |
| Reconcilers.FinishOwner | pkg/reconciler/reconciler.go:329-338 | the whole outcome: an error of the two loops is reported and writes nothing; a failed write leaves the cluster as it is and the hand-off in place; otherwise the terminal state is written and nothing of the owner is left, neither key nor record |
| Reconcilers.TerminalIsFinal | pkg/reconciler/reconciler.go:572-618 | after a terminal write no start patch in flight ever commits, and the run is no longer startable |
| Reconcilers.FinalizeKind | pkg/reconciler/finalizer.go:28-87 | a deleted run that was queued or started hands on its slot and leaves nothing behind unless the loops report an error, or takes the queue of a deleted repository with it, or, without a repository annotation, changes nothing; any other state only forgets the admission |
| HandOff.NoLaterHandOff | pkg/queue/admission.go:112-142 | an owner that handed its slot on, whose record is spent or gone, is granted nothing by any later promotion call, as long as nobody lists its key again |
| PriorityQueues.PriorityQueue.HeapPush | pkg/queue/priority_queue.go:35 | pushing onto a heap leaves a heap of all items |
| PriorityQueues.PriorityQueue.HeapPop | pkg/queue/priority_queue.go:46-49 | popping a heap takes its root and leaves a heap of the others |
| Managers.Manager.TakeBatchFor | pkg/queue/admission.go:154-176 | computes the specified batch and its claims, or the refusal; FirstAdmission and KnownOwner say what that is |
| Managers.Manager.ResumeFor | pkg/queue/admission.go:177-187 | the reserved candidates are leased, or the owner waits |
| Managers.Manager.EnterFor | pkg/queue/admission.go:128-144 | the checks on claims and mode, and the release of a finished batch owner |
| Managers.Manager.SettleFor | pkg/queue/admission.go:227-234 | computes the specified record after a batch; FinishSettles and ConvertedOwnerHandsOn say what that is |
| Semaphores.PrioritySemaphore.PermitsAgree | pkg/queue/semaphore.go:62-161 | after every history used permits are min(running, limit), a permit is free exactly when there is room, and no key both runs and waits |

## Left out

- Managers.Manager.AddListToRunning: without a limit the code returns the waiting keys in the order of the heap's slice; here they come in queue order, because the manager's semaphore appears as its abstract value.
- Managers: the three outer maps by repository key; every method of the code touches the entries of one key only, and the class is the manager's state for that key.
- Managers.Manager.AcquireAdmissionFor: allocates the record of a possible new owner before it is known to be needed.
- Managers.Manager.GetSemaphore: opens or resizes the value that `PrioritySemaphore` is proved to keep, not a semaphore object (`QueueHistories.ManagerQueueIsReachable` says that it always is such a value); the manager's queue is that value throughout, so aliasing of the semaphore is not captured.
- Managers.Manager.AcquireUnownedKey: takes from the same value, by the function that `PrioritySemaphore.AcquireNext` is proved against.
- Managers.Manager.AddToPending: adds to the same value, by the function that `PrioritySemaphore.AddToQueue` is proved against.
- AdmissionLoop.ProcessQueueAdmission: runs without other workers in between, and the merge with the global repository's settings is an argument. The answers to each start and the clock are arguments of the pass (`AdmissionPasses.Task`). `LoopAmongOthers` states termination and "no key twice" for the loop among other workers.
- AdmissionLoop.OneRound: runs without other workers in between; `LoopAmongOthers.RoundAmongOthers` is its round among them.
- AdmissionLoop.StartNextPipelineRunInQueue: runs without other workers in between; `LoopAmongOthers.HandedOverAmongOthers` is its result among them.
- Reconcilers.FinishOwner: whether the API server takes the terminal write is the argument `writes`; provider status, analysis and metrics around the hand-off and the write are left out.
- Reconcilers.FinalizeKind: a state annotation with none of the four known values, for which the code does nothing; the report of the cancellation to the provider, and a failing lookup of the controller's settings, which returns before anything happens.
- StartUp.InitQueues: several repositories in one namespace, where the code lists runs by namespace only. The listed runs come sorted by creation time, and the answers of the API server are arguments.
- Restarts.RestartIsSafe: requires that no start patch in flight can commit, that active runs are annotated as started, and that all runs so annotated fit the limit. A run that has finished but is still annotated as started takes a slot in the rebuild and may keep an active run waiting (`Restarts.FinishedRunsMayFill`); what follows from there is not modelled.
- StartProtocol: provider reporting after a confirmed start, back-off, and sleeps. A worker may repeat the steps of a start in any order after its first attempt, which allows more than the code does.
- Semaphores: the waiter queue inside `semaphore.Weighted`, since only TryAcquire and Release are used; 64-bit wrap-around of priorities and tie-breakers.
- Locks: each method that holds the manager's or the semaphore's lock is one atomic step.
- Logging, events, metrics and tracing.
- Git providers, templates, CEL, webhooks and the command line: mostly calls into libraries.
- TaskResolution: deep copies of cached resources (values here), steps and parameters inside a task, and label edits after resolution.
- HostPolicy: the limit on the number of retries; a call that gives up is one that never concludes.
