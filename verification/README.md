# A verified model of the Agently Stage runtime

Agently Stage is a structured-concurrency runtime: Stages own work, handles track
it, a pool of carrier lanes runs it, Tunnels stream its values. Its correctness
rests on lock-protected state and on what may happen between two locks. This
project models that state and proves what holds in every run.

Each component is a machine: a state, one event per critical section, a total
`Step` (an event that the source refuses, or that cannot happen, changes nothing),
and `Run` over any sequence of events. The theorems quantify over all event
sequences, that is, over all interleavings. Beside the machines stand classes with
the source's own fields and loops, whose methods are proved to perform exactly the
machine's steps. For lanes, handles, root admission, Stages and Tunnels a method
`Execute` performs any sequence of calls on new objects and is proved to leave them
in the state of a run of the machine, so what is proved of every run holds of them.
Each machine also has a section on what its events do, which states every effect and
every refusal on the fields of the state.

| file | component |
|---|---|
| `Slots`, `CarrierSlot`, `LaneRuns` | one carrier lane and its generations |
| `CarrierPool`, `WaitGraph`, `ManyLanes` | the pool, execution lineage, synchronous waits |
| `LaneSelection` | choice of a lane, resizing |
| `Settlement`, `CancelFence`, `CallbackDrain`, `ErrorLedger`, `StageHandle`, `HandleRuns` | a handle |
| `Admission`, `RootAdmissions`, `Epoch`, `IdleDeadline`, `Stage`, `StageRuns` | a Stage |
| `Scopes` | operations that span a Stage and a handle |
| `Replay`, `Wake`, `Tunnel`, `TunnelRuns` | the replay channel |
| `ChunkStore` | the blocked deque |
| `Common`, `Division` | shared vocabulary |

## Promises that hold only under a condition

Where the code does not meet a promise in general, the model keeps the code, gives
a run that shows it and proves exactly when the promise is met.

- Wait cycles. The documentation (README.md:243-252) says that the selector
  prevents transitive wait cycles. It does so for one lane and along one lineage;
  with n >= 2 lanes, n unrelated executions that each enter one synchronous scope
  wait for each other in a ring (`ManyLanes.AcyclicIffOneLane`,
  `ManyLanes.ScopesAreSelected`).
- `max_concurrency` is exceeded when a root that still waits is finished while
  another one waits: the finish grants a permit that nobody gave back
  (`Admission.LimitHolds`, `Admission.Overgranted`).
- The holder of a lease can be refused on its own generation while that generation
  waits unstarted in SEALING (`Slots.PinnedReservation`, `Slots.RefusedPinnedSubmit`).
- A handle can lose its place among the active handles while it has pending work,
  when a callback arrives between the end of its count and its report
  (`Epoch.HarmlessIffNoSlip`, `Epoch.LostHandle`).
- The Stage's error inventory can swap two batches of one handle, when new work is
  put on another worker while the last report of the handle is outstanding; on a
  caller's loop it cannot (`ErrorLedger.HarmlessIffNoSlip`, `ErrorLedger.Overtaking`,
  `ErrorLedger.CallerLoopInOrder`).
- A Stage kept busy by late callbacks alone has no idle timer
  (`IdleDeadline.UntouchedIffOnlyLate`, `IdleDeadline.LateWorkIsUnwatched`).

## Model

| member | source | states |
|---|---|---|
| `Slots.LedgerInEveryRun` | agently_stage/_runtime.py:182-250 | in every run the reservation count equals leases plus unfinished submissions plus live descendants; the seal signal is sent once, exactly when a started generation reaches zero; DRAINING means nothing held and everything accepted was started once, in order |
| `Slots.QueueInEveryRun` | agently_stage/_runtime.py:193-225 | in every run the control queue is exactly [current, next], ids increase, and only the head can have a live loop |
| `Slots.NoUnderflow` | agently_stage/_runtime.py:233-240 | no release by a holder ever finds the count at zero |
| `Slots.ZeroIsFinal` | agently_stage/_runtime.py:182-267 | a started generation that reached zero never counts again: it stays as it is but for SEALING to DRAINING, until it closes |
| `Slots.AbsentForGood` | agently_stage/_runtime.py:286-293 | a generation that left its lane never returns to it |
| `Slots.AcceptedIsStarted` | agently_stage/_runtime.py:117-133 | what a generation accepted stays accepted and is all started, in order, before it drains |
| `Slots.LeaseKeepsAdmitting` | agently_stage/_runtime.py:182-206 | a lease keeps its generation in the lane, and admitting if it was, until that very lease is released |
| `Slots.PinnedReservation` | agently_stage/_runtime.py:182-192 | a lease holder is refused on its own generation if and only if that waits unstarted in SEALING |
| `Slots.UnpinnedLease` | agently_stage/_runtime.py:193-206 | an unpinned lease always succeeds, and lands on a generation that will refuse its holder exactly when the current one is past admission and the queued one was released to zero |
| `Slots.RefusedPinnedSubmit` | agently_stage/_runtime.py:186-202 | a run in which a lease holder is refused, and that the start of the generation ends it |
| `Slots.LeaseRaisesPressure` | agently_stage/_runtime.py:145-159 | an unpinned lease raises the reported pressure of its lane by exactly one |
| `Slots.UnpinnedJoins` | agently_stage/_runtime.py:195-201 | an unpinned reservation joins the current generation while that is QUEUED, STARTING or OPEN |
| `Slots.UnpinnedQueues` | agently_stage/_runtime.py:202-203 | past admission it joins the successor, admitting or not |
| `Slots.UnpinnedCreates` | agently_stage/_runtime.py:193-205 | a generation is made only where there is no current one, or no successor to one past admission, and its job is queued |
| `Slots.PinnedJoins` | agently_stage/_runtime.py:183-192 | a pinned reservation joins its own generation while that is here and admits |
| `Slots.PinnedRefused` | agently_stage/_runtime.py:184-191 | in any other case it is refused and nothing changes |
| `Slots.LeavingDoes` | agently_stage/_runtime.py:233-250 | a holder that leaves is one less of its kind and one reservation less; the last one seals and signals |
| `Slots.RetainDoes` | agently_stage/_runtime.py:227-231 | a started generation that is not sealed counts a descendant more |
| `Slots.RetainRefused` | agently_stage/_runtime.py:229-230 | any other generation refuses it, with nothing changed |
| `Slots.StartDoes` | agently_stage/_runtime.py:258-272 | the current generation is started once: loop live, submissions handed over, OPEN if held and sealed at once if not |
| `Slots.BeginDoes` | agently_stage/_runtime.py:297-307 | the oldest submission handed to the loop begins |
| `Slots.EndingDoes` | agently_stage/_runtime.py:275-293 | a signalled loop drains, and a drained generation makes place for its successor |
| `CarrierSlots.Generation.AddSubmission` | agently_stage/_runtime.py:128-132 | a submission waits for the loop or is handed to it, with one reservation |
| `CarrierSlots.Generation.Drop` | agently_stage/_runtime.py:233-250 | one reservation less; sealing and the seal signal at zero |
| `CarrierSlots.CarrierSlot.constructor` | agently_stage/_runtime.py:86-102 | a new lane is empty |
| `CarrierSlots.CarrierSlot.CreateGeneration` | agently_stage/_runtime.py:208-225 | a new generation takes its place and its job is queued |
| `CarrierSlots.CarrierSlot.Pick` | agently_stage/_runtime.py:182-204 | the generation chosen and the lane left behind are the model's, and a refusal changes nothing |
| `CarrierSlots.CarrierSlot.AcquireLease` | agently_stage/_runtime.py:138-140 | is the lane's reservation event for a lease |
| `CarrierSlots.CarrierSlot.Submit` | agently_stage/_runtime.py:104-136 | is the lane's reservation event for a submission, answering the generation id or the refusal |
| `CarrierSlots.CarrierSlot.RetainReservation` | agently_stage/_runtime.py:227-231 | is the lane's retention event, refused exactly when not started or past OPEN |
| `CarrierSlots.CarrierSlot.ReleaseReservation` | agently_stage/_runtime.py:233-250 | is the lane's release event, with the underflow refused and the seal signal answered |
| `CarrierSlots.CarrierSlot.StartGeneration` | agently_stage/_runtime.py:252-272 | is the lane's start event; answers the submissions to start and whether to seal |
| `CarrierSlots.CarrierSlot.BeginSubmission` | agently_stage/_runtime.py:297-307 | is the lane's begin event: the loop starts the oldest submission handed to it |
| `CarrierSlots.CarrierSlot.DrainGeneration` | agently_stage/_runtime.py:275-277 | is the lane's drain event |
| `CarrierSlots.CarrierSlot.CloseGeneration` | agently_stage/_runtime.py:286-295 | is the lane's close event: the successor moves up, and idleness is answered |
| `LaneRuns.Execute` | agently_stage/_runtime.py:182-295 | any critical sections on a new lane, in any order, leave its objects in the state of the model's run |
| `CarrierPool.RunKeepsInv` | agently_stage/_runtime.py:473-636 | the pool invariant (lanes, contexts, scans, leases, executions, escape lanes, waits) holds in every run, with reading, choosing and leasing as separate critical sections |
| `CarrierPool.LineageInEveryRun` | agently_stage/_runtime.py:473-510 | in every run, for any number of lanes, no context runs on a generation blocked along its lineage and those generations are pairwise distinct |
| `CarrierPool.LeaseOutsideLineage` | agently_stage/_runtime.py:567-570 | a lane found clear leases a generation outside the lineage even if it changed in between, because new ids are larger |
| `CarrierPool.EpochKeepsItsLane` | agently_stage/_runtime.py:583-595 | in every run the lane of a bound Stage, escape lanes included, stays findable and its lease can be released |
| `CarrierPool.LiveWorkIsAdmitted` | agently_stage/_runtime.py:338-349 | in every run work that holds its reservation can retain a descendant and lease its own generation again |
| `CarrierPool.LiveWorkKeepsItsGeneration` | agently_stage/_runtime.py:477-488 | in every run, live work whose scope does not block its loop leases its own generation again at once, under its own lineage, and opens no scan |
| `CarrierPool.LeasedAtOnceIff` | agently_stage/_runtime.py:477-492 | for any context, alive or not, the lease is taken at once iff the scope does not block its loop and the generation does not refuse |
| `CarrierPool.AcquireScans` | agently_stage/_runtime.py:486-492 | a scope that blocks its loop, or that its generation refuses, opens a scan and leases nothing yet |
| `CarrierPool.AcquireBinds` | agently_stage/_runtime.py:477-486 | any other opens an epoch in its own context with a lease on its generation |
| `CarrierPool.AcquireOutside` | agently_stage/_runtime.py:475-492 | outside any execution a scope opens a scan |
| `CarrierPool.ReadDoes` | agently_stage/_runtime.py:621-628 | a lane becomes a candidate iff it holds no generation blocked upstream and, for a scope that blocks its loop, not that loop |
| `CarrierPool.ChooseDoes` | agently_stage/_runtime.py:629-636 | a candidate is chosen, or a new escape lane opened iff there is none |
| `CarrierPool.TakeLeaseDoes` | agently_stage/_runtime.py:494-510 | the epoch is on the chosen lane with a lease on its generation; its lineage gains the scope's own generation iff the scope is synchronous and left it; its waiter is the blocked execution |
| `CarrierPool.SubmitDoes` | agently_stage/_runtime.py:117-133 | a submission runs in its epoch's context on its generation |
| `CarrierPool.SubmitRefused` | agently_stage/_runtime.py:183-191 | unless that generation refuses, and then nothing changes |
| `CarrierPool.SpawnDoes` | agently_stage/_runtime.py:338-352 | a descendant of live work is live in the same context and holds a reservation |
| `CarrierPool.EndExecDoes` | agently_stage/_runtime.py:324-329 | an execution ends with its reservation, unless its loop is blocked |
| `CarrierPool.EndEpochDoes` | agently_stage/_runtime.py:512-513 | an epoch ends with its lease |
| `CarrierPool.LoopDoes` | agently_stage/_runtime.py:252-295 | a lane's own events happen on that lane alone |
| `CarrierPool.BeginDoes` | agently_stage/_runtime.py:297-323 | a submission that its loop starts is live from then on |
| `CarrierPool.RetireDoes` | agently_stage/_runtime.py:583-587 | an escape lane goes iff it has served and is idle |
| `WaitGraph.WaitsAreEdges` | agently_stage/_runtime.py:494-510 | with one lane every wait has a shape fixed by the blocked sets: into an escape lane from a generation it knows, into the lane from an escape lane that does not know it |
| `WaitGraph.ShapedIsAcyclic` | agently_stage/_runtime.py:606-636 | no path of such waits returns to its start |
| `WaitGraph.NoWaitCycleInAnyRun` | agently_stage/_runtime.py:473-510 | with one configured lane no run of nested synchronous scopes closes a wait cycle |
| `ManyLanes.WaitCycle` | agently_stage/_runtime.py:620-628 | with n >= 2 lanes, a run after which n unrelated executions wait round all n lanes, each for the next |
| `ManyLanes.LeasesAreSelected` | agently_stage/_runtime.py:626-635 | the external leases of that run go where the selector sends them, and bring the cursor back |
| `ManyLanes.ScopesAreSelected` | agently_stage/_runtime.py:621-635 | every synchronous scope of that run is given its neighbour by the selector, at the cursor the previous one left |
| `ManyLanes.AcyclicIffOneLane` | agently_stage/_runtime.py:606-636 | wait cycles are impossible if and only if there is exactly one configured lane |
| `LaneSelection.GoingRound` | agently_stage/_runtime.py:627-635 | the remainders in the source are places going round the lanes |
| `LaneSelection.SelectSlot` | agently_stage/_runtime.py:620-636 | the eligible lane of least pressure, then nearest after the cursor; none exactly when all are excluded; the cursor moves past it |
| `LaneSelection.BestIsUnique` | agently_stage/_runtime.py:632-632 | that lane is unique |
| `LaneSelection.LeasesKeepBalance` | agently_stage/_runtime.py:606-636 | any number of unreleased leases leaves balanced pressures within one of each other |
| `LaneSelection.LoadAfter` | agently_stage/_runtime.py:606-636 | the pressures and the cursor after any number of leases from equal pressures |
| `LaneSelection.LeasesRotate` | agently_stage/_runtime.py:606-636 | from equal pressures lease i goes to the lane i places after the cursor, going round |
| `LaneSelection.EachLaneOnce` | agently_stage/_runtime.py:633-635 | n consecutive places after the cursor are n different lanes |
| `LaneSelection.RuntimeCarrier.constructor` | agently_stage/_runtime.py:381-390 | one lane, cursor in range, settings open |
| `LaneSelection.RuntimeCarrier.SetCarrierLoopCount` | agently_stage/_runtime.py:396-412 | surviving lanes keep their place, retired ids never return, the cursor stays in range, a frozen pool accepts only its size |
| `LaneSelection.RuntimeCarrier.Select` | agently_stage/_runtime.py:606-636 | freezes the settings, selects the best lane and keeps the cursor in range |
| `Settlement.BarrierInEveryRun` | agently_stage/StageHandle.py:91-108 | in every run the current barrier is resolved iff nothing is pending, and all earlier ones are |
| `Settlement.BarrierEndsWithEpisode` | agently_stage/StageHandle.py:382-391 | a barrier taken during a busy episode is resolved iff that episode has ended, whatever later episodes do |
| `Settlement.UnitsCount` | agently_stage/StageHandle.py:91-106 | every unit counts; the first of an episode brings a new barrier, the last one released resolves it |
| `CancelFence.FenceInEveryRun` | agently_stage/StageHandle.py:412-431 | for every interleaving, after an accepted cancel each running body task, present or later, is asked to stop, no settlement task is, and without a cancel nobody is |
| `CancelFence.CancelAccepted` | agently_stage/StageHandle.py:414-431 | in every run a cancel is accepted iff the body is not done or another body task is left; the call names the owner and all those tasks |
| `CancelFence.RegistrationDoes` | agently_stage/StageHandle.py:114-120 | a new task is on record in its phase, and a body task after a cancel is owed a request |
| `CancelFence.DeliveryDoes` | agently_stage/StageHandle.py:285-291 | a scheduled call reaches the tasks it names that are not done, an owed request its task |
| `CallbackDrain.DrainInEveryRun` | agently_stage/StageHandle.py:199-227 | in every run a completed body with queued callbacks has exactly one drainer; accepted callbacks leave once each in order; of those taken, the ones that run are of kind finally, success on a body that did not fail, or error on one that did |
| `CallbackDrain.RegisterEffect` | agently_stage/StageHandle.py:213-226 | a registration is accepted at once, or held for its drain, and a failed drain submission undoes it exactly |
| `CallbackDrain.FailedSubmissionRestores` | agently_stage/StageHandle.py:219-226 | in every run a late registration whose drain cannot be submitted leaves no trace |
| `CallbackDrain.DrainerFinishes` | agently_stage/StageHandle.py:247-264 | a drainer left alone takes everything queued, runs what fits and clears the flag |
| `CallbackDrain.SetBodyDoes` | agently_stage/StageHandle.py:135-175 | the first outcome stays and starts a drain iff callbacks wait |
| `CallbackDrain.DrainOneDoes` | agently_stage/StageHandle.py:249-264 | a pass takes the head and runs it iff it fits; on an empty queue the flag is cleared |
| `CallbackDrain.BeginDrainDoes` | agently_stage/StageHandle.py:219-221 | a promised drain begins once, and a submitted registration is accepted and promised one |
| `ErrorLedger.ConservedInEveryRun` | agently_stage/StageHandle.py:127-133 | for every interleaving inventory and batches in flight hold each error taken so far as often as it was recorded and never the body's; at rest the inventory holds all |
| `ErrorLedger.HarmlessIffNoSlip` | agently_stage/Stage.py:557-597 | a step keeps the inventory in order in every slip-free continuation iff it does not put new work, after the last unit, on another worker than one whose report may still carry errors |
| `ErrorLedger.InventoryInOrder` | agently_stage/Stage.py:1115-1118 | without such a step the inventory grows in the order of recording and at rest is all reportable errors in order |
| `ErrorLedger.SlipCanSwap` | agently_stage/Stage.py:1115-1118 | after any such step, a run without another that breaks the order |
| `ErrorLedger.CallerLoopInOrder` | agently_stage/Stage.py:574-583 | a handle made for a caller's loop reports in order in every run |
| `ErrorLedger.WorkDoes` | agently_stage/StageHandle.py:97-112 | work records, spawns and ends only on a worker that has some and is not busy with a report |
| `ErrorLedger.LateDoes` | agently_stage/Stage.py:557-597 | a late callback needs a completed body and goes to the Stage's own worker, unless the handle was lost and made for the carrier |
| `ErrorLedger.ReportDoes` | agently_stage/Stage.py:1115-1119 | a report takes what was recorded since the last one but the body's, and adds it to the inventory, letting the handle go |
| `ErrorLedger.Overtaking` | agently_stage/Stage.py:1115-1118 | a run that loses the handle, binds the Stage to another lane and reports two errors in the opposite order, with every worker busy during its own report |
| `StageHandles.StageHandle.RetainWork` | agently_stage/StageHandle.py:91-95 | is the retain event of the settlement model |
| `StageHandles.StageHandle.ReleaseWork` | agently_stage/StageHandle.py:97-108 | is the release event; underflow refused; at zero the barrier resolves and the Stage is to be told |
| `StageHandles.StageHandle.RecordSettlementError` | agently_stage/StageHandle.py:110-112 | appends to the recorded errors |
| `StageHandles.StageHandle.TakeUnreportedStageErrors` | agently_stage/StageHandle.py:127-133 | exactly the errors since the last call but the body's, in order, and the cursor at the end |
| `StageHandles.StageHandle.SetOwnerTask` | agently_stage/StageHandle.py:277-283 | is the owner event of the fence; the owner is to be cancelled iff a cancel was accepted before |
| `StageHandles.StageHandle.RegisterOwnedTask` | agently_stage/StageHandle.py:114-120 | is the registration event; a body task is to be cancelled iff a cancel was accepted, a settlement task never |
| `StageHandles.StageHandle.UnregisterOwnedTask` | agently_stage/StageHandle.py:122-125 | is the completion event of the fence |
| `StageHandles.StageHandle.Cancel` | agently_stage/StageHandle.py:412-431 | accepted iff the body is not completed or an owned body task is left; the call to the owner loop names the owner and all of them |
| `StageHandles.StageHandle.CancelScheduled` | agently_stage/StageHandle.py:285-291 | is the event of the owner loop running the oldest cancel call |
| `StageHandles.StageHandle.CancelOwed` | agently_stage/StageHandle.py:282-283 | is the event of cancelling a task that was registered after the cancel |
| `StageHandles.StageHandle.SetBody` | agently_stage/StageHandle.py:135-175 | the first outcome wins; a drain is to be started iff the model owes one |
| `StageHandles.StageHandle.Enqueue` | agently_stage/StageHandle.py:216-218 | is the registration event of the callback model |
| `StageHandles.StageHandle.Withdraw` | agently_stage/StageHandle.py:222-226 | is the failed submission event |
| `StageHandles.StageHandle.Submitted` | agently_stage/StageHandle.py:219-221 | is the submitted event of the callback model |
| `StageHandles.StageHandle.BeginDrain` | agently_stage/StageHandle.py:247-248 | is the begin event of the callback model |
| `StageHandles.StageHandle.DrainOne` | agently_stage/StageHandle.py:249-264 | the head leaves and is answered iff it is finally, success without a body error, or error with one; an empty queue clears the flag |
| `StageHandles.StageHandle.DrainCallbacks` | agently_stage/StageHandle.py:247-264 | takes the whole queue in order, runs what fits the outcome, clears the flag |
| `HandleRuns.Execute` | agently_stage/StageHandle.py:91-291 | any calls on a new handle leave its fields in the state of the models |
| `HandleRuns.CallsAreRuns` | agently_stage/StageHandle.py:91-291 | whatever the calls, settlement, fence and callback queue have each made a run of their model |
| `Admission.AdmissionInEveryRun` | agently_stage/Stage.py:396-407 | in every run permits equal granted unfinished roots, grants follow arrival, a waiting root means all permits are out, the queue respects its bound, and the excess over the limit is at most the roots finished while waiting |
| `Admission.LimitHolds` | agently_stage/Stage.py:427-447 | the limit is respected throughout a run iff no waiting root is finished while another waits |
| `Admission.Overgranted` | agently_stage/Stage.py:431-445 | with limit 1, a run with two active roots |
| `Admission.WaiterLeaves` | agently_stage/Stage.py:438-446 | a waiter at position k is gone after k + 1 finishes, in every run |
| `Admission.AdmitDoes` | agently_stage/Stage.py:396-407 | an arrival is granted below the limit, refused at the queue's bound, and queued last otherwise |
| `Admission.HolderFinishDoes` | agently_stage/Stage.py:431-446 | a holder gives its permit back and the head of the queue is granted |
| `Admission.WaiterFinishDoes` | agently_stage/Stage.py:433-446 | a waiter leaves its place and the head of those left is granted; any other root changes nothing |
| `RootAdmissions.Roots.AdmitRoot` | agently_stage/Stage.py:396-407 | nested work needs no permit; below the limit granted, at the limit queued last, at the queue's bound refused with nothing changed |
| `RootAdmissions.Roots.GrantNext` | agently_stage/Stage.py:438-446 | skips admissions whose gate is missing or resolved and grants the first open one |
| `RootAdmissions.Roots.Remove` | agently_stage/Stage.py:434-437 | the admission leaves the queue, the others keep their order |
| `RootAdmissions.Roots.FinishAdmission` | agently_stage/Stage.py:427-447 | is the finish event of the admission model |
| `RootAdmissions.Execute` | agently_stage/Stage.py:396-447 | any arrivals and finishes leave the admission objects in the state of the model's run |
| `Epoch.EpochInEveryRun` | agently_stage/Stage.py:330-376 | in every run work implies a bound backend, every active handle and adopted task belongs to it, the carrier is bound iff a lease is held and only with work, and every lease is held, on its way back, or returned, once |
| `Epoch.EpochIsConstant` | agently_stage/Stage.py:330-332 | while a Stage has work, its backend, loop and lease never change |
| `Epoch.TrackedWithoutSlips` | agently_stage/StageHandle.py:97-108 | without a callback between a handle's end and its report, pending work keeps its handle active and the backend bound |
| `Epoch.SlipLosesHandle` | agently_stage/Stage.py:557-578 | any such callback lets the report drop the handle while work is pending |
| `Epoch.HarmlessIffNoSlip` | agently_stage/Stage.py:557-578 | a step keeps all pending handles tracked in every slip-free continuation iff it is not such a callback |
| `Epoch.LostHandle` | agently_stage/Stage.py:1115-1126 | a run that gives the lease up while a callback's work is pending |
| `Epoch.GoDoes` | agently_stage/Stage.py:378-394 | a new handle is active on the bound backend, which is bound, with a lease iff it is the carrier, if there was none |
| `Epoch.CountDoes` | agently_stage/StageHandle.py:91-108 | units are counted one by one and the last one released owes a report |
| `Epoch.QuiesceDoes` | agently_stage/Stage.py:1115-1126 | a report takes its handle off and ends the epoch, with its lease on the way back, iff no work is left |
| `Epoch.LateDoes` | agently_stage/Stage.py:557-578 | a late callback is accepted iff the Stage is unbound or bound to the handle's home |
| `Epoch.BindDoes` | agently_stage/Stage.py:784-788 | succeeds iff the Stage is bound, or would be, to the caller's loop; a refusal leaves no binding without work |
| `Epoch.AdoptDoes` | agently_stage/Stage.py:827-839 | adoption is that binding and the task on record with its loop |
| `Epoch.DoneDoes` | agently_stage/Stage.py:848-875 | a finished task leaves, the last one ends the epoch, and a lease comes back once |
| `IdleDeadline.DeadlineInEveryRun` | agently_stage/Stage.py:1043-1057 | in every run a busy unsealed touched Stage has a current timer due by its deadline, the deadline is never passed, and a seal by timeout happened exactly then |
| `IdleDeadline.UntouchedIffOnlyLate` | agently_stage/Stage.py:1043-1051 | an open Stage is untouched iff since it was last idle work entered through late callbacks alone and nothing touched the timer |
| `IdleDeadline.StaleTimerIsHarmless` | agently_stage/Stage.py:1069-1077 | a cancelled timer that fires does nothing, in any reachable state |
| `IdleDeadline.SealsExactlyAtDeadline` | agently_stage/Stage.py:1069-1094 | a step seals by timeout iff it is the timer firing at exactly last activity plus timeout |
| `IdleDeadline.QuietRunSeals` | agently_stage/Stage.py:1069-1094 | left alone, a busy touched Stage is open before its deadline and sealed after it |
| `IdleDeadline.LateWorkIsUnwatched` | agently_stage/Stage.py:557-578 | a late callback on a finished handle keeps a Stage busy for any time, unsealed |
| `IdleDeadline.ActivityIsRecorded` | agently_stage/Stage.py:1043-1044 | entering work, touches and leaving tasks are recorded with their time, and nothing else is |
| `IdleDeadline.LastActivityIs` | agently_stage/Stage.py:1043-1044 | the activity on record is the last of the run, or its start |
| `IdleDeadline.IdleBeforeExpiry` | agently_stage/Stage.py:1079-1088 | a Stage sealed by the deadline saw no activity in the last timeout before |
| `IdleDeadline.WorkIsCounted` | agently_stage/Stage.py:1037-1038 | work is counted as it enters and leaves |
| `IdleDeadline.ActivityArms` | agently_stage/Stage.py:1045-1051 | activity starts a timer for the full timeout under a new token iff the Stage is open, busy and has none |
| `IdleDeadline.FinishAdoptedDoes` | agently_stage/Stage.py:848-872 | the last task to leave stops the timer, any other starts one if there is none |
| `IdleDeadline.EndDisarms` | agently_stage/Stage.py:1099-1106 | the end of the work, or a seal, cancels the timer and outdates its token; a seal closes the Stage |
| `IdleDeadline.LateStartDoes` | agently_stage/Stage.py:557-578 | a late callback touches neither clock nor timer |
| `IdleDeadline.FireDoes` | agently_stage/Stage.py:1078-1091 | a due timer seals after a full idle period and else is set again to the end of the period |
| `Stages.Stage.constructor` | agently_stage/Stage.py:238-259 | a new Stage is unbound, idle and open |
| `Stages.Stage.ResolveBackend` | agently_stage/Stage.py:330-376 | a bound backend stays; else a configured loop or the carrier if the Stage was made for it, else the running loop unless in a synchronous scope, else a waiting caller's, else the carrier; a lease is taken iff it is the carrier |
| `Stages.Stage.NewHandle` | agently_stage/Stage.py:378-394 | refused iff sealed from outside, or unbound with the configured loop unusable; otherwise the epoch's and the timer's start events |
| `Stages.Stage.TouchLocked` | agently_stage/Stage.py:1043-1057 | records the time, and starts a timer iff the Stage has a timeout and work, is open and has none |
| `Stages.Stage.ReleaseBackendIfQuiescent` | agently_stage/Stage.py:1099-1113 | without work, unbinds, stops the timer, ends cancelling and answers the lease; with work, nothing |
| `Stages.Stage.HandleQuiescent` | agently_stage/Stage.py:1115-1126 | adds the errors to the inventory, is the quiescence event of epoch and timer, and answers the held lease iff no work is left |
| `Stages.Stage.BindLoop` | agently_stage/Stage.py:784-788 | bound to the given loop, or released again if there is no work; refused with nothing changed iff the configured loop is unusable |
| `Stages.Stage.BindForTask` | agently_stage/Stage.py:779-796 | is the bind event of the epoch, refused iff sealed from outside or the configured loop is unusable |
| `Stages.Stage.Adopt` | agently_stage/Stage.py:818-841 | each refusal (sealed, two origins, loop unusable, foreign loop) iff its cause holds, else the adoption events; an adopted task is to be cancelled iff the Stage is cancelling |
| `Stages.Stage.AdoptedTaskDone` | agently_stage/Stage.py:848-875 | is the completion event of epoch and timer, and answers the held lease iff no work is left |
| `Stages.Stage.LeaseReturned` | agently_stage/Stage.py:1125-1126 | is the event of giving a lease back |
| `Stages.Stage.Counted` | agently_stage/StageHandle.py:91-108 | is the epoch's event of a handle retaining or releasing a unit |
| `Stages.Stage.Elapse` | agently_stage/Stage.py:1053-1057 | is the passing of time, held up by a timer that is due |
| `Stages.Stage.Touch` | agently_stage/Stage.py:1059-1067 | is the touch event; a tick of a sealed or idle Stage does nothing |
| `Stages.Stage.IdleDeadlineReached` | agently_stage/Stage.py:1069-1097 | is the firing event; on expiry all active handles and adopted tasks are to be cancelled |
| `Stages.Stage.Seal` | agently_stage/Stage.py:1134-1141 | is the seal event of the idle model |
| `Stages.Stage.SubmitCallbackDrain` | agently_stage/Stage.py:557-578 | accepted iff it does not cross the epoch; binds to the handle's home and does not touch the timer |
| `StageRuns.Execute` | agently_stage/Stage.py:1043-1141 | any calls on a new Stage leave its fields and its inventory in the state of the models, which also decide every refusal |
| `StageRuns.CallsAreRuns` | agently_stage/Stage.py:330-394 | whatever the calls, epoch and timer have each made a run of their model |
| `StageRuns.PromisesHold` | agently_stage/Stage.py:330-394 | so the invariants of every run hold of every Stage after any calls |
| `Scopes.Retain` | agently_stage/StageHandle.py:91-95 | handle and Stage count one unit more |
| `Scopes.Release` | agently_stage/StageHandle.py:97-108 | handle and Stage count one unit less; at zero a report is owed |
| `Scopes.Report` | agently_stage/Stage.py:1115-1126 | the inventory grows by the handle's unreported errors without the body's, the handle's cursor is at the end, and the held lease is answered iff no work is left |
| `Scopes.RegisterCallback` | agently_stage/StageHandle.py:205-227 | refused iff the scope is sealed from outside or a late drain would cross the epoch, with nothing changed; else the callback is last in the queue, and a late one brings its unit of work |
| `Scopes.SubmitDrain` | agently_stage/StageHandle.py:219-226 | the drain of a held registration is submitted with its unit of work, or the registration undone |
| `Replay.ReplayInEveryRun` | agently_stage/Tunnel.py:54-82 | for every interleaving a reader has received a contiguous slice of one total order; its normal end or the failure comes after all of it |
| `Replay.HistoryInEveryRun` | agently_stage/Tunnel.py:222-231 | in every run the retained items are exactly the newest max_history of the log, or all |
| `Replay.NextRead` | agently_stage/Tunnel.py:58-76 | what a read gives, in terms of the log: lag iff an undelivered value is gone, with the exact count; else value, failure, end or wait |
| `Replay.ParkedInEveryRun` | agently_stage/Tunnel.py:92-127 | a registered async waiter never has a value, a terminal state or a close of its own available |
| `Replay.LogGrows` | agently_stage/Tunnel.py:222-251 | the log only grows, and not at all after a terminal state |
| `Replay.PutDoes` | agently_stage/Tunnel.py:222-231 | a value before the end is the next of the log and wakes everyone; after the end it is refused |
| `Replay.EndDoes` | agently_stage/Tunnel.py:236-251 | the first end stays and wakes everyone |
| `Replay.SubscribeDoes` | agently_stage/Tunnel.py:273-287 | in every run a reader starts at the oldest retained value, after the last, or at a number up to there; any other start is refused |
| `Replay.ReadDoes` | agently_stage/Tunnel.py:58-76 | a read receives and passes a retained value, ends on loss or at the end, and otherwise waits on the future it brought |
| `Replay.ReaderEnds` | agently_stage/Tunnel.py:134-139 | a reader ends once, by timeout or by its own close, which wakes everyone, and then reads no more |
| `Wake.ResolveGroup` | agently_stage/Tunnel.py:216-220 | sets each undone future once and no other |
| `Wake.WakeIndividual` | agently_stage/Tunnel.py:210-214 | the calls resolve each waiter whose loop is open exactly once on its own loop |
| `Wake.WakeGrouped` | agently_stage/Tunnel.py:198-209 | the same, with at most one call per loop |
| `Wake.ModesAgree` | agently_stage/Tunnel.py:192-214 | both modes resolve the same futures, each once |
| `Tunnels.Tunnel.constructor` | agently_stage/Tunnel.py:161-185 | a new channel is the model's initial one |
| `Tunnels.Tunnel.WakeWaiters` | agently_stage/Tunnel.py:192-214 | every waiter is taken off and resolved if its loop is open, in either mode |
| `Tunnels.Tunnel.Put` | agently_stage/Tunnel.py:222-231 | refused after a terminal state, else the model's append and a wake |
| `Tunnels.Tunnel.Close` | agently_stage/Tunnel.py:236-241 | first terminal state wins, then a wake |
| `Tunnels.Tunnel.Fail` | agently_stage/Tunnel.py:246-251 | first terminal state wins, then a wake |
| `Tunnels.Tunnel.Subscribe` | agently_stage/Tunnel.py:263-288 | the cursor asked for, refused exactly outside 0..next |
| `Tunnels.TunnelSubscription.Pass` | agently_stage/Tunnel.py:58-76 | one pass gives what the model's read gives |
| `Tunnels.TunnelSubscription.Next` | agently_stage/Tunnel.py:54-76 | is the model's read event |
| `Tunnels.TunnelSubscription.NextAsync` | agently_stage/Tunnel.py:87-114 | is the model's read, registering a waiter iff it would block |
| `Tunnels.TunnelSubscription.TimeOut` | agently_stage/Tunnel.py:78-81 | is the timeout event: it ends the subscription |
| `Tunnels.Tunnel.Discard` | agently_stage/Tunnel.py:125-127 | is the discard event: the waiter is taken off if it is still there |
| `Tunnels.TunnelSubscription.Close` | agently_stage/Tunnel.py:134-139 | ends the subscription and wakes, once |
| `Tunnels.Tunnel.Get` | agently_stage/Tunnel.py:310-312 | with no one else at work, all retained values, then the failure, the end, or on an open channel the timeout |
| `Tunnels.Tunnel.ReadAll` | agently_stage/Tunnel.py:54-82 | reading until the end, or until a wait, gives all retained values |
| `TunnelRuns.Execute` | agently_stage/Tunnel.py:42-288 | any calls on a new Tunnel and its subscriptions leave them in the state of the model's run |
| `ChunkStores.ChunkStore.Append` | docs/performance-strategy/candidates.py:23-28 | appends to the sequence it stands for |
| `ChunkStores.ChunkStore.GetItem` | docs/performance-strategy/candidates.py:30-36 | reads that sequence, negative indices and range errors included |
| `ChunkStores.ChunkStore.PopLeft` | docs/performance-strategy/candidates.py:38-45 | takes the head of that sequence, or reports its emptiness |
| `ChunkStores.ChunkStore.Iterate` | docs/performance-strategy/candidates.py:47-49 | yields that sequence |
| `ChunkStores.ChunkStore.Length` | docs/performance-strategy/candidates.py:20-21 | its length |
| `ChunkStores.ChunkStore.SlotsHeld` | docs/performance-strategy/candidates.py:38-45 | slots held are the length plus start mod size, fewer than length plus size |
| `ChunkStores.Execute` | docs/performance-strategy/candidates.py:11-49 | any mix of operations on a new store shows what a plain sequence shows |

## Left out

- Event loops, threads, executors and futures themselves: loops are queues of scheduled calls, a lane's executor is a FIFO worker that always accepts its job, futures are one-shot cells; interpreter shutdown is not part of the model.
- STARTING: the source reads this state and never assigns it; the model proves that it does not occur.
- Timeouts of waits and reads are events that may happen at any time; only the idle timer has real time.
- Runners cancelled before their first step never release what they hold; the model has no release event for them and states releases for runners that started.
- Process-control exceptions that break a generation's loop before it has drained (the `finally` of agently_stage/_runtime.py:283-295).
- Stopping of caller-owned loops, including the handle left active when its loop stops inside a late callback (agently_stage/Stage.py:578-582).
- A start that fails on a caller loop and ignores the answer that a drain is owed (agently_stage/Stage.py:520-534).
- Failure of `create_task` after its first critical section, which leaves a caller loop bound without work: the model has the binding as an event of its own.
- Foreign-thread submissions to a Stage bound to a caller loop, which carry no carrier lineage, and callbacks on carrier loops without a context.
- The observer of adopted tasks, done callbacks, the snapshot of active origins, waiting for settlement and closing: they read the modelled state or call out of it.
- StageStream, StageFunction, StageCallBridge, StageTask, StageDispatch, TaskThreadPool, LocalTaskScope, Events and EventEmitter: adapters and registries that would only add easy members.
- CarrierPool.RunKeepsInv: the choice among the candidate lanes is left open, which covers every policy; the selector itself is proved in `LaneSelection`. The pool is modelled on values, not as an object, because its operations are sequences of critical sections with other events in between.
- StageHandles.StageHandle.SetOwnerTask: one owner per handle, as only the body's own runner sets it.
- StageHandles.StageHandle.RegisterOwnedTask: tasks are new objects, and body tasks come after the owner because the owner's context creates them.
- ErrorLedger.HarmlessIffNoSlip: a late callback whose drain cannot be submitted reports on the registering thread under the scope lock; the model has only callbacks that were submitted.
- ErrorLedger.Overtaking: that the Stage is bound to another worker stands for a new root on a pool with a second lane; generations of one lane share its worker.
- Tunnels.Tunnel.Get: other producers and readers at work during the call are in the replay model, not in this method.
- RootAdmissions.Roots.FinishAdmission: called once for each admission handed out, as `go` does.
- LaneSelection.RuntimeCarrier.SetCarrierLoopCount: a count of zero, on which the source would fail with a division by zero, is excluded.
- ChunkStores.ChunkStore.Append: a block size of zero or less, on which `divmod` fails or runs backwards, is excluded.
- IdleDeadline.DeadlineInEveryRun: timers are ideal, firing exactly when due unless cancelled; a cancelled timer may still fire.
