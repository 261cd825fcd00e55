# StacyVM orchestrator: a Dafny model

StacyVM runs sandboxes on behalf of many callers. Its orchestrator decides whether a sandbox may
be created, which worker or shared VM it goes to, and keeps four things in step while goroutines
spawn and destroy concurrently: the sandbox table, the leases, the in-memory cache and the pool's
user counters. This project models that decision logic and the algorithms around it, and proves
what they keep and where they do not keep what their comments say.

`dafny verify dfyconfig.toml` checks everything.

## How it is organised

- `Text`, `Counting`: Go's string operations (trim, split, join, contains) and counting over
  finite maps.
- `Records`, `Scheduler`, `Admission`: the sandbox table, the placement loop, the admission check.
- `VmPool`: the slot counters of VMs shared by several users, and the class that keeps them.
- `Orchestrator`: the concurrent step system. Any number of threads run Spawn (unlocked check,
  lock `admissionMu`, re-check, provider call, lease, row, cache, unlock) or Destroy; a step is one
  critical section together with the store or provider call that decides it. Provider calls,
  leases, inserts and listings can fail at any time; reads that make the placement fall back and
  Destroy's updates can fail unless a theorem says otherwise. On top of it: `Caps` and
  `WorkerCaps` (limits), `CompleteRuns` (what a call that goes through leaves), `PoolCounters`, `PoolSafety` and `PoolTable` (shared VMs), `Agreement`
  (table, leases, cache), `Scenarios`, `PoolScenarios` and `PoolOrphans` (runs that reach the bad
  states).
- `Lifecycle`, `Reconciliation`: the manager as a class, one call at a time, with Spawn's rollback
  and the start-up reconciliation.
- `SpawnQueue`, `WarmPool`, `EventBus`, `Bridge`, `ImageCache`: queue bookkeeping and wake-ups,
  warm pools under a refill goroutine, the ring of recent events, the NOTIFY gossip between
  replicas, the single-flight image cache.
- `Shell`, `ShellLaws`, `ShellCommand`: POSIX token recognition, the laws that pin it, and the exec
  line that host and guest build.
- `Workspace`, `RcFile`, `RcBlock`, `LineRing`: path scoping on shared VMs, the rc-file block that
  setup writes and uninstall removes with its wording and the lines it spares, the provider's line
  buffer.

Code that changes state step by step is a class or a method with loops, proved against a function
of the old state; concurrent code is the same critical sections as a step relation. Calls into
providers, the network, the clock and the database's internals are parameters or free choices.

## Where the code and its descriptions disagree

The model follows the code. Each point below is a member of the project.

- In pool mode the sandbox cap is really `MaxSandboxes + 1`: one admitted Spawn may add a VM row
  and its own. It is kept as long as no Spawn starts a VM without room for two rows
  (`Caps.CapHoldsIfMissesHaveRoom`), and every such start can exceed it
  (`Scenarios.PoolModeExceedsTheCap`).
- A pooled Spawn that fails after getting its slot gives the slot back and ignores whether that
  emptied the VM: the VM row stays alive without a slot exactly when it had no other user
  (`PoolSafety.FailedSpawnStrandsVmIffAlone`, reached in `PoolScenarios.FailedSpawnStrandsItsVm`).
- Release does not ask whether a sandbox gave its slot back before, and the lease does not keep its
  own holder out: two Destroys of one pooled sandbox, one after the other or overlapping, release
  twice. A release keeps the counters right if and only if it is the first for its sandbox or the VM
  has left the pool (`PoolScenarios.ReleaseKeepsCountersIff`, reached by
  `PoolScenarios.DestroyedTwice` and `PoolScenarios.OverlappingDestroys`).
- A Destroy of a pooled sandbox that starts before Spawn has written the row finds nothing, marks
  the row as soon as it is there, and never calls Release: the slot stays taken for a destroyed
  sandbox. It can happen from every state between the id and the row
  (`PoolOrphans.DestroyBeforeRowOrphansSlot`).
- Destroy of a pooled sandbox ignores that its row update failed, and then the table keeps a live row
  without a slot. The counters always count the slots that were not given back; they describe the
  live rows if and only if such rows and orphaned slots cancel out on every VM
  (`PoolTable.CountersMatchTableIff`).
- Destroy of a pool VM by its own id does not reach the pool: the VM keeps its slot, with its users,
  and takes new ones (`PoolScenarios.DestroyedVmStaysInPool`).
- A Destroy of an id that a Spawn has issued and not finished can leave a live sandbox without a
  lease, another worker's lease for a destroyed row, or a cache entry for a destroyed row, with
  nobody left to clean up; from every reachable state of that kind one of the three can happen
  (`Scenarios.DestroyDuringSpawnBreaksAgreement`).
- Destroying a local sandbox again succeeds, destroying another worker's again is an error
  (`Lifecycle.SecondDestroyFailsIffRemote`).
- Reconciliation means to skip a listed runtime whose id already has a row (`errors.Is` with
  `ErrConflict`), but the stores, SQLite and Postgres, report the duplicate as a plain error, so such a runtime
  ends the whole pass (`Reconciliation.ReconcileFailsIff`). A provider error that Destroy swallows
  is enough to get there (`Reconciliation.SwallowedDestroyErrorFailsReconcile`).
- A sandbox that another worker reports as destroyed is put into the cache by reconciliation
  (`Reconciliation.RestartCacheFollowsRows`).
- A notification between a waiter's look at the capacity and its reading of the channel is lost;
  that is the only way to miss one (`SpawnQueue.OnlyOvertakenWaitersGetStuck`) and possible from
  every state in which somebody is about to sleep, for the first time or again, and a Destroy can
  still make room
  (`SpawnQueue.WakeUpCanBeLost`).
- `History` "returns the most recent events" only under the condition in
  `EventBus.HistoryIsRecentIff`; the first overwrite of a full ring goes to slot 1.
- Arguments appended to a command that ends in a comment are lost (`ShellCommand.BuiltLineIff`).
- Uninstall gives an rc file back only under the condition in `RcFile.UninstallUndoesInstallIff`.

## Model

| member | source | states |
|---|---|---|
| Text.JoinSplit | cmd/stacyvm/cmd_uninstall.go:190-229 | Joining the lines of a text with the separator they were split on gives the text back. |
| Text.SplitJoin | cmd/stacyvm/cmd_uninstall.go:190-229 | Splitting undoes joining for any non-empty list of separator-free pieces. |
| Text.SplitConcat | internal/providers/ringbuf.go:33-36 | Splitting a concatenation fuses the last piece of the first text with the first piece of the second and changes nothing else. |
| Text.TrimSpaceIs | internal/orchestrator/scheduler.go:54-54 | Trimming leaves exactly the text between its outermost non-blank characters. |
| Text.TrimSpaceIsEmptyIff | internal/orchestrator/manager.go:1551-1553 | Nothing is left after trimming if and only if every character is white space. |
| Text.EqualFoldMeans | internal/orchestrator/scheduler.go:92-92 | Two names are taken for equal if and only if they differ at most in the case of ASCII letters. |
| Counting.TotalOfFibers | internal/orchestrator/vm_pool.go:130-133 | If every VM's count is the number of sandboxes assigned to it, the counts add up to the number of sandboxes. |
| Scheduler.PlacementIsDeclared | internal/orchestrator/scheduler.go:49-79 | The chosen worker is the leftmost least loaded eligible one from the last eligible occurrence of the local worker on (from the beginning if there is none), nothing else fits that description, Eligible counts the eligible rows, and the choice is empty exactly when that count is 0. |
| Scheduler.BestIsLeftmostLeast | internal/orchestrator/scheduler.go:49-74 | After any number of rows the loop holds the leftmost least loaded eligible row seen since the search last restarted at the local worker. |
| Scheduler.LighterLoadStillPlaces | internal/orchestrator/scheduler.go:60-63 | When loads only fall, a placement that could pick a worker still can. |
| Scheduler.SelectedHasRoom | internal/orchestrator/scheduler.go:60-74 | A selected worker is a row of the table with a free slot under its positive cap. |
| Scheduler.TallyByWorker | internal/orchestrator/scheduler.go:32-43 | The loop's map holds, for every worker, the number of records neither destroyed nor expired that belong to it, and its entries add up to the number of such records. |
| Scheduler.LoadMeans | internal/orchestrator/scheduler.go:32-43 | A worker's load is the number of rows, neither destroyed nor expired, whose trimmed worker id is the worker's, or empty when the worker is the local one. |
| Scheduler.FitMeans | internal/orchestrator/scheduler.go:49-65 | A row is eligible if and only if it has an id, its status is online in whatever case, its heartbeat is at most two minutes old, it offers the requested provider (or any provider is fine, or it lists none), and its load is below its positive cap. |
| Scheduler.ChosenCanTake | internal/orchestrator/scheduler.go:49-79 | From a non-empty table a worker is chosen if and only if some row is of that kind, and the chosen one is. |
| Scheduler.ReasonMeans | internal/orchestrator/scheduler.go:26-79 | Without worker rows the local worker is taken as the only eligible one; the reason says which of fallback, choice and no eligible worker it was. |
| Scheduler.LocalIsPreferred | internal/orchestrator/scheduler.go:66-74 | The local worker, when eligible, is chosen whenever no eligible row further down has a smaller load. |
| Scheduler.LeastLoadedIsChosen | internal/orchestrator/scheduler.go:66-74 | In a table without the local worker the first of the least loaded eligible rows is chosen. |
| Scheduler.EvaluateWorkerPlacement | internal/orchestrator/scheduler.go:26-80 | For a listing in any order the loop computes the declared placement, local fallback included. |
| Admission.CountRecords | internal/orchestrator/manager.go:2047-2057 | One pass over the listing counts the live rows and the owner's live rows. |
| Admission.EvaluateSpawnAdmission | internal/orchestrator/manager.go:2009-2073 | The method decides as `Evaluate` does, whose every outcome Admission.DecisionMeans states from the stored limits and quotas; only the two limits on numbers may queue. |
| Admission.DecisionMeans | internal/orchestrator/manager.go:2009-2073 | Each outcome if and only if its reason holds and none before it does, in the code's order, all from the limits and quotas as stored: a positive quota entry of the owner replaces the general TTL or sandbox limit in either direction, any other leaves it in force. |
| Admission.QuotaDenies | internal/orchestrator/manager.go:2066-2071 | An owner at its quota is denied for its owner limit, and may queue, wherever it would be allowed without limits of its own; also below the general per-owner limit. |
| Admission.QuotaAllows | internal/orchestrator/manager.go:2211-2227 | An owner below its quota is decided as if it had no limit on its number of sandboxes; also above the general per-owner limit. |
| VmPool.VMPoolManager.TryJoin | internal/orchestrator/vm_pool.go:57-76 | The first critical section: joins some VM with room, whatever the map order; reports full or a miss only when no VM has room, by the number of VMs. |
| VmPool.VMPoolManager.Insert | internal/orchestrator/vm_pool.go:88-99 | The second critical section: the new VM gets a slot with one user and changes no other. |
| VmPool.VMPoolManager.Acquire | internal/orchestrator/vm_pool.go:56-103 | Undisturbed, a VM with room is always preferred to a new one; otherwise full, spawn failure and success each leave exactly the stated slots. |
| VmPool.VMPoolManager.Release | internal/orchestrator/vm_pool.go:106-123 | One user less, the slot gone at zero, unknown VMs ignored; the answer says whether the VM was emptied. |
| VmPool.VMPoolManager.GetStatus | internal/orchestrator/vm_pool.go:126-142 | The reported total is the sum of all user counts. |
| VmPool.AddUserDescribes | internal/orchestrator/vm_pool.go:60-67 | Joining a VM with room keeps every count equal to the number of sandboxes on that VM and within its limit. |
| VmPool.InsertDescribes | internal/orchestrator/vm_pool.go:88-99 | So does registering a new VM with one user. |
| VmPool.ReleaseDescribesIffHeld | internal/orchestrator/vm_pool.go:106-123 | A release keeps the counts right if and only if it is made for a sandbox that is on that VM at that moment (or concerns neither a slot nor an assigned sandbox). |
| PoolScenarios.ReleaseKeepsCountersIff | internal/orchestrator/manager.go:2692-2693 | From every reachable state in which no slot was released twice so far, one more release by any Destroy leaves the counters right if and only if its sandbox had not been released or the VM has left the pool: the hypothesis of the pool theorems is exact. |
| PoolScenarios.SecondDestroyBreaksCountersIff | internal/orchestrator/manager.go:2553-2594 | From every such state in which a pooled sandbox was released and its lease is free or ours, another Destroy gets to Release a second time; afterwards the counters are right if and only if the VM had left the pool, and with one remaining user that user's VM is taken down. |
| PoolScenarios.DestroyedTwice | internal/orchestrator/manager.go:2682-2723 | From every such state with a live pooled sandbox that shares its VM, two Destroys in a row make the counters wrong, and with two users the other one loses its VM. |
| PoolScenarios.OverlappingDestroys | internal/orchestrator/manager.go:2578-2594 | So do two overlapping ones, both past the lease before either releases. |
| PoolScenarios.CallersCanReleaseOnce | internal/orchestrator/manager.go:160-172 | Callers who never call Destroy for a sandbox whose slot was released or is being released meet that hypothesis, whatever other ids they pass; a Destroy that failed at the lease may be called again, as the reaper does. |
| PoolScenarios.DestroyedVmStaysInPool | internal/orchestrator/manager.go:2594-2623 | From every such state with a VM in the pool, a Destroy of the VM itself leads to a destroyed VM row with the slot unchanged. |
| PoolOrphans.DestroyBeforeRowOrphansSlot | internal/orchestrator/manager.go:2596-2606 | From every such state in which a pooled Spawn has issued the sandbox's id and not written its row, a Destroy of that id can end with both calls returned, no slot released, the row destroyed, its slot still counted and nobody going to release it; if no live row lacked its slot before, the counters then differ from the table. |
| PoolOrphans.FirstPooledSpawnIsOvertakable | internal/orchestrator/manager.go:660-710 | The first pooled Spawn passes through such states from its id until it holds the lease for its row. |
| PoolScenarios.FailedSpawnStrandsItsVm | internal/orchestrator/manager.go:690-729 | From every reachable state in which a pooled Spawn has to boot a VM, the run can go on to a live VM row without a slot. |
| PoolScenarios.FirstSpawnCanStrandItsVm | internal/orchestrator/manager.go:690-694 | It happens to the first pooled Spawn of a manager. |
| VmPool.TotalUsersIsAssignmentSize | internal/orchestrator/vm_pool.go:130-141 | With right counts, Status's total is the number of sandboxes in the pool. |
| Orchestrator.OneAdmissionAtATime | internal/orchestrator/manager.go:478-483 | In every run exactly the thread that holds the admission lock is between its second check and its unlock. |
| Caps.SandboxCapHolds | internal/orchestrator/manager.go:1847-1868 | In every reachable state, for any number of threads, the rows not destroyed number at most MaxSandboxes, plus one in pool mode; no thread's pending writes can exceed that either. |
| Caps.CapHoldsIfMissesHaveRoom | internal/orchestrator/vm_pool.go:70-85 | In both modes the cap itself is kept at every point of every run in which a pooled Spawn starts a VM only when the table has room for two more rows; in 1:1 mode that is every run. |
| Caps.OwnerCapHolds | internal/orchestrator/manager.go:2066-2071 | In every reachable state, in both modes, a named owner has at most its effective cap of live sandboxes; QuotaHolds and OwnerLimitHolds say what that cap is. |
| Caps.QuotaHolds | internal/orchestrator/manager.go:2211-2227 | In every run an owner with a positive quota has at most that many live sandboxes, whatever the general limit. |
| Caps.OwnerLimitHolds | internal/orchestrator/manager.go:2066-2071 | In every run any other named owner has at most the general per-owner limit, when there is one. |
| Caps.MoveAccounted | internal/orchestrator/manager.go:497-567 | Every move either leaves the table alone and gains no right to write unless just admitted, or writes one row against a right it had while holding the lock, or destroys a row. |
| CompleteRuns.DedicatedSpawnAdds | internal/orchestrator/manager.go:507-571 | From every reachable state in which the request passes the check and the lock is free, the run can go on to a completed Spawn: one running row with the request's provider and owner on the chosen worker, that worker's lease, an equal cache entry, nothing else changed. |
| CompleteRuns.PooledSpawnJoins | internal/orchestrator/manager.go:660-745 | In pool mode it can join any VM below its limit: that VM has one user more, the new row names it, nothing else changes. |
| CompleteRuns.PooledSpawnBoots | internal/orchestrator/manager.go:660-745 | When all VMs are at their limit and there may be more, it can start one: a VM row without owner, its slot with one user and the configured limit, and its own row on that VM. |
| CompleteRuns.PoolTurnsAwayIff | internal/orchestrator/vm_pool.go:56-78 | An admitted pooled Spawn is turned away if and only if every VM has maxUsers users and there are MaxVMs of them, starts a VM if and only if every VM is full and there are fewer, and otherwise joins one that is not full. |
| CompleteRuns.OnlyFullWaits | internal/orchestrator/manager.go:1847-1881 | At either check a Spawn queues only if queueing is on and the sandbox limit or the owner's quota or limit is reached, and goes on only if neither is. |
| CompleteRuns.FailedSpawnGivesUpLease | internal/orchestrator/manager.go:529-567 | A Spawn that fails between a lease, its VM's or its own, and the row releases that lease and no other before it gives up the lock. |
| CompleteRuns.DestroyRemoves | internal/orchestrator/manager.go:2545-2637 | From every reachable state with a known local sandbox whose lease is free or ours, a Destroy can complete: its row is marked, its lease and cache entry are gone, everything else stays. |
| CompleteRuns.PooledDestroyLeaves | internal/orchestrator/manager.go:2682-2723 | The same for a pooled sandbox on a shared VM, whose count goes down by one and which stays as it is otherwise. |
| CompleteRuns.LastDestroyTakesVm | internal/orchestrator/manager.go:2692-2723 | The last user's Destroy can complete by removing the VM first, its slot, row, lease and cache entry, and then the sandbox. |
| CompleteRuns.RemoteDestroyRemoves | internal/orchestrator/manager.go:2639-2679 | Another worker's sandbox, when that worker holds the lease, loses the same things and no slot changes. |
| CompleteRuns.DestroyNeedsTheLease | internal/orchestrator/manager.go:2567-2584 | No Destroy gets past the lease of a local sandbox that another holder has, nor of another worker's that this worker does not hold. |
| CompleteRuns.LocalDestroyGoesOn | internal/orchestrator/manager.go:2611-2637 | Past the lease a local Destroy never returns before it has removed the cache entry, whatever fails on the way. |
| WorkerCaps.WorkerCapsHold | internal/orchestrator/manager.go:497-505 | With a fixed non-empty worker table, no worker ever has more active sandboxes than its positive capacity, and the placement recomputed after an allowed admission is never empty. |
| WorkerCaps.PlacedIsWithin | internal/orchestrator/manager.go:2029-2037 | The worker that an admitted Spawn is placed on has room for it. |
| WorkerCaps.LighterIsSound | internal/orchestrator/scheduler.go:60-63 | Concurrent Destroys cannot take that room or that placement away. |
| PoolSafety.AlwaysConsistent | internal/orchestrator/manager.go:660-745 | The joint invariant of table, slots, cache and every thread in pool mode holds in every run in which no slot is released twice; nothing else is assumed of the calls of Destroy, which may be for VMs, for sandboxes still being created, for failed Spawns or for ids nobody knows, and lose their row updates. |
| PoolSafety.SlotsHaveVms | internal/orchestrator/vm_pool.go:88-99 | In every such run each slot belongs to a VM with a row of its own, which is live unless somebody called Destroy for the VM itself. |
| PoolSafety.CountersAreExact | internal/orchestrator/vm_pool.go:56-142 | In every such run each slot's count is the number of sandboxes, in-flight Spawns included, that got a slot of that VM and have not given it back, lies between 1 and MaxUsersPerVM, and the total is the number of holders. |
| PoolTable.CountersMatchTableIff | internal/orchestrator/manager.go:2709-2717 | In every such run, whenever nothing is in progress, the slots describe the table's live pooled sandboxes exactly if and only if every VM has as many live rows without a slot as destroyed rows with one. |
| PoolTable.TableHolds | internal/orchestrator/manager.go:2596-2606 | If, moreover, no Destroy starts for a pooled sandbox before its row is written, no destroyed row holds a slot at any point of the run. |
| PoolTable.CountersMatchTableAfterRowIff | internal/orchestrator/manager.go:2709-2717 | In every run of that kind the slots describe the table at rest if and only if no sandbox that gave its slot back still has a live row. |
| PoolTable.CountersMatchTableAtRest | internal/orchestrator/manager.go:2682-2723 | With a store that loses no row update they always do in runs of that kind. |
| PoolSafety.EmptiedVmStaysUnused | internal/orchestrator/manager.go:2692-2707 | A VM that Destroy takes down after Release returned true is from then on in no slot and used by no sandbox, in every continuation of the run. |
| PoolSafety.FailedSpawnStrandsVmIffAlone | internal/orchestrator/manager.go:690-729 | A pooled Spawn failing after it got its slot leaves a live VM row without a slot if and only if the VM was live and it was the VM's only user; the VM was live unless somebody had called Destroy for it. |
| PoolSafety.PoolSizeHolds | internal/orchestrator/vm_pool.go:70-99 | The pool never has more than MaxVMs slots in any reachable state, although check and insertion are separate critical sections, and whatever callers do with Destroy. |
| PoolCounters.StepKeeps | internal/orchestrator/manager.go:660-745 | Every step of Spawn and Destroy in pool mode that is not a second release keeps the invariant behind these counters and never un-retires a VM. |
| PoolCounters.TearingDescribes | internal/orchestrator/manager.go:2693-2717 | Of Destroy's moves only the release touches the counters, and it is made for a sandbox that holds a slot. |
| Agreement.AlwaysAgrees | internal/orchestrator/manager.go:507-571 | In 1:1 mode with a store that loses no write and no Destroy of an id that a Spawn is still creating, the per-id invariant of row, lease, cache entry and working threads holds in every run. |
| Agreement.RowLeaseAndCacheAgree | internal/orchestrator/manager.go:2545-2637 | Whenever no thread works on an id, its live row, its lease and its cache entry exist together or not at all, and the lease is held by the row's worker. |
| Agreement.SameIdsAtRest | internal/orchestrator/manager.go:2545-2637 | Whenever all threads are at rest the live rows, the leases and the cache entries are the same set of ids. |
| Agreement.MoveViews | internal/orchestrator/manager.go:507-571 | Every move in 1:1 mode concerns one id and leaves what is known about every other id unchanged. |
| Scenarios.PoolModeExceedsTheCap | internal/orchestrator/manager.go:2371-2382 | From every reachable state with a pooled Spawn that has to boot a VM without room for two rows, the run can go on to one row above the cap: the condition of Caps.CapHoldsIfMissesHaveRoom is exact. |
| Scenarios.PoolCapIsReallyExceeded | internal/orchestrator/manager.go:660-745 | The overshoot is reachable: the first pooled Spawn under a cap of one ends with two live rows. |
| Scenarios.DestroyDuringSpawnBreaksAgreement | internal/orchestrator/manager.go:522-571 | That hypothesis is exact: from every state reachable under it, starting any Destroy it forbids there can end with nobody working on the id and row, lease and cache entry in disagreement. |
| Scenarios.OvertakenBeforeRow | internal/orchestrator/manager.go:532-567 | From every state before a Spawn's row, a Destroy of its id can end in a live cached sandbox without a lease, or, when another worker has the lease, in that lease and a cache entry for a destroyed row. |
| Scenarios.OvertakenSpawnLeavesCacheEntry | internal/orchestrator/manager.go:569-571 | From every state between a Spawn's row and its cache entry, local or for another worker, a complete Destroy leads to a cache entry with neither a live row nor a lease. |
| Scenarios.FirstSpawnIsOvertakable | internal/orchestrator/manager.go:522-571 | The first Spawn of a manager passes through such states before its lease, before its row and before its cache entry. |
| Lifecycle.Manager.Spawn | internal/orchestrator/manager.go:507-571 | Succeeds exactly when every outside call does, no other holder has the lease and the id has no row; what each failure's rollback leaves is fixed for every state, foreign leases and ids in use included. |
| Lifecycle.SpawnLeaves | internal/orchestrator/manager.go:507-571 | A failed boot changes nothing; any other failure leaves table and cache alone, keeps the runtime exactly if it could not be destroyed again and the lease exactly if it was taken and could not be given back; a success is recorded in table, leases, cache and runtimes. |
| Lifecycle.RollbackRestoresIff | internal/orchestrator/manager.go:529-567 | A failed Spawn with a successful rollback leaves table, leases, cache and runtimes as they were if and only if the new id was no running runtime and, when its lease was taken, no lease of ours. |
| Lifecycle.SpawnKeepsAgreement | internal/orchestrator/manager.go:507-571 | A successful Spawn adds exactly its id to table, leases, cache and runtimes and keeps them agreeing, next to the sandboxes of other workers. |
| Lifecycle.Manager.Destroy | internal/orchestrator/manager.go:2545-2637 | Fails exactly when the sandbox is ours and another holder has its lease, or is another worker's and cannot be destroyed there; otherwise lease and cache entry go, the row is marked unless the store loses that, and the runtime goes if it is here, as the effect function says. |
| Lifecycle.DestroyLeaves | internal/orchestrator/manager.go:2545-2679 | For a known sandbox, from its cached record or else its row: when it fails and that nothing changes then; otherwise exactly its lease and cache entry go, its row is marked unless that was lost, and its runtime goes if it is here and the provider destroyed it. |
| Lifecycle.UnknownDestroyLeaves | internal/orchestrator/manager.go:2561-2567 | An unknown id is destroyed without error and without asking any provider; at most a lease of ours on it goes. |
| Lifecycle.Manager.DestroyRemote | internal/orchestrator/manager.go:2639-2679 | Succeeds exactly when the worker destroys the sandbox and holds its lease and the row exists and can be updated; then row, that worker's lease and the cache entry go, local runtimes stay; otherwise nothing changes. |
| Lifecycle.DestroyFailsIff | internal/orchestrator/manager.go:2567-2585 | From agreeing views Destroy fails only for another worker's sandbox, when that worker or the row's update fails or the row is destroyed already. |
| Lifecycle.DestroyTakesOne | internal/orchestrator/manager.go:2545-2679 | A Destroy that goes through takes exactly this id out of leases and cache, marks its row if the update works, and touches no other row. |
| Lifecycle.DestroyKeepsAgreementIff | internal/orchestrator/manager.go:2623-2630 | From agreeing views they agree afterwards if and only if Destroy failed, its row update was not lost, or there was no live row. |
| Lifecycle.DestroyIsIdempotentIff | internal/orchestrator/manager.go:2545-2679 | Destroying twice is destroying once if and only if the first call did not go to another worker for a row of ours with a runtime of that id running here. |
| Lifecycle.SecondDestroyFailsIffRemote | internal/orchestrator/manager.go:2639-2650 | After a success the second call is an error exactly when the row is another worker's. |
| Lifecycle.Manager.AcquireLease | internal/store/sqlite.go:504-536 | A lease is granted when it is free or already the caller's, and only then changes. |
| Lifecycle.Manager.ReleaseLease | internal/store/sqlite.go:591-601 | Only the holder's own lease goes. |
| Lifecycle.Manager.RefreshRow | internal/orchestrator/manager.go:183-260 | One listed row gets the state its provider's or its worker's answer means, as Reconciliation.LocalRowAfter and RemoteRowAfter spell out; of cache and leases only this id's entry changes. |
| Lifecycle.Manager.RefreshRemote | internal/orchestrator/manager.go:269-324 | A row of another worker: status read, worker draining, or worker lost, when the row becomes unhealthy or expired and an expired sandbox's lease is released for that worker. |
| Lifecycle.Manager.RefreshRows | internal/orchestrator/manager.go:183-260 | The loop over the listing, in any order, refreshes every live row and no destroyed one. |
| Lifecycle.Manager.Adopt | internal/orchestrator/manager.go:361-426 | One runtime: skipped when known, destroyed or leased elsewhere; otherwise leased and inserted, or the pass fails on a row that exists. |
| Lifecycle.Manager.AdoptRuntimes | internal/orchestrator/manager.go:340-429 | The nested loops visit the providers' inventories in order and stop at the first failure. |
| Lifecycle.Manager.Reconcile | internal/orchestrator/manager.go:176-267 | The whole pass, rows of other workers included, ends in the reconciled table, leases and cache, about which the lemmas of Reconciliation speak, and fails exactly when adoption does. |
| Lifecycle.AdoptStops | internal/orchestrator/manager.go:403-408 | After the first failure nothing of the remaining inventory is visited. |
| Reconciliation.LocalRowAfter | internal/orchestrator/manager.go:183-252 | In the final table a live row of ours is destroyed if and only if its provider answers that it is gone or destroyed, in error when the provider is missing or its answer cannot be read, and otherwise in the reported state, running when none is given; nothing else in the row changes. |
| Reconciliation.RemoteRowAfter | internal/orchestrator/manager.go:269-324 | A live row of another worker takes the state that was read; a draining worker or an answer without a state leaves the row as it was; a lost worker makes it expired or, before its time, unhealthy. |
| Reconciliation.LiveAfter | internal/orchestrator/manager.go:176-267 | The live rows afterwards are exactly the live ones before that no answer called gone or destroyed, and the new ones. |
| Reconciliation.NewRowsAreListed | internal/orchestrator/manager.go:361-426 | A new row is a runtime that some provider lists as living and no other worker has leased: in the listed state, with the listed provider or else the lister's name, without owner or VM, on this worker. |
| Reconciliation.AllListedAreAdopted | internal/orchestrator/manager.go:361-426 | A pass that succeeds leaves a row for every such runtime. |
| Reconciliation.LeasesAfter | internal/orchestrator/manager.go:304-310 | The leases that go are exactly those that a lost worker holds for an expired sandbox whose row names it; all others stay with their holder and new ones are ours. |
| Reconciliation.RestartCacheIs | internal/orchestrator/manager.go:254-260 | After a restart exactly these are cached: rows of ours whose provider reported a state other than destroyed, rows of workers that answered or are lost, and adopted runtimes. |
| Reconciliation.ReconcileIsIdempotent | internal/orchestrator/manager.go:176-267 | With an unchanging provider world whose listings agree with its status answers, reconciling twice leaves the same rows as reconciling once, even when the first pass failed. |
| Reconciliation.DestroyedRowsAreKept | internal/orchestrator/manager.go:183-187 | No destroyed row is ever changed. |
| Reconciliation.RestartCacheFollowsRows | internal/orchestrator/manager.go:254-260 | Starting from an empty cache, everything cached equals its row, adopted runtimes included, and is live except exactly the sandboxes that another worker reports as destroyed. |
| Reconciliation.ReconcileFailsIff | internal/orchestrator/manager.go:403-408 | Reconciliation fails if and only if some listed live runtime has an id whose row was already destroyed and whose lease no other worker holds. |
| Reconciliation.SwallowedDestroyErrorFailsReconcile | internal/orchestrator/manager.go:2613-2620 | From agreeing views, a Destroy of a local sandbox whose provider call fails silently makes the next start-up reconciliation fail while the runtime is still listed. |
| Reconciliation.PassOutcome | internal/orchestrator/manager.go:361-426 | A pass that succeeds leaves every runtime settled; one that fails has everything before the first blocking runtime settled. |
| Reconciliation.AdoptExtends | internal/orchestrator/manager.go:340-429 | Adoption only adds rows, in the state their runtime was listed with, and leaves foreign leases alone. |
| SpawnQueue.AccountsHold | internal/orchestrator/manager.go:1882-1904 | In every reachable state queueWaiters is the number of threads between enqueue and deferred decrement and at most MaxSpawnQueue; queued = dequeued + timed out + aborted + still waiting; and the wait statistics are balanced. |
| SpawnQueue.QueuedForCapacity | internal/orchestrator/manager.go:2060-2071 | What the queue waits for is what the admission check decides: an allowed request has capacity under the sandbox cap and its owner's cap, and one that may queue has none under one of them. |
| SpawnQueue.RecordedBalanced | internal/orchestrator/manager.go:1956-1976 | Recording a non-negative wait keeps waitCount = dequeued + timed out and waitMax <= waitTotal <= waitCount * waitMax. |
| SpawnQueue.AverageIsBelowMaximum | internal/orchestrator/manager.go:1636-1646 | Balanced statistics report an average between 0 and the maximum. |
| SpawnQueue.Queue.Record | internal/orchestrator/manager.go:1956-1976 | Both recorders count the wait under its own kind, add it to the total and raise the maximum to it if it is larger; this is the update for which the statistics are proved balanced. |
| SpawnQueue.Queue.AverageWait | internal/orchestrator/manager.go:1636-1639 | The reported average is the total wait divided by the number of waits, rounded down, 0 without any, and never exceeds the reported maximum. |
| SpawnQueue.WaiterCanLeave | internal/orchestrator/manager.go:1906-1951 | From every reachable state a waiter whose channel was closed and for whom there is capacity can be served, and a sleeping one can time out: out of the queue, counted as what it is, with exactly the time it waited. |
| SpawnQueue.WaitersMoveForReasons | internal/orchestrator/manager.go:1870-1951 | In every run a waiter wakes only after its channel was closed, is served only with capacity, waits only without, and is queued or refused by the room in the queue. |
| SpawnQueue.StuckOnlyAfterMissedNotification | internal/orchestrator/manager.go:1930-1951 | With sandbox cap, owner caps and changing quotas, a waiter asleep on the open channel while there is capacity for it and nobody about to notify has missed a notification between its last look and its reading of the channel. |
| SpawnQueue.OnlyOvertakenWaitersGetStuck | internal/orchestrator/manager.go:1930-1951 | In every run a waiter becomes stuck in no step but its own reading of the channel, and only when a notification followed its last look; once asleep in time it is never stranded. |
| SpawnQueue.WakeUpCanBeLost | internal/orchestrator/manager.go:1870-1951 | From every reachable state in which a thread has found no capacity and is about to queue, or was woken, found none again and is about to sleep, and another can destroy a row that would make room for it, the run can go on so that it sleeps with capacity free and nobody about to notify. |
| SpawnQueue.FirstWaiterIsOvertakable | internal/orchestrator/manager.go:1870-1891 | Such a state is reached by the first Spawn that has to queue. |
| SpawnQueue.WokenWaiterIsOvertakable | internal/orchestrator/manager.go:1930-1951 | And, in the other window, by that waiter once it was woken for nothing. |
| EventBus.Bus.PublishLocal | internal/orchestrator/events.go:116-138 | The completed event is the next of everything published, the ring follows, and every subscriber with room gets it. |
| EventBus.Bus.Publish | internal/orchestrator/events.go:79-111 | The same, and the bridge's hook is called once with the completed event when one is attached. |
| EventBus.Bus.Deliver | internal/orchestrator/events.go:98-104 | Whatever the map order, each subscriber gets the event once or drops it when its buffer of 64 is full; none is added or removed. |
| EventBus.CompletedFillsIn | internal/orchestrator/events.go:83-89 | Publication dates an undated event and gives an event without an id one whose digits denote its number; it changes nothing that was set. |
| EventBus.GeneratedIdsDiffer | internal/orchestrator/events.go:86-89 | Events with different numbers get different ids. |
| EventBus.SubscriberMissesNothingIff | internal/orchestrator/events.go:98-104 | What a subscriber has received or still has in its channel is, in order, events published since it subscribed, and all of them if and only if none was published while 64 were waiting. |
| EventBus.Bus.History | internal/orchestrator/events.go:175-190 | The last entries of the ring as it results from everything published so far. |
| EventBus.RingHolds | internal/orchestrator/events.go:91-96 | Slot j of the ring after n publications holds the event with the closed-form number: the newest number congruent to j past the size, else j + 1. |
| EventBus.HistoryBeforeWrap | internal/orchestrator/events.go:175-190 | Until the ring wraps, History(limit) is the last limit events in order. |
| EventBus.LastEventsAreKept | internal/orchestrator/events.go:91-96 | After the wrap the ring contains every one of the last size - 1 events. |
| EventBus.FullyWrapped | internal/orchestrator/events.go:91-96 | From twice the size on, it holds exactly the last size events, each at its number modulo the size. |
| EventBus.HistoryIsRecentIff | internal/orchestrator/events.go:174-190 | For distinct events History(limit) is the last limit events in order if and only if the ring can hold that many and has not wrapped, or the next number is a multiple of the size and the slot that keeps the very first event is rewritten or not asked for. |
| Bridge.OnceAtOriginAtMostOnceElsewhere | internal/orchestrator/events_durable.go:138-149 | For any number of replicas and delayed, reordered or lost notifications, a publication is in its origin's history exactly once, in full, and in every other at most once. |
| Bridge.SmallEventsArriveWhole | internal/orchestrator/events_durable.go:96-99 | A publication whose envelope has at most 7900 bytes is elsewhere exactly as published, data included, or not at all. |
| Bridge.LargeEventsLoseTheirData | internal/orchestrator/events_durable.go:96-99 | A larger one is elsewhere without its data and otherwise as published, or not at all. |
| Bridge.PublicationCanArrive | internal/orchestrator/events_durable.go:86-151 | While its hook has not run, from every reachable state the run can go on to any other replica having the publication next in its history. |
| Bridge.NotifiesNeverOutnumberPublications | internal/orchestrator/events_durable.go:71-73 | Every successful, failed or pending NOTIFY belongs to its own local publication: there is no echo loop. |
| Bridge.EachPublicationIsInOnePlace | internal/orchestrator/events_durable.go:86-103 | For every publication and other replica exactly one holds: hook pending, NOTIFY failed, message in flight, message lost, event in the history. |
| Bridge.ReplicasAgreeWhenAllArrived | internal/orchestrator/events_durable.go:105-151 | When nothing is in flight and nothing failed or was lost, all replicas have delivered the same multiset of events but for the data of large ones. |
| Bridge.ReplicasEqualWhenSmall | internal/orchestrator/events_durable.go:86-151 | When, besides, every event was within the limit, the histories themselves are equal as multisets, data included. |
| Bridge.AlwaysSound | internal/orchestrator/events_durable.go:86-151 | The fate of every publication at every replica is one of the allowed ones in every reachable state. |
| ImageCache.Cache.Enter | internal/providers/rootfs_builder.go:74-88 | Under the lock a caller joins the running build, finds the file after all, or registers the only build for its image. |
| ImageCache.OneBuildAtATime | internal/providers/rootfs_builder.go:73-98 | For any number of concurrent Get calls at most one thread is building an image at any time. |
| ImageCache.RegisteredIsBeingBuilt | internal/providers/rootfs_builder.go:86-98 | In every reachable state an image is registered only while some thread is building it, so a failed build keeps nobody from starting another. |
| ImageCache.LookingMeans | internal/providers/rootfs_builder.go:63-88 | A file that is there is used without waiting, otherwise a running build is joined, and a build is started if and only if neither exists. |
| ImageCache.WaiterIsAnswered | internal/providers/rootfs_builder.go:74-79 | A waiter returns when its build is over, and then exactly that build's outcome. |
| ImageCache.LoneGet | internal/providers/rootfs_builder.go:56-104 | From every such reachable state a Get can run to its end alone: with its file and path after a build that succeeds, with the error and no file after one that fails, the image unregistered either way. |
| ImageCache.OneSuccessPerImage | internal/providers/rootfs_builder.go:81-94 | At most one build of an image ever publishes its file. |
| ImageCache.WaitersGetTheBuildersResult | internal/providers/rootfs_builder.go:74-79 | Everyone who relied on a build, its builder included, returns the same path and error for the same image. |
| ImageCache.SuccessMeansCached | internal/providers/rootfs_builder.go:56-104 | A Get without error has returned the image's cache path and the file is there; for an empty image name it returns an empty path. |
| WarmPool.PoolManager.Configure | internal/orchestrator/pool.go:52-64 | Sets the target and keeps the waiting sandboxes. |
| WarmPool.PoolManager.Acquire | internal/orchestrator/pool.go:67-78 | Hands out the oldest waiting sandbox and removes only it; empty when there is none. |
| WarmPool.PoolManager.WorkList | internal/orchestrator/pool.go:116-129 | Every template that is short is listed exactly once with what it is short of, whatever the map order. |
| WarmPool.PoolManager.RefillOne | internal/orchestrator/pool.go:131-150 | Undisturbed, one template gains the spawned ids in order up to the first failed spawn. |
| WarmPool.WorkListMeans | internal/orchestrator/pool.go:116-129 | The work list holds exactly the templates with fewer sandboxes than their target, each once, with the difference. |
| WarmPool.SpawnedUntilFailure | internal/orchestrator/pool.go:131-150 | A refill gains one sandbox per attempt, up to its need or its first failed attempt. |
| WarmPool.RefillReachesTarget | internal/orchestrator/pool.go:115-152 | Without failures and other calls it brings a short template to exactly its target. |
| WarmPool.ShortTemplateCanGrow | internal/orchestrator/pool.go:115-152 | Whenever the refill goroutine is idle and a template is short, the run can go on to one more sandbox in it. |
| WarmPool.PoolStaysWithinLargestTarget | internal/orchestrator/pool.go:115-152 | With one refill goroutine, concurrent Acquires and targets that change at will, available plus still needed never exceeds the largest target so far. |
| WarmPool.PoolStaysWithinTarget | internal/orchestrator/pool.go:115-152 | A template whose target never shrinks stays within its current target throughout, refills included. |
| WarmPool.NothingLostOrHandedOutTwice | internal/orchestrator/pool.go:66-78 | Whatever targets are set when, the ids handed out followed by the ids available are the refilled ids in order, without repetition. |
| WarmPool.ShrinkingLeavesTooMany | internal/orchestrator/pool.go:52-64 | The hypothesis on the target is needed: from every reachable state with a sandbox available or still to be added, setting the target to zero leaves the pool above it. |
| Shell.RunConcat | internal/providers/provider.go:181-185 | Token recognition is a left fold (sections 2.2 and 2.3 of the POSIX.1-2017 Shell Command Language): what follows a prefix is read from the state the prefix ends in. |
| Shell.PlainWordsAreRead | internal/providers/provider.go:181-185 | Plain words with blanks between them are read as these words (section 2.3 of the same standard). |
| Shell.CommentsAreSkipped | internal/providers/provider.go:181-185 | A number sign that starts a word hides the rest of its line. |
| ShellLaws.OperatorsAreRead | internal/providers/provider.go:181-185 | Every control or redirection operator of one or two characters, here-documents apart, is read as itself between two words, without blanks. |
| ShellLaws.HereDocumentsAreSkipped | internal/providers/provider.go:181-185 | The lines of a here-document are no part of the command; reading goes on after the first line that is the delimiter, for `<<-` without leading tabs (section 2.7.4). |
| ShellLaws.GroupsKeepTogether | internal/providers/provider.go:181-185 | Quotes of each kind, command substitutions and parameter expansions are part of one word, whatever blanks, newlines, operators or number signs they hold. |
| ShellLaws.GroupsNest | internal/providers/provider.go:181-185 | Within a command substitution or parameter expansion, double quotes, and parentheses within a substitution, hide the closing character of the expansion. |
| ShellLaws.BackslashQuotes | internal/providers/provider.go:165-167 | Quote removal after a backslash: outside quotes any character is quoted, in double quotes only the four that are special there (sections 2.2.1 and 2.2.3). |
| ShellLaws.BackslashJoinsLines | internal/providers/provider.go:181-185 | A backslash before a newline joins two lines in the middle of a word (section 2.2.1). |
| ShellCommand.BuildExecCommand | internal/providers/provider.go:154-186 | What the host returns, from the options alone: for the trimmed modes `argv` and empty or `shell`, and an error for every other; argv mode is command and arguments verbatim, an error when the command is blank; shell mode is `sh`, `-c` and one line, the command itself without arguments, and otherwise, for a complete command that does not end in a comment, a line read as its tokens followed by one word per argument that unquotes to it. |
| ShellCommand.GuestBuildExecCommand | cmd/stacyvm-agent/main.go:179-194 | The guest, with its own control flow, returns the same with `/bin/sh`. |
| ShellCommand.ArgumentsExec | internal/providers/provider.go:169-186 | The function behind both builders has that property for every shell and all options. |
| ShellCommand.WordsStandFor | internal/providers/provider.go:182-184 | The words a quoted argument list adds stand for the arguments one by one. |
| ShellCommand.HostAndGuestAgree | cmd/stacyvm-agent/main.go:174-194 | Host and guest differ in the interpreter's name in shell mode and in nothing else, errors included. |
| ShellCommand.BuiltLineIff | internal/providers/provider.go:181-185 | For every command that is a complete line and every non-empty argument list, the shell reads the built line as the command's own tokens followed by one word per argument if and only if the command does not end in a comment. |
| ShellCommand.ArgumentsAreLiteral | internal/providers/provider.go:165-167 | Each of these words comes out of quote removal as the argument itself, empty strings and embedded single quotes included, with every character quoted, so nothing in it is expanded, split or matched. |
| ShellCommand.QuoteArgIsLiteral | internal/providers/provider.go:165-167 | Quote removal undoes shellQuoteArg for every string. |
| ShellCommand.TailRun | internal/providers/provider.go:182-184 | From any scanner state at rest outside a comment, any list of quoted arguments ends at rest and adds exactly its words. |
| ShellCommand.ArgumentsLostInComment | internal/providers/provider.go:181-185 | A concrete complete command after which any arguments are lost. |
| Workspace.AcceptedIffUnderWorkspace | internal/orchestrator/manager.go:1551-1564 | A non-blank path on a pooled sandbox is accepted exactly when the component-wise normal form of base joined with path has base's components as a prefix, for every id; what is returned is that normal form, and cleaning it again changes nothing. |
| Workspace.InsideMeansPrefix | internal/orchestrator/manager.go:1560-1562 | The string test with its trailing slash is the prefix test on components. |
| Workspace.WalkedFromWorkspace | internal/orchestrator/manager.go:1558-1560 | For an id that is one proper name the target is the walk of the path's components from the workspace, so leading slashes mean nothing. |
| Workspace.NameEntersParentLeaves | internal/orchestrator/manager.go:1558-1559 | In a cleaned path a name enters a directory and a following `..` leaves it again; `..` at the root stays there; empty and `.` components change nothing. |
| Workspace.WithoutParentsAccepted | internal/orchestrator/manager.go:1551-1564 | Only `..` components can make a path escape. |
| Workspace.EscapesIffMoreUpsThanNames | internal/orchestrator/manager.go:1551-1564 | A path of names followed by parent components escapes if and only if there are more parents than names; otherwise it is the remaining names under the workspace. |
| Workspace.NeighbourIsOutOfReach | internal/orchestrator/manager.go:1560-1562 | `..` and `../name` escape for every name but the sandbox's own id. |
| Workspace.OnlyPooledPathsAreScoped | internal/orchestrator/manager.go:1551-1557 | A path is refused as missing if and only if it is blank, and any other is left as it is for a dedicated VM and for a remote sandbox. |
| Workspace.WorkspacesAreDisjoint | internal/orchestrator/manager.go:1551-1564 | Paths accepted for two sandboxes with distinct slash-free ids are never equal and never nested. |
| Workspace.ScopedPathIsConfined | internal/orchestrator/manager.go:1539-1549 | The variant that falls back to the workspace yields a normal path under the workspace for every path, when the id is a plain name. |
| Workspace.ScopedPathFallsBack | internal/orchestrator/manager.go:1539-1549 | That variant yields what the strict one accepts, and the workspace itself where the strict one refuses. |
| Workspace.CleanIsIdempotent | internal/orchestrator/manager.go:1559-1559 | The second Clean is idle. |
| RcFile.RemoveAutocompleteBlock | cmd/stacyvm/cmd_uninstall.go:189-230 | The method with its two loops changes the text exactly when there is a marker line and then computes the remover's function. |
| RcFile.FindMarker | cmd/stacyvm/cmd_uninstall.go:192-201 | The first loop finds the first marker line, or none when there is none. |
| RcFile.FindEnd | cmd/stacyvm/cmd_uninstall.go:208-219 | The second loop stops at the first terminator or the first line that is not ours. |
| RcFile.OnlyBlockLinesGo | cmd/stacyvm/cmd_uninstall.go:183-230 | For every file, one contiguous stretch of lines goes, each of them the marker, a line naming the tool or its install directory, a terminator, or the one blank line above. |
| RcBlock.ForeignLinesAreSpared | cmd/stacyvm/cmd_uninstall.go:208-229 | From the first line below the marker that is blank or names neither the tool nor its directory, and is no terminator, nothing is removed. |
| RcBlock.LinesAboveAreSpared | cmd/stacyvm/cmd_uninstall.go:221-227 | Above the marker at most one line goes, and only a blank one right above it. |
| RcBlock.WholeBlockGoes | cmd/stacyvm/cmd_uninstall.go:208-229 | Everything from the marker to the first terminator goes when all lines between name the tool or its directory. |
| RcFile.SplitBlock | cmd/stacyvm/cmd_setup.go:192-219 | The installed block, for bash, zsh, fish and PowerShell, is a blank separator, the marker, lines the remover recognises, the terminator; whatever the home directory contains. |
| RcBlock.BlockSays | cmd/stacyvm/cmd_setup.go:192-290 | The PATH line, guard, sourcing line and terminator for each shell, word for word. |
| RcBlock.QuoteReadsBack | cmd/stacyvm/cmd_setup.go:192-219 | The quoted install directory, read back escape by escape, is the directory, whatever characters the home directory has. |
| RcFile.AppendThenRemove | cmd/stacyvm/cmd_setup.go:305-310 | Removing an appended block gives the text without its last line if that line is blank, and the text with a newline added otherwise. |
| RcFile.InsertThenRemove | cmd/stacyvm/cmd_setup.go:297-303 | When setup only inserts its PATH line, the result has no marker, so the remover leaves it. |
| RcFile.UninstallUndoesInstallIff | cmd/stacyvm/cmd_setup.go:291-335 | For content without a marker line, uninstall after setup gives the content back if and only if: with the completion command present, the install directory is present too (or the shell is PowerShell); without it, the content is empty or ends in a newline. |
| RcFile.SecondUninstallChangesNothing | cmd/stacyvm/cmd_uninstall.go:189-230 | Removing again changes nothing. |
| RcFile.InstallIsIdempotent | cmd/stacyvm/cmd_setup.go:291-335 | Setup twice is setup once. |
| LineRing.RingBuffer.Write | internal/providers/ringbuf.go:29-49 | After any write the buffer holds the last maxLines complete lines of everything written and the text after the last newline. |
| LineRing.RingBuffer.ShiftIn | internal/providers/ringbuf.go:52-55 | The in-place copy drops the oldest line and puts the new one last, whatever the number of stored lines. |
| LineRing.RingBuffer.AddLine | internal/providers/ringbuf.go:51-59 | The buffer keeps the last maxLines of the stored lines and the new one. |
| LineRing.LastOfIsSuffix | internal/providers/ringbuf.go:51-59 | What is kept is the end of the list: all of it, or its last maxLines entries. |
| LineRing.RingBuffer.AddLines | internal/providers/ringbuf.go:44-46 | The loop of Write over the completed lines. |
| LineRing.RingBuffer.Lines | internal/providers/ringbuf.go:62-97 | The last n of the stored lines plus the unfinished one if it has text; all of them when n is not positive or too large. |
| LineRing.RestCarriesOver | internal/providers/ringbuf.go:33-42 | Splitting the unfinished line together with the next chunk yields exactly the lines that chunk adds to the whole text. |
| LineRing.Feed | internal/providers/ringbuf.go:29-49 | After any sequence of writes the buffer depends on the concatenated text only, not on where the chunks were cut. |

## Left out

- Provider back ends and remote worker RPC: their answers are free choices or parameters; a remote spawn is a lease and a row with the chosen worker, a remote destroy either fails or goes through.
- Store errors in Reconcile's listing and updates, which end the pass where they occur, and in single reads of Destroy and quota look-ups: a step of Destroy looks up cache and row together and does not misread them.
- Lifecycle.Manager.AcquireLease: a lease lasts until it is released; the store also grants an expired lease of another holder. Expiry, renewal and generations are not part of the model.
- Sandbox fields that no decision reads (image, memory, metadata, timestamps, tenant), TTL expiry and the reaper; expiry of pool VM records.
- Events, audit records, metrics and logging of lifecycle operations.
- Agreement.AlwaysAgrees: assumes that no Destroy is called for an id that a Spawn has issued and not yet cached or given up, and that the store loses no write; Scenarios.DestroyDuringSpawnBreaksAgreement shows that the first cannot be weakened.
- PoolSafety.AlwaysConsistent: assumes that a slot is not released again for the same sandbox; PoolScenarios.ReleaseKeepsCountersIff shows that this cannot be weakened. It is a real hypothesis: after a lost row update the row stays listed, so the reaper itself calls Destroy again once the sandbox expires.
- PoolTable.CountersMatchTableAtRest: assumes, besides, that no Destroy is called for a pooled sandbox whose Spawn has issued its id and not yet written its row or given up, and that the store loses no row update; PoolOrphans.DestroyBeforeRowOrphansSlot shows that the first cannot be weakened, PoolTable.CountersMatchTableIff what holds without either.
- Orchestrator.Fresh: an id that was ever issued, or ever passed to Destroy, is not issued again. Ids are random; collisions are not part of the model.
- WorkerCaps.WorkerCapsHold: for a worker table, clock and set of reachable workers that do not change during the run, with ids distinct after trimming, and listings that succeed (a failed one places the sandbox locally without a look at the caps).
- SpawnQueue.StuckOnlyAfterMissedNotification: rows that a remote status answer or the start-up reconciliation marks destroyed free capacity without any notification and are not part of the queue's steps. Fairness and progress of the queue are not claimed.
- EventBus: the ring size is arbitrary (1000 in the code) and event numbers are unbounded; Subscribe and Unsubscribe only start and end a channel.
- Bridge: payload size is an arbitrary function of the event; reconnecting is a stretch in which messages are lost.
- ImageCache: the build itself, including its copying fallback that is not atomic, is one step that publishes the file or fails.
- WarmPool: a second refill goroutine; the code starts one.
- Shell: `case` patterns and comments inside `$(...)`, the distinction of IO_NUMBER from WORD, alias substitution and line continuation inside here-document bodies are not followed; tokens are not parsed further.
- Workspace: a Go path is a list of characters; only the lexical Clean of rooted paths is modelled, not symbolic links on the VM.
- RcFile: reading and writing files, file modes, and that the three Unix rc files are only touched when they exist; `%q` keeps every character from U+0080 on.
- Text.EqualFold: folds ASCII letters only.
- LineRing: the mutex and the slice's capacity growth; characters stand for bytes.
