# pg-vm-pool: a verified model

pg-vm-pool runs one Postgres microVM per schema. Around that sit several protocols
whose comments promise exact safety: boots against disk-reclaim passes, a registry
file written by tasks that finish in any order, a storage ladder that destroys a copy
only once the next one is durable, a pool of warm spares, upload grants, event charts
that must agree with a history they no longer hold. This project states those promises
over every interleaving, crash and input, and proves them; where one is false of the
code, it gives the run that breaks it and the exact condition under which it holds.

`dafny verify dfyconfig.toml` checks the whole project.

## How it is written

A protocol between concurrent parts is a state machine: `Label` names the atomic steps
(one section under a lock, one file operation, one atomic load or store), `Enabled` and
`Apply` give each step, a run is a sequence of states joined by labels. An invariant is
proved step by step, and the main theorems speak of every state of every run. Code that
loops or updates an object is a method or a class whose contract ties it to the
functions the theorems are about.

An invariant alone would also hold of a machine that does less, so beside each machine
there are theorems that read its state off the labels of the run: a record by the calls
made about it, a dump by the chunks sent, a report by the jobs joined.

| file | source | what |
|---|---|---|
| `Reclaim.dfy`, `ReclaimRecovery.dfy`, `ReclaimBoots.dfy` | src/reclaim.rs | boots, passes, the latch, the script, preemption; exclusion after a rollback; what becomes of a boot |
| `Text.dfy`, `RegistryText.dfy` | src/store.rs | decimal numbers, lines, the registry file's text |
| `Store.dfy`, `StoreRecords.dfy`, `InlineStore.dfy` | src/store.rs | the registry under interleaving and crashes; by what its callers said; the store object |
| `Picker.dfy`, `Drain.dfy` | src/registry.rs | the offload picker; the parallel drain loop |
| `Offload.dfy`, `OffloadClaims.dfy`, `OffloadEffects.dfy` | src/registry.rs, src/imgarchive.rs | the storage ladder of one schema under crashes; exactly when a claim is safe; what its steps come to |
| `StoreLedger.dfy` | src/store.rs, src/registry.rs | the registry as the ladder sees it |
| `Multipart.dfy` | src/imgarchive.rs | uploads in parts |
| `Slots.dfy` | src/registry.rs | client slots, guards, the idle reaper |
| `Spares.dfy`, `SparePasses.dfy` | src/spares.rs | the warm-spare pool; by what its callers and passes did |
| `DumpServer.dfy`, `DumpUploads.dfy` | src/dumpsrv.rs | upload grants; what is stored, by what was sent |
| `Calendar.dfy`, `Partitions.dfy`, `Events.dfy` | src/events.rs, src/s3.rs | dates, partition files, charts |

## Where the code and its words disagree

- The module documentation of src/reclaim.rs calls the hole after a script rollback
  sub-second. The latch is read again only after a pass ends, so the hole is a whole
  pass (`Reclaim.RollbackRun`, `Reclaim.ExclusionExactly`), and is closed for good once the boots
  that read the old latch are gone (`ReclaimRecovery.PassRestoresExclusion`).
- src/imgarchive.rs says any transport failure falls back to the dump. A failed HEAD of
  the dump with a plausible older image beside it picks the image
  (`OffloadClaims.TroubleCanPickAnOlderImage`, `Offload.PickSurvivesTroubleExactly`).
- src/registry.rs says a checkout that slips in either has a session counted or sees the
  archiving set. One that has passed the check and has no entry yet, or has one and is
  not counted, does neither; compaction, which leaves a warm entry alone, overlooks only
  the first (`OffloadClaims.OverlapIsReachable`).
- The offload bodies look at the tier before they claim, and only the dump promotion
  looks again. A stale freeze or dump archive copies the empty database of a fresh VM
  over the schema; a stale compaction or image archive finds nothing to image
  (`OffloadClaims.StaleClaimIsReachable`). A stale image promotion archives a left-over
  image under a live session (`OffloadClaims.StalePromotionIsReachable`). When exactly a
  claim is safe is `OffloadClaims.ClaimIsSafeExactly`, for every kind of operation.
- An image archive also fixes the VM it will image before it claims (src/registry.rs:2691-2693
  and 2741). If a compaction's kill has failed and a checkout has thawed the schema onto
  another VM in between, it archives the old disk over what was written since, although
  the schema is live and idle (`OffloadClaims.SupersededClaimIsReachable`).
- src/store.rs has `set_tier` return once the change is durable. A failed write is only
  logged; it is durable exactly if its snapshot or a newer one was written
  (`Store.FailedWriteIsNotDurable`, `Store.ReturnIsDurableExactly`).
- "Archived" in the file does not always mean the object to restore is by the operation
  that wrote it there: a restore's `put` may be unwritten while a new archive is under
  way (`OffloadClaims.DurablePickFails`, `Offload.DurablePickExactly`).
- src/reclaim.rs reads the waiter count and then writes the stop file; the boot may be
  gone in between (`Reclaim.StopFileAfterItsCause`).
- src/spares.rs calls the deletion of stopped surplus safe by construction. It is exactly
  when no planned deletion is still on the shelf (`Spares.FreshPlanSafeExactly`); and
  culling is exactly when no sick spare is (`Spares.CullSafeExactly`).
- src/store.rs takes the map lock and then the cache lock in `put`, and the other way
  round in `bound_ids` (`Store.DeadlockIsReachable`, `Store.ProgressExactly`).
- src/dumpsrv.rs leaves the count of a pending upload in place when the next upload on
  the token begins (`DumpServer.TornCommit`, `DumpServer.FailIsSafeExactly`).
- src/events.rs: before the first day of 1970 is over a restart reads one partition
  twice (`Events.FirstDayDoubles`); from year 10000 partition names sort by
  date only in the last ten years before each further digit (`Partitions.PruneExactly`).

## Model

| member | source | states |
|---|---|---|
| `Reclaim.Exclusion` | src/reclaim.rs:359-457 | in every run whose latch starts true to the deployed script, with any boots, passes, latch flips, lock-file errors and cancellations, no boot holds a permit for a disk, and no VM has it open, while the script is inside that disk's pipeline |
| `Reclaim.ExclusionExactly` | src/reclaim.rs:30-62 | exclusion holds of every run from a start if and only if the latch is not set against a script that takes no locks, or no disk can be locked at all |
| `Reclaim.RollbackRun` | src/reclaim.rs:636-657 | from every start just after a rollback with a disk that can be locked, running, stopped or not yet created, there is a run, through a whole pass started later, that puts the script inside a disk a boot holds |
| `Reclaim.PermitExcludes` | src/reclaim.rs:376-457 | a gate permit means no script is running; a disk permit means the script honours locks and is not at work on that disk |
| `Reclaim.BootKeeps` | src/reclaim.rs:376-457 | every step of a boot (either arm, polling, queueing, giving up, starting the VM) keeps the gate, lock and bell books |
| `Reclaim.PassKeeps` | src/reclaim.rs:536-657 | every step of a pass keeps them |
| `Reclaim.ScriptKeeps` | src/reclaim.rs:30-62 | every step of a script that keeps its contract keeps them |
| `Reclaim.NoLostPreemption` | src/reclaim.rs:287-333 | whenever a boot is counted as waiting and the watching pass has not yielded, a notification is stored or some boot is between its increment and its notify |
| `Reclaim.YieldHasCause` | src/reclaim.rs:595-620 | the waiter count is exactly the boots that wait; a pass decides to yield only at a read that finds one, and writes its stop file only after such a decision with nothing of its own in between: a stale notification alone stops nothing |
| `Reclaim.StopFileAfterItsCause` | src/reclaim.rs:500-520 | but that boot may have given up by the time the file is written |
| `Reclaim.NoStopFileOutlivesItsPass` | src/reclaim.rs:525-529 | a stop file is there only inside the yielding pass that wrote it (or was there before any pass cleared it), and never when a script is launched |
| `ReclaimRecovery.RelatchTells` | src/reclaim.rs:196-202 | the latch changes only when a pass whose script is gone renegotiates it, and is then set if and only if the deployed script takes locks and got as far as declaring it since the last launch |
| `ReclaimRecovery.PassSettlesTheLatch` | src/reclaim.rs:637-657 | with a run dir every pass that launched its script hands the gate back with the latch so renegotiated |
| `ReclaimRecovery.ExcludedFromHereExactly` | src/reclaim.rs:30-62 | between scripts of every run from every start, a rolled-back one included, exclusion holds of whatever follows if and only if the latch is true to the deployed script and no boot is left that acts on locks the script does not take |
| `ReclaimRecovery.PassRestoresExclusion` | src/reclaim.rs:636-657 | so after a rollback exclusion is back for good once a pass has renegotiated and the boots in the disk arm have left it |
| `ReclaimBoots.BootsLeaveByChoice` | src/reclaim.rs:376-412 | a boot is gone only after giving its permit back or giving up waiting: no unusable lock file, held lock or closed gate costs a boot |
| `ReclaimBoots.GateIsForCause` | src/reclaim.rs:376-391 | a boot comes to the gate only if it read the latch unset, its disk cannot be locked, or its lock file was unusable |
| `ReclaimBoots.NoBootOvertakesThePass` | src/reclaim.rs:282-296 | while a pass is queued, only boots queued before it can still get the gate |
| `ReclaimBoots.WakesAreNotified` | src/reclaim.rs:606-618 | a pass is woken at most once for each notification |
| `ReclaimBoots.ScriptEndsItself` | src/reclaim.rs:598-622 | a script ends by its own exit, its pass goes on only after that, and every pass, launched or not, ends by handing the gate back |
| `ReclaimBoots.StoppedDisksAreWorkable` | src/reclaim.rs:30-62 | a disk there when a script lists and stopped when it takes its snapshot is one it may work on, unless a boot has its lock |
| `ReclaimBoots.ScriptCanWork` | src/reclaim.rs:30-62 | every disk a script may work on it can get into, under the lock if it takes locks, and out of with everything as it was |
| `ReclaimBoots.OpenExactly` | src/reclaim.rs:271-281 | a disk is open exactly if a VM was started or made on it and not stopped since |
| `Text.DecimalRoundTrip` | src/store.rs:443-443 | every u64 printed in decimal reads back as itself |
| `Text.LinesAppend` | src/store.rs:434-436 | a line appended to whole lines is read as one more line, the others unchanged |
| `RegistryText.TierRoundTrip` | src/store.rs:68-91 | every tier word reads back as its tier |
| `RegistryText.Serialize` | src/store.rs:457-471 | the loop writes each schema's line once, for some enumeration of the map, and reading the result at any time gives a well-formed map back |
| `RegistryText.RoundTrip` | src/store.rs:434-471 | reading what was written gives the map back, for every iteration order and load time |
| `RegistryText.RoundTripExactly` | src/store.rs:434-471 | it does so if and only if schemas and ids are non-empty and free of tabs and newlines and times fit in a u64 |
| `RegistryText.ParseIsClean` | src/store.rs:434-455 | whatever the file holds, what is loaded satisfies that condition |
| `RegistryText.LegacyLineLoads` | src/store.rs:21-26 | a two-column line among any others loads as live, active as of the load, replacing earlier lines of its schema and replaced by later ones |
| `Store.Keeps` | src/store.rs:203-417 | every step of every operation, at lock-section granularity, and every crash keep the store's invariant |
| `Store.FileIsAPastState` | src/store.rs:388-417 | under any finishing order of write tasks and any crashes, loading the file gives the map as it stood at an earlier moment of the run (or the file has never been written) |
| `Store.FileNeverRollsBack` | src/store.rs:404-417 | of two moments of a run with crashes, the earlier file, once written, is the map after a prefix of the changes the later file is the map after; within a process the generation on disk never decreases |
| `Store.NoBumpIsLost` | src/store.rs:319-343 | when not dirty, with no flush between swap and snapshot and the map free, the newest snapshot is the map, and it is in its write task or in the file if and only if its own write has not failed |
| `Store.ReturnIsDurableExactly` | src/store.rs:364-417 | when such a call returns, its change is in the file then and at every later moment, across crashes, if and only if the generation on disk has reached that of its snapshot |
| `Store.ReturnWithoutFailure` | src/store.rs:364-376 | and it has, if the write of that very snapshot did not fail |
| `Store.ReturnedTierIsDurable` | src/store.rs:345-376 | once `set_tier` or `adopt_archived` has returned with its snapshot or a newer one written, the file gives the schema that tier or one set later, at every later moment and across crashes, whatever other writes have failed and also when the caller's own was skipped |
| `Store.FailedWriteIsNotDurable` | src/store.rs:413-416 | the condition can fail: from every start there is a run in which `set_tier` returns and the file is as before |
| `Store.FileTierIsAGivenOne` | src/store.rs:355-376 | a schema's tier in the file is the last of a prefix of the tiers it was given |
| `StoreRecords.EveryFieldHasASource` | src/store.rs:203-376 | in every run, through crashes, each record's time, VM id and tier is what the last call about it said (touch, put, set_tier or adopt_archived), or what was loaded if there was none since the start |
| `StoreRecords.FileShowsTheLastCall` | src/store.rs:319-343 | with nothing dirty, no flush under way and the newest snapshot written, the file gives for each field what the last call about it said |
| `StoreRecords.DirtyExactly` | src/store.rs:319-343 | a flush is owed exactly if a bump came after the last flush and the last start |
| `StoreRecords.FlushesExactly` | src/store.rs:322-331 | every flush that swapped the flag takes one snapshot |
| `StoreRecords.EachTaskEndsOnce` | src/store.rs:404-417 | a snapshot is written, skipped or failed once |
| `StoreRecords.WorkIsTheCallers` | src/store.rs:355-376 | what becomes durable when a call returns is the tier its caller asked for; `set_tier` and `adopt_archived` wait, `put` does not |
| `StoreRecords.EachCallReturnsOnce` | src/store.rs:364-375 | between two returns of a thread it made another call |
| `StoreLedger.StoreIsALedger` | src/store.rs:203-417 | to one schema every step of every run of the store adds a tier, lets a later one reach the file, or (a crash) leaves the one in the file |
| `StoreLedger.FirstIsDurable` | src/store.rs:434-455 | the first of that list is the tier a load of the file gives |
| `StoreLedger.ReturnedHasLanded` | src/store.rs:364-375 | a tier whose `set_tier` has returned under that condition is not behind it |
| `StoreLedger.LadderStep` | src/registry.rs:2402-2402 | the ladder's ledger makes the same steps |
| `Store.CacheIsCoherent` | src/store.rs:299-317 | whenever the map lock is free the cached id set, and the one `bound_ids` is about to store, are exactly the ids in the map |
| `Store.BoundIdsAreCached` | src/store.rs:302-317 | a `bound_ids` that missed leaves exactly the ids of the map in the cache |
| `Store.BoundIdsGetThere` | src/store.rs:302-317 | and does so in two steps once the map is free |
| `Store.RetierKeepsIds` | src/store.rs:335-363 | the mutators that do not invalidate the cache do not change the ids |
| `Store.DeadlockIsReachable` | src/store.rs:206-227 | two steps from any start `put` holds the map and wants the cache while `bound_ids` holds the cache and wants the map |
| `Store.DeadlockStays` | src/store.rs:302-309 | no step but a restart resolves that, and no map or cache operation can run meanwhile |
| `Store.DeadlockIsForever` | src/store.rs:302-309 | so it lasts through every run without a restart |
| `Store.ProgressExactly` | src/store.rs:206-309 | as long as a lock is held, some holder can take its next step if and only if the two are not locked against each other |
| `InlineStore.RegistryStore.constructor` | src/store.rs:153-174 | loads whatever parses, well formed, and with no cache |
| `InlineStore.RegistryStore.Stamp` | src/store.rs:176-181 | the next generation, with text that denotes the map if and only if the map is well formed |
| `InlineStore.RegistryStore.WriteLatest` | src/store.rs:404-417 | the file changes only to a newer generation, and only if the write succeeds |
| `InlineStore.RegistryStore.Put` | src/store.rs:203-233 | an unchanged live binding is a bump left to the flush; anything else is bound, invalidates the cache and is written, and the file gives the map back iff it is well formed, which clean names keep it |
| `InlineStore.RegistryStore.AdoptArchived` | src/store.rs:259-297 | the row is archived, keeping id and clock or with an invented id and the present time, written, and the replaced record returned |
| `InlineStore.RegistryStore.BoundIds` | src/store.rs:302-317 | always the ids in the map |
| `InlineStore.RegistryStore.FlushDirty` | src/store.rs:322-331 | saves the map exactly when dirty |
| `InlineStore.RegistryStore.Touch` | src/store.rs:335-343 | bumps a known schema and owes a flush; nothing else |
| `InlineStore.RegistryStore.SetTier` | src/store.rs:355-376 | changes a known schema's tier and saves the map; nothing for an unknown one |
| `Picker.EligibleIsCold` | src/registry.rs:4301-4320 | the classification is Archive exactly for a cold live schema, and Refresh exactly for one that only looks cold |
| `Picker.Step` | src/registry.rs:4215-4273 | the step settled on for a schema is the preferred one the policy offers it, none only if it offers none; refresh exactly if stale but warm |
| `Picker.PickOffloadJob` | src/registry.rs:4205-4284 | the loop returns the candidate minimising (rank, coldest first), the earliest on ties, none iff there is none, and exactly the stale-but-warm schemas |
| `Picker.PickIsUnique` | src/registry.rs:4205-4284 | a pick is determined by what it looks at |
| `Picker.PickExists` | src/registry.rs:4205-4284 | and there always is one |
| `Picker.NothingPickedExactly` | src/registry.rs:4205-4284 | no job if and only if the policy offers no unbarred schema any step |
| `Picker.RankMeans` | src/registry.rs:4132-4163 | the two rankings are strict orders that put booting kinds last; promotion is first in routine and after the disk-freeing kinds under pressure |
| `Picker.BootsOnlyAsALastResort` | src/registry.rs:4135-4163 | in either mode a job that boots a VM is picked only if no schema is offered a step that boots none |
| `Picker.PickIsASafeStep` | src/registry.rs:4123-4131 | a pick is unbarred, fits its schema's tier, and boots nothing while booting is ruled out |
| `Drain.DrainIsSafe` | src/registry.rs:1825-1990 | in every run, whatever happens outside: at most `workers` jobs, distinct schemas, at most one that boots |
| `Drain.DrainTerminates` | src/registry.rs:1825-1990 | closed runs are bounded by 24 times the ladder's height plus 4 times the workers plus 21 steps, and report no more offloads than rungs gone down |
| `Drain.DrainProgresses` | src/registry.rs:1844-1956 | before the end some step is always possible |
| `Drain.ClosedStep` | src/registry.rs:1852-1930 | every closed step lowers the bound built from (height left, failures left before the abort) and conserves rungs against offloads |
| `Drain.DryMeansDry` | src/registry.rs:1890-1893 | the loop runs dry only if no unbarred schema is offered any step |
| `Drain.ReportIsExact` | src/registry.rs:1920-1990 | in every run the report is the number of successful jobs joined, the failures in a row those joined since the last success; jobs that succeeded and are unreported are still to be joined, so at the end the report is the number of all that succeeded |
| `Drain.StopsForAReason` | src/registry.rs:1844-1893 | the loop stops picking only on a stand-down, after three failed joins in a row, or when nothing is in flight and nothing offered |
| `Drain.WorkIsClaimed` | src/registry.rs:2316-2325 | a job works on a schema only while nobody outside has claimed it |
| `Drain.TierHasASource` | src/registry.rs:1852-1930 | a schema's tier is where the last successful job on it, or the last move from outside, put it |
| `Offload.Keeps` | src/registry.rs:2303-2630 | every step of freeze, compact, dump and image archive (of the VM looked up before its claim), the fallback, both promotions, checkouts, restores onto new VMs, failed kills, landings and crashes keeps the ladder's invariant |
| `Offload.OffloadIsCrashSafe` | src/registry.rs:2402-2411 | in every run whose claims satisfy `ClaimOk`, with a crash allowed between any two steps, the tier in the file names a place that holds the data, unless a restore's tier is unwritten |
| `Offload.UnchangedIsOk` | src/registry.rs:2316-2339 | it is enough that no checkout is on its way at the claim, the tier is still the one the operation looked at, and the VM an image archive looked up is still the schema's or is gone |
| `Offload.DestroyedOnlyWhenDurable` | src/registry.rs:3102-3121 | a VM disk dies only after the durable tier left Live; a local file goes, other than by a thaw, only after it is Archived, or as a dump archive's scratch while no tier in force names it |
| `OffloadEffects.DestroyFrees` | src/registry.rs:3102-3121 | a step that destroys leaves nothing of what the operation copied from, and everything else as it was |
| `OffloadEffects.FallbackStillArchives` | src/registry.rs:2526-2550 | a dump archive that falls back can end as an image archive of the same disk, which is then what is restored |
| `OffloadEffects.RestartServesExactly` | src/registry.rs:885-918 | after a restart the next checkout serves the data exactly if the state was safe to reload |
| `OffloadEffects.VmRunsExactly` | src/registry.rs:2554-2577 | the schema's VM runs exactly if a step that starts it came after the last that stops it |
| `OffloadEffects.BootsExactly` | src/registry.rs:4123-4131 | the jobs the drain runs one at a time are exactly those that bring a VM up |
| `OffloadEffects.ProbeIsThePick` | src/imgarchive.rs:124-153 | the dashboard reports an archive exactly if one of the objects is of a plausible size, and then the very one a restore picks |
| `Offload.RestorePicksTheNewest` | src/imgarchive.rs:175-197 | after any mix of archives, promotions, restores, failures and crashes, whenever a checkout finds the tier Archived and both HEADs answer, its restore takes the object of the operation that set that tier, and it holds the data |
| `Offload.DurablePickExactly` | src/imgarchive.rs:397-409 | of the tier in the file this holds if and only if no restore's `put` is unwritten, or nobody has written since that restore and the object it took is still the one to take |
| `OffloadClaims.DurablePickFails` | src/imgarchive.rs:479-493 | from every archived start an orderly run ends with the file naming the old archive and the restore taking the new one |
| `Offload.PickSurvivesTroubleExactly` | src/imgarchive.rs:103-109 | with HEADs that fail the pick is still right if and only if the deciding HEAD answered (or no plausible older image turned up) |
| `OffloadClaims.TroubleCanPickAnOlderImage` | src/imgarchive.rs:175-197 | from every live start a run leads to an archived schema whose dump is the data and whose older image a failed HEAD of the dump restores |
| `Offload.ThawIsSafeExactly` | src/registry.rs:890-918 | after a thaw removed the local file, a restart finds the data if and only if the unawaited `put` has been written |
| `Offload.WriteBeforePutLands` | src/registry.rs:885-893 | a write served before that `put` is written is lost by a restart |
| `OffloadClaims.ClaimIsSafeExactly` | src/registry.rs:2303-2339 | for every kind of operation, every VM looked at and every state of the ladder, a claim is safe whatever follows if and only if `ClaimOk`: freeze and dump archive need a VM and no checkout on its way (the dump archive also a tier other than Frozen and no older plausible image beside an archived dump); the image archive no checkout on its way, and the VM it looked up still the schema's, or gone, or, superseded by a restore, still the data with no session to write; compaction no checkout without an entry; the dump promotion none if the tier is still Frozen; the image promotion no local image, or the data in it and nobody using the schema |
| `OffloadClaims.OverlappedDumpLoses` | src/registry.rs:2326-2339 | a checkout on its way when a freeze or a dump archive claims loses what it writes after the dump |
| `OffloadClaims.WrongDumpLoses` | src/registry.rs:2978-2995 | a freeze or dump archive of a schema whose VM is gone replaces the schema by the empty database of a fresh one |
| `OffloadClaims.ScratchLoses` | src/registry.rs:2383-2400 | a dump archive of a frozen schema removes its only copy as scratch |
| `OffloadClaims.SmallDumpLoses` | src/imgarchive.rs:103-109 | a dump archive of an archived schema can leave an older image as the one chosen |
| `OffloadClaims.SupersededImageLoses` | src/registry.rs:2691-2741 | an image archive that looked up a VM since superseded replaces the schema by its old disk, if that is not the data or a session can still write |
| `OffloadClaims.SupersededClaimIsReachable` | src/registry.rs:2691-2741 | from every live start a run (a whole compaction whose kill fails, a checkout that thaws, writes and leaves) leads to such a claim on a live schema nobody uses |
| `OffloadClaims.OverlappedImageLoses` | src/registry.rs:2696-2720 | a checkout on its way when an image archive evicts becomes a session no later eviction sees, and a freeze that claims by the book loses what it writes |
| `OffloadClaims.OverlappedCompactLoses` | src/registry.rs:3078-3089 | the same of a checkout without an entry when a compaction evicts |
| `OffloadClaims.OverlappedPromotionLoses` | src/registry.rs:2433-2477 | a checkout that restores a frozen schema during its promotion loses what it writes |
| `OffloadClaims.WrongPromotionLoses` | src/registry.rs:2490-2511 | promoting a left-over image that is not the data replaces the schema by it |
| `OffloadClaims.UsedPromotionLoses` | src/registry.rs:2490-2511 | promoting one that is, under a session or a checkout on its way, loses what is written after |
| `OffloadClaims.WarmPromotionLoses` | src/registry.rs:2490-2511 | and beside a warm entry, what the next checkout writes |
| `OffloadClaims.StaleClaimIsReachable` | src/registry.rs:2957-2966 | from every live start a run leads to stale claims of four kinds, of which the freeze and the dump archive lose and the image archive and compaction are safe |
| `OffloadClaims.StalePromotionIsReachable` | src/registry.rs:2497-2508 | from every compacted start a run leads to a stale image promotion under a live session |
| `OffloadClaims.OverlapIsReachable` | src/registry.rs:768-798 | from every live start a checkout gets to be overlooked, cold and warm |
| `Multipart.CutIsFaithful` | src/imgarchive.rs:546-583 | the reference parts are numbered 1..n, none empty, all but the last exactly the part size, as many as needed, and concatenate to the file |
| `Multipart.Fill` | src/imgarchive.rs:560-568 | however short the reads, the buffer ends up full or at the end of the file, with the file's bytes |
| `Multipart.UploadParts` | src/imgarchive.rs:546-583 | the parts are the reference parts for every pattern of short reads; an empty file or a zero part size is refused; without failures nothing else is |
| `Multipart.UploadFile` | src/imgarchive.rs:506-530 | the stored object is the file, by one PUT or in parts |
| `Multipart.PartLimit` | src/imgarchive.rs:46-53 | a file needs at most 10,000 parts iff it has at most 625 GiB; 250 GiB takes at most 4,000 |
| `Multipart.UploadPath` | src/imgarchive.rs:532-544 | with the standard sizes every file up to 625 GiB is stored as it is, within the part limit |
| `Slots.JitterBounds` | src/registry.rs:242-254 | a schema's timeout lies in [0.85, 1.15) of the configured one |
| `Slots.JitterSpreads` | src/registry.rs:242-254 | it grows with every thousandth of the hash, from 0.85 to 1.1497 |
| `Slots.SlotsNeverExceedTheLimit` | src/registry.rs:265-307 | in every state live guards plus free slots are at most the limit, and every slot not free is held |
| `Slots.ClientsKeepTheirOrder` | src/registry.rs:265-307 | a slot is given back only after the entry was touched once more, and that only after the client is uncounted |
| `Slots.ThereExactly` | src/registry.rs:768-775 | a client is at the entry exactly from its claim until it gives up or gives its slot back |
| `Slots.MapIsTakenExactly` | src/registry.rs:1192-1216 | the reaper has the map exactly from locking to unlocking it, and no claim is made in between |
| `Slots.LastActiveIsTheLastUse` | src/registry.rs:265-307 | the entry's clock is the time of its last use: a claim, the start of a session or its end |
| `Slots.EvictedIsIdle` | src/registry.rs:1199-1208 | an entry is evicted only when its last use is its schema's timeout ago |
| `Slots.ReaperSparesTheUsedExactly` | src/registry.rs:768-798 | with claims settled within a bound and the reaper's looks within another, every evicted entry has no guard and no checkout on its way, if and only if the entry is pinned or the two bounds together are at most the schema's own jittered timeout |
| `Slots.ReaperSparesTheUsed` | src/registry.rs:760-767 | for every schema, 0.85 of the configured timeout is enough |
| `Slots.SlowClaimIsReaped` | src/registry.rs:778-785 | at any slower pace there is a run in which a counted client's entry is evicted |
| `Slots.Registry.CollectExpired` | src/registry.rs:1199-1208 | exactly the expired entries, once each, longest idle first |
| `Slots.Registry.ReapIdle` | src/registry.rs:1192-1216 | at most 24 entries go, all expired; no one idle longer stays; none expired stays if fewer go |
| `Spares.SparePool.constructor` | src/spares.rs:151-159 | an empty pool, the target capped at 16 |
| `Spares.SparePool.PopClaim` | src/spares.rs:195-207 | the first id that is neither bound nor claimed leaves the shelf and is claimed; those before it are discarded |
| `Spares.SparePool.Take` | src/spares.rs:191-256 | the id taken is that pick, the shelf what is left after its pops, and the claim the only one added; a failed take leaves the claims as they were |
| `Spares.ChoiceMeans` | src/spares.rs:191-256 | the pick is the first candidate, of three at most, that the daemon reports running or cannot speak of; those before it were unreachable, not running or gone |
| `Spares.RemainingFollows` | src/spares.rs:195-207 | what is left of the shelf is what follows the last id popped |
| `Spares.SparePool.Unclaim` | src/spares.rs:260-262 | the claim goes, the shelf stays |
| `Spares.SparePool.Withdraw` | src/spares.rs:275-278 | the id leaves shelf and sick record, nothing else does |
| `Spares.SparePool.RecordSick` | src/spares.rs:469-492 | verdicts are recorded and carried over; the overdue ids are doomed, two at most and only then fewer than all |
| `Spares.SparePool.Publish` | src/spares.rs:510-521 | the shelf is the given ids, once each, minus bound and claimed |
| `Spares.PlanIsRight` | src/spares.rs:632-652 | the plan makes up exactly the shortfall, restarts before it creates, and touches only free stopped spares |
| `Spares.SparesAreExclusive` | src/spares.rs:191-297 | over every interleaving the shelf is duplicate-free and apart from the claims, and an id being claimed is with no other bring-up |
| `SparePasses.ClaimedExactly` | src/spares.rs:191-297 | an id is claimed exactly from the take that popped it until that take, or the kill after a failed bring-up, gives it back |
| `SparePasses.ProbedExactly` | src/spares.rs:326-345 | a pass probes exactly the running spares it listed that were neither bound nor claimed |
| `SparePasses.PlannedExactly` | src/spares.rs:326-415 | the plan of a pass makes up exactly what is missing, out of what it listed and did not find sick |
| `SparePasses.PublishedExactly` | src/spares.rs:510-521 | the shelf after a pass is what it probed healthy or built and verified, minus what is bound or claimed by then |
| `SparePasses.PublishesExactly` | src/spares.rs:365-415 | all it built may be verified and shelved once the surplus is gone, and nothing else |
| `SparePasses.SickSince` | src/spares.rs:469-492 | a spare's sick record is the time of the first of an unbroken row of sick verdicts |
| `SparePasses.CulledAfterGrace` | src/spares.rs:469-506 | a spare killed as sick has been found sick by every pass for at least five minutes |
| `SparePasses.DoomedAreKilledFirst` | src/spares.rs:469-506 | by the time a pass plans it has tried to kill every spare it doomed |
| `Spares.CulledSparesAreUnclaimed` | src/spares.rs:326-415 | when passes complete, a spare deleted as sick is unclaimed and unshelved at the kill |
| `Spares.CullSafeExactly` | src/spares.rs:469-506 | between passes, every continuation with complete passes culls only unclaimed spares if and only if no id is both in the sick record and on the shelf |
| `Spares.AbortedPassBreaksCulling` | src/spares.rs:469-506 | from every state with a shelved spare a pass that dies before publishing breaks that |
| `Spares.SurplusIsUnclaimedUnlessShelved` | src/spares.rs:365-384 | a spare deleted as surplus is unclaimed unless it was on the shelf when planned |
| `Spares.SurplusSafeExactly` | src/spares.rs:379-384 | the rest of a pass deletes only unclaimed surplus if and only if no planned deletion is on the shelf or claimed |
| `Spares.FreshPlanSafeExactly` | src/spares.rs:365-368 | when the plan has just been made: if and only if none is on the shelf |
| `Spares.SurplusKillsAClaimedSpare` | src/spares.rs:379-384 | one that was on the shelf can be claimed by the time it is killed |
| `DumpServer.Keeps` | src/dumpsrv.rs:186-302 | every orderly step of issue, PUT, commit, abort and expiry, also when an abort or a sweep cannot remove its file, keeps grants, requests and files in agreement |
| `DumpServer.DumpsAreWhole` | src/dumpsrv.rs:186-302 | a schema's dump changes only to a body received to its end that was length-known or committed |
| `DumpServer.CompletedIsTheSize` | src/dumpsrv.rs:145-148 | what a grant reports complete is the dump's size |
| `DumpUploads.EveryDumpWasSent` | src/dumpsrv.rs:186-302 | each dump in place was there at the start or is, byte for byte, the whole body its client sent in one upload under a grant for its schema, and nobody has taken it since |
| `DumpUploads.LandedIsWhatWasSent` | src/dumpsrv.rs:229-284 | both ways a dump gets into place put there the chunks sent since the upload began, in order |
| `DumpUploads.GrantExactly` | src/dumpsrv.rs:115-148 | what a grant reports complete or pending is the number of bytes so sent |
| `DumpUploads.MayExactly` | src/dumpsrv.rs:151-156 | with no request under way a token may upload, abort, or commit what is pending exactly within the hour after it was issued for uploads |
| `DumpUploads.TempFileExactly` | src/dumpsrv.rs:186-302 | the temp file is there, and is the upload, from its start until it is moved or removed: a failed commit loses nothing |
| `DumpUploads.SweptWithItsFile` | src/dumpsrv.rs:108-128 | an expired grant goes with the next one issued, and its uncommitted temp file unless that cannot be removed |
| `DumpUploads.UploadsAreCapped` | src/dumpsrv.rs:204-215 | no upload is taken beyond five gigabytes |
| `DumpServer.TornCommit` | src/dumpsrv.rs:257-284 | from every state where an upload fails and leaves in the temp file anything but a whole body of the count pending on a live grant, a commit leads to a torn dump or a wrong size |
| `DumpServer.FailIsSafeExactly` | src/dumpsrv.rs:229-250 | such a failure is harmless, whatever orderly steps follow, if and only if there is no such count or what is left matches it |
| `DumpServer.Server.IssueGrant` | src/dumpsrv.rs:103-138 | unsafe names are refused; every expired grant goes, with the temp file of an uncommitted upload where it can be removed |
| `DumpServer.Server.HandlePut` | src/dumpsrv.rs:186-251 | whichever of create, stream, write, fsync, rename and cleanup fails, the body lands whole or not at all: in place if its length is known, pending if not; a part is left only in a temp file that cannot be removed |
| `DumpServer.Server.Receive` | src/dumpsrv.rs:204-215 | the chunk loop writes the whole body within the cap, or a part of it |
| `DumpServer.Server.HandleCommit` | src/dumpsrv.rs:257-284 | moves a pending upload into place and reports its size; refuses without one, and changes nothing if the rename fails |
| `DumpServer.Server.HandleAbort` | src/dumpsrv.rs:289-302 | takes back the pending count, and the temp file if it can be removed |
| `Calendar.CivilFromUnixCorrect` | src/events.rs:437-450 | for every time, the date is 1970-01-01 advanced one Gregorian day at a time |
| `Calendar.AmzDateAgrees` | src/s3.rs:665-685 | the second copy of the algorithm gives the same date |
| `Calendar.AmzTimeCorrect` | src/s3.rs:682-684 | for every time its strings show that date and the time of day, the year in four digits or as many as it takes |
| `Calendar.DateStrOrder` | src/events.rs:312-315 | through year 9999 date strings order, and are equal, exactly as days |
| `Calendar.LongerYearSortsEarly` | src/events.rs:416-418 | of two years one digit apart, the longer sorts first exactly when its leading digits are the smaller number |
| `Calendar.FiveDigitYearSortsEarly` | src/events.rs:416-418 | a five-digit year sorts before 9999 |
| `Partitions.EntryRoundTrip` | src/events.rs:209-216 | an event's line reads back as the event |
| `Partitions.EntriesAppend` | src/events.rs:374-397 | appending the line appends the event to what is read |
| `Partitions.SortedIsSorted` | src/events.rs:394-396 | what is loaded is put in order and nothing is lost |
| `Partitions.PruneExactly` | src/events.rs:399-428 | pruning by string deletes exactly by age if and only if the years of the present and of the cutoff print at one width with no shorter year in the way: through 9999, and in the last ten years before each further digit |
| `Partitions.PrunedExactly` | src/events.rs:402-428 | under the same condition, and only then, pruning leaves of every directory exactly the partitions whose day is not more than 14 days back, each as it was |
| `Partitions.LoadedExactly` | src/events.rs:374-397 | what is loaded is the events of the two partitions at most 25 hours old and at most an hour ahead |
| `Events.Recorder.PushMem` | src/events.rs:270-280 | drops the old from the front, then what exceeds the cap, and appends |
| `Events.PushedExactly` | src/events.rs:270-280 | a push drops a front only, only what is older than 25 hours or has no room, and leaves at most ten thousand |
| `Events.Recorder.RecordAt` | src/events.rs:186-206 | buffer, pruning on a new day and the day's partition all advance by the event |
| `Events.Recorder.LoadWindow` | src/events.rs:374-397 | yesterday's and today's partitions, filtered and sorted |
| `Events.ReadPartition` | src/events.rs:378-392 | the events of one partition that parse and lie in the window |
| `Events.Recorder.Restart` | src/events.rs:147-179 | the buffer is rebuilt from the loaded window, and the files pruned |
| `Events.Recorder.HourlyCountsAt` | src/events.rs:290-307 | each bar is the number of buffered events of its hour |
| `Events.CountPushed` | src/events.rs:270-280 | a push takes from the counts of its window exactly what the cap drops |
| `Events.ChartIsTheTrailingHours` | src/events.rs:290-296 | bars are whole hours one after another, the last the present one if and only if so many hours have passed since 1970 |
| `Events.ReloadCounts` | src/events.rs:374-397 | what a restart reloads counts like the whole history |
| `Events.ChartsRefineHistory` | src/events.rs:282-307 | in every run of records (late and out of order too) and restarts, a chart of up to 25 hours drawn from the buffer is the chart of the whole history |
| `Events.FirstDayDoubles` | src/events.rs:374-397 | a restart during the first day counts every event twice |

## Left out

- Passes abandoned at the timeout, which hand the gate back with the script still running, and stop or marker files that cannot be removed: exclusion is not claimed there.
- A script that changes during a run: the deployed script is fixed, and the state just after a change is the start of `Reclaim.RollbackRun`.
- A pooler that starts while a script of its predecessor is still running, and a VM start that reports an error and opens its disk later.
- Store.CacheIsCoherent: safety only; when progress holds is `Store.ProgressExactly`.
- Store.Keeps: schemas and ids bound while others run are taken to be clean, as names are validated upstream; what unclean ones do to the file is in module InlineStore.
- Offload.OffloadIsCrashSafe: speaks of runs whose claims satisfy `ClaimOk`, in which no registry write fails and no crash comes while a restore's tier is unwritten; each of these is shown to be needed (`OffloadClaims.ClaimIsSafeExactly`, `Store.ReturnIsDurableExactly`, `Offload.ThawIsSafeExactly`). An upload that a dead pooler's guest finishes later, rows that do not exist yet, a live schema whose VM is gone, a checkout that evicts an entry that does not answer, and the purge pass are not modelled.
- Offload.RestorePicksTheNewest: takes orderly runs (no checkout on its way at a claim, the tier and the VM of an image archive unchanged since the look) and HEADs that answer; `Offload.PickSurvivesTroubleExactly` says what failing HEADs do.
- Several schemas at once in `Offload.dfy`: their places are disjoint and the registry is treated in module Store.
- Drain.DrainTerminates: takes jobs that finish, no stand-down, no outside claims and no checkouts; backoff times are arbitrary.
- Slots.JitterBounds: over the reals; the rounding of the f64 factor and of `Duration` is not modelled.
- Slots.ReaperSparesTheUsedExactly: takes an entry with at least one slot and a positive timeout.
- Spares.CulledSparesAreUnclaimed: takes passes that run one after another to their end, ids listed once and new ids that are new.
- DumpServer.DumpsAreWhole: takes one live PUT grant per schema, the requests on a token one after another, and a failed upload's temp file removed unless `FailOk` (exact by `DumpServer.FailIsSafeExactly`).
- Events.ChartsRefineHistory: takes partitions that accept their appends, a buffer under its cap (`Events.CountPushed` says what the cap costs), a clock that does not go back between restarts, years of four digits, and restarts after the first day.
- Journal files, their partitions and retention: the same shape as the event files.
- Part numbers beyond 32 bits, and counters beyond their machine width.
- heyvmd, S3 over HTTP, Postgres, `zstd`, `e2fsck` and `df`: steps that succeed or fail. Clocks, load and disk usage are inputs.
- src/vm.rs and the reclaim script appear through the contracts their callers and documentation state.
- src/dedicated.rs, src/orphans.rs, src/config.rs, signing, TLS, the proxy's splicing and the dashboard.
