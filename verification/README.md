# cog, verified

A Dafny model of the parts of cog that carry invariants over whole runs, and the
proofs of those invariants. `dafny verify dfyconfig.toml` checks everything.

**ECS observation** (`ecs/`). `EcsStore` is the sparse set of one component: owners,
values, shadows and states in parallel rows, a tail of rows removed this window, and a
listing of changed entities that may stop. Ghost maps say what it stands for: what
every entity holds now, held at the last reset, and last held. `EcsEntityTable` hands out
generational handles through a reservation count. `EcsWorld` keeps masks, rows and
entities in step; `EcsDeltaQuery` and `EcsQuery` are the two walks, the second marking what
it yields for writing; `EcsRun` sets any
sequence of operations, queries whose bodies remove among them, beside a plain model
(maps and their difference): after every operation the world is what the model says, it
brought to life exactly the entity it should, queries yielded exactly what it selects, and
a delta query yields exactly the difference.

**Kernel** (`kernel/`). `KernelLocks` refines lock masks and reader counts to the set of
lock sets held; `KernelGranting` says what one pass over waiting jobs grants, and
`KernelCombiner` does it on the masks, filtering the list in place. `KernelJobGraph` and
`KernelJobSteps` are the dependency graph, one atomic operation a step, in every
interleaving of any number of goroutines; `KernelCombining` is flat combining at the same
grain; `KernelSystem` and `KernelRuns` put both and the ready queue together. On those
runs `KernelProgress` shows that no goroutine is ever stuck, and `KernelDraining` that
once nothing more is published every job finishes, whatever order steps are taken in.
`KernelTraces` says of any run, by its events alone, that a job is begun once, after every
dependency its acquire was given was begun and ended, that conflicting jobs never overlap,
and that locks are granted in the order asked. `KernelRunner` is how workers park, and `KernelDispatcher` sorts event handlers.

**Metronome** (`metronome/`). `MetronomePacing` is what a beat says and does to its track,
in exact integers; `MetronomeTrack` publishes beats over a ring of signals that grows;
`MetronomeManualClock` advances many tracks deadline by deadline;
`MetronomePublishedTick` is the seqlock, step by step.

**First kernel** (`_legacy/kernel/scheduler.go`). `LegacyScheduler` grants locks by queueing
each job on its tracks' tails only; `LegacyState` shows by paths in the waits-for graph why
that is enough. `LegacySubmitting` and `LegacyFinishing` say what one submission and one
finish come to. `LegacyHistory` sets whole runs beside what was declared of each job, its
locks and the jobs it is ordered after: no two jobs run whose declared locks clash, of two
such the earlier submitted ends before the other is granted, no job runs unless all it was
ordered after, however far back, succeeded, and a job is granted as soon as all of that is so.

Where the source updates state in place, the model is a class whose methods change its
fields; the fields of a store, table, lock state or scheduler are kept in one record, so
that what they must satisfy can be said once of a value. Interleaved protocols are
state machines: a `Takes` predicate relates two states by one atomic step, and a run is
any sequence of steps from the initial state.

## Findings

Two documented properties do not hold of the code. Each has its exact condition, and an
input where it fails.

- A fixed-step track with a `MinInterval` misses its first deadline.
  `metronome/track.go:21-23` has tick n due at n steps, and `metronome/track.go:26-29` has
  `MinInterval` mean something on variable tracks only; but `metronome/plugin.go:75` adds
  it to the first deadline of every track. `MetronomeManualClock.OnDeadlinesIffPrompt`: a
  settled track publishes exactly its deadlines, for every target, if and only if
  it sets no `MinInterval` or has a step behind it already.
  `FirstTickIsOnTimeIff` is the same of the first tick alone, and `FirstTickCanBeLate` an
  input: step 10 and `MinInterval` 5 give the first tick at 15. No other track on the clock
  is affected (`AdvanceMeetsDeadlines`).
- A commit spawns entities that are not reservations. `ecs/commands.go:286-288` has it drop
  a spawn of what is not a reservation still waiting; but `CommandBuffer.Spawn` takes any
  entity (`ecs/commands.go:176-179`), and `ecs/entitytable.go:149-165` tells a reservation
  by its generation alone.
  `EcsEntityTable.SpawnsOnlyTheWaitingIff`: exactly the waiting are spawned if and only if
  the entity does not have the next generation of an index outside the range, on the free
  list, never handed out, or despawned this window. What comes alive otherwise is handed
  out again while it lives (`HandedOutWhileAlive`), or has its index freed while it lives
  (`FreedWhileAlive`): in `FreeEntityComesAlive` the range is 0 to 1, entity 0 was spawned
  and despawned, and (0, generation 2) is both alive and the next entity out. Outside the
  range the table stays sound where none was despawned this window (`MayLiveIff`); where one
  was, the stores forget it: in `EcsWorld.RemovalGoesUnreported`, (5, generation 1) was
  despawned, (5, generation 2) is spawned and given a component, and the removal of the
  first one's is no longer reported.

## Model

| member | source | states |
|---|---|---|
| `EcsStoreState.StoreState.Row` | ecs/store.go:187-194 | The probe by index and owner finds a live row exactly for the entities that hold a value now, even when two owners share an index. |
| `EcsStoreState.StoreState.DeltaAt` | ecs/store.go:338-352 | The delta of any row, live or in the tail, is the difference between the baseline and the current contents at its owner: states and shadows refine two maps. |
| `EcsStoreState.StoreState.ReportedRow` | ecs/store.go:356-366 | A row is reported exactly for linked entities that hold a value now or held one at the reset; a discarded row never is. |
| `EcsStoreState.StoreState.TailRow` | ecs/store.go:471-477 | A row is found in the tail exactly while its owner is linked to it. |
| `EcsStoreState.StoreState.ListedRow` | ecs/store.go:402-404 | Until the listing stops, each listed entity can still be found by its index, and its row has left the unchanged state. |
| `EcsStoreState.SwappedKeepsValid` | ecs/store.go:482-506 | Exchanging two rows keeps every entity's row, value, shadow and link, also where the two owners share an index. |
| `EcsStoreState.SettledKeepsValid` | ecs/store.go:424-453 | After a reset the listing may start afresh: no row has changed, every row is linked, and baseline and contents are one map. |
| `EcsStoreState.InsertedKeepsValidIff` | ecs/store.go:253-289 | In an observed store a new row keeps every other entity readable, and gives its own only one row, exactly if no live row has its index and it has no row that lost its link. |
| `EcsStoreState.AddedKeepsValidIff` | ecs/store.go:253-289 | The same in a store that does not observe: exactly if no live row has its index. |
| `EcsStoreState.UnlistedIsUnchanged` | ecs/store.go:390-404 | A row the listing or the walk of every row does not come to equals its shadow, so the reset loses nothing by skipping it. |
| `EcsStore.Store.Get` | ecs/store.go:200-210 | Answers what the contents map has for the entity, or nothing. |
| `EcsStore.Store.Write` | ecs/store.go:212-225 | Finds the live row and marks it changed; moves no row, loses no link, and changes nothing if there is none. |
| `EcsStore.Store.MarkChanged` | ecs/store.go:368-378 | Only an unchanged row of an observed store is marked, once listed or the listing stopped. |
| `EcsStore.Store.ListChanged` | ecs/store.go:380-388 | The entity is listed behind the others while they are fewer than an eighth of the live rows, and otherwise the listing stops. |
| `EcsStore.Store.SetValue` | ecs/store.go:146-152 | A write through an answered address changes one entity's value and nothing of the baseline. |
| `EcsStore.Store.Add` | ecs/store.go:253-289 | The entity holds what it last held this window if its row in the tail is linked, or the new row's memory; no other entity's value and no baseline changes; the store is sound after exactly if its index has no live row and its own row, if any, is linked. |
| `EcsStore.Store.Revive` | ecs/store.go:256-267 | A row in the tail comes back with its shadow, and a discarded one counts as added again. |
| `EcsStore.Store.Insert` | ecs/store.go:268-288 | The new row becomes the last live one; where it may be added the live rows keep their places, values, shadows and states, and every owner of another index its link; the listing stops if the row took another owner's link. |
| `EcsStore.Store.Remove` | ecs/store.go:291-319 | The entity holds nothing now; an observed store still knows what it held; rows before the removed one stay, the last taking its place, and every other row keeps its state. |
| `EcsStore.Store.EndLastRow` | ecs/store.go:294-308 | A row added this window is discarded, any other becomes removed, and is listed if it was unchanged. |
| `EcsStore.Store.Swap` | ecs/store.go:479-506 | Does the exchange in place, link by link, with the second link read before the first is written. |
| `EcsStore.Store.StartObservation` | ecs/store.go:406-422 | Observation starts with every row added, against an empty baseline. |
| `EcsStore.Store.ResetObservation` | ecs/store.go:424-453 | Contents stay, the baseline becomes the contents, the tail goes, and every row is linked. |
| `EcsStore.Store.SettleShadows` | ecs/store.go:430-443 | Whether through the listing or every row, each live row ends equal to its shadow and unchanged. |
| `EcsStore.Store.DropLinks` | ecs/store.go:446-450 | Exactly the links to live rows are left, though a tail owner may have lost its link to another. |
| `EcsEntityTable.EntityTable.Reserve` | ecs/entitytable.go:119-134 | Answers the last free entity not reserved, then fresh indices, then none exactly when the range is used up; never one answered before, ended, or unable to come alive. |
| `EcsEntityTable.EntityTable.Spawn` | ecs/entitytable.go:136-147 | The next entity in that order comes alive without components, one never handed out before, and what is still to be handed out is the rest. |
| `EcsEntityTable.EntityTable.SpawnReserved` | ecs/entitytable.go:149-165 | Any entity comes alive exactly if its index holds none alive and it is the next generation; one that ended never does; the table is sound after exactly if what came alive may live, as every reservation may. |
| `EcsEntityTable.MayLiveIff` | ecs/entitytable.go:149-165 | What looks like the next reservation may come alive, the table staying sound, exactly if it was reserved, or lies outside the range where none was despawned. |
| `EcsEntityTable.SpawnsOnlyTheWaitingIff` | ecs/commands.go:286-297 | A commit spawns exactly the reservations still waiting if and only if the entity does not have the next generation of an index none reserved. |
| `EcsEntityTable.HandedOutWhileAlive` | ecs/entitytable.go:119-134 | What is spawned though its index was free, or never handed out, is what the table hands out next, after more reservations, while it is alive. |
| `EcsEntityTable.FreedWhileAlive` | ecs/entitytable.go:211-231 | What is spawned at an index of the range despawned this window has its index handed out, when the window ends, while it is alive. |
| `EcsEntityTable.FreeEntityComesAlive` | ecs/entitytable.go:149-165 | An input: a free entity none reserved comes alive, and is what the table hands out next. |
| `EcsEntityTable.EntityTable.Place` | ecs/entitytable.go:167-185 | Placed exactly if the generation is not 0, the index lies outside the range, and holds none alive nor despawned this window. |
| `EcsEntityTable.EntityTable.Despawn` | ecs/entitytable.go:187-209 | Ends the entity and answers its components; its index is noted until the window ends if the table observes, and otherwise is at once the next of those freed to be handed out. |
| `EcsEntityTable.EntityTable.SettleReservations` | ecs/entitytable.go:240-278 | Reservations never spawned are taken back with their generation burned, behind what was not reserved and in the order taken, or their indices lost, through the in-place compaction. |
| `EcsEntityTable.ReclaimFree` | ecs/entitytable.go:256-268 | The compaction loop keeps exactly the reserved entities never spawned, at their next generation. |
| `EcsEntityTable.ReclaimFresh` | ecs/entitytable.go:269-276 | Fresh indices reserved and never spawned are taken back as well, so none of the window's reservations is lost. |
| `EcsEntityTable.EntityTable.Free` | ecs/entitytable.go:292-298 | A despawned index of the range goes on the free list at its next generation. |
| `EcsEntityTable.TakenBackAt` | ecs/entitytable.go:256-276 | Each reservation never spawned is freed behind those taken before it, free entities first and then fresh indices. |
| `EcsEntityTable.FreedAt` | ecs/entitytable.go:222-228 | Each index of the range despawned is freed behind those despawned before it. |
| `EcsEntityTable.EntityTable.FreeDespawned` | ecs/entitytable.go:222-229 | The loop frees the window's despawned indices in despawn order, behind what is free. |
| `EcsEntityTable.EntityTable.EndWindow` | ecs/entitytable.go:211-231 | After the window nothing is reserved or dying, who is alive is as before, no index forgets a generation, exactly the reservations never spawned have ended, and the free list is what was not reserved, then those taken back, then those despawned, each in order. |
| `EcsEntityTable.LastDespawnedIsNext` | ecs/entitytable.go:211-231 | So the first handed out after a window is what its last despawn freed. |
| `EcsEntityTable.IndicesAreConserved` | ecs/entitytable.go:240-298 | With a window just ended, each index handed out is exactly one of live, on the free list once, and lost. |
| `EcsEntityTable.Run` | ecs/entitytable.go:11-24 | Over any run each operation answers, makes alive and leaves to be handed out exactly what it should, no handle is handed out twice, no ended handle of the range is alive again, and a table that observes loses no index. |
| `EcsWorld.OneOwnerPerIndex` | ecs/entitytable.go:20-24 | No store holds rows, live or in the tail, of two entities with one index. |
| `EcsWorld.LiveRowsBelongToTheLiving` | ecs/world.go:280-318 | Every live row's owner is alive and has the component's bit. |
| `EcsWorld.LivingCanAdd` | ecs/world.go:295-307 | A living entity without the component can be given a row, the store staying sound, because indices are withheld. |
| `EcsStoreState.OneOwnerIsReported` | ecs/store.go:356-366 | Of two owners with one index a live one hides the other: whatever became of it is not reported. |
| `EcsWorld.TailTakesNewOwner` | ecs/store.go:268-273 | Where the old owner of an index is gone but has a row in the tail, the store gives a new one a row without complaint. |
| `EcsWorld.RemovalGoesUnreported` | ecs/entitytable.go:149-165 | An input, by a world's own operations: an entity none reserved is spawned at an index despawned this window, and a removed value is no longer reported. |
| `EcsWorld.World.constructor` | ecs/world.go:81-103 | A new world observes nothing, and holds nothing. |
| `EcsWorld.World.Spawn` | ecs/world.go:115-119 | The next entity in the table's order comes alive, one not handed out before, at a generation its index never held, and no store has a row of that index; none exactly if the range is used up. |
| `EcsWorld.World.SpawnReserved` | ecs/entitytable.go:149-165 | Exactly what has the next generation of an index with none alive comes alive; the world stays sound exactly if it may live, as every reservation not yet spawned may, and then no store has a row of that index. |
| `EcsWorld.World.CreateAt` | ecs/world.go:121-127 | An entity is placed exactly where the table allows it, and no store still has a row of that index. |
| `EcsWorld.World.RegisterObserver` | ecs/store.go:321-327 | A store read by a delta query waits for the first reset; nothing it holds changes. |
| `EcsWorld.World.Put` | ecs/world.go:295-307 | Exactly a living entity gets a row, or has its own marked changed; the mask bit follows. |
| `EcsWorld.World.Add` | ecs/store.go:144-152 | A living entity holds the given value, whether it had one or not; a dead one changes nothing. |
| `EcsWorld.World.Overwrite` | ecs/world.go:168-172 | An entity that holds the component holds the value written; no other store or entity changes. |
| `EcsWorld.World.Remove` | ecs/world.go:309-318 | The entity holds nothing in that store, reported exactly if it did; the bit goes with the row, and the rows before it stay where they were. |
| `EcsWorld.World.Despawn` | ecs/world.go:280-293 | Exactly a living entity ends, with its value in every store of its mask; ignoring whether a row was found is safe. |
| `EcsWorld.World.RemoveRows` | ecs/world.go:287-291 | The loop over the mask leaves no store with a live row of the entity, and touches no other value. |
| `EcsWorld.World.ResetObservation` | ecs/world.go:345-365 | Who is alive and what they hold stay; every observed baseline becomes the contents; the first reset starts observation instead. |
| `EcsDeltaQuery.MatchIsYieldedOnce` | ecs/delta.go:41-44 | An entity that matches is yielded by exactly one driving term. |
| `EcsDeltaQuery.WalkMeetsOnce` | ecs/store.go:390-404 | Neither the listing nor the walk of every row meets an owner twice. |
| `EcsDeltaQuery.WalkMeetsEveryDelta` | ecs/store.go:390-404 | Each meets every entity that has a delta. |
| `EcsDeltaQuery.AllObserved` | ecs/delta.go:53-63 | Whether every value term's store observes. |
| `EcsDeltaQuery.ProbeTerm` | ecs/delta.go:77-105 | A term lets an entity through exactly if it has or had the value, or meets the filter; what is read is its last value, baseline value and delta. |
| `EcsDeltaQuery.MatchRow` | ecs/delta.go:65-107 | The row's owner is yielded exactly if every term accepts it, the driving term has a delta and none before does. |
| `EcsDeltaQuery.All` | ecs/deltaquery_gen.go:125-162 | For any number of terms the walk yields each matching entity exactly once, correctly, and no other; nothing unless all value terms observe. |
| `EcsDeltaQuery.Query` | ecs/deltaquery_gen.go:128-162 | The same over the stores themselves. |
| `EcsRun.DeadHoldNothing` | ecs/world.go:280-293 | The dead hold nothing, so despawning one need not touch the stores. |
| `EcsRun.NewWorld` | ecs/world.go:81-103 | A new world is the empty model. |
| `EcsRun.StepEntities` | ecs/entitytable.go:119-185 | Brings to life exactly the entity the table has next, the reservation asked for if it is one not yet spawned, or the entity placed where it may be; nothing else, and none in any other case. |
| `EcsRun.StepQuery` | ecs/query_gen.go:105-132 | In a run, a query whose body removes yields each entity the model selects once, in the order of the walk, with the values the model has, marks what it yields for writing, and leaves the maps without just what the body removed. |
| `EcsRun.NotBornBefore` | ecs/entitytable.go:11-24 | An entity of the range is born at most once in a run, for no index forgets a generation. |
| `EcsRun.Run` | ecs/world.go:280-365 | Over any sequence of operations the world is, before and after each, what the plain maps say: alive, now, at the reset, last held; each brought to life, reserved, yielded and marked exactly what it should, and left to be handed out what it should; and no entity of the range was born twice. |
| `EcsRun.RunAndQuery` | ecs/deltaquery_gen.go:96-162 | After any such run a delta query yields exactly the difference between the contents at the last reset and now, with previous and last-held values. |
| `EcsQuery.PickDriving` | ecs/query.go:172-185 | The driving term is the first of those with the fewest rows among those that can drive. |
| `EcsQuery.ProbeTerms` | ecs/query.go:187-212 | The terms accept the entity exactly if it matches, and yield what their stores hold. |
| `EcsQuery.MatchEntity` | ecs/query.go:187-220 | An entity that matches has its row marked changed in exactly the stores written, and one that does not in none; every other row keeps its state, no row moves and nothing held changes. |
| `EcsQuery.UnvisitedUnchanged` | ecs/query_gen.go:105-107 | Whatever the body removed, an entity not visited yet matches and reads as it did at the start. |
| `EcsQuery.EarlierRowsStay` | ecs/store.go:291-319 | A removal at a visited row leaves every row before it in place, observed or not. |
| `EcsQuery.EarlierChunkIsFull` | ecs/query_gen.go:113-115 | When the walk comes to the chunk before, all of its rows are still live. |
| `EcsQuery.WalkChunk` | ecs/query_gen.go:113-130 | One chunk, its rows counted once, is walked without ever indexing past the live rows. |
| `EcsQuery.WrittenAreMarked` | ecs/query.go:205-218 | What a query yielded for writing, and an observed store still holds, has left the unchanged state. |
| `EcsQuery.All` | ecs/query_gen.go:105-132 | Every entity that matched at the start is yielded exactly once with what it held, from the driving store's last row to its first, though the body removes any of its components; masks, rows and baselines stay in step; each store is left without just what the body removed; and every row left is in the state it had, but for those yielded for writing, which are marked. |
| `KernelBits.TrailingZeros` | kernel/lockstate.go:49-50 | The lowest set bit of a word. |
| `KernelBits.WithoutLowestBits` | kernel/lockstate.go:59-60 | word & (word - 1) clears the lowest bit and no other. |
| `KernelLocks.FreeMeansNoConflict` | kernel/lockstate.go:33-42 | Nothing is in the way on the masks exactly when no held lock set conflicts and nothing touched is reserved. |
| `KernelLocks.LockRefines` | kernel/lockstate.go:44-53 | Locking keeps masks and reader counts equal to the lock sets held. |
| `KernelLocks.UnlockRefines` | kernel/lockstate.go:55-68 | Unlocking keeps them equal: a read lock is held until its last reader finishes. |
| `KernelLocks.WordsFree` | kernel/lockstate.go:35-42 | The word-wise conflict is 0 exactly when no resource is blocked. |
| `KernelLocks.LockState.CanLock` | kernel/lockstate.go:33-42 | Answers exactly whether no job holds a conflicting lock set and nothing touched is reserved. |
| `KernelLocks.LockState.Lock` | kernel/lockstate.go:44-53 | Adds the job's lock set to those held, and nothing else. |
| `KernelLocks.LockState.Unlock` | kernel/lockstate.go:55-68 | Takes it out again. |
| `KernelLocks.LockState.Reserve` | kernel/lockstate.go:70-76 | Reserves exactly what the lock set writes besides. |
| `KernelLocks.LockState.ClearReservations` | kernel/lockstate.go:78-82 | No resource is reserved. |
| `KernelLocks.Access.Read` | kernel/access.go:18-29 | Adds one read lock unless the resource is written; reads and writes stay disjoint. |
| `KernelLocks.Access.Write` | kernel/access.go:31-42 | Adds one write lock, which takes the read lock's place. |
| `KernelLocks.Access.Use` | kernel/access.go:44-67 | What either task writes is written, what either reads and neither writes is read. |
| `KernelLocks.Access.GrowMasks` | kernel/access.go:82-89 | Longer masks lock what they did. |
| `KernelGranting.PassDivides` | kernel/combiner.go:92-104 | A pass divides the requests into granted and waiting; no job loses its locks. |
| `KernelGranting.PassGivesLocks` | kernel/combiner.go:95-99 | Each job granted holds its task's locks. |
| `KernelGranting.PassKeepsExclusive` | kernel/combiner.go:92-104 | No two jobs hold conflicting locks after a pass. |
| `KernelGranting.NoneLeftToGrant` | kernel/combiner.go:74-78 | After a pass no waiting job could be granted: each conflicts with a job that holds locks, or touches what an older one that waits writes. |
| `KernelGranting.OldestIsBlockedByAHolder` | kernel/combiner.go:92-104 | The oldest waiting job conflicts with a lock really held. |
| `KernelGranting.NothingWaitsForNothing` | kernel/combiner.go:92-104 | Nothing waits when nothing is held. |
| `KernelGranting.PassKeepsOrder` | kernel/combiner.go:44-46 | The waiting list stays oldest first, and so come those granted. |
| `KernelGranting.NoneOvertakes` | kernel/combiner.go:17-20 | While a job waits, no younger job is granted a resource it writes. |
| `KernelGranting.NoneOvertakesInAnyTurn` | kernel/combiner.go:17-20 | The same in every later pass, over any run of releases and arrivals. |
| `KernelGranting.EveryTurnIsSafe` | kernel/combiner.go:83-111 | After every turn of any run: no conflict among holders, none grantable and each kept for a reason, none waiting for nothing. |
| `KernelCombiner.LockCombiner.Offer` | kernel/combiner.go:95-101 | On the masks, a request is granted exactly if it conflicts with no holder and with no write of a job kept waiting ahead of it. |
| `KernelCombiner.LockCombiner.OfferNext` | kernel/combiner.go:93-103 | The in-place filter never overwrites a request still to come to. |
| `KernelCombiner.LockCombiner.GrantWaiting` | kernel/combiner.go:92-104 | The filtered list, the grants and the held locks are what the pass is meant to give. |
| `KernelCombiner.LockCombiner.Pass` | kernel/combiner.go:84-104 | One whole pass, releases first, refines that meaning, on masks and counts; those granted come oldest first and hold their tasks' locks, and each still waiting has a reason to. |
| `KernelJobGraph.StaleHandlesReadFinished` | kernel/job.go:143-145 | A handle reads as finished exactly once its job has, however often the slot was taken since. |
| `KernelJobGraph.HandedOnceAfterDependencies` | kernel/job.go:110-139 | A job has been handed on once exactly when it waits for nothing, and that only after its hold is released and every declared dependency has finished; one that finished was handed on once. |
| `KernelJobGraph.WaitsForOlder` | kernel/job.go:115-129 | What a job is linked behind is an older job, unfinished or midway through its finish. |
| `KernelJobSteps.AcquireKeepsValid` | kernel/job.go:115-120 | Taking a slot keeps the invariant; no handle names it yet. |
| `KernelJobSteps.OpenKeepsValid` | kernel/job.go:120-123 | Opening the lists under the slot's generation gives a name no job had. |
| `KernelJobSteps.RaiseKeepsValid` | kernel/job.go:221-222 | The waiting count is raised before the edge is linked, so no finish brings it to zero early. |
| `KernelJobSteps.LoadKeepsValid` | kernel/job.go:239-244 | What a goroutine read may be out of date; the step is still safe. |
| `KernelJobSteps.LinkKeepsValid` | kernel/job.go:245-247 | The compare-and-swap succeeds only on the same unfinished job, with the list as read. |
| `KernelJobSteps.LinkFailedKeepsValid` | kernel/job.go:238-249 | A failed compare-and-swap leaves everything to be tried again. |
| `KernelJobSteps.LowerKeepsValid` | kernel/job.go:229-231 | A refused link takes back the count it raised. |
| `KernelJobSteps.UnholdKeepsValid` | kernel/job.go:131-139 | Releasing a hold hands on exactly a job that waits for nothing else. |
| `KernelJobSteps.SwapKeepsValid` | kernel/job.go:147-150 | Closing the list takes every edge linked and refuses all later ones. |
| `KernelJobSteps.LowerSuccessorKeepsValid` | kernel/job.go:161-169 | Each successor is counted off once per edge, and handed on exactly at its last. |
| `KernelJobSteps.NextKeepsValid` | kernel/job.go:170-172 | Edges are given back once walked. |
| `KernelJobSteps.StoreKeepsValid` | kernel/job.go:175-177 | The lists stay closed under a generation no handle names. |
| `KernelJobSteps.ReleaseKeepsValid` | kernel/job.go:178 | The slot may be taken again. |
| `KernelJobRuns.EventHasEffect` | kernel/job.go:110-179 | All any step of the graph does that the rest of the kernel sees: the job it names, the one it brings to wait for nothing, where goroutines are. |
| `KernelCombining.NoRequestIsLost` | kernel/combiner.go:80-82 | While a request is queued some goroutine is yet to try the mutex, holds it, or is yet to look again. |
| `KernelCombining.QuietMeansSettled` | kernel/combiner.go:83-111 | Once all have left combine both queues are empty, nothing waiting is grantable, each waits for a holder it conflicts with or an older writer, and the oldest for a real holder. |
| `KernelCombining.HoldersNeverConflict` | kernel/combiner.go:14-20 | No two jobs that run, or whose release is still queued, hold conflicting locks. |
| `KernelCombiningSteps.PushArrivalKeepsValid` | kernel/combiner.go:61-62 | Queueing a request beside others keeps the invariant. |
| `KernelCombiningSteps.PushReleaseKeepsValid` | kernel/combiner.go:70-71 | So does queueing a release. |
| `KernelCombiningSteps.TryLockKeepsValid` | kernel/combiner.go:84 | A goroutine that fails to get the mutex may leave: the holder will look again. |
| `KernelCombiningSteps.DrainReleasesKeepsValid` | kernel/combiner.go:85-88 | Drained releases free exactly what finished jobs held. |
| `KernelCombiningSteps.DrainArrivalsKeepsValid` | kernel/combiner.go:89-93 | Drained arrivals join the list behind the others. |
| `KernelCombiningSteps.GrantKeepsValid` | kernel/combiner.go:94-99 | Each grant of a pass keeps the invariant while other goroutines push. |
| `KernelCombiningSteps.KeepKeepsValid` | kernel/combiner.go:101-102 | So does keeping a request waiting. |
| `KernelCombiningSteps.GrantsInOrder` | kernel/combiner.go:17-20 | In every interleaving no grant passes over an older waiting or queued writer of the resource. |
| `KernelCombiningSteps.UnlockKeepsValid` | kernel/combiner.go:105-107 | Giving up the mutex before looking again loses nothing. |
| `KernelCombiningSteps.CheckReleasesKeepsValid` | kernel/combiner.go:107 | Looking at one queue and then the other is enough. |
| `KernelCombiningSteps.CheckArrivalsKeepsValid` | kernel/combiner.go:107-109 | Leaving after finding both empty is safe. |
| `KernelSystem.RunningNeverConflict` | kernel/combiner.go:14-20 | No two running or ready jobs have tasks whose locks conflict. |
| `KernelSystem.NoDeadlock` | kernel/kernel.go:224-233 | With every batch submitted, an unfinished job means a ready job or a goroutine at work. |
| `KernelRuns.EveryReachableStateIsValid` | kernel/kernel.go:224-233 | Every interleaving of graph, combiner and runner steps keeps the whole invariant. |
| `KernelRuns.JobsAreHandedOnceInOrder` | kernel/job.go:110-179 | The same in every interleaving, with stale handles reading finished exactly once their job has; what a job declares is tied to its acquire by `KernelTraces.AcquiredJobDeclares`. |
| `KernelRuns.RunningJobsNeverConflict` | kernel/combiner.go:56-111 | In every interleaving no two running jobs conflict. |
| `KernelTraces.MayAcquire` | kernel/job.go:110-130 | A goroutine that publishes may at any time acquire a job, to wait for any jobs made before. |
| `KernelTraces.AcquiredJobDeclares` | kernel/job.go:110-130 | In every run the job opened after an acquire has its slot, is declared to wait for exactly the dependencies the acquire was given, and is of the task given, for ever after. |
| `KernelTraces.HandedOnAfterDependencies` | kernel/job.go:124-139 | It is handed on only where each dependency given to the acquire has finished. |
| `KernelTraces.FinishedHasRun` | kernel/kernel.go:224-233 | A job that has finished was begun by a worker, and later ended. |
| `KernelTraces.BegunOnce` | kernel/runner.go:108-114 | No job is begun twice. |
| `KernelTraces.BeginsAfterDependencies` | kernel/job.go:110-139 | A job is begun only after each dependency given to its acquire was begun and ended. |
| `KernelTraces.ConflictingJobsNeverOverlap` | kernel/combiner.go:14-20 | Of two jobs whose tasks' locks conflict, the one begun first has ended before the other is begun; the tasks are those their events give. |
| `KernelTraces.BegunInOrder` | kernel/runner.go:76-114 | The jobs made ready, in order, are those begun, in order, and then those still to begin. |
| `KernelTraces.GrantedInTheOrderAsked` | kernel/combiner.go:17-20 | In every run no job is granted its locks past one that asked before and writes what it touches: that one is granted first. |
| `KernelProgress.LinkMovesOn` | kernel/job.go:214-249 | A goroutine midway through linking always has a step to take, whatever others did to the list meanwhile. |
| `KernelProgress.WalkMovesOn` | kernel/job.go:158-178 | So has one walking the list of a job it finishes: the edge it is at leads to a job that is there. |
| `KernelProgress.PassMovesOn` | kernel/combiner.go:92-104 | So has one in a pass: the next request is of a job that has a name and locks. |
| `KernelProgress.NoneIsStuck` | kernel/kernel.go:224-233 | No goroutine with anything in hand is ever stuck. |
| `KernelProgress.KernelNeverDeadlocks` | kernel/kernel.go:224-233 | In every interleaving, while a job is unfinished some goroutine has an enabled step that serves one, whoever else is midway through anything. |
| `KernelDraining.GraphGetsLess` | kernel/job.go:238-249 | Every step of the graph but the start of a job leaves less to do; a failed compare-and-swap fails only where another's step left less. |
| `KernelDraining.CombineGetsLess` | kernel/combiner.go:80-111 | So does every step in combine, though a goroutine may try the mutex again and again: until a queue is drained, each step brings it nearer to that or to leaving. |
| `KernelDraining.StepGetsLess` | kernel/kernel.go:224-233 | So does every step of the kernel, over the parts together. |
| `KernelDraining.ServiceEnds` | kernel/runner.go:97-106 | With no job begun any more, any schedule at all comes to a state with no step left, in finitely many steps. |
| `KernelDraining.NoneToServeIsDrained` | kernel/runner.go:97-106 | In such a state every job was handed on once and has finished, every queue is empty and no lock is held. |
| `KernelDraining.ServiceGoesOn` | kernel/runner.go:97-106 | From every state there is a run that goes on serving while it can, so what holds of every such run is not empty. |
| `KernelDraining.EveryJobFinishes` | kernel/runner.go:97-106 | So from every reachable state, under every schedule, a kernel that takes no more jobs drains: every job finishes and every lock is free. |
| `KernelRunner.NoWakeUpIsLost` | kernel/runner.go:76-88 | With a job ready and no pusher midway, a token is pending or a worker is not parked. |
| `KernelRunner.StepKeepsValid` | kernel/runner.go:76-128 | Every atomic step of pushers and workers keeps that. |
| `KernelRunner.NoPusherBlocks` | kernel/runner.go:82-87 | The channel never blocks a pusher, full or not: one midway always has a step to take. |
| `KernelRunner.JobsArePoppedInOrder` | kernel/runner.go:76-114 | In every interleaving the jobs pushed, in order, are those workers got, in order, and then those still ready. |
| `KernelRunner.PopsTheOldest` | kernel/runner.go:108-114 | A worker that pops while a job pushed was not popped yet gets the oldest such job, and none if there is none. |
| `KernelRunner.EveryRunWakes` | kernel/runner.go:108-128 | So in every interleaving no wake-up is lost while a job pushed was not popped: some worker has its next step to take once no pusher is midway; no pusher blocks, and the channel holds at most a token for each worker. |
| `KernelDispatcher.GreedyIsLeast` | kernel/dispatcher.go:33-34 | Placing the first free handler each time gives the lexicographically first solution. |
| `KernelDispatcher.CyclesHaveNoSolution` | kernel/dispatcher.go:54-56 | No order satisfies declarations with a cycle. |
| `KernelDispatcher.StuckMeansCycle` | kernel/dispatcher.go:54-56 | If handlers are left and none is free there is a cycle, self declarations included. |
| `KernelDispatcher.Dispatcher.CountOrders` | kernel/dispatcher.go:36-43 | Counts each declaration once, duplicates too. |
| `KernelDispatcher.Dispatcher.SortHandlers` | kernel/dispatcher.go:33-65 | Sorts exactly if there is no cycle; the result is the least permutation that satisfies every declaration. |
| `MetronomePacing.BeatMovesOn` | metronome/track.go:229-248 | A beat's time is where the one before left off plus its delta and what was lost; a fixed-step beat stands for one step, and a variable one loses time only past its clamp. |
| `MetronomePacing.BeatIsPaced` | metronome/track.go:229-248 | A fixed-step beat loses nothing and stands for one step unless more steps are owed than the debt cap, and then leaves exactly one less than the cap owed; a variable one's time is the clock's, and it loses just what is past its clamp; the next deadline is a step, or the least interval, later. |
| `MetronomeTrack.SignalRing.Grow` | metronome/track.go:275-287 | Doubling the ring keeps the beats in flight, oldest first, wherever the oldest was. |
| `MetronomeTrack.SignalRing.Arm` | metronome/track.go:259-263 | The new beat takes a signal no beat in flight has, growing the ring exactly when it is full. |
| `MetronomeTrack.SignalRing.DropOldest` | metronome/track.go:179-184 | The oldest beat leaves, the others keep their order. |
| `MetronomeTrack.Track.StampStep` | metronome/track.go:229-238 | Steps are dropped only if more are owed than the debt cap, as many as leave one less than the cap owed, and their time is what the beat lost. |
| `MetronomeTrack.Track.StampInterval` | metronome/track.go:239-248 | The beat stands for the time since the last one, but for what is past the clamp, which is lost. |
| `MetronomeTrack.Track.PublishDue` | metronome/track.go:211-273 | The beat is what the clock and the time behind make it, dropping steps only past the debt cap; its time from the start is the sum of delta and lost over all beats so far, and it is in flight behind those that were, on a signal none of them has. |
| `MetronomeTrack.Track.Hear` | metronome/track.go:176-187 | A timer that fires is noted, and a beat that finishes leaves the ring from its front; nothing else changes. |
| `MetronomeTrack.Track.Turn` | metronome/track.go:164-195 | One turn publishes exactly if the deadline is reached by then and, a finished beat dropped, there is room; the beats in flight and the deadline are what that leaves. |
| `MetronomeTrack.OneBeatPerFiring` | metronome/track.go:159-195 | Each firing of the timer is good for at most one beat, and for one at once on a track with no limit of beats in flight. |
| `MetronomeTrack.Run` | metronome/track.go:159-195 | Over any run, whatever the clock reads, the track is what those turns come to, a deadline reached waits only for room, every beat is what the clock and the beats before it make it, losing steps only past the debt cap, the next deadline follows from the last beat, and beats in flight never pass the limit. |
| `MetronomeManualClock.OnDeadlinesIffPrompt` | metronome/plugin.go:75 | A settled fixed-step track publishes exactly its deadlines, for every target, if and only if it sets no MinInterval or has a step behind it. |
| `MetronomeManualClock.FirstTickIsOnTimeIff` | metronome/plugin.go:72-78 | The first tick is due after one step exactly for the tracks that set no MinInterval. |
| `MetronomeManualClock.FirstTickCanBeLate` | metronome/plugin.go:75 | A fixed-step track that publishes nothing at its first deadline, and its first tick late. |
| `MetronomeManualClock.BeatenIsOk` | metronome/track.go:229-248 | A beat leaves the timer and deadline in step, and fewer beats owed, so a wait ends. |
| `MetronomeManualClock.VariableIsDueAfter` | metronome/track.go:26-29 | A variable track publishes again in an advance exactly if its least interval has passed by the target. |
| `MetronomeManualClock.PublishesFirst` | metronome/manualclock.go:190-214 | A track that owes publishes the first of what it owes, and owes the rest. |
| `MetronomeManualClock.ManualClock.Publish` | metronome/manualclock.go:190-214 | A beat and the reset of its timer, which fires at once if its deadline has passed. |
| `MetronomeManualClock.ManualClock.Wait` | metronome/plugin.go:140-174 | Terminates, whatever the order tracks publish in, with no track owing; each has published just what it owed, in order. |
| `MetronomeManualClock.ManualClock.NextDeadline` | metronome/manualclock.go:241-253 | The earliest armed fixed-step deadline up to the target, or none exactly if none is. |
| `MetronomeManualClock.ManualClock.MoveAndFire` | metronome/manualclock.go:255-273 | Fires exactly the due timers of one kind. |
| `MetronomeManualClock.ManualClock.Advance` | metronome/manualclock.go:96-126 | Terminates; whatever the other tracks are, each fixed-step track publishes exactly what it would alone and ends as it would alone, each variable track due beats once, and the beats of tracks not delayed come in deadline order across tracks; nothing is caught up first if the tracks had settled. |
| `MetronomeManualClock.AdvanceMeetsDeadlines` | metronome/manualclock.go:96-103 | So each track without a delayed first deadline publishes exactly its deadlines, losing nothing, its steps being target by step. |
| `MetronomeManualClock.DeadlinesAreThosePassed` | metronome/manualclock.go:96-103 | Those deadlines are the multiples of the step past the old time and up to the new. |
| `MetronomePublishedTick.LoadsNeverTear` | metronome/track.go:148-152 | A load that answers has a tick and deadline stored together. |
| `MetronomePublishedTick.StepKeepsValid` | metronome/track.go:304-325 | Each of the writer's four steps and the readers' keeps the seqlock's invariant. |
| `MetronomePublishedTick.QuietLoadAnswers` | metronome/track.go:313-325 | A load with no store under way answers. |
| `MetronomePublishedTick.StoresAreEvents` | metronome/track.go:304-311 | In every run what is stored is the first pair and then those of the stores that ended, in order. |
| `MetronomePublishedTick.NoLoadEverTears` | metronome/track.go:304-325 | In every interleaving with any number of readers, a load answers the pair of the last store that ended. |
| `LegacyState.ConflictsAreJoined` | _legacy/kernel/scheduler.go:98-105 | Any two live conflicting jobs are joined by a waits-for path from older to newer. |
| `LegacyState.PathsAscend` | _legacy/kernel/scheduler.go:282-292 | Waits-for paths lead only to newer jobs, so there is no cycle. |
| `LegacyState.GrantedInSubmissionOrder` | _legacy/kernel/scheduler.go:98-101 | A granted job is older than every live job it conflicts with. |
| `LegacyState.RunningNeverConflict` | _legacy/kernel/scheduler.go:107-109 | No two jobs running or queued conflict. |
| `LegacyState.SomeJobIsGranted` | _legacy/kernel/scheduler.go:107-116 | While any job is unfinished the oldest has no blockers. |
| `LegacyState.GrantedOnceAlone` | _legacy/kernel/scheduler.go:313-316 | Between two operations a job is granted exactly if it waits for no one; one marked to be skipped never is. |
| `LegacySteps.WriteLockedKeepsCoherent` | _legacy/kernel/scheduler.go:229-239 | A writer behind a track's tail is behind everyone who locked it. |
| `LegacySteps.ReadLockedKeepsCoherent` | _legacy/kernel/scheduler.go:224-228 | A reader behind the last writer is behind every earlier one. |
| `LegacyEnding.FreedKeepsCoherent` | _legacy/kernel/scheduler.go:361-386 | Freeing an ended job breaks no path between the others. |
| `LegacyScheduler.Scheduler.AllocateLocked` | _legacy/kernel/scheduler.go:259-275 | A slot reused names a job no id named before. |
| `LegacyScheduler.Scheduler.WaitOnLocked` | _legacy/kernel/scheduler.go:282-292 | An edge is made exactly to a live predecessor, once per call, at the end of its list and marked as ordered or not as given; no other job waits for anything more. |
| `LegacyScheduler.Scheduler.PruneLocked` | _legacy/kernel/scheduler.go:294-304 | The live readers are kept, in order and as often as they were, and no other. |
| `LegacyScheduler.Scheduler.LockRead` | _legacy/kernel/scheduler.go:224-228 | The job reads the track, behind its writer. |
| `LegacyScheduler.Scheduler.LockWrite` | _legacy/kernel/scheduler.go:229-239 | The job writes the track, behind its readers, or its writer if none is left. |
| `LegacyScheduler.Scheduler.WaitAfter` | _legacy/kernel/scheduler.go:240-242 | The job waits for every live position it is ordered after, by an edge marked as ordered. |
| `LegacyScheduler.Scheduler.SubmitLocked` | _legacy/kernel/scheduler.go:211-257 | A job is granted on the spot exactly if no live job conflicts with it and all it is ordered after have ended, and then goes behind what is queued if the pool runs it; otherwise it waits, by an ordered edge, for each that has not, and no other job's edges change. |
| `LegacyScheduler.Scheduler.SubmitBatch` | _legacy/kernel/scheduler.go:190-209 | Every job of a batch is new and live, run by the pool, numbered in order with nothing in between, reads and writes just what it declares, has an ordered edge from each position it is ordered after, and besides waits only for jobs it conflicts with; those granted go behind what was queued, in order; every other job keeps its locks, edges and mark. |
| `LegacyScheduler.Scheduler.Take` | _legacy/kernel/scheduler.go:428-447 | The first job queued is taken and runs, the others staying queued; none exactly if the queue is empty. |
| `LegacyScheduler.Scheduler.ReleaseEdges` | _legacy/kernel/scheduler.go:332-360 | Every edge of an ended job is released, and no other; each job that waited for it alone is granted once, or left to be skipped if marked. |
| `LegacyScheduler.Scheduler.Finish` | _legacy/kernel/scheduler.go:313-378 | The work-stack loop ends the job and every skipped job that comes to wait for nothing; a job left is marked exactly if something that ended, failing, was ordered before it; each granted one is woken, queued or handed to the worker once, a continuing worker getting one if any of the pool was granted, and those queued going behind what was; all other edges stay. |
| `LegacyFinishing.FailureSpreads` | _legacy/kernel/scheduler.go:337-350 | A finish newly marks exactly the jobs its failure reaches, from one that ended to those ordered after it, through any number of skipped ones. |
| `LegacyFinishing.WaitsForTheRest` | _legacy/kernel/scheduler.go:338-343 | A job left waits for exactly what it waited for that has not ended, edge for edge. |
| `LegacyHistory.NewScheduler` | _legacy/kernel/scheduler.go:139-146 | A new scheduler has had nothing declared, and what every run keeps holds of it. |
| `LegacyHistory.ConflictIsDeclared` | _legacy/kernel/scheduler.go:107-116 | Live jobs conflict exactly if the locks they declared clash. |
| `LegacyHistory.SubmittedKeepsHistory` | _legacy/kernel/scheduler.go:190-257 | What a batch declares holds of the jobs it makes: their locks, their owner, their numbers, and an edge from every job each is ordered after, beside all declared before. |
| `LegacyHistory.EndingKeepsHistory` | _legacy/kernel/scheduler.go:332-378 | A finish keeps what was declared: what is ordered after a job has an edge from it while it lives, and once it has ended badly is marked. |
| `LegacyHistory.LiveBehindLive` | _legacy/kernel/scheduler.go:332-360 | In a finish, with whatever it skips, no job ends that is behind one that does not. |
| `LegacyHistory.EndingKeepsClashes` | _legacy/kernel/scheduler.go:98-101 | So of two jobs whose declared locks clash the earlier submitted ends first, be they skipped. |
| `LegacyHistory.GrantedNeverClash` | _legacy/kernel/scheduler.go:107-109 | No two jobs queued or running declared locks that clash. |
| `LegacyHistory.EarlierHasEnded` | _legacy/kernel/scheduler.go:98-101 | Of two jobs whose declared locks clash, the one submitted first has ended before the other is granted. |
| `LegacyHistory.GrantedIff` | _legacy/kernel/scheduler.go:98-116 | A live job is granted exactly if every earlier one whose declared locks clash with its own, and every one it is ordered after, has ended. |
| `LegacyHistory.RunsAfterSuccess` | _legacy/kernel/scheduler.go:337-351 | A job queued or running has all it was ordered after ended, and well. |
| `LegacyHistory.ChainSucceeded` | _legacy/kernel/scheduler.go:337-351 | So has it all those were ordered after, however far back. |
| `LegacyHistory.StepSubmit` | _legacy/kernel/scheduler.go:211-257 | A job submitted by itself is granted on the spot exactly if no live job declared locks that clash with its own. |
| `LegacyHistory.Step` | _legacy/kernel/scheduler.go:190-447 | Each submission, take and finish answers, and makes of the scheduler and of what was declared, just what it should. |
| `LegacyHistory.TakenInOrder` | _legacy/kernel/scheduler.go:428-447 | Over any run the jobs taken are those queued, in the same order, and then come those still queued. |
| `LegacyHistory.Run` | _legacy/kernel/scheduler.go:107-116 | Over any run of batches, submissions, takes and finishes each does just that, and in every state between: no two granted jobs declared locks that clash, of two that did the earlier ended first, a job is granted exactly if its turn has come, none is before all it was ordered after, however far back, succeeded, and some job is granted while any is live. |

## Left out

- Generations, indices, counts and durations are unbounded: no wrap-around is modelled.
- Components share one value type, and a bytewise comparison is equality of values; chunks, pages, strides, tags' shared address, `shrink` and reflection are not modelled.
- A new row's memory and shadow memory are parameters: chunks hold whatever they held before.
- Writing through the address `Store.Get` answers goes unseen by observers by design, and is not an operation of the model.
- `EcsQuery.All`: the body may remove components of the entity it is at; adding, and changing other entities, is not covered, nor is a write through an address yielded a step of its own (what is yielded for writing is marked, which is all that `EcsWorld.World.SetValue` asks of its row); stopping the loop early is not modelled.
- `EcsDeltaQuery.All`: stopping the loop early is not modelled, nor the order of the rows.
- `ecs/refs.go`, `ecs/keyedrefs.go`, `ecs/commands.go`, `ecs/serialization.go`, `ecs/schema.go`: repeat the operations proved, or are plumbing.
- A job's release in the combiner names the job, where the source queues its task; a slot may be taken again before the release is drained, so jobs are numbered as they are made.
- `container.Queue` and `container.Pool` are taken to be a linearizable queue and a slot allocator that never answers 0.
- Feeding results, signals armed by `Notify`, pinned jobs, the outstanding count that `settle` and `drain` keep, and the end of the workers are not modelled.
- `KernelDraining.EveryJobFinishes`: a job's own code is taken to return, and a ready job to be popped when no other step is left; that a worker wakes for it is `KernelRunner.EveryRunWakes`.
- Starvation freedom is not claimed while jobs keep arriving: only writes are reserved, so a waiting reader can be passed for ever.
- Memory order: an atomic operation is one step, as Go's sequentially consistent atomics promise.
- `KernelDispatcher.Dispatcher.SortHandlers`: a panic is the result `sorted == false`.
- `MetronomeManualClock.ManualClock.Wait`: a beat in flight finishes before the wait ends, so beats in flight are not part of the clock's state; a track resets its timer before it hears of a finished beat, so a settled track's timer is reset.
- Cancelling a wait, `Jump`, stopwatches, the wall clock, interpolation and `Alpha`, and stopping tracks are not modelled; `NewSignal` is a counter.
- `LegacyScheduler.Scheduler.Finish`: the liveness test on a successor never fails outside shutdown, which is not modelled; an ended job's successor list is taken apart as it is walked, where the source clears it after.
- The first kernel's shutdown, worker pool growth, tracing and condition variables are not modelled, nor the rest of `_legacy`.
- `kernel/supervisor.go`, `lifecycle.go`, `socket.go`, `plugin.go`, loggers, `gfx` and `platform`: process, operating system and GPU plumbing.
