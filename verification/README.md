# Simulator verification

A Dafny model of the deterministic simulation engine (`pkg/simulation`), its random
streams (`pkg/rng`), the job queue (`internal/queue`) and five of the example models,
with proofs of the promises the engine makes: the same seed gives the same result across
worker counts, schedules, snapshots and event orderings.

`dafny verify dfyconfig.toml` checks the whole project.

| files | what they model |
|---|---|
| `Rng.dfy` | splitmix64 streams and the bounded draw with rejection |
| `Interleaving.dfy`, `Scheduler.dfy`, `UndeclaredReads.dfy` | dependency levels, shards, the parallel tick, and what a system may read |
| `EntityCache.dfy` | the scheduler's cached entity sets |
| `Ids.dfy`, `SparseSet.dfy`, `EntityManager.dfy`, `Column.dfy` | entities with generations and component columns |
| `EventQueue.dfy` | the event queue over Go's `container/heap` |
| `World.dfy` | the World, its executors, snapshot and restore with the model's configuration |
| `WorldLaws.dfy` | what the calls on a World and a restore mean |
| `SystemWorld.dfy` | lists of systems ticking in parallel on a World, across a snapshot |
| `Lifecycle.dfy` | the run loop, its watcher, Pause, Resume, Stop and cancellation |
| `JobQueue.dfy` | claims, retries and dead-lettering |
| `EventWorld.dfy`, `Queueing.dfy`, `DistributedSystem.dfy` | the event-driven examples |
| `Traffic.dfy`, `Logistics.dfy`, `Sums.dfy` | two tick-driven examples |
| `Counter.dfy`, `CounterWorld.dfy` | CounterWorld, where the scheduler's and the snapshot's theorems meet |

Code that updates state in place is modelled by classes and methods with loops; each is
tied to a specification function or predicate, and the promises are proved about that.
Concurrency is modelled as step systems: a schedule lets any thread perform its next memory
access (the scheduler), and any party its next critical section (the lifecycle, the job
queue). Randomness, handler results, light policies, map iteration orders and worker counts
are arbitrary.

## What the proofs brought to light

- A system may read a component it does not declare as long as the levels sequence every
  other writer of it with the system, as they do for declared ones
  (`Scheduler.TickIsSerial`), and whenever they do not, such a read can break serial
  equivalence (`UndeclaredReads.UnsequencedReadBreaks`). That nobody in its own level writes
  it is not enough.
- Levels are computed before `Initialize` assigns component IDs. That never breaks an order
  (`Levels.RenamedLevelsOrder`) but separates systems exactly where it merges a written and a
  touched component (`Levels.RenamedConflictIff`, `Levels.MergedPairSeparated`).
- A restore that fails half-way has replaced the entities but keeps the structural revision,
  so the scheduler can answer with a stale entity set: `EntityCache.StaleAnswer`. Which sets
  stay right, for every contract: `EntityCache.BrokenOffIff`.
- The scheduler's comment says shards are `index % workers`; the code cuts the list into
  contiguous pieces. The model follows the code.
- A comment in `entity.go` says index 0 is reserved; the first created entity has index 0.
- Restoring an older snapshot rolls generations back, so an identifier can be issued twice:
  `EntityManagers.RestoreReissues`. It can happen exactly when the snapshot has a generation
  below that of an issued identifier: `EntityManagers.RestoreRepeatsIff`.
- A restore can bring a destroyed entity back under its old identifier, also when the snapshot
  is behind in no slot: `EntityManagers.RestoreRevives`. The exact condition:
  `EntityManagers.RestoreRevivesIff`.
- A job enqueued at attempt 0 can run `MaxAttempts + 1` times and not more often:
  `JobProtocol.AttemptsReached`, `JobProtocol.AttemptsBounded`.
- A worker that dies can lose its job for good, not only while it holds the claim but also
  after the acknowledgement and during the backoff, when it holds none:
  `JobProtocol.CrashLosesIff` gives the exact condition.
- The retry delay is doubled in 64 bits: it is exact only while it fits, can become negative,
  and is zero from attempt 65 on (`JobQueues.BackoffFor`, `JobQueues.BackoffOverflows`).
- Vehicles enter the first cell of the road unchecked, so it can hold several:
  `Traffic.EntryCellShared`. The node at the end of an edge holds any number as well:
  `Traffic.GatherAtNode`.
- A Pause that falls between the check of the limit and the loop's leave, with the Resume after
  the finalizer, costs a session its completion: it makes all its steps and ends Stopped
  (`Lifecycle.PauseAtTheLimit`; the exact condition is in `Lifecycle.PausedRunEnds`).
- `Spacing` has no default, so the built-in road has edges of length 0; the traffic theorems
  hold for them too.

## Model

| member | source | states |
|---|---|---|
| `Rng.UnmixAfterMix` | pkg/rng/rng.go:113-117 | the mixing step has a left inverse: every 64-bit input can be recovered from its output |
| `Rng.MixAfterUnmix` | pkg/rng/rng.go:113-117 | the same inverse is a right inverse: every 64-bit word is an output |
| `Rng.Mix64Bijective` | pkg/rng/rng.go:113-117 | mixing is a bijection on 64-bit words |
| `Rng.DeriveInjective` | pkg/rng/rng.go:106-108 | two streams of one seed start in the same state if and only if they are the same stream, and likewise for two seeds and one stream |
| `Rng.DeriveIsMaskedWord` | pkg/rng/rng.go:106-108 | a derived start is the first word of the stream seeded with the stream number, masked by the mixed seed: for seed 0 it is that word itself, and it is 0 for exactly one seed |
| `Rng.DistanceStep` | pkg/rng/rng.go:39-45 | one advance brings the stream one word closer to any chosen state, and the distance is 0 exactly when that state is next |
| `Rng.OffsetUnique` | pkg/rng/rng.go:39-45 | within a period of 2^64 each state is reached at exactly one offset |
| `Rng.FullPeriod` | pkg/rng/rng.go:39-45 | within a period every 64-bit word is emitted at exactly one offset |
| `Rng.ThresholdIsRemainder` | pkg/rng/rng.go:50-64 | the 64-bit negation trick computes 2^64 mod n |
| `Rng.AcceptedIff` | pkg/rng/rng.go:50-64 | the early test followed by the threshold test accepts exactly the words whose low product half is at least 2^64 mod n |
| `Rng.WindowIff` | pkg/rng/rng.go:50-64 | the words accepted with result v are exactly a window of floor(2^64/n) consecutive integers |
| `Rng.Unbiased` | pkg/rng/rng.go:50-64 | exact uniformity: every v below n has floor(2^64/n) accepted words, every other v none |
| `Rng.Draw` | pkg/rng/rng.go:50-64 | the rejection loop terminates for every state and bound, and its result is below n and comes from an accepted word |
| `Rng.Rejections` | pkg/rng/rng.go:50-64 | fewer than 2^64 words are rejected |
| `Rng.DrawIsFirstAccepted` | pkg/rng/rng.go:50-64 | the draw consumes the stream up to the accepted word and no further |
| `Rng.EarlierWordsRejected` | pkg/rng/rng.go:50-64 | every word of the stream before it was rejected |
| `Rng.Stream.Uint64` | pkg/rng/rng.go:39-45 | advances the state by the golden increment and emits its mixed value |
| `Rng.Stream.Uint64n` | pkg/rng/rng.go:50-64 | the imperative loop computes the specified draw from the old state; panics exactly on bound 0 |
| `Rng.Stream.Int63n` | pkg/rng/rng.go:68-73 | panics exactly on a non-positive bound, otherwise the specified draw, below the bound |
| `Interleaving.ActKeepsMeaning` | pkg/simulation/scheduler.go:121-170 | one memory access of any thread leaves the serial meaning of all remaining work unchanged |
| `Interleaving.EveryScheduleIsSerial` | pkg/simulation/scheduler.go:121-170 | every complete interleaving of non-interfering threads, access by access, leaves the store of running them one after the other |
| `Interleaving.CompleteScheduleExists` | pkg/simulation/scheduler.go:149-170 | every state can be run to the barrier |
| `Interleaving.ActReducesWork` | pkg/simulation/scheduler.go:149-170 | no schedule goes on forever |
| `Interleaving.BlocksCommute` | pkg/simulation/scheduler.go:97-117 | independent blocks of work may be exchanged |
| `Levels.IntersectsWrite` | pkg/simulation/scheduler.go:85-94 | true if and only if the two lists share a component |
| `Levels.HasConflict` | pkg/simulation/scheduler.go:79-83 | true if and only if the systems share a component one of them writes |
| `Levels.AssignLevels` | pkg/simulation/scheduler.go:51-75 | conflicting systems get strictly increasing levels in declared order, and no system a higher level than a conflict forces |
| `Levels.LevelsUnique` | pkg/simulation/scheduler.go:51-75 | order and tightness determine the levels |
| `Levels.MembersSpec` | pkg/simulation/scheduler.go:51-75 | a level lists exactly its systems, in declared order |
| `Levels.GroupByLevel` | pkg/simulation/scheduler.go:51-75 | the grouping loop yields each level's members |
| `Levels.DependencyLevels` | pkg/simulation/scheduler.go:51-75 | the layering respects every conflict, keeps declared order and has no empty level |
| `Levels.LevelsMinimal` | pkg/simulation/scheduler.go:51-75 | no other assignment that respects the conflicts gives any system a lower level |
| `Levels.RenamedLevelsOrder` | pkg/simulation/runtime.go:43-56 | levels computed on any function-image of the component IDs (such as the zero values before Initialize) still order every real conflict |
| `Levels.RenamedConflictIff` | pkg/simulation/runtime.go:43-56 | an image of the IDs adds a conflict between two systems exactly when it merges a component one writes with one the other touches |
| `Levels.MergedPairSeparated` | pkg/simulation/runtime.go:43-56 | such a pair never shares a level, although the systems may share nothing |
| `Levels.RenamedLevelsCompare` | pkg/simulation/runtime.go:43-56 | no level gets lower; when no pair without a real conflict is merged, all levels are those of the final IDs |
| `Shards.Partition` | pkg/simulation/scheduler.go:231-254 | every worker count cuts the entity list into contiguous shards that concatenate to it |
| `Scheduler.SystemShards` | pkg/simulation/scheduler.go:121-146 | no shard for an empty list, one for a serial system or a single worker, otherwise as many as workers or entities; the shards always concatenate to the entity list |
| `Scheduler.CutAll` | pkg/simulation/scheduler.go:121-146 | every worker count gives valid cuts for every system |
| `Scheduler.ShardsIndependent` | pkg/simulation/scheduler.go:121-146 | shards with disjoint entity indices never interfere |
| `Scheduler.LevelNonInterfering` | pkg/simulation/scheduler.go:97-146 | all shards of all systems of one level are pairwise independent |
| `Scheduler.ShardsAreSystem` | pkg/simulation/scheduler.go:121-146 | running a system's shards one after the other is running the system over its whole list |
| `Scheduler.LevelIsSerial` | pkg/simulation/scheduler.go:97-146 | every outcome of a level, for every valid cut, order of starting and interleaving, equals running its systems in order |
| `Scheduler.LevelOrderIsDeclaredOrder` | pkg/simulation/scheduler.go:51-117 | running level by level equals running the systems in declared order |
| `Scheduler.DeclaredTouches` | pkg/simulation/scheduler.go:13-20 | every component a system declares is one it may read: the layering sequences all its writers |
| `Scheduler.WellBehavedIff` | pkg/simulation/scheduler.go:13-20 | what is asked of a system, access by access: it writes declared components, reads components whose other writers are sequenced, and keeps to the entity at hand among those it writes unless it is serial |
| `Scheduler.SystemsCommute` | pkg/simulation/scheduler.go:97-117 | two systems that the levels do not sequence may be exchanged, also when each computes its entity list when it starts |
| `Scheduler.ListAnyTime` | pkg/simulation/scheduler.go:121-123 | a system that starts while others of its level are running finds the entities it would find after them |
| `Scheduler.ProgressIsSerial` | pkg/simulation/scheduler.go:113-146 | a level in the middle of its work, some systems started and some not, can only end where the remaining accesses and then the waiting systems lead, one after the other |
| `Scheduler.TickIsSerial` | pkg/simulation/scheduler.go:51-146 | main theorem: for every list of systems that write what they declare and read components whose other writers the levels sequence, every worker count, every interleaving within levels, every moment at which the goroutine of a system looks up its entities, and levels computed on any image of the IDs, one tick leaves the store of the serial run in declared order |
| `Scheduler.LayersAreLevels` | pkg/simulation/scheduler.go:51-75 | what the layering loop returns is what the main theorem asks of the levels |
| `Scheduler.RunIsSerial` | pkg/simulation/scheduler.go:97-117 | the same over any number of ticks, each with fresh entity lists |
| `Scheduler.SoleOutcome` | pkg/simulation/scheduler.go:97-117 | the serial outcome can be reached, and no other can: the outcomes of the parallel ticks are exactly it |
| `UndeclaredReads.UnsequencedReadBreaks` | pkg/simulation/scheduler.go:13-20 | necessity: for every layering, every component and every writer of it that the levels do not sequence with a reader that writes something, there are systems with these contracts, otherwise well behaved, whose tick can differ from the serial run |
| `EntityCache.SystemEntities` | pkg/simulation/scheduler.go:194-223 | the entities of a system: all, the members of one component, or the duplicate-free union in declared order |
| `EntityCache.FreshMembers` | pkg/simulation/scheduler.go:194-223 | a system works on an entity if and only if it declares nothing and the entity is live, or the entity has one of its components |
| `EntityCache.UnionMembers` | pkg/simulation/scheduler.go:207-223 | the nested loops compute the first-occurrence union |
| `EntityCache.FreshIsDistinct` | pkg/simulation/scheduler.go:194-223 | when column members are live, the entities of a system have pairwise distinct indices |
| `EntityCache.CacheStaysCurrent` | pkg/simulation/scheduler.go:174-189 | every operation that tracks the structural revision keeps every cache entry equal to a fresh computation whenever the revisions agree |
| `EntityCache.RegisteringIsHarmless` | pkg/simulation/component.go:37-47 | registering a component keeps every entry current without a new revision |
| `EntityCache.BrokenOffIff` | pkg/simulation/snapshot.go:149-184 | for every contract: a list cached at the present revision is right after a restore that breaks off if and only if the snapshot lists the same entities for it, in the columns replaced up to the failure and the untouched ones |
| `EntityCache.RestoreUnder` | pkg/simulation/snapshot.go:149-184 | refused or successful, a restore keeps every entry current; one that breaks off keeps the revision and leaves exactly the entries of older revisions and those meeting the condition of BrokenOffIff current |
| `EntityCache.StaleAnswer` | pkg/simulation/scheduler.go:174-189 | the input: list an entity, break a restore off after the listed column was emptied, list again: the scheduler answers with the entity although the component has no members |
| `EntityCache.Cache.EntitySet` | pkg/simulation/scheduler.go:174-189 | returns the cached list exactly when the revisions agree, otherwise the one computed afresh, and stores that; for a current entry both are what a fresh computation gives |
| `EntityCache.ZeroEntriesCurrent` | pkg/simulation/scheduler.go:174-189 | a new scheduler's zero entries are correct for a world without entities or members |
| `EntityCache.Witness` | pkg/simulation/scheduler.go:174-189 | one World call, model step, registration, restore or listing leads where it leads without a cache and keeps all entries current unless a restore breaks off |
| `EntityCache.CachedRun` | pkg/simulation/scheduler.go:174-189 | over any sequence of these the cached answers are the ones computed afresh from the states the operations alone lead to, up to the first restore that breaks off |
| `EntityCache.FromTheStart` | pkg/simulation/scheduler.go:174-189 | the same for the whole life of a world and a scheduler made with it |
| `Ids.WordRoundTrip` | pkg/simulation/entity.go:9-19 | the packed 64-bit identifier and its index and generation determine each other |
| `SparseSets.LookupIsSearch` | pkg/simulation/entity.go:110-116 | a sparse lookup gives the result of searching the dense list |
| `SparseSets.MirrorsRemove` | pkg/simulation/entity.go:121-143 | swap-removal keeps the sparse and dense arrays mutually inverse |
| `SparseSets.RemoveMember` | pkg/simulation/component.go:240-262 | the in-place swap-removal removes exactly the one index and keeps the arrays mutually inverse |
| `SparseSets.Rebuild` | pkg/simulation/entity.go:187-199 | the sparse array rebuilt from a dense list mirrors it |
| `SparseSets.GrowInt32` | pkg/simulation/component.go:360-378 | growing keeps all entries and appends zeros, whether or not spare capacity is reused |
| `EntityManagers.CreateIssuesFresh` | pkg/simulation/entity.go:73-101 | creation issues an identifier never issued before and makes exactly it live; allocation stays consistent |
| `EntityManagers.DestroyRemovesOne` | pkg/simulation/entity.go:121-143 | destruction makes exactly one identifier dead and forgets nothing that was issued |
| `EntityManagers.NoneIssuedTwice` | pkg/simulation/entity.go:73-199 | over every history of creations, destructions and restores whose restores cover the state they replace, slot by slot, no identifier is issued twice and none that was issued before |
| `EntityManagers.DeadStaysDead` | pkg/simulation/entity.go:73-199 | over every history whose restores cover the state they replace and have no slot of its free list alive, an issued identifier that is not alive is never alive again |
| `EntityManagers.RestoreRevivesIff` | pkg/simulation/entity.go:187-199 | the exact condition after any history, restores included, while the 32-bit counters have room: some identifier issued in it that was dead can be alive again after a restore if and only if the snapshot has a generation below that of an issued identifier, or has one alive that is dead now |
| `EntityManagers.RevivesBySlots` | pkg/simulation/entity.go:187-199 | without earlier restores the condition is one on slots: the snapshot leaves a slot behind or has a slot of the free list alive |
| `EntityManagers.RestoreRevives` | pkg/simulation/entity.go:187-199 | the input: create, take a snapshot, destroy, restore: the destroyed identifier is alive, although the snapshot covers the manager |
| `EntityManagers.ReachId` | pkg/simulation/entity.go:73-143 | every identifier whose generation is still to come is issued by some continuation of creations and destructions, which ends with it alive |
| `EntityManagers.RepeatingContinuation` | pkg/simulation/entity.go:187-199 | after a restore that leaves some slot behind, and while the counters have room, some continuation of destructions and creations issues an old identifier again |
| `EntityManagers.RestoreRepeatsIff` | pkg/simulation/entity.go:187-199 | the exact condition after any history, restores included: while the 32-bit counters have room, some continuation of a restore has issued an identifier twice if and only if the history already had, or the snapshot has a generation below that of an issued identifier |
| `EntityManagers.AccountsIffCovers` | pkg/simulation/entity.go:187-199 | without earlier restores this is the comparison of snapshot and manager slot by slot |
| `EntityManagers.RestoreReissues` | pkg/simulation/entity.go:73-101 | restoring an older snapshot makes the manager issue the same identifier twice |
| `EntityManagers.EntityManager.constructor` | pkg/simulation/entity.go:65-70 | the new manager is consistent and issues index 0 first |
| `EntityManagers.EntityManager.Create` | pkg/simulation/entity.go:73-101 | the code refines the allocation state: same state, a fresh identifier |
| `EntityManagers.EntityManager.Alive` | pkg/simulation/entity.go:110-116 | true if and only if the identifier is in the live set; a stale generation is never alive |
| `EntityManagers.EntityManager.Destroy` | pkg/simulation/entity.go:121-143 | succeeds if and only if the identifier was alive, and refines the allocation state |
| `EntityManagers.EntityManager.Restore` | pkg/simulation/entity.go:187-199 | rebuilds the manager from any snapshot; from a consistent one it is valid again, including what later creations return |
| `Columns.AssignIsUpdate` | pkg/simulation/component.go:191-208 | writing is a map update at the entity's index |
| `Columns.RemoveIsDeletion` | pkg/simulation/component.go:240-262 | swap-removal deletes exactly one key |
| `Columns.LookupIsMap` | pkg/simulation/component.go:211-220 | reading is map lookup |
| `Columns.Column.Set` | pkg/simulation/component.go:191-208 | map update; reports a structural change if and only if the index had no value |
| `Columns.Column.Get` | pkg/simulation/component.go:211-220 | map lookup |
| `Columns.Column.Has` | pkg/simulation/component.go:232-237 | map membership |
| `Columns.Column.Remove` | pkg/simulation/component.go:240-262 | map deletion; true if and only if the key was present |
| `Columns.Column.SetShard` | pkg/simulation/component.go:303-309 | never changes membership; panics if and only if the entity is absent |
| `Columns.Reload` | pkg/simulation/component.go:333-356 | restores contents with a sparse array sized by the largest index; a failed decode or a length mismatch changes nothing |
| `Columns.Column.RestoreJSON` | pkg/simulation/component.go:333-356 | succeeds if and only if the values decode to as many as there are entities; then the column holds exactly them |
| `Columns.ColumnRoundTrip` | pkg/simulation/component.go:323-356 | restoring a column's snapshot into any column always succeeds and reproduces values and dense order |
| `FiringOrder.LessTotal` | pkg/simulation/event.go:39-50 | events with different insertion numbers are ordered one way only |
| `FiringOrder.FirstInFirstOut` | pkg/simulation/event.go:39-50 | in firing order, equal time and priority come out in insertion order and only in that order |
| `FiringOrder.FiresBefore` | pkg/simulation/event.go:39-50 | in firing order one event comes before another if and only if it is earlier, or at the same time has the higher priority, or has the same time and priority and was inserted before |
| `FiringOrder.FiringOrderIs` | pkg/simulation/event.go:39-50 | a sequence is in firing order if and only if times never decrease, priorities never increase within a time, and insertion numbers increase within both |
| `FiringOrder.FiringOrderUnique` | pkg/simulation/event.go:245-251 | a collection of events has one firing order |
| `Heap.RootIsLeast` | pkg/simulation/event.go:217-224 | the root precedes everything in the heap |
| `Heap.Up` | pkg/simulation/event.go:77-88 | sift-up restores the heap order, permutes, and does not move an element that respects its parent |
| `Heap.Down` | pkg/simulation/event.go:227-234 | sift-down restores the heap order on a prefix, permutes it and leaves the rest |
| `EventQueues.NextIsFirst` | pkg/simulation/event.go:217-234 | the next event is the one with the least time, among those the greatest priority, among those the least insertion number |
| `EventQueues.EventQueue.Push` | pkg/simulation/event.go:77-88 | adds exactly the numbered event, after everything inserted before |
| `EventQueues.EventQueue.Peek` | pkg/simulation/event.go:217-224 | the unique next event: least time, then greatest priority, then least insertion number |
| `EventQueues.EventQueue.Pop` | pkg/simulation/event.go:227-234 | removes exactly the event with the least time, among those the greatest priority, among those the least insertion number; everything left fires later |
| `EventQueues.EventQueue.PeekAll` | pkg/simulation/event.go:245-251 | the pending events by time, then falling priority, then insertion; queue unchanged |
| `EventQueues.EventQueue.Drain` | pkg/simulation/event.go:227-251 | popping to the end yields the events by time, falling priority and insertion, hence what PeekAll returned |
| `EventQueues.EventQueue.Restore` | pkg/simulation/event.go:191-214 | re-pushing a heap array left to right rebuilds the identical array and counters |
| `EventQueues.RoundTrip` | pkg/simulation/event.go:164-214 | the snapshot of a restored queue is the original snapshot |
| `EventQueues.ApplyAll` | pkg/simulation/event.go:77-94 | any sequence of pushes and pops on the heap is a run of a plain multiset machine |
| `EventQueues.AbstractRunDeterministic` | pkg/simulation/event.go:39-50 | that machine is deterministic, so results do not depend on the arrangement of the heap array |
| `Worlds.World.RegisterComponent` | pkg/simulation/component.go:37-47 | registering a name twice changes nothing; a new name gets the next ID and an empty column |
| `Worlds.World.Invoke` | pkg/simulation/world.go:49-52 | every World call changes the observable state and replies as specified, and advances the revision by one exactly when it creates or destroys an entity or adds or removes a component |
| `WorldSpec.StepLaw` | pkg/simulation/executor.go:26-67 | a tick step leaves the clock and counts a tick exactly when it succeeds; an event is refused exactly when it lies before the clock, otherwise the clock is set to its time before the model sees it, so every question for the time is answered with it; what is pending afterwards is what was, without the event, and what the model scheduled; a step succeeds exactly when the model returns without an error |
| `WorldSpec.StepsLaw` | pkg/simulation/executor.go:26-67 | over any number of steps the clock never runs backwards; in tick mode it stands still and the tick counts the successful steps, in event mode the tick stands still |
| `Worlds.World.Step` | pkg/simulation/executor.go:26-67 | a tick step or an event step is the specified one, does to clock, tick and pending events what StepLaw says, and never moves the clock back; an unchanged revision means unchanged structure |
| `Worlds.World.Steps` | pkg/simulation/executor.go:26-67 | any number of steps, with the same guarantees |
| `WorldLaws.EntityCallLaw` | pkg/simulation/entity.go:73-143 | creation issues the next generation of the slot freed last, or of a new slot when none is free, as the last in the list; destruction succeeds exactly on a live identifier, fills its place with the last one and frees its slot |
| `WorldLaws.SlotReused` | pkg/simulation/entity.go:73-143 | destroying an entity and creating one reuses its slot under the next generation |
| `WorldLaws.ColumnCallLaw` | pkg/simulation/component.go:191-262 | on the columns as maps: setting is an update, a new member comes last; getting is a lookup; removing deletes one key and fills the gap with the last member; an unregistered component changes nothing |
| `WorldLaws.EventCallLaw` | pkg/simulation/event.go:77-94 | scheduling gives the event the next insertion number, and the next id if it has none, and keeps its other fields; peeking shows the first to fire; the clock and the tick are shown as they are |
| `WorldSpec.StepsAppend` | pkg/simulation/executor.go:26-67 | a run may be taken in two stretches |
| `Worlds.RestoreColumns` | pkg/simulation/component.go:151-172 | the columns are overwritten one by one up to the first that is not for a registered component or does not fit, and the error names it; it succeeds if and only if there is none |
| `WorldLaws.RestoreLeaves` | pkg/simulation/snapshot.go:149-184 | field by field what a restore past the first checks leaves: the entities recorded; every component as last recorded before the first that cannot be restored, otherwise as before; clock and events recorded exactly when all components could be restored |
| `Worlds.World.TakeSnapshot` | pkg/simulation/snapshot.go:107-143 | records the whole observable state and leaves the world alone |
| `Worlds.World.Restore` | pkg/simulation/snapshot.go:149-184 | on the fields: exactly when each refusal is the answer, in order schema version, engine version, model, seed and mode; a completed restore is of this version, model and seed and of a known mode; refusals change nothing; it succeeds if and only if they pass and every column fits, and then overwrites all state and advances the revision by one; one that fails at a column has replaced the entities and exactly the columns before it, and nothing else, so it keeps the revision |
| `Worlds.Sim.TakeSnapshot` | pkg/simulation/runtime.go:108-136 | refused exactly while running; otherwise records the world and the encoded configuration of the model |
| `Worlds.Sim.Restore` | pkg/simulation/runtime.go:141-158 | refused while running; otherwise the outcome for the world, then the configuration: replaced if and only if the world was restored and the recorded one decodes |
| `Worlds.TransferState` | pkg/simulation/runtime.go:108-158 | snapshotting one simulation and restoring into another of the same model, seed and components succeeds and makes configurations and worlds observably equal |
| `Worlds.RestoreAndContinue` | pkg/simulation/runtime.go:108-158 | main theorem: after the transfer any number of further steps of any model whose state lives in the World and its configuration, with any bound on the calls of a step computed from the whole state, gives both simulations the same replies and the states of the uninterrupted run |
| `Worlds.InterruptedRun` | pkg/simulation/runtime.go:108-158 | a run begun in one simulation and finished in another is one run |
| `SystemWorlds.FilledStore` | pkg/simulation/component.go:303-309 | a store with the cells of the columns, written back through the columns, is read from them again |
| `SystemWorlds.StoreDetermines` | pkg/simulation/component.go:303-309 | columns with the same members and the same store are the same columns |
| `SystemWorlds.TickOutcome` | pkg/simulation/executor.go:36-46 | a parallel tick of any well-behaved systems on a World, over the lists the scheduler computes from it, has exactly one outcome, the serial tick, and none exactly where that would add or remove a component |
| `SystemWorlds.TicksOutcomes` | pkg/simulation/executor.go:36-46 | so have any number of them, each with the lists of the state it starts in |
| `SystemWorlds.TicksHappen` | pkg/simulation/component.go:303-309 | systems that, on the cells of the state and whatever their values, write only cells there are can tick any number of times |
| `SystemWorlds.CounterQualifies` | examples/counter/counter.go:130-148 | CounterWorld's system, which writes without testing first, is one of them wherever every stream has an accumulator |
| `SystemWorlds.ContinueSystems` | pkg/simulation/runtime.go:108-158 | main theorem: parallel ticks, a snapshot restored into another simulation, and parallel ticks there end, for every well-behaved list of systems, any workers and any schedule, where all the ticks in the first one end and nowhere else; they do end when the systems write only cells there are |
| `Lifecycle.LifeInvKept` | pkg/simulation/runtime.go:245-281 | every critical section of loop, watcher and callers keeps the control invariant |
| `Lifecycle.InvAfter` | pkg/simulation/runtime.go:328-424 | every run of a session keeps the invariant on control and work |
| `Lifecycle.SessionEndsProperly` | pkg/simulation/runtime.go:328-363 | once loop and watcher have ended the state is Stopped, Completed or Failed; Failed exactly when an error was recorded; a sleeping loop means Paused |
| `Lifecycle.CompletedMeansDone` | pkg/simulation/runtime.go:300-321 | for every kind of limit, Completed means the limit was met or no event was left |
| `Lifecycle.ConfiguredRunCompletes` | pkg/simulation/runtime.go:300-321 | under the configured limit a bounded tick run completes after exactly MaxTicks steps, an unbounded one never, and a bounded event run leaves exactly the events not before MaxTime |
| `Lifecycle.ConfiguredRunBounded` | pkg/simulation/runtime.go:300-321 | no run goes beyond the configured limit, completed or not: at most MaxTicks steps, or only events before MaxTime |
| `Lifecycle.BooksBalance` | pkg/simulation/runtime.go:376-422 | over every run: the step count is the number of steps that advanced; in event mode what was pending or has been scheduled is handled, in the order of the steps, refused or still pending |
| `Lifecycle.SessionAfterStop` | pkg/simulation/runtime.go:269-281 | after a successful Stop at most one step begins and the session never ends Completed |
| `Lifecycle.SessionAfterPause` | pkg/simulation/runtime.go:245-265 | between a successful Pause and the next successful Resume at most one step begins |
| `Lifecycle.NeverStuck` | pkg/simulation/runtime.go:355-374 | the loop can always go on unless it sleeps in a paused session, and then cancellation lets the watcher wake it |
| `Lifecycle.TerminalRunsOut` | pkg/simulation/runtime.go:365-422 | once the state is final the loop takes at most nine more actions |
| `Lifecycle.TerminalStays` | pkg/simulation/runtime.go:335-351 | from a final state only Failed can still be entered |
| `Lifecycle.FailedIff` | pkg/simulation/runtime.go:335-407 | over every session: Failed only if the model panicked or a step erred and was classified while the context was not done; once the loop has ended the session is Failed with the error recorded if and only if that happened |
| `Lifecycle.StopIsNoFailure` | pkg/simulation/runtime.go:391-407 | from a state in which the model is not at fault yet, a cancellation or a Stop that found a cancel function rules Failed out, whatever error the steps return afterwards, unless the model panics |
| `Lifecycle.SessionDoneIff` | pkg/simulation/runtime.go:269-297 | the context is done if and only if it was cancelled at the start, has been cancelled since or stopped while the loop had installed its cancel function, or the loop has closed it |
| `Lifecycle.ResumeWakes` | pkg/simulation/runtime.go:256-265 | a Resume of a paused session sets it running and wakes its loop; nothing else wakes it but Stop and the watcher |
| `Lifecycle.PausedRunEnds` | pkg/simulation/runtime.go:245-265 | a session bounded by n steps that is paused and resumed at any moments but not stopped, cancelled or failed takes at most 4n + 6 loop actions and one for each pause; it is only ever stuck asleep in a pause, which a Resume ends; ended, it has made its n steps, or the events ran out; and it is Completed if and only if it was running at one of the two moments at which the loop takes its leave |
| `Lifecycle.PauseAtTheLimit` | pkg/simulation/runtime.go:376-383 | the input, for every n: a pause between the check of the limit and the loop's leave, and a Resume after the finalizer: all n steps are made and the session ends Stopped |
| `Lifecycle.BoundedRunCompletes` | pkg/simulation/runtime.go:328-424 | a session bounded by n steps that nobody pauses, stops, cancels or fails takes at most 4n + 6 loop actions, is never stuck before it has ended, and then is Completed after n steps, or with no event left |
| `Lifecycle.Simulation.Begin` | pkg/simulation/runtime.go:285-297 | refused exactly while running; where no earlier loop is left it starts a session in the specified initial state |
| `Lifecycle.Simulation.PauseRun` | pkg/simulation/runtime.go:245-253 | the critical section is the specified transition in every state and succeeds exactly from Running |
| `Lifecycle.Simulation.ResumeRun` | pkg/simulation/runtime.go:256-265 | the specified transition, which by ResumeWakes sets the session running and wakes the loop; succeeds exactly from Paused |
| `Lifecycle.Simulation.StopSession` | pkg/simulation/runtime.go:269-281 | the specified transition; succeeds exactly from Running or Paused |
| `Lifecycle.Simulation.Other` | pkg/simulation/runtime.go:245-363 | callers, cancellation and the watcher: the specified transition when its time has come, otherwise nothing |
| `Lifecycle.Simulation.LookAtState` | pkg/simulation/runtime.go:365-374 | the loop's look at the state: carry on, sleep or leave |
| `Lifecycle.Simulation.Leave` | pkg/simulation/runtime.go:376-419 | the critical sections that leave the loop at the limit, after a cancelled step, after an error and when nothing is left |
| `Lifecycle.Simulation.FinalizeRun` | pkg/simulation/runtime.go:335-351 | the finalizer records a run error or completes a running session |
| `Lifecycle.Simulation.LoopAct` | pkg/simulation/runtime.go:328-424 | every action of the run loop is the specified one, for which FailedIff says which failed step is a failure and which a stop |
| `Lifecycle.Simulation.Perform` | pkg/simulation/executor.go:26-67 | the result of a step is a possible one: in event mode it takes the earliest pending event, and finds nothing left exactly when there is none |
| `Lifecycle.Simulation.Run` | pkg/simulation/runtime.go:328-424 | in tick and in event mode the object's run loop, with any acts of the others in between and whatever the model makes of its steps, is a run of the transition system; undisturbed and bounded by n steps it has completed after 4n + 6 rounds, with n steps made or no event left |
| `JobProtocol.SafeKept` | internal/queue/queue.go:115-143 | every protocol action, crashes included, keeps claims exclusive and successes claimed |
| `JobProtocol.ExecutionsExclusive` | internal/queue/queue.go:115-143 | over every run two executions of one job never overlap and at most one succeeds |
| `JobProtocol.NoRunAfterSuccess` | internal/queue/queue.go:115-143 | after a success no copy of the job is executed again, at any later point |
| `JobProtocol.AttemptsBounded` | internal/queue/queue.go:153-170 | a copy enqueued at attempt 0 runs at most MaxAttempts + 1 times, and a dead-lettered one exactly that often |
| `JobProtocol.AttemptsReached` | internal/queue/queue.go:153-170 | the bound is reached, for every attempt, bound and number of workers: a run that ends with the job in the dead-letter queue after exactly MaxAttempts - attempt + 1 executions, at least one |
| `JobProtocol.CrashRedelivers` | internal/queue/queue.go:115-170 | the death of a worker: a delivery it had not acknowledged is queued once more as the same message, one it had acknowledged is not; exactly its own waiting retries are gone; claims, successes and dead letters stay |
| `JobProtocol.AttemptsCountRetries` | internal/queue/queue.go:153-170 | over every run, crashes and duplicates included, no message of a job has an attempt number above the one it was enqueued with and its retries |
| `JobProtocol.NothingLostAfter` | internal/queue/queue.go:115-170 | without crashes every accepted job has succeeded, is dead-lettered or is still under way |
| `JobProtocol.QuiescentMeansSettled` | internal/queue/queue.go:115-170 | without crashes, when nothing is under way every accepted job has succeeded or has a copy in the dead-letter queue |
| `JobProtocol.CrashLosesJob` | internal/queue/queue.go:115-170 | both ways occur: a reachable crash during execution and one during the backoff, without any claim, each lose the job |
| `JobProtocol.LostIff` | internal/queue/queue.go:115-170 | a job is lost, that is, no continuation without crashes ever settles it, exactly when it is unsettled and either no copy is left, or its claim is held by nobody and no worker is about to dead-letter it |
| `JobProtocol.CrashLosesIff` | internal/queue/queue.go:115-170 | the exact condition under which the death of a process loses an unsettled job: where the claim dies with it, that no other worker is about to dead-letter the job; otherwise that no copy exists elsewhere and none is redelivered |
| `JobProtocol.CrashWithOnlyCopy` | internal/queue/queue.go:115-170 | with all copies inside the dying process, the job survives exactly while its message is unacknowledged and its claim not held |
| `JobProtocol.ProcessingTerminates` | internal/queue/queue.go:115-170 | processing alone always comes to rest, within a bound computed from the retries left |
| `JobProtocol.RestIsQuiescent` | internal/queue/queue.go:115-170 | a system with a worker rests only when nothing is under way |
| `JobQueues.BackoffFor` | internal/queue/queue.go:173-179 | the loop computes base times 2^(attempt-1) modulo 2^64 as a signed number: the base itself up to attempt 1, the intended delay exactly while that is below 2^63, and zero from attempt 65 on |
| `JobQueues.BackoffExactIff` | internal/queue/queue.go:173-179 | the wrapped delay is the intended one if and only if attempt is at most 63 and the base below 2^(64 - attempt) |
| `JobQueues.BackoffVanishes` | internal/queue/queue.go:173-179 | from attempt 65 on there is no delay, whatever the base |
| `JobQueues.BackoffOverflows` | internal/queue/queue.go:173-179 | a base of one second gives a negative delay at attempt 35 |
| `JobQueues.Queue.Enqueue` | internal/queue/queue.go:82-97 | publishes one copy, replacing a non-positive attempt bound by 1 |
| `JobQueues.Queue.Consume` | internal/queue/queue.go:115-143 | one delivery is a run of the protocol: executes exactly when unclaimed; success keeps the claim; failure releases it and routes the job |
| `JobQueues.Queue.HandleFailure` | internal/queue/queue.go:153-170 | acknowledges, then retries after a delay or dead-letters |
| `EventWorlds.EventWorld.TakeNext` | pkg/simulation/executor.go:54-67 | takes the unique next event, refuses it exactly when it lies in the past, and handled times never decrease |
| `EventWorlds.EventWorld.Schedule` | pkg/simulation/schedule.go:10-31 | adds exactly one new event with the given kind, time, priority, source and payload |
| `EventWorlds.TicksDrop` | examples/queue/queueing.go:97-118 | a self-renewing event uses up a bounded number of renewals |
| `Queueing.WithDefaults` | examples/queue/queueing.go:26-40 | every setting is positive afterwards; positive ones are kept, the others get the documented default |
| `Queueing.Model.constructor` | examples/queue/queueing.go:81-94 | the initial state satisfies the invariant |
| `Queueing.Model.Dispatch` | examples/queue/queueing.go:121-141 | starts waiting customers in order, each with a completion half to one and a half mean service times from now; afterwards customers wait only while all servers are busy |
| `Queueing.Model.HandleArrival` | examples/queue/queueing.go:97-118 | keeps the invariant: arrived = served + waiting + busy, one pending completion per busy server and none per idle one; records the peak backlog; the next arrival is pending exactly when this one is before MaxTime, half to one and a half mean interarrival times later |
| `Queueing.Model.HandleDone` | examples/queue/queueing.go:97-118 | a completion frees its server, serves one customer and keeps the invariant |
| `Queueing.Model.Step` | pkg/simulation/executor.go:54-67 | no event is ever in the past and every step uses up work |
| `Queueing.Model.Run` | examples/queue/queueing.go:97-141 | every run drains within a bounded number of events with served = arrived, and the number of arrivals fits the mean interarrival time: the last is the first not before MaxTime |
| `DistributedSystem.WithDefaults` | examples/distributed-system/dsystem.go:31-51 | every setting is positive afterwards; positive ones are kept, the others get the documented default |
| `DistributedSystem.Model.constructor` | examples/distributed-system/dsystem.go:90-102 | the initial state satisfies the invariant |
| `DistributedSystem.Pick` | examples/distributed-system/dsystem.go:149-159 | finds a healthy server if and only if one exists, and then the first after the round-robin position |
| `DistributedSystem.Model.Route` | examples/distributed-system/dsystem.go:107-117 | a request loads the next healthy server, with a completion one processing time from now, or is dropped exactly when none is healthy |
| `DistributedSystem.Model.Break` | examples/distributed-system/dsystem.go:127-135 | a failure takes down the next healthy server, with its recovery one recovery time from now, exactly when one is healthy |
| `DistributedSystem.Model.HandleRequest` | examples/distributed-system/dsystem.go:107-120 | keeps load = pending completions, unhealthy = one pending recovery, and requests = processed + dropped + in flight; the next request is pending exactly while the clock is before MaxTime, one arrival interval later |
| `DistributedSystem.Model.HandleFail` | examples/distributed-system/dsystem.go:127-138 | a failure event keeps the same invariant; the next one is pending exactly while the clock is before MaxTime, one failure interval later |
| `DistributedSystem.Model.HandleDone` | examples/distributed-system/dsystem.go:121-126 | a completion unloads its server and counts one processed request |
| `DistributedSystem.Model.HandleRecover` | examples/distributed-system/dsystem.go:139-143 | a recovery makes its server healthy |
| `DistributedSystem.Model.Step` | pkg/simulation/executor.go:54-67 | no event is ever in the past and every step uses up work |
| `DistributedSystem.Model.Run` | examples/distributed-system/dsystem.go:105-146 | every run drains in boundedly many events; then all loads are 0, all servers healthy and requests = processed + dropped |
| `Traffic.MoveIsSafe` | examples/traffic/traffic.go:393-421 | a move onto a free cell that gives up the old one keeps vehicles apart and the occupancy map accurate |
| `Traffic.LeaderNotBlocked` | examples/traffic/traffic.go:393-421 | the vehicle nearest the exit never finds its next cell taken: only a red light can hold it |
| `Traffic.BuildOccupancy` | examples/traffic/traffic.go:349-357 | the occupancy map agrees with the positions on every guarded cell |
| `Traffic.Model.constructor` | examples/traffic/traffic.go:206-231 | the initial state satisfies the invariant, with vehicles queued before the entry |
| `Traffic.Model.DecideLights` | examples/traffic/traffic.go:308-319 | every light decides from its queue, which is then cleared |
| `Traffic.Model.BumpQueue` | examples/traffic/traffic.go:432-439 | counts one more vehicle at one node |
| `Traffic.Model.Advance` | examples/traffic/traffic.go:393-421 | one step keeps vehicles apart and the map accurate; a vehicle stays exactly when it is at the exit, its next cell is taken or its light is red |
| `Traffic.Model.Drive` | examples/traffic/traffic.go:360-367 | a vehicle covers exactly its speed in steps unless it finishes or is blocked on the way, and stays where it is exactly when it is held at its first step |
| `Traffic.Model.MoveOne` | examples/traffic/traffic.go:360-381 | the tick of one vehicle: leaves only when it reaches the exit within its speed, else drives, counts a wait when stuck, and leaves the distance to go unchanged exactly when it is held |
| `Traffic.Model.Move` | examples/traffic/traffic.go:333-389 | a tick in any order: no two vehicles share a guarded cell, positions stay within edges, completed + live is constant, waits are conserved, light queues equal the stuck vehicles, and a tick without progress means the leader faces a red light |
| `Traffic.Model.Tick` | examples/traffic/traffic.go:308-389 | lights then vehicles, with the same guarantees |
| `Traffic.Model.Run` | examples/traffic/traffic.go:308-389 | the invariant holds over every run, whatever the lights decide |
| `Traffic.RemTruncates` | examples/traffic/traffic.go:36-41 | the phase remainder is Go's: congruent, smaller than the cycle, with the sign of the dividend |
| `Traffic.FixedIsClock` | examples/traffic/traffic.go:30-41 | the fixed policy is a clock: after k ticks the light is green exactly when the phase k ticks on is among the first green ones of the cycle |
| `Traffic.AdaptiveGreenIff` | examples/traffic/traffic.go:43-70 | when the adaptive policy gives green: at the threshold, or after the last of MaxRedTicks red ticks with a vehicle waiting |
| `Traffic.AdaptiveForces` | examples/traffic/traffic.go:43-70 | below the threshold a waiting vehicle waits exactly until the MaxRedTicks-th red tick, and the light is green for one tick |
| `Traffic.Model.RunFixed` | examples/traffic/traffic.go:30-41 | under the fixed policy every vehicle completes, within (red + 1) ticks per step of road plus one red period |
| `Traffic.Model.RunAdaptive` | examples/traffic/traffic.go:43-70 | under the adaptive policy every vehicle completes whatever the threshold: none is stranded below it |
| `Traffic.EntryCellShared` | examples/traffic/traffic.go:398-399 | the entry cell is unguarded: on every road whose first edge has a cell two vehicles stand on it after one tick |
| `Traffic.NodeNeverBlocks` | examples/traffic/traffic.go:409-421 | the last step of an edge onto its node is never blocked |
| `Traffic.NodeHoldsAnother` | examples/traffic/traffic.go:349-357 | one more vehicle at a node is safe and leaves the occupancy map right, however many are there |
| `Traffic.GatherAtNode` | examples/traffic/traffic.go:333-421 | a run that brings any number of vehicles to one node: on every road of two edges or more k vehicles all stand at the end of the first edge under a fixed cycle with a long red |
| `Logistics.FullyAssigned` | examples/logistics/logistics.go:113-125 | if every order is assigned or every vehicle busy, the assignments number min(vehicles, orders) |
| `Logistics.ServedOne` | examples/logistics/logistics.go:128-148 | one delivery takes one unit off one order and removes it when none is left |
| `Logistics.Model.constructor` | examples/logistics/logistics.go:83-103 | the initial state satisfies the invariant |
| `Logistics.Model.FreeVehicle` | examples/logistics/logistics.go:150-160 | finds the first unassigned vehicle, if and only if there is one |
| `Logistics.Model.AssignmentsReverse` | examples/logistics/logistics.go:162-169 | true if and only if some vehicle carries the order |
| `Logistics.Model.Assign` | examples/logistics/logistics.go:113-125 | keeps assignment injective with load 1 exactly on assigned vehicles, keeps existing assignments, and assigns min(vehicles, live orders) |
| `Logistics.Model.Deliver` | examples/logistics/logistics.go:128-148 | for every iteration order the assigned orders, and no others, lose one unit; finished ones leave with their assignment; delivered + live is constant |
| `Logistics.Model.Step` | examples/logistics/logistics.go:106-110 | a tick cuts the outstanding units by min(vehicles, live orders) |
| `Logistics.Model.Run` | examples/logistics/logistics.go:106-148 | all orders are delivered, within as many ticks as there are units |
| `Counter.CounterWellBehaved` | examples/counter/counter.go:116-148 | the counter system keeps to its declared components of the entity at hand |
| `Counter.CounterSteps` | examples/counter/counter.go:130-148 | the update of an entity adds one bounded draw modulo 2^64 and stores the advanced stream; an entity without a stream is passed over |
| `Counter.TickAdds` | examples/counter/counter.go:130-148 | one tick adds to an entity's accumulator, modulo 2^64, the next bounded draw of its stream, which is below IncrementMax, or below 1000 when that is unset, and stores the advanced stream |
| `Counter.EntitiesRun` | examples/counter/counter.go:130-148 | a serial tick advances every listed entity with a stream by one draw and touches nothing else |
| `Counter.CounterOutcome` | examples/counter/counter.go:116-148 | the outcome of any number of parallel ticks, on any workers and schedule, is the serial one, with every counter that many draws along its own stream |
| `CounterWorlds.TargetsAreFresh` | examples/counter/counter.go:122-128 | the entities a tick goes through are those the scheduler lists for the system |
| `CounterWorlds.TickServes` | examples/counter/counter.go:130-148 | a tick written as World calls updates exactly these entities, in that order, and does not fail |
| `CounterWorlds.StepIsRun` | examples/counter/counter.go:130-148 | one step of the model on a World is the system over the scheduler's list on the store of its two columns |
| `CounterWorlds.ParallelIsSteps` | examples/counter/counter.go:130-148 | the outcomes of n parallel ticks on a world's columns are exactly the columns n steps of the model leave |
| `CounterWorlds.StepsGo` | examples/counter/counter.go:130-148 | n steps take every counter n draws along its stream, and change neither entities nor members |
| `CounterWorlds.Initialize` | examples/counter/counter.go:60-72 | registers both components and creates n entities with zero accumulators and their own streams |
| `CounterWorlds.StartsDiffer` | examples/counter/counter.go:64-69 | no two streams start in the same state |
| `CounterWorlds.CounterFromSeed` | examples/counter/counter.go:60-148 | after any k parallel ticks from the initial state the j-th counter is the sum of k draws of stream j + 1 |
| `CounterWorlds.CounterContinues` | examples/counter/counter.go:85-148 | ticks, a snapshot restored into another counter world, and ticks there: every counter is that many draws along its stream, and this is the only outcome of the parallel ticks before and after, for any worker counts and whichever IDs the two worlds gave the components |

## Left out

- HTTP API, command line, authentication, rate limiting, tracing and metrics: library wrappers around the engine.
- PostgreSQL store, migrations and the run manager: persistence around the engine.
- RabbitMQ and Redis: the broker is a list of messages and the claim store a set of keys that never fails or expires.
- JSON bytes, the SHA-256 checksum, payload envelopes and resources: a codec with an inverse stands for serialisation, and payloads are strings.
- Tags, the model registry, Economy and Ecosystem: they would only add easier members.
- `rng.Derive` (string hashing): independence of streams is not a provable claim. Float64 draws are not modelled either; delays range over an interval of reals.
- Floating-point time: it is a real number, so rounding, NaN and infinities are out of scope.
- Counters wider than any run: the 64-bit event, insertion and revision counters are unbounded here.
- Worlds.RestoreColumns: requires distinct indices in each column snapshot, which every snapshot taken from a world has; the code also accepts others, of which the last entry for an index wins.
- Worlds.World.Restore: requires a sound snapshot, as every snapshot taken from a world is. Tags, resources and the checksum, and the ways in which they can fail a restore, are not modelled.
- Worlds.World.TakeSnapshot: does not record tags, resources and the checksum; payloads are strings, so encoding one cannot fail.
- Worlds.TransferState: does not carry tags and resources over, and covers models that record their configuration.
- Worlds.World.Step: covers the tick and the event executor. The executor for lists of systems is modelled by Scheduler on a store and by SystemWorlds on a World.
- Worlds.Sim.TakeSnapshot: covers models that have a configuration to record, and no failing encoder; a model without one takes no part in this half of the code.
- Worlds.Sim.Restore: a model without a configuration is not modelled, nor tags and resources; what a snapshot without a configuration does is stated.
- Worlds.RestoreAndContinue: a step makes finitely many World calls, with a bound the model computes from the state it starts in; a step that reaches its bound is reported as cut off.
- SystemWorlds.ContinueSystems: a tick after which a component has been added or removed has no outcome here. In the code the first write to an absent cell inside a shard is a panic; one that is undone before the tick ends is not told apart. The two worlds registered the components in the same order; CounterWorlds.CounterContinues allows different orders.
- Rng.Mix64Bijective: the shifts and multipliers are those of the code; no published output word of the generator is computed from them.
- Lifecycle.Simulation.Begin: a session begun while an earlier loop or watcher is still there, as after a Pause, is not followed: it would have two loops. The public Step during a session and a panicking observer are not modelled either.
- Lifecycle.CompletedMeansDone: promises nothing about a custom stop predicate, whose decision is arbitrary.
- EntityManagers.EntityManager.Create: requires room in the 32-bit counters; the World replies Exhausted where the code would wrap around.
- Scheduler.TickIsSerial: covers error-free ticks, in which a shard write to an absent cell, a panic in the code, inserts it, and entity lists without repeated indices, which FreshIsDistinct gives when column members are live. The body for an entity makes a number of accesses bounded per system and entity, however it chooses them.
- Shards.Partition: an empty list with several workers would divide by zero in the code; its caller never passes one, and the precondition excludes it.
- Columns.Column.Get: the per-column locks are not modelled; each operation is atomic.
- Columns.Reload: promises a mirrored sparse array only for entity lists without repeated indices; for others, as in the code, the last one wins.
- EventQueues.EventQueue.PeekAll: sorts by insertion where the code calls the library sort; by FiringOrderUnique the result is the same.
- Traffic.Model.Move: processes vehicles in an arbitrary order, which includes the sorted order of the code; the effect of the sort on fairness is not stated.
- Traffic.Model.constructor: excludes edges of negative length, which the configuration accepts and on which a vehicle never reaches the end.
- Logistics.Model.Assign: visits orders in an arbitrary order, which includes the column order of the code. Warehouses and inventories take no part in dispatch and are not modelled.
- CounterWorlds.CounterContinues: requires that members of the two columns are live and that a stream comes with an accumulator, as Initialize makes them; writing an absent accumulator is a panic in the code.
- CounterWorlds.Initialize: requires at most 2^31 - 1 entities, the room of the sparse index.
- Snapshot-and-continue for the other examples: they keep queues, streams or counters outside the World, so the promise does not cover them.
- Goroutine fairness and wall-clock time.
