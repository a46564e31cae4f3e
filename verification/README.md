# Docker sandbox broker: model and proofs

The broker builds images, keeps an inventory of the images it acquired, collects unused ones when the
disk runs short, and runs sandboxes in containers. This project models its three stateful parts in
Dafny and proves what they keep under every interleaving.

**Image cache and runtime** (`CacheProtocol` and the modules over it). Docker, the cache, the inventory
file and any number of threads form one state machine. A thread that builds an image, creates a sandbox or
deletes one has a program counter that says which call comes next. The cache lock is held over many
steps by a collection, by the reuse check and by every save, so the Docker calls that other threads
make without it can fall anywhere inside. A crash keeps Docker and the file only. `CacheGates`,
`CacheIdentity`, `CacheProtection` and `CacheInvariant` hold the invariants, `CacheTheorems`,
`CacheFile`, `CacheHandoff` and `CacheProgress` what they mean for whole runs; `CacheRepull` and
`CacheReread` are two runs that show where they end. `CacheKey` covers the derivation of tags, down to
the bytes that are hashed.

**The cache and the runtime as objects** (`ImageCache`, `DockerRuntime`). The same operations written
as the source writes them, on fields updated in place, with the collection loop and the retries.
`CollectionPass` and `Inventory` are their specification. `CacheRefinement` proves that the object's
methods, a whole collection included, take steps of the machine, and `CallRefinement` that whole calls
of `build_image`, `_ensure_image` and `create` do.

**Build executor** (`Semaphore`, `BuildQueue`, `BuildQueueProofs`, `BuildExecutor`). Admission, start,
cancellation, completion and shutdown, with the semaphore as CPython 3.12 keeps it: a waiter can have
been granted a permit, or been cancelled, or both, before its coroutine runs again. `Executor` is the
object; every method is proved to take one step of the machine.

**Sandbox service** (`Sandboxes`, `SandboxProofs`, `BrokerService`). Creations, deletions and sweeps
as one machine, and the service as an object with the sweep's loop.

## Steps and their source

| step | lines of `src/docker_sandbox_broker/` |
|---|---|
| `Gating` Register, Acquire, Interrupt, Release, Leave | image_cache.py 57-72 |
| `Building` Look, Decide | image_cache.py 74-88; runtime.py 106-112 |
| `Building` BuildOk, BuildFail, RecordBuilt | runtime.py 117-148 |
| `Gc` GcBegin, GcList | image_cache.py 126-146, 196-206 |
| `Gc` GcStop, GcSkip, GcInspect, GcDelete, GcDrop, GcFlush | image_cache.py 148-194, 208-217 |
| `Creating` FindImage, PullOk, PullFail, RecordPulled, Touch | runtime.py 319-339; image_cache.py 90-98, 115-124 |
| `Creating` Reserve, CreateOk, CreateFail, StartOk, StartFail, EndReserve | runtime.py 163-173; image_cache.py 100-113 |
| `Removing` | runtime.py 291-317 |
| `Flush` (the end of a save), `Crash` with the load after it | image_cache.py 223-247 |
| executor `Arrive`, `Resume`, `Cancel` | build_executor.py 38-83 |
| executor `Finish`, `Close`, `Shut` | build_executor.py 85-111, 135-138 |
| sandbox creation steps | service.py 50-66; runtime.py 151-173 |
| sandbox deletion and sweep steps | service.py 80-107, 139-147; runtime.py 292-317 |

## Hypotheses

- Nobody but the broker retags or removes images, and a pull of a content tag (one the broker builds
  under) fails. The first start finds no image under a content tag; later starts are crash steps.
- One Docker call is one step. A call that fails to build, pull or create leaves Docker unchanged; one
  that fails to start or to remove a container leaves the container. Container ids and sandbox ids are
  not used twice.
- A save does not fail; it is a change in memory followed by one replacement of the file. A crash
  may fall between the two. A start may be unable to read the file; it then leaves the file alone.
- The clock does not go back.
- The hash is a parameter; where tags of different requests matter it is assumed injective.
- Where a container is said to be created under its image's reservation, the tag named in the request
  still stood for the reserved image when Docker created it.

## What does not hold

**A pull can move a reference between its inspection and its removal.** Pulls of one reference are not
serialized. Between the collector's look at a reference and its removal, another thread may pull the
reference again and move it to an image in use. `CacheRepull.RemovesWhatIsInUse` is such a run;
`CacheTheorems.CollectionSparesLiveUse` says that it takes such a pull, and that content tags are never
affected.

**A file that is unreadable for a while can bring back an old record.** A process that cannot read the
file starts without records and leaves the file as it is. If it builds a tag the file has another image
for, dies before it saves anything, and the next process can read the file, the old record meets the
new image, and builds of that tag are refused. `CacheReread.RaisesMismatch` is such a run.
`CacheFile.LoadAgreesUnlessTorn` says that this is exactly when a load disagrees with Docker, and
`CacheFile.TagIdentity` and `CacheFile.NeverMismatched` hold in every run without such a load.

**A creation can leave its container behind.** The deadline is computed after the container runs, and
raises when it would lie past the latest datetime; nothing bounds `ttl_seconds`.
`SandboxProofs.HugeTtlLeaks` is such a request. A cleanup that fails leaves a container too.
`SandboxProofs.LeaksExactlyWhenAbandoned` says that there is no third way, and
`SandboxProofs.NoContainerLeaks` what a caller must see to.

**Two selectors can have one hash.** The header that is hashed is ASCII with escapes, so a pair of
surrogate characters and the character it encodes give the same bytes. `CacheKey.SurrogatePairCollides`
shows it. `CacheKey.EqualRequests` says that requests are told apart as long as no selector holds such
a pair, which covers all strings of Unicode scalar values, and `CacheKey.PairsCollide` that no larger
class of selectors will do. Such a selector takes a direct call of `build_image`: the query parameter of
`src/docker_sandbox_broker/api.py:104` is decoded from UTF-8 and cannot hold one.

## Model

| member | source | states |
|---|---|---|
| CacheTheorems.OneBuildPerTag | src/docker_sandbox_broker/runtime.py:106-131 | Over any run, with crashes and restarts: if a build of a tag succeeds and later another does, the collector removed the tag from Docker in between |
| CacheFile.TagIdentity | src/docker_sandbox_broker/image_cache.py:74-98 | In every state, crash points included, a content tag in Docker carries the broker's three labels, with the key read off the tag; unless an earlier start tore the file, it has the image id that memory records for it, and the one the file records exactly if it was not built anew while the file was unread |
| CacheFile.NeverMismatched | src/docker_sandbox_broker/image_cache.py:83-86 | Unless an earlier start tore the file, whenever the reuse check has found an image it carries the three labels and is the one on record: the error is not raised |
| CacheFile.ReusesOnlyItsOwn | src/docker_sandbox_broker/image_cache.py:74-88 | In any run, the reuse check sends a missing tag on to be built, its record forgotten; records an image that carries the three labels and is the one on record, if there is one; and ends the call on any other |
| CacheFile.LoadAgreesUnlessTorn | src/docker_sandbox_broker/image_cache.py:223-231 | A start that reads the file finds it in agreement with Docker on all content tags if and only if it does not tear it: no tag was built, since the last save, as an image the file does not have for it |
| CacheFile.DraftsTakeAnUnreadFile | src/docker_sandbox_broker/image_cache.py:223-231 | Such a build takes a process that could not read the file and has saved nothing |
| CacheReread.RaisesMismatch | src/docker_sandbox_broker/image_cache.py:74-86 | A reachable state in which the reuse check has found the tag's own image and memory records another: the error is raised |
| CacheTheorems.GatesExclude | src/docker_sandbox_broker/image_cache.py:57-72 | At most one thread is inside the gate of a tag; the stored count is the number of threads between entry and exit; all hold the one stored gate; an entry exists exactly while it has users |
| CacheTheorems.ReservationsCount | src/docker_sandbox_broker/image_cache.py:100-113 | An image has an entry exactly while some thread reserves it, with the number of those threads as its count |
| CacheTheorems.CollectionSparesLiveUse | src/docker_sandbox_broker/image_cache.py:168-206 | A reference is removed only when its record is past the minimum age, it has no gate, and the recorded image is neither reserved nor used by a container that the collection has listed or that was created under its image's reservation; it takes a reference to an image in use if and only if the reference was pulled again since its inspection, to an image in use, and never for a content tag |
| CacheTheorems.PulledSinceInspection | src/docker_sandbox_broker/image_cache.py:173-194 | The count kept with the inspected record grows exactly when the reference is pulled between inspection and removal |
| CacheRepull.RemovesWhatIsInUse | src/docker_sandbox_broker/image_cache.py:173-194 | A reachable state in which the collector removes a reference while it stands for the image that a thread has reserved and is about to create a container from |
| CacheTheorems.OnlyAcquiredRecorded | src/docker_sandbox_broker/runtime.py:319-339 | Every record, in memory and file, has an earlier pull, build or adoption of that image under that reference; what was merely found is never recorded |
| CacheTheorems.OnlyAcquiredCollected | src/docker_sandbox_broker/image_cache.py:168-194 | Every removal is of a reference acquired earlier in the run, with the recorded image |
| CacheFile.SavedWhenUnlocked | src/docker_sandbox_broker/image_cache.py:90-98 | Whenever the lock is free the file equals memory; only a process that could not read the file and has saved nothing has no records instead |
| CacheFile.FileIsOneInventory | src/docker_sandbox_broker/image_cache.py:233-247 | In every state the file is a complete inventory that memory held; unless the file is unread, with at most one change to memory since, by an operation still holding the lock |
| CacheHandoff.UseProtects | src/docker_sandbox_broker/image_cache.py:168-172 | From a completed use of a content tag, the tag stands for the same image throughout the minimum age, and no record of it in memory or file is older than the use, crashes and emergency collections included |
| CacheHandoff.RecordedBuildIsAUse | src/docker_sandbox_broker/runtime.py:131 | A recorded build is such a use, of the instant it was recorded, once it is saved |
| CacheHandoff.ReservationProtects | src/docker_sandbox_broker/runtime.py:164-166 | A thread that reserved the image its tag stands for finds the tag unchanged when it creates the container |
| CacheHandoff.ContainerProtects | src/docker_sandbox_broker/image_cache.py:196-206 | A container created under its image's reservation keeps its tag while it exists |
| CacheHandoff.GapFreeHandoff | src/docker_sandbox_broker/runtime.py:151-173 | From a completed use to the end of the container, the tag stands for one image in every state, if touch and reservation each follow within the minimum age |
| CacheHandoff.GateProtects | src/docker_sandbox_broker/runtime.py:106-131 | From a build to the end of its save, the gate keeps the tag at the image built, and the save makes it a completed use |
| CacheHandoff.FromBuildToContainer | src/docker_sandbox_broker/runtime.py:106-173 | The whole chain: from the build to the end of the container, the tag stands for the image built in every state |
| CacheInvariant.StepKeepsInv | src/docker_sandbox_broker/image_cache.py:57-206 | Every step of every thread, a crash and the clock keep the whole invariant |
| CacheProgress.HolderCanMove | src/docker_sandbox_broker/image_cache.py:126-135 | The holder of the cache lock always has a next step |
| CacheProgress.NoDeadlock | src/docker_sandbox_broker/image_cache.py:57-72 | In every reachable state with a thread at work, some thread can go on |
| CacheProgress.StepLowersRank | src/docker_sandbox_broker/runtime.py:93-131 | Each step of a thread strictly lowers a well-founded rank of it, retries and collections included |
| CacheProgress.OthersKeepRank | src/docker_sandbox_broker/runtime.py:93-131 | No other step changes that rank, so every call ends after finitely many of its own steps |
| CacheGates.TableJoins | src/docker_sandbox_broker/image_cache.py:60-62 | Entry on an existing gate keeps counts, gate identity and exclusion |
| CacheGates.TableOpens | src/docker_sandbox_broker/image_cache.py:60-62 | Entry that makes a gate keeps them too, the new gate differing from all others |
| CacheGates.TableLeaves | src/docker_sandbox_broker/image_cache.py:66-72 | Exit keeps them, the entry going with its last user |
| CacheGates.CountsTake | src/docker_sandbox_broker/image_cache.py:103-104 | Reserving keeps each count equal to its number of reservers |
| CacheGates.CountsDrop | src/docker_sandbox_broker/image_cache.py:107-113 | So does releasing, the entry going with the last |
| CacheKey.DecodedPreimage | src/docker_sandbox_broker/runtime.py:95-97 | A reader recovers the Dockerfile selector, as UTF-16, and the context from the hashed bytes |
| CacheKey.EqualPreimages | src/docker_sandbox_broker/runtime.py:95-97 | Two requests hash the same bytes if and only if their selectors agree in UTF-16 and their contexts are equal |
| CacheKey.EqualRequests | src/docker_sandbox_broker/runtime.py:95-97 | Among selectors without a surrogate pair, equal hashed bytes mean equal requests |
| CacheKey.PairsCollide | src/docker_sandbox_broker/runtime.py:95-97 | Every other selector has the hashed bytes of exactly such a one, its joined form |
| CacheKey.FromUtf16Inverts | src/docker_sandbox_broker/runtime.py:95 | UTF-16 determines a string if and only if no high surrogate is followed by a low one in it |
| CacheKey.SurrogatePairCollides | src/docker_sandbox_broker/runtime.py:95-97 | Two different selectors with the same hashed bytes |
| CacheKey.BuiltLabelsAreKeyLabels | src/docker_sandbox_broker/runtime.py:99-104 | Splitting the tag at its last colon gives the key back, for any broker id, so a build's labels are those the reuse check asks for |
| CacheKey.EqualTags | src/docker_sandbox_broker/runtime.py:95-99 | With an injective hash, equal tags mean equal requests, for selectors without a surrogate pair |
| CacheProtocol.OwnLabels | src/docker_sandbox_broker/image_cache.py:83-84 | An image has the labels asked for if and only if it carries the broker's three labels with the values of the build |
| Inventory.SortedByUseIsStableSort | src/docker_sandbox_broker/image_cache.py:156 | The visiting order is by last use, and for each instant holds exactly the records of that instant in dictionary order |
| Inventory.VisitsEachRecordOnce | src/docker_sandbox_broker/image_cache.py:156 | It visits every record of the inventory once, and nothing else |
| Inventory.LoadAfterSave | src/docker_sandbox_broker/image_cache.py:223-247 | Loading what was saved gives the same records in the same order |
| Inventory.LoadedKeepsTheLast | src/docker_sandbox_broker/image_cache.py:231 | From any file, loading keeps the last record of each reference |
| CollectionPass.RemovesShortestPrefix | src/docker_sandbox_broker/image_cache.py:148-166 | What a collection removes is a prefix of the eligible references, oldest use first; it leaves the target free, with one gone in an emergency, or takes all there is; no shorter prefix does |
| CollectionPass.ShortestPrefixIsRemoved | src/docker_sandbox_broker/image_cache.py:148-166 | These conditions determine what is removed |
| CollectionPass.EligibleMeans | src/docker_sandbox_broker/image_cache.py:168-194 | A reference is eligible if and only if its record has no gate, is past the minimum age, can be inspected, is in Docker as recorded, is of no active image and can be removed |
| CollectionPass.GoneMeans | src/docker_sandbox_broker/image_cache.py:168-194 | A record is forgotten if and only if its reference is removed or, seen to be ungated and old enough, is not in Docker as recorded |
| CollectionPass.FreeIsTheLastReading | src/docker_sandbox_broker/image_cache.py:160-165 | The free bytes that a collection goes by are what the last successful reading gave |
| CollectionPass.OldestGoFirst | src/docker_sandbox_broker/image_cache.py:156-162 | No eligible record is kept while a more recently used one is removed |
| CollectionPass.RemovesSomething | src/docker_sandbox_broker/config.py:43-47 | With a target no lower than the threshold, and in an emergency, a collection removes something if anything is eligible |
| ImageCache.Cache.constructor | src/docker_sandbox_broker/image_cache.py:36-55 | The cache starts with what the file holds, or empty if it is missing or unreadable |
| ImageCache.Cache.Enter | src/docker_sandbox_broker/image_cache.py:60-62 | The gate returned is the stored one or a fresh one, with one more user; nothing else changes |
| ImageCache.Cache.Leave | src/docker_sandbox_broker/image_cache.py:66-72 | One user less; the entry goes with the last |
| ImageCache.Cache.ReuseBuilt | src/docker_sandbox_broker/image_cache.py:74-88 | The four outcomes, each with its exact condition and effect; a restart would load the new inventory |
| ImageCache.Cache.Record | src/docker_sandbox_broker/image_cache.py:90-98 | The record is stored and saved; a restart would load it |
| ImageCache.Cache.Reserve | src/docker_sandbox_broker/image_cache.py:103-104 | One reservation more on the image |
| ImageCache.Cache.Unreserve | src/docker_sandbox_broker/image_cache.py:107-113 | One less; the entry goes with the last |
| ImageCache.Cache.Touch | src/docker_sandbox_broker/image_cache.py:115-124 | A missing record is left missing, one of another image is dropped, one of this image keeps its place with a new last use |
| ImageCache.Cache.ActiveImages | src/docker_sandbox_broker/image_cache.py:196-206 | Exactly the images of containers and the reserved ones |
| ImageCache.Cache.RemoveIfEligible | src/docker_sandbox_broker/image_cache.py:168-194 | The reference is removed exactly if it has no gate, is past the minimum age, can be inspected, is in Docker as recorded, is of no active image and can be removed; its record goes then, and also if Docker does not have it as recorded; the file follows |
| ImageCache.Cache.VisitRecords | src/docker_sandbox_broker/image_cache.py:154-166 | The loop removes exactly the eligible references among the records it visits, and stops at the first point where enough is removed |
| ImageCache.Cache.PrepareCollection | src/docker_sandbox_broker/image_cache.py:137-146 | A collection takes place exactly with records, a reading, a shortage of space or an emergency, and a list of containers; it must spare exactly the images of containers and the reserved ones |
| ImageCache.Cache.CollectIfNeeded | src/docker_sandbox_broker/image_cache.py:126-166 | The collection goes by exactly the ids in containers and reservations: whatever it removes was recorded, past the minimum age, in Docker as recorded, and had its id in neither; otherwise the shortest sufficient prefix, and a restart would load the result |
| ImageCache.Cache.RemovedMeans | src/docker_sandbox_broker/image_cache.py:168-194 | Every removed reference was recorded, past the minimum age, in Docker as recorded, and neither gated nor active |
| ImageCache.Cache.KeptMeans | src/docker_sandbox_broker/image_cache.py:148-172 | A record that nothing speaks for stays only if the target is free without it, with something gone in an emergency, and only if nothing used later goes |
| ImageCache.Cache.RestMeans | src/docker_sandbox_broker/image_cache.py:173-194 | Docker loses the removed tags and no others, the inventory those and only such records as Docker does not have, and what stays is as it was |
| ImageCache.VisitsOrderTheRecords | src/docker_sandbox_broker/image_cache.py:156 | The object's visiting order is one that the protocol's collector can take |
| CacheRefinement.CollectionTakesSteps | src/docker_sandbox_broker/image_cache.py:126-206 | What the object's collection does, going by the ids in containers and reservations, under any readings and failures, is a run of the protocol by one thread that ends with the same tags, records and file |
| CacheRefinement.ReuseTakesSteps | src/docker_sandbox_broker/image_cache.py:74-88 | So is its reuse check, each outcome leading to the right next call |
| CacheRefinement.TouchTakesSteps | src/docker_sandbox_broker/image_cache.py:115-124 | So is its touch, in all three cases |
| CacheRefinement.RecordTakesSteps | src/docker_sandbox_broker/runtime.py:131 | So is its recording of a build |
| CacheRefinement.RecordPullTakesSteps | src/docker_sandbox_broker/runtime.py:336 | So is its recording of a pull |
| CacheRefinement.EnterTakesAStep | src/docker_sandbox_broker/image_cache.py:60-62 | Its entry to a gate is one step |
| CacheRefinement.LeaveTakesAStep | src/docker_sandbox_broker/image_cache.py:66-72 | Its exit is one step |
| CacheRefinement.ReserveTakesAStep | src/docker_sandbox_broker/image_cache.py:103-104 | Its reservation is one step |
| CacheRefinement.UnreserveTakesAStep | src/docker_sandbox_broker/image_cache.py:107-113 | Its release is one step |
| CallRefinement.BuildImageTakesSteps | src/docker_sandbox_broker/runtime.py:93-131 | A whole call of build_image, alone in its gate, is a run of the protocol by one thread, from entry to exit: reuse check, both collections, both attempts, record and save; it ends with the object's tags, records and file, and with gates, holders, reservations and containers as they were |
| CallRefinement.EnsureImageTakesSteps | src/docker_sandbox_broker/runtime.py:319-339 | So is a whole call of _ensure_image, found, pulled at the first or second attempt, or failed; the thread goes on to reserve the id returned |
| CallRefinement.CreateTakesSteps | src/docker_sandbox_broker/runtime.py:151-173 | So is the rest of create, from the reservation to its release, with the container left exactly as the object leaves it |
| DockerRuntime.Runtime.ObtainWithRetry | src/docker_sandbox_broker/runtime.py:117-131 | A collection comes before the first attempt; a forced one and the only other attempt follow if and only if the first ran out of space; the image made, by either, is put on the stock that the collections left |
| DockerRuntime.Runtime.BuildAndRecord | src/docker_sandbox_broker/runtime.py:117-131 | The same collections and attempts; success leaves the tag at the image made, recorded and saved, failure leaves tag and record as they were |
| DockerRuntime.Runtime.BuildGated | src/docker_sandbox_broker/runtime.py:107-115 | A missing tag is built after the same collections, by the first attempt or, if it ran out of space, the second; one in Docker is reused exactly if it carries the three labels and is the image on record; a mismatch leaves everything |
| DockerRuntime.Runtime.BuildImage | src/docker_sandbox_broker/runtime.py:93-115 | The same with the tag gated, the labels written out, and on every way out the gates as they were |
| DockerRuntime.Runtime.EnsureImage | src/docker_sandbox_broker/runtime.py:319-339 | The id returned is what the reference stands for; a missing one is pulled after the same collections and recorded; a found one is touched, never recorded |
| DockerRuntime.Runtime.CreateContainer | src/docker_sandbox_broker/runtime.py:163-173 | A container is left exactly if it was made and either started or could not be removed; on every way out the reservations are as they were |
| Semaphore.WakeAllConserves | src/docker_sandbox_broker/build_executor.py:56 | Waking loses no permit, keeps the queue and its order, and leaves no free permit while somebody waits |
| Semaphore.ReleaseConserves | src/docker_sandbox_broker/build_executor.py:88 | A release adds one permit: it goes to the first waiter that still waits, and is free if there is none |
| Semaphore.LeavingConserves | src/docker_sandbox_broker/build_executor.py:55-61 | A waiter that resumes takes its permit along, or returns it if it was cancelled after the grant |
| Semaphore.CancelledConserves | src/docker_sandbox_broker/build_executor.py:55-61 | Cancelling a waiter moves no permit and keeps its place until it runs |
| BuildQueue.AdmissionKeepsLoad | src/docker_sandbox_broker/build_executor.py:48-53 | Admission keeps the counters equal to the maps |
| BuildQueue.StartKeepsLoad | src/docker_sandbox_broker/build_executor.py:62-65 | So does a start |
| BuildQueue.EndKeepsLoad | src/docker_sandbox_broker/build_executor.py:85-96 | So does the end of a request, of either kind |
| BuildQueueProofs.AppendKeepsOrder | src/docker_sandbox_broker/build_executor.py:56 | A newcomer that has to wait goes behind everybody, and someone will pass a free permit on |
| BuildQueueProofs.StepKeepsInv | src/docker_sandbox_broker/build_executor.py:38-111 | Every step of the executor keeps its accounts |
| BuildQueueProofs.AccountsAgree | src/docker_sandbox_broker/build_executor.py:38-111 | In every reachable state pending, active and bytes are those of the two ticket maps, permits free, granted and in use add up to the workers, the idle event is set exactly when nothing is pending, and all bounds hold |
| BuildQueueProofs.OutcomesAreConserved | src/docker_sandbox_broker/build_executor.py:48-111 | Admitted requests are the pending ones and those with an outcome, never both, and the counters count the outcomes |
| BuildQueueProofs.OutcomesAreFinal | src/docker_sandbox_broker/build_executor.py:48-111 | A request gets one outcome and keeps it |
| BuildQueueProofs.ArrivalIsAdmittedExactly | src/docker_sandbox_broker/build_executor.py:38-54 | In any run, an arrival gets a ticket if and only if it fits the memory budget, the executor is open, and places and bytes are left |
| BuildQueueProofs.CancellingKeepsCapacity | src/docker_sandbox_broker/build_executor.py:82-83 | Cancelling the waiter of a started build changes nothing; that of a queued one, no counter and no permit |
| BuildQueueProofs.CancelledNeverRuns | src/docker_sandbox_broker/build_executor.py:55-61 | A request cancelled while queued never runs: it stays a cancelled waiter until it ends with the outcome cancelled |
| BuildQueueProofs.ProgressLowers | src/docker_sandbox_broker/build_executor.py:42-96 | Every start, finish and end of a cancelled request strictly lowers twice the queued plus the running; after closing nothing raises it |
| BuildQueueProofs.PendingProgresses | src/docker_sandbox_broker/build_executor.py:55-81 | With anything pending and a worker, such a step is enabled |
| BuildQueueProofs.CloseDrains | src/docker_sandbox_broker/build_executor.py:135-138 | After the step that closes the executor it is closed, nothing is admitted, and the number of such steps is bounded by that measure |
| BuildQueueProofs.ClosedAndIdleShuts | src/docker_sandbox_broker/build_executor.py:135-138 | Once closed and with nothing pending, the pool can be shut down if and only if it has not been |
| BuildQueueProofs.ShutPoolGetsNothing | src/docker_sandbox_broker/build_executor.py:135-138 | The pool is shut down only with nothing pending, and nothing is submitted to it afterwards |
| BuildQueueProofs.FirstComeFirstServed | src/docker_sandbox_broker/build_executor.py:56 | No request gets a permit while an earlier one waits for it, on the fast path or in the queue |
| BuildExecutor.Executor.Run | src/docker_sandbox_broker/build_executor.py:38-83 | Full exactly if the request fits the memory budget and the executor is closed, the places are taken or the bytes would exceed it; queued exactly if no permit is free or a waiter is ahead; what each reply does to maps, queue and counters |
| BuildExecutor.Executor.Resume | src/docker_sandbox_broker/build_executor.py:56-83 | A queued call goes on: it runs, fails, or ends as cancelled, with the counters of each |
| BuildExecutor.Executor.Cancel | src/docker_sandbox_broker/build_executor.py:55-61 | The waiter of the request, and no other, becomes dropped, or revoked if it had been granted; for a running build nothing changes |
| BuildExecutor.Executor.Finished | src/docker_sandbox_broker/build_executor.py:98-106 | The request leaves the maps; it counts as succeeded or as failed by how it ended, and is the last finished |
| BuildExecutor.Executor.StartClosing | src/docker_sandbox_broker/build_executor.py:135-136 | The executor is closed |
| BuildExecutor.Executor.ReleaseBuild | src/docker_sandbox_broker/build_executor.py:85-88 | The request leaves both maps and every counter, and its permit goes to the first waiter or is free |
| BuildExecutor.Executor.Unregister | src/docker_sandbox_broker/build_executor.py:90-96 | The request leaves both maps, and the executor is idle if it was the last |
| BuildExecutor.Executor.ShutPool | src/docker_sandbox_broker/build_executor.py:137-138 | The pool is shut, by a step of the machine that takes a closed and idle executor |
| BuildExecutor.Executor.OldestAge | src/docker_sandbox_broker/build_executor.py:141-142 | No age for an empty map, else the greatest age in it |
| BuildExecutor.Executor.Snapshot | src/docker_sandbox_broker/build_executor.py:113-133 | What is reported is the size, age and bytes of the two maps and the number of outcomes of each kind |
| SandboxProofs.StepKeepsInv | src/docker_sandbox_broker/service.py:50-147 | Every step of creations, deletions and sweeps keeps the invariant |
| SandboxProofs.LeaksExactlyWhenAbandoned | src/docker_sandbox_broker/service.py:50-66 | At any point of any run, a live container is in no record and in no creation if and only if an earlier step could not remove it after a failed start, or could not compute its deadline |
| SandboxProofs.NoContainerLeaks | src/docker_sandbox_broker/service.py:50-66 | If every request's ttl leads to a deadline not past the year 9999 and no cleanup fails, every live container belongs to a record or to a creation under way |
| SandboxProofs.HugeTtlLeaks | src/docker_sandbox_broker/service.py:75-78 | A request that leaves its container behind, at any instant |
| SandboxProofs.DeadlineIsTheRequests | src/docker_sandbox_broker/service.py:55-78 | Every record's deadline is the ttl, in seconds, of the request which began its sandbox after its creation began, or none if that is not positive, and a datetime can hold it |
| SandboxProofs.RecordedExactlyIfItFits | src/docker_sandbox_broker/service.py:55-62 | A creation whose container runs gets a record of that container and deadline exactly if a datetime can hold the deadline |
| SandboxProofs.NeverForeign | src/docker_sandbox_broker/runtime.py:301-310 | A deletion never meets a container labelled for another sandbox |
| SandboxProofs.DeletionTakesContainerThenRecord | src/docker_sandbox_broker/service.py:139-147 | A deletion goes on to the record exactly if its container was gone or is removed; then the record goes, and no other |
| SandboxProofs.LeavesOnlyWhenDue | src/docker_sandbox_broker/service.py:139-147 | A sandbox leaves the records only once its container is gone, by a client's deletion or by a sweep at an instant not before its deadline; without a deadline only by the first |
| SandboxProofs.SweepListsTheDue | src/docker_sandbox_broker/service.py:91-96 | A sweep lists a sandbox if and only if its deadline is not after the instant it goes by, and begins with the first |
| SandboxProofs.RecordsAreFixed | src/docker_sandbox_broker/service.py:55-59 | A record never changes, and a sandbox that has left never returns |
| SandboxProofs.SweepReportsTheGone | src/docker_sandbox_broker/service.py:97-107 | A finished sweep has an outcome for each listed sandbox, and those it reports have left for good |
| SandboxProofs.FailedDeletionIsRetried | src/docker_sandbox_broker/service.py:98-104 | A deletion that raises in a sweep keeps the record, and as long as the record is there every later sweep lists it again |
| BrokerService.ExpiredLists | src/docker_sandbox_broker/service.py:91-96 | A sweep lists a record if and only if it has a deadline and that is not after now, each once |
| BrokerService.FilteredInOrder | src/docker_sandbox_broker/service.py:97-107 | What is listed or returned keeps the order of creation |
| BrokerService.SweepIsExact | src/docker_sandbox_broker/service.py:80-107 | After a sweep a sandbox is returned exactly if its deadline was not after now, Docker answered, and the container was gone or is removed; it is kept exactly if not returned; its container goes exactly if Docker removed it for a due sandbox |
| BrokerService.Runtime.Delete | src/docker_sandbox_broker/runtime.py:292-317 | A missing container counts as deleted, unless Docker cannot even say so; one labelled for another sandbox is left alone; a failure after the removal is still one |
| BrokerService.Service.Create | src/docker_sandbox_broker/service.py:50-78 | Created, failed or overflowed, each with its exact condition; the new record comes last, with its container and the deadline of the requested ttl, or of the default if none was given; what container is left in each case |
| BrokerService.Service.Delete | src/docker_sandbox_broker/service.py:139-147 | The record goes exactly if Docker answered and the container was gone or is removed; the container goes exactly if Docker removed it |
| BrokerService.Service.SweepExpired | src/docker_sandbox_broker/service.py:80-107 | The loop tries the due sandboxes in order; it returns exactly those whose deadline was not after now and whose deletion succeeded, and keeps all others |

## Left out

- Docker's layers, sizes and real builds, the thread pool and the event loop: they answer by parameters and nondeterministic steps.
- SHA-256 and the JSON of the inventory file: the hash is a parameter, the file a sequence of records.
- Blocking on a gate in the object model: `ImageCache.Cache.Enter` and `ImageCache.Cache.Leave` are the two locked sections, and the waiting between them is a step of `CacheProtocol`.
- The objects run one call at a time. That their calls may interleave is what the machines are about; the reservation around a container's creation, for instance, matters only there.
- CacheTheorems.CollectionSparesLiveUse: says nothing of a container made while the collection runs, after it has listed the containers, from a tag that was moved since its image was reserved; the code does not protect that one.
- BuildExecutor.Executor.Run: reads the clock once, where the code reads it on admission, on start and on a failed submission.
- CallRefinement.BuildImageTakesSteps: starts with nobody inside the gate, for the object does not wait; it reads the clock last when the record is made, and needs readings that do not go back.
- CacheRefinement.CollectionTakesSteps: needs the clock's readings not to go back, and takes Docker's answers to be those of the state when the collection began.
- The order of records in the protocol's inventory: there it is a map, and a collection may take any order by last use; `ImageCache` keeps the order, which is one of them.
- A save that fails, and the temporary file it leaves.
- Cancelling the future inside the thread pool when the event loop ends.
- Request validation (resource limits, upload size, image policy), views of records and listings: single bodies without state.
- File transfer, command execution, tar handling, HTTP routes, clients, settings loading and logging.
- Sandbox records after a restart: the service keeps them in memory only.
