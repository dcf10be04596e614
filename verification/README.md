# WalTier, modelled and verified

WalTier keeps a totally ordered log in one object of a conditional object store. Every write rewrites that
object with a compare-and-swap on its validator; older entries are folded into immutable snapshots by background
compactors, and replaced snapshots are deleted later. This project models the protocol, the code of the writer,
the replica and the compactor, the image codec, the local cache and the two local stores, and proves that nothing
committed is ever lost, repeated, reordered or misreported, whoever races and whatever replies go missing.

`dafny verify dfyconfig.toml` checks everything.

## How the pieces fit

* `Protocol` is a transition system: any number of writers, replicas and compactors over one store. Sending a PUT,
  its taking effect, and its caller learning the outcome are separate steps, so a PUT may be rejected, lost, or
  land long after its caller gave up; the WAL read and the snapshot read are separate steps; uploads and deletes
  can be lost or land late; a handle may be dropped at any point. The committed history is the concatenation of
  the batches of all accepted PUTs.
* `CloudInvariant` and `WorldInvariant` state the inductive invariant that ties the history, the stored versions,
  requests in flight, uploads, local images, states, pending folds, missed snapshots and garbage queues together,
  and prove each kind of step keeps it. `ProtocolTheorems` draws the conclusions for whole runs.
* `Environment` is the store as one caller meets it. Everybody else's steps, every reply and every validator come
  from a script that is arbitrary, so a method proved against it is proved for every schedule and every fault.
* `CoreModel`, `WalTierModel` and `Compactor` are the code: classes with the original's fields, loops and retry
  budgets. Each method is proved to take exactly the protocol's steps, so the fields always equal the handle the
  invariant speaks about; `AppendSpec` holds the vocabulary of the append contract.
* `Image` is the WTL1 codec, `Checksum`, `CacheRecords` and `AtomicPublication` the local cache, `Store` the two
  local stores, `GroupCommit` and `AllocatorModel` two clients, `App` the callbacks and their law.

## What is assumed

* Callbacks are deterministic functions, and restoring a compacted prefix gives the state of replaying it
  (src/lib.rs:93-97). `App.Law` states this through a relation between snapshot bytes and histories;
  `App.LawFromRestoreEquation` shows that the equation in the documentation suffices.
* The store decides If-Match and If-None-Match: * atomically (sections 13.1.1 and 13.1.2 of RFC 9110), reads are
  strongly consistent, and equal validators for one key imply identical bytes (src/store.rs:53-58). Validators may
  otherwise repeat; `ProtocolTheorems.VersionsNeverRepeat` shows that for the WAL object they then never do.
* Generated snapshot ids are never drawn twice, the WAL and snapshot keys are reserved, a backend that answers
  `NotApplied` is honest, and all handles use the same limits.
* Cache bytes that pass the frame check were written by `save`, for some log. Under the `Disabled` policy the
  modelled cache may still hit; such a hit can only return a published snapshot, so the results cover that policy.
* The store holds what protocol participants wrote. Under this assumption the code's corruption branches (a WAL
  object that disappeared or does not decode, entries past LSN 0 without a snapshot, an oversized snapshot) are
  proved unreachable by assertions at the places where the code tests for them.

## Where a property has an exact limit

`MemoryStore` counts validators in 64 bits. `Store.ValidatorsNameBytes` proves the contract "equal validators
imply equal bytes" for histories of at most 2^64 draws, and `Store.WrappedValidatorsClash` shows that one more
draw breaks it as soon as the two objects 2^64 draws apart differ.

## Model

| member | source | states |
|---|---|---|
| Image.ParseExact | src/image.rs:163-199 | Parsing succeeds with an image exactly when that image fits the limits and the bytes are its encoding: encoder and decoder are mutually inverse |
| Image.PrefixFree | src/image.rs:102-199 | No accepted image's bytes are a prefix of another's |
| Image.MangledLengthsRejected | src/image.rs:302-343 | Every proper truncation and every extension of an accepted image is rejected |
| Image.LsnArithmeticInRange | src/image.rs:39-74 | In an accepted image the unchecked LSN sums stay in 64 bits and the largest entry LSN is at most 2^64 - 2 |
| Image.EncodeView | src/image.rs:102-161 | Succeeds exactly on the views that fit (fold applied, entries skipped, extra appended), and returns the layout of that view; errors name a limit that is truly exceeded |
| Image.Decode | src/image.rs:163-199 | Returns the unique fitting image with these bytes, or an error when no fitting image has them |
| Image.Reader.TakeEntries | src/image.rs:186-232 | The cursor loop reads exactly the entries the layout puts there and stops where they end, or fails when they are cut short |
| App.LawFromRestoreEquation | src/lib.rs:93-97 | If restoring what `compact` returns always equals restoring the base and replaying the entries, snapshots represent histories as the protocol needs |
| App.DefaultReconcileBatch | src/lib.rs:142-158 | Aborts iff some entry aborts, retries iff all do, and otherwise keeps the batch's length with every rewrite in place |
| CloudInvariant.LandsOnCurrent | src/wal.rs:759-791 | A PUT whose compare-and-swap matches was built on the stored version, although validators may repeat in principle |
| CloudInvariant.LandKeeps | src/wal.rs:759-802 | A PUT taking effect, however late, keeps the store invariant and extends the history by its batch |
| WorldInvariant.InstallKeeps | src/wal.rs:514-525 | After an accepted PUT the in-place update equals the published image and the state equals the replay of the longer history |
| WorldInvariant.FetchKeeps | src/wal.rs:408-429 | A reader sent to a snapshot ends in the replayed state or re-reads a newer WAL; it never reports corruption |
| WorldInvariant.BuildKeeps | src/wal.rs:983-1003 | What a compactor builds represents the history through its fold LSN, whatever was committed, folded or deleted meanwhile |
| WorldInvariant.SupersededObsolete | src/wal.rs:853-878 | A fold the image has moved past without naming it is obsolete, so queueing it for deletion is safe |
| WorldInvariant.AbandonedObsolete | src/wal.rs:426-434 | The snapshot a newer image no longer names is obsolete |
| WorldInvariant.StepKeeps | src/wal.rs:238-1043 | Every step of every participant keeps the whole invariant, and only extends what was committed, sent, published and deleted |
| ProtocolTheorems.RunKeeps | src/wal.rs:464-1043 | Safety over whole runs: no sequence of steps leaves the invariant or takes anything back |
| ProtocolTheorems.Reachable | src/wal.rs:252-349 | From an empty store every reachable state satisfies the invariant |
| ProtocolTheorems.StepAppends | src/wal.rs:759-802 | The only step that changes the history is a PUT taking effect, and it appends exactly that call's whole batch |
| ProtocolTheorems.RunOnlyAppends | src/wal.rs:759-802 | Over any run the old history is a prefix of the new one |
| ProtocolTheorems.VersionsNeverRepeat | src/store.rs:53-58 | No validator, no image content and no request occurs twice among accepted WAL versions |
| ProtocolTheorems.RecoveryIsReplay | src/wal.rs:252-349 | In every reachable state the named snapshot exists, and a cold reader recovers exactly the replay of the whole history |
| ProtocolTheorems.CondemnedNeverNamed | src/wal.rs:680-701 | A key queued for deletion, being deleted or deleted is named by neither the stored nor any later WAL version |
| ProtocolTheorems.InstallableSnapshotExists | src/wal.rs:853-878 | A PUT that can still take effect names only a snapshot that exists, even after its caller saw `Unknown` |
| ProtocolTheorems.HandleStateIsReplay | src/wal.rs:704-706 | Every open handle's state is the replay of the first `next_lsn` history entries, and none reports corruption |
| ProtocolTheorems.MissingMeansMovedOn | src/wal.rs:194-211 | A snapshot found missing means the stored WAL already carries a different validator |
| ProtocolTheorems.NextNeverFalls | src/wal.rs:377-448 | No step of a handle lowers its next LSN |
| ProtocolTheorems.OnlyCommitsAndReadsMove | src/wal.rs:156-178 | Rejections, failures and maintenance change neither image, state nor validator |
| ProtocolTheorems.FoldLifetime | src/wal.rs:113-120 | A pending fold always applies to the held image; any version it does not apply to has folded past it |
| ProtocolTheorems.FoldInRaises | src/wal.rs:807-829 | Installing a fold keeps the next LSN and the state, drops exactly the folded entries and strictly raises the first live LSN |
| ProtocolTheorems.InstalledWasNamed | src/wal.rs:853-871 | A fold becomes `Installed` only if some accepted WAL version names its key |
| ProtocolTheorems.OfferedIsAccountedFor | src/wal.rs:692-701 | An offered key is queued once, within the cap and behind the others, or counted as overflow, never both |
| ProtocolTheorems.StepForgetsNothing | src/wal.rs:807-878 | The snapshot a writer's image stops naming, and a fold that turns superseded, are queued or counted in that very step |
| ProtocolTheorems.FoldsTheTip | src/wal.rs:923-945 | Whatever happens after it was started, a compactor folds exactly the entries and base its handle then held, up to its tip |
| ProtocolTheorems.DeadForever | src/wal.rs:165-179 | A request reported not applied never takes effect later |
| ProtocolTheorems.LandedBatchPresent | src/wal.rs:503-571 | A request that landed is in the history whole, in one contiguous range starting where its base ended |
| ProtocolTheorems.ReconciliationSound | src/wal.rs:547-568 | Any property of histories kept by each submitted batch on the prefix its writer had seen holds of the whole history |
| ProtocolTheorems.AlwaysRecoverable | src/wal.rs:252-349 | At every moment of every run from an empty store, the stored WAL and its snapshot recover the whole history |
| ProtocolTheorems.CommittedForever | src/wal.rs:759-802 | What is committed at one moment of a run stays in place at every later one |
| ProtocolTheorems.DeletionIsSafe | src/wal.rs:680-701 | A key queued at one moment of a run is named by the stored WAL at no later one |
| ProtocolTheorems.HandlesAreTruthful | src/wal.rs:377-448 | At every moment of every run each state replays a committed prefix, and no handle has reported corruption |
| ProtocolTheorems.LandsOnceAndWhole | src/wal.rs:503-571 | In every run a request lands at most once, with its whole batch in one range of the history |
| ProtocolTheorems.NotAppliedIsFinal | src/wal.rs:165-179 | What was reported not applied at one moment of a run has landed at no later one |
| Environment.Backend.PutWal | src/sim.rs:171-205 | The three answers of a conditional PUT and what each says: accepted as the next version, rejected and dead, or failed and dead unless unknown |
| Environment.Backend.UploadSnapshot | src/wal.rs:1022-1043 | A create-only upload is confirmed, refused because of a foreign object, or given up |
| CoreModel.RecordMissingSnapshot | src/wal.rs:196-211 | Reports corruption exactly when the same version misses the same snapshot twice |
| CoreModel.FetchSnapshot | src/wal.rs:215-233 | A hit, from disk or store, is the published snapshot; a miss means the object is gone |
| CoreModel.Core.RecordImagePut | src/wal.rs:352-365 | Records validator and size, and caches the version under `EveryCommit` |
| CoreModel.Core.CheckpointCache | src/wal.rs:361-371 | A dirty cache is written with precisely the held validator and its stored bytes, and only then marked clean |
| CoreModel.Core.ReadOnce | src/wal.rs:384-443 | One round of `refresh`: a success holds a version at least as new as the one stored when the round began and says changed exactly when the validator is another one; otherwise the missing snapshot is noted after two requests, or one request failed |
| CoreModel.Core.Refresh | src/wal.rs:377-448 | Ends within `MAX_RACES` rounds. Success covers everything committed when the call began and says changed exactly when the validator is another one; failure changes state, image and validator in nothing, and is a failed request or `MAX_RACES` full rounds; corruption is never reported |
| CoreModel.Open | src/wal.rs:252-349 | Opens at a version at least as new as the one stored when the call began, with its replayed state, and empty only if there was no WAL object then; a failure leaves no handle and is a failed request or `MAX_RACES` full rounds; corruption is never reported |
| AppendSpec.LandsAfter | src/wal.rs:503-571 | What an append commits lies after everything committed before the call began |
| AppendSpec.SentDecidedOn | src/wal.rs:547-568 | A resubmitted batch was decided by `reconcile_batch` on the state of exactly the prefix it extends |
| WalTierModel.WalTier.QueueObsolete | src/wal.rs:692-701 | The queue update is the protocol's, duplicates and overflow included |
| WalTierModel.WalTier.CollectGarbage | src/wal.rs:680-690 | Keys leave the queue front to back only when their deletion is confirmed, one request each; success empties it, and the first failed request keeps the rest |
| WalTierModel.WalTier.DiscardSupersededFold | src/wal.rs:853-878 | A fold is dropped exactly when it no longer applies: it is installed if the image names it, and otherwise superseded and queued or counted |
| WalTierModel.WalTier.InstallPendingFold | src/wal.rs:807-829 | The pop-and-replace update equals the published fold and queues the snapshot it replaces |
| WalTierModel.WalTier.TryInstall | src/wal.rs:759-802 | One PUT at most; success leaves the fields at the accepted version up to the new entries, loss leaves a dead request and a handle on a later version, failure changes nothing held and is a failed request, a candidate that breaks a limit, or an exhausted refresh |
| WalTierModel.WalTier.Push | src/wal.rs:514-525 | The apply-and-push loop ends in exactly the state and image of the accepted version |
| WalTierModel.WalTier.Append | src/wal.rs:503-571 | At most `max_write_attempts` PUTs of which at most one can land; `Ok` names the final batch's range, after all earlier commits; `NotApplied` means every attempt is dead; `Unknown` leaves only the last in doubt, with its batch returned; its contention error means that exactly `max_write_attempts` PUTs were sent and all are dead |
| WalTierModel.WalTier.Write | src/wal.rs:487-489 | Success is one entry at the returned LSN; failures are an append's |
| WalTierModel.WalTier.Flush | src/wal.rs:578-598 | Success leaves no running, ready or failed work, an empty queue and a clean cache. Its contention error keeps an installable fold and means that `max_write_attempts` fold PUTs were sent and all are dead; every other error is a failed request, a failed compactor, a broken limit or an exhausted refresh |
| WalTierModel.WalTier.Refresh | src/wal.rs:602-608 | Success covers everything committed when the call began and says changed exactly when the validator is another one; nothing held is ever lost, and a failure leaves image, state and validator alone |
| WalTierModel.WalTier.FinishCompaction | src/wal.rs:894-908 | Failed exactly when the compactor aborted; a done one leaves its fold ready, with its key and the last LSN of its entries, if it applies, and otherwise installed or superseded |
| WalTierModel.WalTier.IntegrateCompaction | src/wal.rs:880-892 | A running compactor is left alone until its outcome has arrived, and then taken over |
| WalTierModel.WalTier.WaitForCompaction | src/wal.rs:626-635 | Afterwards nothing runs; the compactor's outcome has been taken over, and the answer is an error iff it failed |
| WalTierModel.WalTier.SpawnCompaction | src/wal.rs:923-972 | The new compactor has exactly the held snapshot as its base and all live entries up to the tip; otherwise none could be started and that is recorded |
| WalTierModel.WalTier.MaybeTriggerCompaction | src/wal.rs:910-921 | Starts a compactor exactly when nothing is pending or failed, entries are live and the application asks for it; otherwise changes nothing |
| WalTierModel.WalTier.StateIsReplay | src/wal.rs:704-706 | Between calls the state is the replay of the first `next_lsn` history entries |
| WalTierModel.WalTier.HeldImageIsStored | src/wal.rs:361-371 | Between calls the held image encodes to the stored bytes of the held validator |
| WalTierModel.OpenWriter | src/wal.rs:474-483 | An opened writer holds the replay of a prefix covering everything committed when the call began, with no maintenance owed |
| WalTierModel.Replica.Refresh | src/wal.rs:1062-1064 | A replica's state is always the replay of a history prefix that never shrinks; success covers everything committed when the call began and says changed exactly when the validator is another one |
| Compactor.PublishSnapshot | src/wal.rs:1022-1043 | At most `MAX_RACES` fresh keys; success is a confirmed upload under a key never used before; failure is a failed upload, a repeated id or `MAX_RACES` collisions, and ends the job |
| Compactor.RunCompaction | src/wal.rs:974-1017 | A reported fold is the confirmed upload of what `compact` makes of exactly this base and these entries, restores to the replay of the history through its LSN, and its LSN is that of the last entry; every failure has its cause |
| Checksum.ChecksumParts | src/cache.rs:77-109 | However the bytes are split, the streaming checksum equals the one-shot checksum of their concatenation; the carry stays inside its eight-byte buffer, at most seven between parts |
| CacheRecords.FrameExact | src/cache.rs:113-135 | A file reads as a payload exactly when it is that payload's frame within the budget |
| CacheRecords.TornIsMiss | src/cache.rs:113-135 | Every proper prefix and extension of a frame is a miss |
| CacheRecords.IdentityPrefixFree | src/cache.rs:153-164 | Identities of different (namespace, WAL key) pairs are never prefixes of one another, however continued |
| CacheRecords.RecordsIdentifyThemselves | src/cache.rs:225-239 | A saved record loads exactly when identity, key and budget match, and then unchanged |
| CacheRecords.WalRecordsIdentifyThemselves | src/cache.rs:182-211 | The same for WAL records, with validator and image split apart again |
| CacheRecords.Cache.Save | src/cache.rs:241-270 | The header filled in last frames exactly identity, key, fields and body; overflowing sizes write nothing |
| CacheRecords.Cache.Load | src/cache.rs:225-239 | Returns the record of this identity and key, if the file holds it |
| CacheRecords.LoadsOnlyOwnRecords | src/cache.rs:113-270 | After any mix of saves, evictions, truncations and foreign records a load returns only what this log saved under this key |
| AtomicPublication.PublishedIsWhole | src/cache.rs:36-68 | In every interleaving a published path holds its original content or one writer's complete frame |
| AtomicPublication.OwnFilesOnly | src/cache.rs:36-68 | No action of one writer, cleanup included, touches another's temporary; only a rename changes a published path |
| AtomicPublication.NumberedClashIsStale | src/cache.rs:48-59 | Each drawn temporary name is one writer's alone: clashes are with stale files |
| AtomicPublication.NothingLeftBehind | src/cache.rs:60-67 | Rename and cleanup leave no temporary behind |
| Store.GetIfChanged | src/store.rs:85-91 | Missing, not modified or changed, exactly as the current object and the validator say |
| Store.ReadThenWrite | src/store.rs:39-45 | A conditional PUT creates only on an absent key and replaces only the object with the expected validator; it then stores the offered bytes under the answered validator, and no other key's object changes |
| Store.MemoryStore.PutIfMatch | src/store.rs:154-173 | The shared map's conditional PUT with the next counter validator |
| Store.ValidatorsNameBytes | src/store.rs:133-135 | Equal validators imply equal bytes across all times, up to 2^64 draws |
| Store.WrappedValidatorsClash | src/store.rs:133-135 | Beyond that the implication fails whenever the two objects differ |
| Store.PathFor | src/store.rs:257-265 | The chunk loop builds the path of the key |
| Store.PathsNeverInterfere | src/store.rs:257-265 | Distinct keys have distinct paths, and no object's path lies below another's |
| Store.ComponentsAreShort | src/store.rs:257-265 | No path component exceeds 128 bytes |
| Store.ObjectFileExact | src/store.rs:267-286 | A file reads as an object exactly when it is that object's frame |
| Store.FsStore.PutIfMatch | src/store.rs:317-333 | The same map and the same answers as the in-memory store; failures leave it unchanged |
| Store.FsStore.Delete | src/store.rs:340-347 | Removes this key's object and no other |
| GroupCommit.RunWriter | examples/group_commit.rs:129-185 | One answer per request in queue order; successes name LSNs that hold their entries, strictly increasing; the first failure comes from a batch handed to the log that failed there, and only after it is nothing more submitted; acknowledged + failed equals received |
| GroupCommit.CommitBatch | examples/group_commit.rs:161-164 | With retry-only reconciliation an append commits exactly the given entries or returns them |
| GroupCommit.Drain | examples/group_commit.rs:144-151 | A batch is the longest run of requests that were waiting, up to the limit |
| AllocatorModel.IdsStayDense | examples/batch.rs:18-32 | With any number of allocators racing, the entry at LSN n has id n, every state lists exactly its prefix's ids, and the assertion in `apply` never fires |
| AllocatorModel.AttemptsKeepCount | examples/batch.rs:27-32 | Every attempt of an append allocates as many ids as its caller asked for |
| AllocatorModel.AppendSubmitsOwnBatches | examples/batch.rs:27-32 | Every attempt of an append submits ids starting at its writer's own next id |

## Left out

- src/s3.rs: signing, transport, deadlines and status mapping; a backend is its answers (accepted, rejected, not applied, unknown).
- Threads, channels and file locks; a compactor's channel is the state of its job, and `Environment` interleaves.
- `Core::open` sweeps stale cached snapshots; `CacheRecords.Cache.RetainSnapshot` models the sweep, and towards `CoreModel` it is one of the evictions that may happen anyway.
- CoreModel.Disk: stands for the cache directory at the level of records. That a hit is a record this log saved is what `CacheRecords.LoadsOnlyOwnRecords` proves of the files; the two are not composed into one state.
- Environment.Backend: is the store contract. `Store` proves that both local stores are such key-to-object maps; they are not plugged in underneath.
- Option validation, `FsStore::new`, random id generation, directory listings, latency and statistics: parameters or absent.
- Contents of `WalError` messages and of `garbage_error`; errors keep their kind and whether they are unknown.
- Offline orphan sweeping, power loss, callback panics, checksum collisions, and liveness in wall-clock terms.
- The example applications other than `Count` and `Allocator`; `allocations` is modelled without the 64-bit overflow of `first + count`, which an image could not hold.
- AllocatorModel.Apply: a panic is a flag that turns false, because the theorem is that it never does.
