# Verified model of ubiblk

This project models the logic of ubiblk, a user-space block device backend, and proves what it
promises. It has three parts.

**The lazily fetched block device.** Guest channels, a background worker, a stripe fetcher and a
metadata flusher cooperate over a message channel and a shared table of stripe headers. Together they
make a target disk look as if it already held its source image.

- Each component has a specification: an immutable state and step functions (`Flusher`, `Fetcher`,
  `LazyChannel`, `Worker`, `BufferPool`, `Metadata`). Each also has a class whose methods and loops are
  proved to have exactly the effect of these functions (`...Methods`, and the classes in `BufferPool`,
  `Metadata` and `Worker`).
- `FlusherCrash` and `FlusherRuns` put the flusher on a metadata device with a write cache, where a
  crash leaves any of several images of each sector. `FetcherRuns` has the runs of the fetcher.
- `Protocol` puts everything together as a step system: any number of guest channels, the worker, both
  caching devices, submissions and completions that fail, and crashes at any moment. Its steps are the
  same step functions that the classes implement. A plain disk runs alongside: it starts with the
  source's contents and sees only what the guest does. Where the source ends inside a stripe, the rest
  of the stripe gets its contents when the stripe is published, before any guest can see it. The
  invariant (`Protocol.Inv`) is kept by every step (`ProtocolGuest`, `ProtocolDevice`, `ProtocolFetch`,
  `ProtocolCopy`, `ProtocolCrash`). The promises over all runs are in `ProtocolTheorems` (linearizable
  reads, no fetch over guest data, crash safety), `ProtocolDurability` (no lost guest write),
  `ProtocolWaiting` and `ProtocolStuck` (no forgotten fetch, and its one exception).
- The classes are tied to the step systems. `FlusherRefinement` and `FetcherRefinement` show that one
  call of `update` is a run of atomic events, `ProtocolRefinement` that one poll of a channel is a run of
  the whole device. `WorkerRefinement` shows that an update of the worker, however it is interleaved with
  guests and devices, has on the worker's state exactly the effect that the method computes.

**Archives.** `Archive`, `ArchiveRuns` and `ArchiverMethods` model the archiver, which reads stripes from
the device or the source into pooled buffers, compresses, encrypts, deduplicates and uploads them.
`ArchiveManifest` and `StripeMapping` are the metadata and the mapping, with what authenticates them.
`ArchiveSource`, `Export` and their `...Methods` open the archive and read the stripes back with coalesced
gets in any order. `Codec` and `Xts` are the framing and the sector-wise encryption. The result is an
end-to-end round trip (`ArchiveExport`): archiving succeeds if devices and store keep serving, and then
every reader of an honest store gets, for every stripe, the bytes the archiver had.

**Three smaller algorithms.** `CryptChannel` (the encrypting channel, shown in `CryptRefinement` to behave
as a plain disk for reads and writes), `Secrets` (resolution of secrets along chains of key-encryption
keys) and `Includes` (merging of configuration tables).

Devices, submissions, stores and files enter as parameters: a method takes the completions that arrive
and whether a submission succeeds, and its contract holds for all of them. Block cipher, compression,
hash, message authentication, serialization and the loading of secrets are function-valued parameters;
what is assumed of them (decryption inverts encryption, no collision among the objects of an archive, and
so on) is a named predicate in the requires clauses. The contracts of the devices are: each accepted request completes at
most once, a failed submission yields no completion, a failed write may have reached the disk.

Some properties do not hold of the code as it is. The lemmas below show the failures by runs, and when
exactly they happen:

- a poll whose inner submission fails loses requests that were added to the base channel but not
  submitted (`LazyChannelRuns.PollLoses`, a run; `LazyChannelRuns.PollConserves`, the condition);
- a failed submission of a read leaves its slot in the encrypting channel, and a later write with the
  same id then decrypts the stale buffer (`CryptChannel.StaleSlot`, a run; `CryptChannel.SubmitKeepsSlots`
  and `CryptChannel.CompletionVisible`, the conditions; `CryptRefinement` holds as long as no write or flush
  is added under the id of such a slot);
- a failed write that is added again with the same buffer is encrypted twice
  (`CryptRefinement.RetryEncryptsTwice`), unless the buffer is filled anew (`CryptRefinement.RefilledRetry`);
- a stripe whose FETCHED record is given up by a failed metadata write stays unavailable until the next
  start (`ProtocolStuck.StuckRunReaches`, a run; `ProtocolWaiting.GivenUpIsStuck`, the condition;
  `ProtocolStuck.NeverServed`, what a guest sees);
- the archiver does not clear its buffers: of a stripe in which the source ends, it archives the source's
  part followed by what the buffer held before (`ArchiveTail.StaleTail`, a run; `Archive.ShortStripeTail`,
  every such read); the archived bytes are the stripe if and only if it lies within device or source
  (`Archive.ArchivedBytes`).

Two lemmas say what the code does outside the contracts of device and store. A result for an upload that is
not outstanding is counted, so that the manifest names only stored objects exactly if there was none
(`Archive.ManifestComplete`). A failed completion of the target for a stripe that is not in flight makes
the fetcher queue the stripe (`FetcherMethods.StrayFailure`).

## Model

| member | source | states |
|---|---|---|
| `BufferPool.TakeKeepsValid` | src/utils/aligned_buffer_pool.rs:32-37 | a taken buffer becomes in use, no other changes, and the free list stays the duplicate-free list of the unused |
| `BufferPool.GiveKeepsValid` | src/utils/aligned_buffer_pool.rs:39-60 | a returned buffer is free again, and never listed twice |
| `BufferPool.AlignedBufferPool.GetBuffer` | src/utils/aligned_buffer_pool.rs:32-37 | hands out the head of the free list, or nothing if there is none |
| `BufferPool.AlignedBufferPool.ReturnBuffer` | src/utils/aligned_buffer_pool.rs:39-60 | the buffer goes to the end of the free list and is no longer in use |
| `BufferPool.GiveBuffer` | src/block_device/bdev_lazy/stripe_fetcher.rs:272-279 | after a stripe returns its buffer, buffers in use are again exactly those of the stripes left, one each |
| `BufferPool.TakeBuffer` | src/block_device/bdev_lazy/stripe_fetcher.rs:173-178 | giving a stripe a free buffer keeps the same one-to-one correspondence |
| `Metadata.ImageUpdate` | src/block_device/bdev_lazy/metadata/types.rs:94-102 | changing one header changes one slot of the image of one metadata sector |
| `Metadata.NewSharedCounted` | src/block_device/bdev_lazy/metadata/shared_state.rs:25-53 | both counters of a loaded state equal the numbers of fetched and of sourced stripes if and only if no stripe is marked FETCHED without HAS_SOURCE |
| `Metadata.SharedMetadataState.SetStripeHeader` | src/block_device/bdev_lazy/metadata/shared_state.rs:81-91 | publishes exactly the set bits, and counts a stripe once |
| `Metadata.AllFetched` | src/block_device/bdev_lazy/metadata/shared_state.rs:102-108 | if the two counters are equal then every stripe is fetched or has no source |
| `Flusher.StartKeepsValid` | src/block_device/bdev_lazy/metadata_flusher.rs:181-228 | starting an update keeps: one update per sector, buffers in use exactly those of updates being written |
| `Flusher.WriteDoneKeepsValid` | src/block_device/bdev_lazy/metadata_flusher.rs:147-153 | an acknowledged write returns its buffer once and keeps the same invariant |
| `Flusher.FlushDoneKeepsValid` | src/block_device/bdev_lazy/metadata_flusher.rs:154-165 | an acknowledged flush frees its sector and keeps the same invariant |
| `Flusher.AbandonKeepsValid` | src/block_device/bdev_lazy/metadata_flusher.rs:108-145 | a failure frees sector and buffer and keeps the same invariant |
| `FlusherCrash.GaveUpInv` | src/block_device/bdev_lazy/metadata_flusher.rs:108-145 | a failure restores the exact prior header, and all crash invariants |
| `FlusherCrash.NextInv` | src/block_device/bdev_lazy/metadata_flusher.rs:108-242 | under any failures: headers in memory are the published ones plus exactly the bits in flight, and every published bit is in every image its sector may hold after a crash |
| `FlusherRuns.CrashKeepsPublished` | src/block_device/bdev_lazy/metadata_flusher.rs:108-242 | after any run and any crash, every published bit is read back and no stripe gains or loses its source |
| `FlusherRuns.NextFetchedWithin` | src/block_device/bdev_lazy/metadata_flusher.rs:181-228 | no image ever shows FETCHED for a stripe that was not asked to be recorded |
| `FlusherRuns.IdleIsFold` | src/block_device/bdev_lazy/metadata_flusher.rs:120-228 | without failures, the idle flusher has published and persisted exactly the initial headers with all requested bits, at one write and one flush per newly set bit |
| `FlusherRefinement.UpdateIsRun` | src/block_device/bdev_lazy/metadata_flusher.rs:103-106 | one call of update, under any completions and submission failures, is a legal run of the crash system that leaves flusher and table as the method does |
| `FlusherMethods.OpenFlusher` | src/block_device/bdev_lazy/metadata_flusher.rs:54-83 | a flusher over the loaded headers is created exactly if the stripes of the metadata cover the source; it starts idle with these headers |
| `FlusherMethods.MetadataFlusher.CleanupFailedSubmission` | src/block_device/bdev_lazy/metadata_flusher.rs:108-118 | every listed update is withdrawn, with its buffer if it was being written |
| `FlusherMethods.MetadataFlusher.StartWrites` | src/block_device/bdev_lazy/metadata_flusher.rs:181-242 | starts requests from the head until one has to wait, writes exactly the changed sectors, and withdraws all of them if the submission fails |
| `FlusherMethods.MetadataFlusher.PollChannel` | src/block_device/bdev_lazy/metadata_flusher.rs:120-179 | processes a batch of completions as atomic steps and publishes exactly the headers whose flush was acknowledged |
| `FlusherMethods.MetadataFlusher.Update` | src/block_device/bdev_lazy/metadata_flusher.rs:103-106 | the composition of the two |
| `FlusherMethods.MetadataFlusher.IsBusy` | src/block_device/bdev_lazy/metadata_flusher.rs:85-87 | busy exactly while an update or a request is left |
| `Fetcher.RequestValid` | src/block_device/bdev_lazy/stripe_fetcher.rs:111-128 | admitting a stripe keeps the fetcher invariant: duplicate-free queue of exactly the queued stripes, buffers exactly at the stripes in flight |
| `Fetcher.StartValid` | src/block_device/bdev_lazy/stripe_fetcher.rs:173-187 | starting a fetch, accepted or not, keeps it |
| `Fetcher.SourceDoneValid` | src/block_device/bdev_lazy/stripe_fetcher.rs:198-210 | an answer of the source keeps it |
| `Fetcher.TargetDoneValid` | src/block_device/bdev_lazy/stripe_fetcher.rs:214-237 | an answer of the target keeps it |
| `FetcherRuns.StartUsesAttempt` | src/block_device/bdev_lazy/stripe_fetcher.rs:173-187 | each start lowers the sum of attempts left of the queued stripes, so starting terminates even if every request is rejected |
| `FetcherRuns.ReportsAndAttempts` | src/block_device/bdev_lazy/stripe_fetcher.rs:272-301 | over every run, an admitted stripe is reported at most once, exactly once when it is no longer active, after at most four attempts |
| `FetcherRuns.GivesUpAfterFour` | src/block_device/bdev_lazy/stripe_fetcher.rs:288-300 | a stripe is given up only in its fourth failed attempt |
| `FetcherRefinement.UpdateIsRun` | src/block_device/bdev_lazy/stripe_fetcher.rs:130-134 | one call of update, under any answers of source and target, is a legal run of atomic events; it leaves the fetcher as the method does, and the shared table with exactly the failed marks of these events |
| `FetcherMethods.StripeFetcher.HandleFetchRequest` | src/block_device/bdev_lazy/stripe_fetcher.rs:111-128 | queues a stripe unless it is fetched, has no source or is known |
| `FetcherMethods.StripeFetcher.UpdateAutofetch` | src/block_device/bdev_lazy/stripe_fetcher.rs:165-171 | requests the next stripe of its own when the queue is empty |
| `FetcherMethods.StripeFetcher.StartFetches` | src/block_device/bdev_lazy/stripe_fetcher.rs:173-187 | starts fetches while there are stripes and buffers, and terminates |
| `FetcherMethods.StripeFetcher.StartWrite` | src/block_device/bdev_lazy/stripe_fetcher.rs:240-259 | writes the sectors of the stripe that exist on the target |
| `FetcherMethods.StripeFetcher.FetchCompleted` | src/block_device/bdev_lazy/stripe_fetcher.rs:272-301 | returns the buffer; reports success, queues again, or marks the stripe failed when no retry is left |
| `FetcherMethods.StripeFetcher.PollFetches` | src/block_device/bdev_lazy/stripe_fetcher.rs:189-238 | answers of the source, then of the target, each processed as one atomic step; answers that belong to no fetch are ignored |
| `FetcherMethods.StrayFailure` | src/block_device/bdev_lazy/stripe_fetcher.rs:214-218 | a failed completion of the target for a stripe that is not in flight queues it, fetched or not; the fetcher stays consistent exactly if the stripe was not queued |
| `FetcherMethods.StripeFetcher.Update` | src/block_device/bdev_lazy/stripe_fetcher.rs:130-134 | the composition of the three parts |
| `FetcherMethods.StripeFetcher.DisconnectFromSourceIfAllFetched` | src/block_device/bdev_lazy/stripe_fetcher.rs:136-154 | the source is released exactly when idle with equal counters; then every stripe is fetched or has no source |
| `LazyChannel.StatusFrom` | src/block_device/bdev_lazy/device.rs:74-91 | complete exactly if every stripe of the range is fetched or has no source |
| `LazyChannel.FetchesComplete` | src/block_device/bdev_lazy/device.rs:102-116 | the stripes asked for are exactly those of the range not fetched and not asked for |
| `LazyChannelRuns.AddHolds` | src/block_device/bdev_lazy/device.rs:197-297 | adding a request puts it in exactly one place, whatever its route |
| `LazyChannelRuns.PollConserves` | src/block_device/bdev_lazy/device.rs:131-193 | polling conserves requests if and only if the inner submission succeeds, is not made, or nothing else was staged |
| `LazyChannelRuns.PollLoses` | src/block_device/bdev_lazy/device.rs:181-192 | a legal run from the new channel after which a poll with a failing submission drops a request: it is held before, and neither held nor reported afterwards |
| `LazyChannelRuns.RunConserves` | src/block_device/bdev_lazy/device.rs:131-320 | over every run, a request is accounted for once per acceptance and in exactly one place until reported, and every stripe a queued request waits for is fetched or was asked for |
| `LazyChannelMethods.LazyIoChannel.RequestStripesFetchStatus` | src/block_device/bdev_lazy/device.rs:74-91 | the first stripe that is not fetched decides |
| `LazyChannelMethods.LazyIoChannel.RequestStripesWritten` | src/block_device/bdev_lazy/device.rs:93-100 | whether all stripes of the range are marked written |
| `LazyChannelMethods.LazyIoChannel.StartStripeFetches` | src/block_device/bdev_lazy/device.rs:102-116 | asks for exactly the missing stripes, in order, up to the first message that is not received; fails exactly if there is one |
| `LazyChannelMethods.LazyIoChannel.StartStripeSetWritten` | src/block_device/bdev_lazy/device.rs:118-129 | asks for exactly the unwritten stripes, in order, up to the first message that is not received; fails exactly if there is one |
| `LazyChannelMethods.LazyIoChannel.ProcessQueuedRwRequests` | src/block_device/bdev_lazy/device.rs:131-193 | dispatches or fails requests from the head until one has to wait, then submits |
| `LazyChannelMethods.LazyIoChannel.AddRead` | src/block_device/bdev_lazy/device.rs:197-244 | routes a read to target, image or queue, or refuses it |
| `LazyChannelMethods.LazyIoChannel.AddWrite` | src/block_device/bdev_lazy/device.rs:246-297 | routes a write to target or queue, or refuses it, asking for fetches and written marks |
| `LazyChannelMethods.LazyIoChannel.Submit` | src/block_device/bdev_lazy/device.rs:303-308 | image first; if that fails the target is not submitted |
| `LazyChannelMethods.LazyIoChannel.Poll` | src/block_device/bdev_lazy/device.rs:310-320 | reports what finished, then what target and image deliver |
| `Worker.FetchedRequests` | src/block_device/bdev_lazy/bgworker.rs:101-107 | exactly the stripes fetched with success are to be recorded |
| `Worker.BgWorker.ProcessRequest` | src/block_device/bdev_lazy/bgworker.rs:59-72 | dispatches one message |
| `Worker.BgWorker.ReceiveRequests` | src/block_device/bdev_lazy/bgworker.rs:74-97 | processes everything pending in order; stops when told to or when the senders are gone |
| `Worker.BgWorker.Update` | src/block_device/bdev_lazy/bgworker.rs:99-110 | fetcher, hand-over, flusher, in this order; the source is released only if all is fetched |
| `Mirror.CrashBoth` | src/block_device/bdev_lazy/stripe_fetcher.rs:189-238 | whatever a crash leaves on a target sector is what it may leave on the plain one, and the sector invariant holds again |
| `Mirror.PublishBoth` | src/block_device/bdev_lazy/metadata_flusher.rs:161-165 | publishing a fetched stripe keeps the sectors in step, and fixes the contents of those that the source does not reach |
| `ProtocolGuest.GuestInv` | src/block_device/bdev_lazy/device.rs:131-320 | the guest's calls keep the invariant of the whole device: only published stripes are dispatched to |
| `ProtocolDevice.WriteInv` | src/block_device/bdev_lazy/device.rs:246-297 | a guest write reaching the target keeps target and plain disk in step |
| `ProtocolFetch.FillInv` | src/block_device/bdev_lazy/stripe_fetcher.rs:173-187 | filling the buffer of one stripe does not disturb stripes that are being written |
| `ProtocolCopy.CopyInv` | src/block_device/bdev_lazy/stripe_fetcher.rs:240-259 | a fetch writes only sectors that no guest request may touch |
| `ProtocolCopy.SectorsDone` | src/block_device/bdev_lazy/stripe_fetcher.rs:220-232 | when the flush after the copy is acknowledged, every sector of the stripe durably mirrors the plain disk |
| `ProtocolRuns.NextInv` | src/block_device/bdev_lazy/bgworker.rs:99-110 | every step of channels, worker, fetcher, flusher and devices, failing or not, and every crash, keeps the invariant |
| `ProtocolRuns.FreshInv` | src/block_device/bdev_lazy/bgworker.rs:26-53 | a device opened over any metadata satisfies it, with stripes already FETCHED or not |
| `ProtocolRefinement.PollIsRun` | src/block_device/bdev_lazy/device.rs:310-320 | one poll of a channel, from dispatching queued requests to delivering the completions of both devices, is a run of the whole device that leaves the channel as the method does and everything but the disks alone |
| `WorkerRefinement.UpdateActs` | src/block_device/bdev_lazy/bgworker.rs:99-110 | the update that the worker's method computes is a sequence of its single actions, each possible when it is taken |
| `WorkerRefinement.Interleaved` | src/block_device/bdev_lazy/bgworker.rs:99-110 | in every run of the whole device, the state of the worker evolves by its own steps alone, whatever guests and devices do in between |
| `WorkerRefinement.UpdateIsRun` | src/block_device/bdev_lazy/bgworker.rs:99-110 | a run in which the worker takes the actions of one update, in any interleaving, leaves fetcher, flusher and shared table as the method does |
| `WorkerRefinement.ActionEnabled` | src/block_device/bdev_lazy/bgworker.rs:99-110 | every action of the worker is a step of the whole device as soon as the devices have served what they report |
| `WorkerRefinement.ReceiveIsProcess` | src/block_device/bdev_lazy/bgworker.rs:59-72 | receiving a message in the whole device is what the worker's method does with it |
| `ProtocolTheorems.PlainEvolves` | src/block_device/bdev_lazy/device.rs:131-320 | the reference evolves only as a plain disk may: by guest writes, acknowledgements, flushes and legal crashes, never by a fetch; publication gives contents only to sectors that had none |
| `ProtocolTheorems.ServedReadIsLinearizable` | src/block_device/bdev_lazy/device.rs:131-244 | every sector that a read at the target returns was held by the plain disk at some moment while the read was there, in any interleaving, also behind the end of the source |
| `ProtocolTheorems.ImageReadIsLinearizable` | src/block_device/bdev_lazy/device.rs:223-227 | whatever happens meanwhile, a read served by the image returns what the plain disk held when it was added |
| `ProtocolTheorems.NoFetchAfterGuest` | src/block_device/bdev_lazy/stripe_fetcher.rs:111-301 | once a guest request to a stripe is at the target, no run from there, with retries and crashes, ever has a fetch of that stripe again |
| `ProtocolTheorems.PublishedForever` | src/block_device/bdev_lazy/metadata_flusher.rs:161-165 | a published stripe stays published over every run, crashes included |
| `ProtocolTheorems.CrashKeepsData` | src/block_device/bdev_lazy/stripe_fetcher.rs:189-238 | if any possible metadata image says FETCHED, every value the target may hold after a crash is the source's or the guest's, except where neither has defined any yet |
| `ProtocolCrash.CrashInv` | src/block_device/bdev_lazy/bgworker.rs:99-110 | reloading after any crash re-establishes the invariant |
| `ProtocolTheorems.PublishedIsDurable` | src/block_device/bdev_lazy/metadata_flusher.rs:108-242 | in every reachable state of the whole device, every published bit is in every possible image |
| `ProtocolTheorems.WriteAhead` | src/block_device/bdev_lazy/device.rs:146-151 | with tracking on, a write at the target touches only stripes whose WRITTEN bit is in every possible image |
| `ProtocolDurability.WriteAcknowledged` | src/block_device/bdev_lazy/device.rs:246-297 | a write that completes is acknowledged on the plain disk, at every sector, with its data |
| `ProtocolDurability.FlushedIsDurable` | src/block_device/bdev_lazy/device.rs:299-320 | whatever happens meanwhile, what was acknowledged when a flush began is durable when the flush completes |
| `ProtocolDurability.DurableSurvives` | src/block_device/bdev_lazy/device.rs:246-320 | after any further steps and any crash, a durable value is still there or replaced by a newer one |
| `ProtocolDurability.MirrorsAfterCrash` | src/block_device/bdev_lazy/bgworker.rs:99-110 | after the crash the target holds what the plain disk holds at every published sector, also behind the end of the source |
| `ProtocolDurability.FlushedWriteSurvives` | src/block_device/bdev_lazy/device.rs:246-320 | a write completes, later a flush begins and completes, later the device crashes, with anything in between: each sector of the write then holds on the target the data of the write or a newer value of its history |
| `ProtocolWaiting.WaitsForSomething` | src/block_device/bdev_lazy/device.rs:102-193 | after any run, every stripe that a queued request waits for is in a message, being fetched, being recorded, published, failed, or its record was given up by a failed metadata write |
| `ProtocolWaiting.GivenUpIsStuck` | src/block_device/bdev_lazy/metadata_flusher.rs:134-145 | a failed write or flush of the record of a fetched stripe leaves the stripe fetched, unpublished and with nobody recording it, if and only if no other record of it is to be made |
| `ProtocolWaiting.StuckUntilRestart` | src/block_device/bdev_lazy/stripe_fetcher.rs:120-123 | such a stripe stays unpublished on every run without a restart, whatever is requested, fetched or recorded |
| `ProtocolStuck.NeverServed` | src/block_device/bdev_lazy/device.rs:131-179 | after every run without a restart from a state with such a stripe, no request that covers it goes to the target |
| `ProtocolStuck.StuckRunReaches` | src/block_device/bdev_lazy/metadata_flusher.rs:134-145 | a legal run of a new device that ends there: a guest read waits, its stripe is fetched and flushed, the write of its record fails, and the stripe is not on its way any more |
| `ProtocolTheorems.SourceReleased` | src/block_device/bdev_lazy/stripe_fetcher.rs:136-154 | once the counters meet, no later run queues a stripe or reads the source |
| `Codec.FramingRoundTrip` | src/archive/compression.rs:55-86 | framing succeeds exactly below 2^32 bytes, is sector-aligned, and extraction gives back the payload |
| `Codec.CompressionRoundTrip` | src/archive/compression.rs:9-53 | decompression inverts compression; the intermediate is sector-aligned |
| `Xts.TweakInjective` | src/crypt/block.rs:102-114 | different sector numbers have different tweaks |
| `Xts.TransformedAt` | src/crypt/block.rs:127-161 | sector i is transformed with the tweak of its number, the others are untouched |
| `Xts.CryptRoundTrip` | src/crypt/block.rs:127-161 | decrypting at the same place inverts encrypting |
| `Xts.Encrypt` | src/crypt/block.rs:145-161 | the in-place loop computes exactly that transformation |
| `Xts.Decrypt` | src/crypt/block.rs:127-143 | the in-place loop computes exactly that transformation |
| `CryptChannel.SubmitKeepsSlots` | src/block_device/bdev_crypt.rs:57-59 | read slots and outstanding reads stay in step if and only if the submission succeeds or staged no read |
| `CryptChannel.CompletionVisible` | src/block_device/bdev_crypt.rs:61-80 | completing a write or flush leaves the caller's memory alone if and only if no slot was left under its id, or it failed, or decryption would not change the buffer |
| `CryptChannel.CompletionTouches` | src/block_device/bdev_crypt.rs:61-80 | while no write or flush has the id of a read slot, only completing a read changes a buffer, and only its own |
| `CryptChannel.StaleSlot` | src/block_device/bdev_crypt.rs:57-80 | a failing run: after a failed submission of a read, completing a write with the same id decrypts the read's buffer |
| `CryptChannelMethods.CryptIoChannel.AddRead` | src/block_device/bdev_crypt.rs:30-41 | remembers the request in the slot of its id and passes it on |
| `CryptChannelMethods.CryptIoChannel.AddWrite` | src/block_device/bdev_crypt.rs:43-51 | encrypts each sector of the request in its buffer under the tweak of its number, leaves all other bytes alone, and passes the request on |
| `CryptChannelMethods.CryptIoChannel.Poll` | src/block_device/bdev_crypt.rs:61-80 | takes the slot of each completion and decrypts the buffers of successful reads in place |
| `CryptRefinement.NewInv` | src/block_device/bdev_crypt.rs:92-97 | a new channel over any disk stands for the decrypted disk |
| `CryptRefinement.NextInv` | src/block_device/bdev_crypt.rs:29-85 | the disk below stays the encryption of the plain disk, sector by sector, over failed submissions too |
| `CryptRefinement.ReadsLikePlain` | src/block_device/bdev_crypt.rs:29-85 | for any grouping of sectors into writes and reads, a completed read holds what the plain disk held at some moment while it was outstanding |
| `CryptRefinement.CompletedWriteHolds` | src/block_device/bdev_crypt.rs:29-85 | when a write completes, each of its sectors holds its data on the plain disk, or what a later write has put there |
| `CryptRefinement.WriteThenRead` | src/block_device/bdev_crypt.rs:29-85 | a sector written with one grouping into requests and then read with another comes back, if no other write touches it |
| `CryptRefinement.RetryEncryptsTwice` | src/block_device/bdev_crypt.rs:43-51 | a failed write that is added again with the same buffer carries the ciphertext of its data, which is its data if and only if encryption does not change it |
| `CryptRefinement.RefilledRetry` | src/block_device/bdev_crypt.rs:43-51 | a failed write that is added again after its buffer was filled anew carries its data |
| `StripeMapping.HmacInputInjective` | src/archive/stripe_hashes.rs:173-180 | the authenticated bytes determine version, length and payload |
| `StripeMapping.PadToSector` | src/archive/stripe_hashes.rs:162-171 | padding is aligned, shorter than a sector, and keeps the data as a prefix |
| `StripeMapping.MappingRoundTrip` | src/archive/stripe_hashes.rs:44-142 | deserializing a serialized mapping gives it back, encrypted or not |
| `StripeMapping.TamperedMappingRefused` | src/archive/stripe_hashes.rs:77-142 | an accepted file that carries the tag of a mapping, without being a collision, is that mapping |
| `Archive.StripeRoundTrip` | src/archive/archiver.rs:180-214 | decoding inverts compressing, padding and encrypting a stripe |
| `Archive.StartedInv` | src/archive/archiver.rs:134-161 | starting a stripe reads it into a buffer of its own, at the device if it was written or fetched, else at the source |
| `Archive.DeliveredInv` | src/archive/archiver.rs:163-178 | whatever the channels report, a stripe whose read has completed is in its buffer, and no other buffer is disturbed, unless a channel reports a read that it was not asked for |
| `Archive.UploadedInv` | src/archive/archiver.rs:192-235 | recording a stripe keeps: every object under its hash, made from a recorded stripe and handed over once, every record true of the bytes in the buffer, which begin with the stripe as device or source hold it |
| `Archive.AcknowledgedInv` | src/archive/archiver.rs:237-252 | a result of the store keeps it, also one for an object that is not outstanding, with the counter of uploads exact up to those |
| `Archive.ManifestComplete` | src/archive/archiver.rs:102-128 | at the end the manifest lists exactly the stripes written or sourced, with as many uploads as distinct hashes; every named object is stored if and only if the store has reported on outstanding uploads only |
| `Archive.ArchivedBytes` | src/archive/archiver.rs:146-235 | the archived bytes begin with the stripe as device or source hold it, and are the stripe if and only if it does not end early |
| `Archive.ArchivedStripe` | src/archive/archiver.rs:180-235 | each named object decodes to the bytes the archiver had of the stripe, also when shared, if no two objects of this archive collide |
| `ArchiveTail.StaleTail` | src/stripe_source/bdev.rs:22-41 | a run that succeeds, on outstanding requests only: of two stripes the source ends in the second, and the archive then holds for it the rest of the first |
| `ArchiveRuns.TurnedWork` | src/archive/archiver.rs:163-252 | every report in a turn of the loop brings the end nearer by at least one |
| `ArchiveRuns.GoodTurnSucceeds` | src/archive/archiver.rs:163-252 | a turn in which devices and store report successes of outstanding requests never fails |
| `ArchiveRuns.GoodRunSucceeds` | src/archive/archiver.rs:102-128 | if every turn starts or reports something and all reports are successes of outstanding requests, archiving ends with success within as many turns as there is work |
| `ArchiverMethods.StripeArchiver.StartFetchStripe` | src/archive/archiver.rs:146-161 | asks the device for stripes written or fetched and the source for the others, and fails if the submission does or the stripe lies behind the source |
| `ArchiverMethods.StripeArchiver.MaybeStartNextStripe` | src/archive/archiver.rs:134-144 | starts reading a stripe at its place if a buffer is free |
| `ArchiverMethods.StripeArchiver.StartUploadStripe` | src/archive/archiver.rs:192-235 | records the bytes in the stripe's buffer and uploads their object unless an equal one was uploaded |
| `ArchiverMethods.StripeArchiver.PollFetches` | src/archive/archiver.rs:163-178 | what device and source have completed is in the buffers and is recorded; the first failure aborts |
| `ArchiverMethods.StripeArchiver.PollUploads` | src/archive/archiver.rs:237-252 | counts every result, of outstanding objects or not; the first failure, or one too many, aborts |
| `ArchiverMethods.StripeArchiver.PutManifest` | src/archive/archiver.rs:285-313 | metadata, then mapping, both after every data object if the store reports on outstanding uploads only |
| `ArchiverMethods.StripeArchiver.ArchiveAll` | src/archive/archiver.rs:102-128 | exactly which reports lead to success, to failure and to waiting; on success the job is finished and the store's log ends with the manifest, after every object it names |
| `ArchiveManifest.TagInputInjective` | src/archive/hmac.rs:34-65 | what the tag of the metadata covers determines version, stripe size, encryption key and compression |
| `ArchiveManifest.OpenRoundTrip` | src/stripe_source/archive.rs:38-105 | opening what the archiver has written gives back its parameters and its mapping |
| `ArchiveManifest.TamperedMetadataRefused` | src/archive/hmac.rs:72-82 | metadata that verifies with the tag of an archive, without being a collision, says what the archiver said |
| `ArchiveSource.RequestCounted` | src/stripe_source/archive.rs:214-231 | a request adds one waiter or one result |
| `ArchiveSource.PollCounted` | src/stripe_source/archive.rs:131-142 | whatever the store answers, every waiting request becomes exactly one result, also when several share an object |
| `ArchiveSource.RequestCoalesces` | src/stripe_source/archive.rs:107-129 | a get is issued exactly when the object is not being fetched |
| `ArchiveSource.FinishedGenuine` | src/stripe_source/archive.rs:163-206 | a stripe is reported successful only if its bytes decode from data with the recorded hash |
| `ArchiveSource.RequestReading` | src/stripe_source/archive.rs:214-231 | a request with a buffer of its own keeps all waiting requests apart |
| `ArchiveSource.PollServed` | src/stripe_source/archive.rs:131-206 | everyone who waits for an object that an honest store answers is told success and finds its own stripe in its buffer, shared objects included, and nobody is refused |
| `ArchiveSource.ArchiveServes` | src/stripe_source/archive.rs:107-206 | a finished archive has, for every stripe to be archived, an object that verifies and decodes to the bytes the archiver had, and zeros for the others |
| `ArchiveSource.AcceptedIsContents` | src/stripe_source/archive.rs:163-206 | whatever a store answers, if a reader accepts it and it does not collide with the stored object, the buffer gets what the honest store holds |
| `ArchiveSource.ArchiveRoundTrip` | src/stripe_source/archive.rs:107-256 | after archiving, a reader that gets answers from an honest store is told success for every stripe it waits for, and finds the bytes that the archiver had |
| `ArchiveSourceMethods.OpenArchive` | src/stripe_source/archive.rs:38-105 | an archive is opened exactly if metadata and mapping are there, of the right version and authentic; then with their parameters and mapping |
| `ArchiveSourceMethods.ArchiveStripeSource.Request` | src/stripe_source/archive.rs:214-231 | zeros at once, or waits for the object |
| `ArchiveSourceMethods.ArchiveStripeSource.Poll` | src/stripe_source/archive.rs:233-256 | answers for known objects complete all their waiters |
| `Export.PollTidy` | src/stripe_source/archive.rs:131-142 | filling the buffer of one stripe never disturbs a finished one |
| `ExportMethods.Submit` | src/export_archive.rs:53-68 | keeps up to sixteen requests in flight; written plus in flight equals submitted |
| `ExportMethods.WriteOut` | src/export_archive.rs:70-86 | writes each completed stripe at its place, once |
| `ExportMethods.SomeResult` | src/export_archive.rs:53-86 | if something is in flight and the store answers something that is waited for, the poll delivers a result |
| `ExportMethods.ExportArchive` | src/export_archive.rs:48-96 | on success the file is the concatenation of the stripes with zeros at the holes, for any order of completion; with an honest store it never aborts, and succeeds within as many rounds as there are stripes if every round answers something that is waited for |
| `ExportMethods.ExportedImage` | src/export_archive.rs:20-100 | archive, open, export: the image holds, stripe by stripe, the bytes the archiver had, and zeros elsewhere |
| `ArchiveExport.ArchiveAndExport` | src/export_archive.rs:20-100 | archive a device, open the archive from what was put last, export it: what is exported is the image, stripe by stripe, and the export succeeds if the store keeps answering |
| `Secrets.SucceedsExactly` | src/config/v2/secrets.rs:110-181 | resolution succeeds exactly if references exist, nothing is circular and every load, decoding and decryption succeeds |
| `Secrets.CircularHasCycle` | src/config/v2/secrets.rs:141-145 | a circular set contains a chain of references that returns to its start |
| `Secrets.DepthsAgree` | src/config/v2/secrets.rs:153-181 | recursive resolution along a chain has one value |
| `SecretsMethods.CheckReferences` | src/config/v2/secrets.rs:119-127 | accepts exactly if every reference exists |
| `SecretsMethods.Pass` | src/config/v2/secrets.rs:130-147 | one pass resolves correctly; if it resolves nothing, everything left waits for something left |
| `SecretsMethods.ResolveSecrets` | src/config/v2/secrets.rs:110-151 | for any listing order the result is the recursive resolution; each source is loaded at most once, failing ones included, and all of them if it succeeds |
| `Includes.MergesIffNoClash` | src/config/v2/includes.rs:130-161 | merging succeeds exactly if no key path clashes |
| `Includes.UnionLeaves` | src/config/v2/includes.rs:130-161 | every leaf of the result comes unchanged from exactly one table, and none is dropped |
| `Includes.MergesAllIffNoClash` | src/config/v2/includes.rs:95-124 | merging a list of tables succeeds exactly if no two of them clash at a path |
| `Includes.MergedLeaves` | src/config/v2/includes.rs:95-124 | the leaves of the result are the leaves of the tables, none added, changed or dropped |
| `Includes.LeafOfOne` | src/config/v2/includes.rs:95-124 | a path that is a leaf in one of the tables is not defined in any other |
| `Includes.MergeCommutes` | src/config/v2/includes.rs:130-161 | merging is commutative, also in failing |
| `Includes.MergeAssociates` | src/config/v2/includes.rs:130-161 | and associative |
| `Includes.MergeAnyOrder` | src/config/v2/includes.rs:95-124 | any order of the same tables gives the same table or fails |
| `IncludesMethods.MergeTables` | src/config/v2/includes.rs:130-161 | computes the union whatever the key order, or names a path that clashes |
| `IncludesMethods.ResolveIncludes` | src/config/v2/includes.rs:84-127 | succeeds exactly if the includes parse, all files are readable or optional and missing, none includes others, and no two tables clash; every leaf of the result is then a leaf of exactly one of the tables, and none is dropped |
| `IncludesMethods.IncludeOrderIrrelevant` | src/config/v2/includes.rs:84-127 | listing the same includes in another order gives the same outcome |

## Left out

- Concurrency inside one call: a channel's call sees one snapshot of the shared table; different calls and all background steps interleave freely.
- Effects of a failed submission: a failed submission of the fetcher is taken to have no effect on the target; a write that completes with failure may have reached any of its sectors.
- Liveness of the lazy device: no promise that a queued request is ever served, only that what it waits for is not forgotten.
- The byte layout of metadata sectors and their checksums, and the superblock: a sector image is the sequence of its stripe headers.
- ProtocolRuns.FreshInv: a device is taken to start from metadata that marks no stripe FETCHED without HAS_SOURCE, because the code never writes such metadata; Metadata.NewSharedCounted says what would go wrong.
- CryptRefinement.NextInv: excludes a write or flush under the id of a slot that a failed submission of a read has left, because the code then decrypts the buffer of the read; CryptChannel.StaleSlot and CryptChannel.CompletionVisible say what happens.
- Torn sectors: a crash leaves each sector with one of the values applied to it.
- The worker's endless run loop: one receive and one update are modelled, in any sequence.
- Wrapping of keys and the JSON syntax of the metadata: parameters.
- Names of objects: an object is addressed by its hash, not by its hexadecimal name.
- The validation of include paths and the loading of secret sources (files, inline text, environment): parameters.
- io_uring and file devices, vhost and ublk frontends, object stores, the remote stripe server and client, RPC, statistics, command line tools and configuration sections.
- FetcherMethods.StripeFetcher.PollFetches: excludes failed completions of the target for stripes that are not in flight, because a channel reports on outstanding requests only; what the code would do is stated by FetcherMethods.StrayFailure.
- FetcherMethods.StripeFetcher.Update: the same.
- ArchiverMethods.StripeArchiver.ArchiveAll: the loop takes what the devices and the store report from a finite script and is waiting when the script ends, because the code may wait for ever; ArchiveRuns.GoodRunSucceeds says which scripts suffice.
- ExportMethods.ExportArchive: the loop ends unfinished after a given number of rounds, because the code may wait for ever.
- Worker.BgWorker.ReceiveRequests: a blocking call is modelled only when it returns, that is, when a request is pending or the senders are gone.
