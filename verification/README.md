# Accelerated Container Image: models and proofs

This project models the parts of the accelerated-container-image repository whose
correctness depends on interleaving, on state kept across calls, or on an
invariant that no single function shows, and proves properties of those models.
`dafny verify dfyconfig.toml` checks all of it.

| files | what they model |
|---|---|
| `BuilderEngine`, `LayerDirs` | the overlaybd and TurboOCI conversion engines: per-layer results, the growing list of lowers, chain ids, layer directories |
| `LayerPipeline`, `PipelineSafety`, `PipelineHistory`, `PipelineRuns`, `PipelineProgress` | one image's conversion: four goroutines for each of n layers, unbuffered channels, selects on a shared context, deferred closes, an errgroup |
| `IndexConversion`, `IndexSafety`, `IndexProgress`, `IndexOutcomes` | recursive index conversion: a goroutine for every entry, a WaitGroup for every index, in-place writes and filtering, a counting semaphore |
| `DedupCache` | the layer table of the conversion database against the registry, used by any number of converters at once |
| `ManifestReuse` | the registry store's check of a pushed manifest, and the reuse of converted manifests across repositories, which rests on it |
| `SnapshotSpecs` | the backing-store config of every snapshot, over any history of Prepare, View, Commit and Remove |
| `SnapshotDevices`, `SnapshotLocks` | devices shared by snapshots, and the per-snapshot locks around them |
| `SnapshotDirs` | snapshot directories against metadata while Prepare, Remove and Cleanup interleave |
| `QuotaDriver` | the project-quota id allocator and the loading of recorded ids |
| `DiskUsage` | the hard-link-aware disk-usage walk |
| `Counting`, `Decimals`, `Wrappers` | sums over sequences, decimal numerals, optional values |

Objects whose methods update fields (the two engines, the registry store, the
manifest table, the snapshotter's config store, the quota driver, the walk's
counters) are classes. Concurrent code is a state machine: a goroutine is a
program counter, every send, receive, close, engine call, return and
cancellation is a step, and the outcome of every external call is chosen by the
step. The engines' methods are proved against functions on `EngineState`, and the
pipeline's steps use those functions. A theorem about "every run" quantifies over
all step sequences from an initial state, hence over all interleavings, failure
patterns and cancellation points.

## What the proofs show about the code

Where a property holds only under a condition, the condition is proved to be
exact or a concrete run shows that it is needed.

- A goroutine's deferred `close` (or `wg.Done`) runs before the errgroup records
  its error and cancels the context. In that window the next layer can be built
  on a config without the failed layer, the failed layer's unfinished file can be
  uploaded and entered in the database (`PipelineRuns.FailedBuildWindow`; what rows
  there can be at all is in `PipelineRuns.RowsInEveryRun`), and an
  index can be uploaded with a source entry left in place
  (`IndexSafety.FailedChildWindow`). Claims about all runs therefore say "has
  returned"; claims that say "has succeeded" are made for runs whose Wait returns
  nil.
- Without a failure from outside or a cancellation, neither conversion can fail on
  its own: Wait returns nil, for an index if its tree holds only manifests and
  indexes (`PipelineHistory.FaultFreeRunsSucceed`,
  `IndexOutcomes.FaultFreeRunsSucceed`), and every run in which nothing has failed
  yet can still be completed (`PipelineProgress.FaultFreeRunCanSucceed`,
  `IndexOutcomes.FaultFreeRunCanSucceed`).
- "not from dedup but commit file is present" happens exactly when a failed
  cached download could not remove its partial file; "from dedup but commit file
  is missing" never happens (`PipelineRuns.DedupFlagMatchesCommitFile`, with the
  failing run in `PipelineRuns.LeftoverFailsBuild`).
- The comment on `RepoStore.Push` says that an existing blob is an error; the
  code accepts it and skips the layer check. The model follows the code, and
  `ManifestReuse.MistypedPushBreaksComplete` shows what that allows.
- `mountImage` treats an opened upload session as a mounted blob; that the layers
  are there afterwards is guaranteed only by the check on the manifest push, and
  nothing guarantees the config (`ManifestReuse.MountedConfigExactlyWhen`,
  `ManifestReuse.ImageWithoutConfig`).
- `Remove` detaches devices before it can still fail. It takes a device away from a
  reader in exactly two cases: it is called on a block snapshot with readers and
  the detach goes through, or it is called on the last active or view snapshot
  over a block, itself an active reader, and fails after having detached the
  parent's device (`SnapshotDevices.RemoveKeepsExactlyWhen`). The second happens
  to callers who remove only childless snapshots
  (`SnapshotDevices.FailedRemoveStrandsReader`); the next Mounts that attaches gives
  the device back (`SnapshotDevices.MountsCoversAgain`).
- Removing a view never releases its parent's device
  (`SnapshotDevices.ReleasesExactlyWhen`).
- A snapshot loses its directory exactly if Prepare commits an id whose directory
  is gone or listed by a running Cleanup (`SnapshotDirs.DirectoriesFollowMetadata`).
  That takes a failed Prepare that leaves its directory behind: its id is given
  out again (`SnapshotDirs.StaleDirectoryLosesSnapshot`).
- With the largest uint32 recorded, the next quota id wraps around to 0
  (`QuotaDriver.LargestIDWrapsAround`); with an id recorded from QuotaMaxID up to
  the one before it, the search reloads without end
  (`QuotaDriver.SearchNeverEnds`).
- A plain file named `mountpoint` hides itself and the rest of its directory from
  the disk-usage walk, because SkipDir on a file skips the file's directory. A
  root that does not exist, or an entry that disappears before it is looked at,
  makes the callback dereference a nil FileInfo before it looks at the error.

## Model

| member | source | states |
|---|---|---|
| BuilderEngine.ChainIDsIdentifyPrefixes | cmd/convertor/builder/overlaybd_builder.go:74-81 | two layers share a chain id exactly when all diff ids from the bottom up to them agree, so a cache hit is always for the same layer on the same layers |
| BuilderEngine.OverlaybdEngine.constructor | cmd/convertor/builder/overlaybd_builder.go:60-88 | the engine starts with the optional base layer as its only lower, untouched results, and each layer's chain id over the diff ids up to it |
| BuilderEngine.OverlaybdEngine.BuildLayer | cmd/convertor/builder/overlaybd_builder.go:96-159 | the whole effect of a build for every way the tools can behave: exactly when it succeeds, that the file is then the one the tools have made or the cached one, which error and config there are otherwise, and that lowers grow by this layer's file exactly on success |
| BuilderEngine.OverlaybdEngine.DownloadConvertedLayer | cmd/convertor/builder/overlaybd_builder.go:403-415 | on success the commit file, the dedup flag and the cached descriptor are set together; on failure nothing but a partial file that could not be removed stays |
| BuilderEngine.OverlaybdEngine.UploadLayer | cmd/convertor/builder/overlaybd_builder.go:161-186 | fails without a file, on a digest other than the cached one, or if the push fails; otherwise the descriptor becomes that of the built file |
| BuilderEngine.OverlaybdEngine.StoreConvertedLayerDetails | cmd/convertor/builder/overlaybd_builder.go:392-401 | a row with this layer's chain id and uploaded digest, unless the layer was deduplicated |
| BuilderEngine.OverlaybdEngine.UploadImage | cmd/convertor/builder/overlaybd_builder.go:188-210 | the loop that overwrites manifest layers and diff ids in place gives the image that UploadImageResult describes, with the base layer first when mkfs is off |
| BuilderEngine.ImageOfUploaded | cmd/convertor/builder/overlaybd_builder.go:188-200 | for an engine whose layers have all been uploaded: when there is an image at all, and that its manifest and diff ids correspond position by position in source order to the built files, base layer first when mkfs is off |
| BuilderEngine.TurboOCIEngine.constructor | cmd/convertor/builder/turboOCI_builder.go:59-76 | the engine starts with the optional base layer as its only lower |
| BuilderEngine.TurboOCIEngine.DownloadLayer | cmd/convertor/builder/turboOCI_builder.go:78-87 | records whether the layer is compressed, and fails if that or the download fails |
| BuilderEngine.TurboOCIEngine.BuildLayer | cmd/convertor/builder/turboOCI_builder.go:89-140 | the whole effect of a build for every way the tools can behave; on success the archive is the one that was made, and lowers grow by an entry with the source layer's digest, the metadata file of the file-system type, and the gzip index of a compressed layer |
| BuilderEngine.TurboOCIEngine.UploadLayer | cmd/convertor/builder/turboOCI_builder.go:142-175 | the layer's descriptor becomes that of its archive exactly when the archive is there and the push succeeds |
| BuilderEngine.TurboOCIEngine.UploadImage | cmd/convertor/builder/turboOCI_builder.go:177-213 | every diff id is that of the layer's built archive, although the loop overwrites the digest that names the archive's directory; manifest layers are the uploaded ones, base layer first when mkfs is off |
| LayerDirs.DistinctDirectories | cmd/convertor/builder/overlaybd_builder.go:477-479 | layer directories are equal only for the same index and digest, so they are pairwise distinct even for repeated digests and for indexes of more than four digits |
| PipelineSafety.StepKeepsInv | cmd/convertor/builder/builder.go:414-499 | every step of every goroutine keeps the pipeline invariant: builds start in order, waits are justified, failures are reported, and the engine's files, configs and rows agree with the program counters |
| PipelineHistory.FilesInEveryRun | cmd/convertor/builder/overlaybd_builder.go:96-186 | in any run, by the outcomes of its own steps: a layer is deduplicated exactly if a cached download was completed; verdict, config and file of a build are those its outcome calls for; a layer built successfully has exactly the file that the run gave it, the fetched one or else the one the tools made; and an upload succeeds exactly if it is pushed, there is a file, and that of a deduplicated layer is the one offered |
| PipelineHistory.FaultFreeRunsSucceed | cmd/convertor/builder/builder.go:412-511 | if nothing outside fails, nobody cancels and cached downloads bring what was offered, no goroutine ever reports an error, so that Wait can only return nil |
| PipelineRuns.BuildsNeverOverlap | cmd/convertor/builder/builder.go:465-486 | in every reachable state at most one BuildLayer is running; calls start in index order without gaps, after all lower builds and the own downloads have returned |
| PipelineRuns.LowersInEveryRun | cmd/convertor/builder/overlaybd_builder.go:136-157 | in every run, failing and cancelled ones included, the shared config lists the base layer and exactly the successfully built layers in order, and a written config file lists those below its layer |
| PipelineRuns.VerdictsAreFinal | cmd/convertor/builder/builder.go:476-486 | a BuildLayer that has returned keeps its verdict to the end of the run |
| PipelineRuns.NothingStartsOnceCancelled | cmd/convertor/builder/builder.go:466-491 | once the context is cancelled no further BuildLayer or UploadLayer is called |
| PipelineRuns.RowsInEveryRun | cmd/convertor/builder/builder.go:488-498 | in any run each row is of an uploaded, not deduplicated layer, under its chain id and the digest that the run gave its file, whose BuildLayer has returned; if that failed, the file is one that a failed step left, and Wait does not return nil; TurboOCI asks for no row |
| PipelineRuns.DuringSuccessfulRun | cmd/convertor/builder/builder.go:466-498 | at every moment of a run whose Wait returns nil, layer i is built on the base layer and layers 0..i-1, and is uploaded only after its own build succeeded |
| PipelineRuns.SuccessfulRun | cmd/convertor/builder/builder.go:500-511 | when Wait returns nil, so before UploadImage, every layer was built once and in order and uploaded under the one digest that the run gave its file (the fetched cached one, equal to the one offered, or the one the tools made), every converted layer's config lists precisely the layers below it, and the rows are those of the layers not deduplicated, each with the digest its build produced |
| PipelineRuns.ImageOfSuccessfulRun | cmd/convertor/builder/builder.go:500-511 | after a run whose Wait returned nil, for both engines: exactly when UploadImage has an image, and that position by position in source order its manifest names the digest that the run gave the layer's file, with that file's diff id, base layer first unless mkfs is on |
| PipelineRuns.DedupFlagMatchesCommitFile | cmd/convertor/builder/overlaybd_builder.go:99-122 | at entry to BuildLayer the commit file is present exactly for a deduplicated layer or a partial file that could not be removed; which of the two "should not happen" errors can happen, and exactly when |
| PipelineRuns.LeftoverFailsBuild | cmd/convertor/builder/overlaybd_builder.go:406-409 | for any image, a run in which a failed cached download leaves its file behind and BuildLayer(0) fails with the second of these errors |
| PipelineRuns.FailedBuildWindow | cmd/convertor/builder/builder.go:466-478 | for any image of two or more layers, a run in which BuildLayer(1) works without layer 0 and layer 0's unfinished file is uploaded and stored after BuildLayer(0) failed |
| PipelineProgress.EveryRunIsBounded | cmd/convertor/builder/builder.go:412-502 | no run has more than 23 steps a layer, plus one |
| PipelineProgress.SuccessReachesBoth | cmd/convertor/builder/builder.go:480-484 | while the context is live, a convert goroutine that has ended with a success has handed it to its own upload and to the next convert goroutine, once each |
| PipelineProgress.NoDeadlock | cmd/convertor/builder/builder.go:412-527 | in every reachable state in which a goroutine has not returned, some step of the builder is possible that is neither a cancellation nor a failure |
| PipelineProgress.WaitIsReached | cmd/convertor/builder/builder.go:500-502 | every reachable state can be continued, without outside help or a further failure and within the remaining measure, to one in which Wait returns |
| PipelineProgress.FaultFreeRunCanSucceed | cmd/convertor/builder/builder.go:412-511 | as long as nothing has failed, every run can be continued to one in which Wait returns nil |
| IndexConversion.FilterInPlace | cmd/convertor/builder/builder.go:194-202 | appending to the empty prefix of the very list being ranged over yields the entries without the attestation annotation, in order |
| IndexConversion.FilterAfterWrites | cmd/convertor/builder/builder.go:185-202 | filtering after the children's in-place writes gives the conversion of the list filtered before them |
| IndexSafety.StepKeepsInv | cmd/convertor/builder/builder.go:145-334 | every step keeps the invariant tying goroutines, their parents' lists and the WaitGroups together |
| IndexSafety.TaskConverted | cmd/convertor/builder/builder.go:145-244 | in a finished run without error every goroutine has converted its own source descriptor: a manifest into what was built from it, an index entry by entry |
| IndexSafety.TargetsInEveryRun | cmd/convertor/builder/builder.go:224-243 | in any run a manifest's target has the media type, digest and size that overlaybdBuilder.Build returned for it, and an index's the size that was uploaded |
| IndexSafety.SuccessfulConversion | cmd/convertor/builder/builder.go:129-142 | for any nesting and interleaving, when Wait returns nil the result is the same tree with attestations dropped and every other entry converted in source order: each manifest replaced by what overlaybdBuilder.Build returned for it, keeping every field but digest, size and media type; each index an OCI one if asked for, referring to its source with the artifact type if asked for, and otherwise with the source's fields |
| IndexSafety.UploadedIndexInAnyRun | cmd/convertor/builder/builder.go:189-240 | in any run an index is uploaded only once all its children are past wg.Done, with the media type, artifact type and subject asked for; each entry is the target of its child if that succeeded, and the untouched source entry if it failed |
| IndexSafety.FailedChildWindow | cmd/convertor/builder/builder.go:179-192 | a run in which an index is uploaded with a source entry from which nothing has been built, because its failed child has run wg.Done but is not yet recorded; the result is not a conversion |
| IndexProgress.ConcurrencyBounded | cmd/convertor/builder/builder.go:246-261 | at most ConcurrencyLimit buildOne calls are past acquisition at once, a release never blocks, and tokens are leaked only after cancellation |
| IndexProgress.EveryRunIsBounded | cmd/convertor/builder/builder.go:145-244 | no run has more steps than the work found in the source tree, plus one |
| IndexProgress.NoDeadlock | cmd/convertor/builder/builder.go:163-261 | for any nesting depth and any limit, while some goroutine has not returned some step is possible that is neither a cancellation nor a failure |
| IndexOutcomes.NoUploadOnceCancelled | cmd/convertor/builder/builder.go:189-192 | once the context is cancelled no further index begins to be uploaded |
| IndexOutcomes.FaultFreeRunsSucceed | cmd/convertor/builder/builder.go:145-244 | if nothing outside fails and nobody cancels, Wait returns nil exactly if everything in the tree, attestations aside, is a manifest or an index that unmarshals |
| IndexOutcomes.FaultFreeRunCanSucceed | cmd/convertor/builder/builder.go:145-244 | as long as nothing has failed, the conversion of such a tree can still be completed |
| DedupCache.StepKeepsInv | cmd/convertor/builder/overlaybd_builder.go:212-271 | every database statement, probe, mount, push and deletion keeps rows, and everything a converter has read, genuine |
| DedupCache.RowsNameTheirBlobs | cmd/convertor/builder/overlaybd_builder.go:161-186 | in every interleaving each row names a blob of its own repo (unless deleted since) that was built for its chain id on its host |
| DedupCache.LookupsReturnOwnChain | cmd/convertor/builder/overlaybd_builder.go:212-271 | every descriptor a lookup returns was built for the chain id looked up on the same host, and its blob has been put into the client's repo |
| DedupCache.IssuedBlobsExist | pkg/convertor/convertor.go:444-460 | a digest is only ever recorded for a chain id after its blob was pushed to some repo of that host |
| DedupCache.GrowingRegistry | pkg/convertor/convertor.go:362-425 | if the registry deletes nothing, every row and every returned descriptor names a present blob, and no lookup ever deletes a row |
| DedupCache.TableAfterStep | cmd/convertor/builder/overlaybd_builder.go:212-271 | the rows after any step of any converter: those not deleted, unchanged, and a created one exactly if its primary key was free |
| DedupCache.StoreWritesRow | cmd/convertor/builder/overlaybd_builder.go:392-401 | recording a converted layer writes its row if the key is free, and changes no other row |
| DedupCache.StoredLayerIsFound | cmd/convertor/builder/overlaybd_builder.go:217-234 | once the row of a pushed layer has been accepted, any later lookup of its key, by whomever and in any interleaving, that gets its answers ends with that digest, until the row is deleted or the registry drops the blob |
| DedupCache.MountedLayerIsFound | cmd/convertor/builder/overlaybd_builder.go:242-266 | the same for the row of a layer mounted from another repo |
| DedupCache.OtherReposLayerIsMounted | cmd/convertor/builder/overlaybd_builder.go:242-266 | a lookup without a row of its own can take a blob that another repo of its host has for the chain id, which puts blob and row into its own repo |
| DedupCache.LostLayerIsReplaced | cmd/convertor/builder/overlaybd_builder.go:235-241 | a row whose blob the registry has lost is deleted, alone, so that the layer converted instead can be stored under the same key |
| DedupCache.RowsWereConverted | cmd/convertor/builder/overlaybd_builder.go:392-401 | in every run a row's digest was made by a converter working on the row's chain id for the row's host |
| ManifestReuse.RepoStore.Push | cmd/convertor/testingresources/local_repo.go:164-220 | exactly which pushes are accepted, and what blobs and tags hold afterwards |
| ManifestReuse.PushKeepsComplete | cmd/convertor/testingresources/local_repo.go:176-211 | a checked push keeps every stored manifest complete exactly when the blob was already there or everything it needs is |
| ManifestReuse.MistypedPushBreaksComplete | cmd/convertor/testingresources/local_repo.go:180-182 | a manifest first pushed under a layer media type escapes the check for good |
| ManifestReuse.HistoryKeepsComplete | cmd/convertor/testingresources/local_repo.go:164-220 | over any history of pushes of documents as what they are, every stored manifest has all its layers stored |
| ManifestReuse.MountBlob | cmd/convertor/builder/overlaybd_builder.go:353-371 | what one mount adds for each answer of the registry; an opened session counts as success without adding anything |
| ManifestReuse.MountImage | cmd/convertor/builder/overlaybd_builder.go:347-380 | the loop over config and layers and the manifest push do to the target what AfterImage says, also when they stop half-way; only a pushed manifest is tagged |
| ManifestReuse.MountedImageHasLayers | cmd/convertor/builder/overlaybd_builder.go:360-379 | whatever the answers to the mounts, success means that the manifest and all its layers are in the target |
| ManifestReuse.MountImageSucceedsExactlyWhen | cmd/convertor/builder/overlaybd_builder.go:347-380 | by the two repositories and the answers alone: mountImage succeeds exactly if no mount is answered with a failure, none with "already exists" for a blob that neither has, and every layer was in the target or is mounted, unless the manifest was there already |
| ManifestReuse.MountedConfigExactlyWhen | cmd/convertor/builder/overlaybd_builder.go:348-358 | after success the config is in the target exactly if it was there before or a mount of its digest was answered "already exists" |
| ManifestReuse.ImageWithoutConfig | cmd/convertor/builder/overlaybd_builder.go:353-358 | an opened session for the config leaves an image without a config |
| ManifestReuse.MountImageKeepsComplete | cmd/convertor/builder/overlaybd_builder.go:347-380 | mounting an image keeps every manifest in the target complete, also when it fails half-way |
| ManifestReuse.TryCandidate | cmd/convertor/builder/overlaybd_builder.go:305-334 | exactly when one candidate repository hits, ends the lookup with an error, or loses its row, and what each does to the target and to the table |
| ManifestReuse.CheckForConvertedManifest | cmd/convertor/builder/overlaybd_builder.go:276-338 | the own row is returned whenever its manifest can be fetched; without one a manifest is found exactly if some candidate hits before the lookup gives up, and it is the first such candidate's; a returned manifest was recorded for this source and is in the target with all its layers; rows are deleted only when their blob is missing and created only for the own key with the manifest in place |
| SnapshotSpecs.ConvertedLayerConstructedTwice | pkg/snapshot/overlay.go:953-966 | the two constructions Commit makes for a converted local layer write the same list |
| SnapshotSpecs.FirstReadableFileDecides | pkg/snapshot/overlay.go:1601-1645 | which storage a snapshot is taken to be on, for each first one of the three data files that can be read, and for none |
| SnapshotSpecs.ConstructSucceedsExactlyWhen | pkg/snapshot/storage.go:643-823 | everything that a construction needs: the parent's config, a storage that fits, a host that works, and a bottom entry where a TurboOCI snapshot looks at one |
| SnapshotSpecs.InheritedEntries | pkg/snapshot/storage.go:810-824 | inherited entries keep order, owner, form and file, except that the fallback gives all files one name, exactly for a TurboOCI snapshot whose bottom entry names a file |
| SnapshotSpecs.OwnEntryOnTop | pkg/snapshot/storage.go:658-799 | which form the snapshot's own entry has and which file it names, for each kind of storage, with and without the fallback |
| SnapshotSpecs.ConstructListed | pkg/snapshot/storage.go:643-823 | the list written is the parent's entries followed by exactly one of its own, or by none if writable; the fallback either leaves all of them as they are or renames all of them |
| SnapshotSpecs.ConstructOneMeta | pkg/snapshot/storage.go:685-704 | a list of TurboOCI layers uses one file-system metadata name, each file in its own snapshot's directory, with and without the ext4 fallback |
| SnapshotSpecs.Snapshotter.UpdateSpec | pkg/snapshot/storage.go:840-856 | changes the trace flags of one config and never any list |
| SnapshotSpecs.Snapshotter.ConstructSpec | pkg/snapshot/storage.go:627-828 | what is written for a snapshot of the current metadata extends its parent's current list |
| SnapshotSpecs.Snapshotter.PrepareLayer | pkg/snapshot/overlay.go:531-604 | preparing a pulled layer: exactly when it succeeds, whether it is mounted or committed at once, exactly when a config is written, and that it lists the parent's entries and then the layer's own |
| SnapshotSpecs.Snapshotter.PrepareRootfs | pkg/snapshot/overlay.go:622-709 | preparing a root file system: exactly when it succeeds; a config exactly for a writable one, which lists the parent's entries; which trace flags the parent's and the own config get |
| SnapshotSpecs.Snapshotter.CreateMountPoint | pkg/snapshot/overlay.go:481-714 | exactly when Prepare and View succeed; a failure leaves metadata and lists alone; success adds one snapshot, without the mode label on ordinary storage; a layer's list is the parent's entries and then its own, a writable snapshot's list equals its parent's, literally unless the fallback renames all entries |
| SnapshotSpecs.Snapshotter.Commit | pkg/snapshot/overlay.go:868-984 | exactly when Commit succeeds: an active snapshot, a free name, a writable snapshot with a config detached and sealed, a storage that can be told, and everything that the construction which is due needs; only the committed snapshot's own list can change, to the parent's entries and then its own; a failure keeps the metadata |
| SnapshotSpecs.Snapshotter.ConstructCommitted | pkg/snapshot/overlay.go:943-966 | for which layers Commit writes a config, and which |
| SnapshotSpecs.Snapshotter.Remove | pkg/snapshot/overlay.go:1067-1187 | drops exactly the snapshot and its config, if nothing fails before and it has no children, and nothing otherwise |
| SnapshotSpecs.ConfigListsItsChain | pkg/snapshot/storage.go:643-656 | in every reachable state a config lists exactly the entries that the snapshots of its chain have written for themselves, each once, bottom first; only the fallback may have renamed their files |
| SnapshotSpecs.ReadOnlyChainIsComplete | pkg/snapshot/storage.go:643-729 | in every reachable state a chain of read-only configs is listed completely, one entry a snapshot |
| SnapshotSpecs.RootfsListsItsImage | pkg/snapshot/storage.go:643-656 | in every reachable state a writable root file system lists exactly what its image lists, up to the fallback's renaming, and so every layer of a read-only chain |
| SnapshotSpecs.TurboChainHasOneMeta | pkg/snapshot/storage.go:810-824 | in every reachable state a config of only TurboOCI layers uses one metadata file name |
| SnapshotDevices.PrepareKeeps | pkg/snapshot/overlay.go:622-692 | Prepare and View keep every reader's device attached, attach exactly the new reader's or the writable snapshot's own, and detach none |
| SnapshotDevices.MountsKeeps | pkg/snapshot/overlay.go:821-853 | Mounts keeps every reader's device attached and changes no snapshot |
| SnapshotDevices.MountsAttachesExactly | pkg/snapshot/overlay.go:826-853 | in every state a Mounts that can attach brings the device of the block that an active or view snapshot without its own is prepared on, a reader or not, and no other; one that cannot changes nothing |
| SnapshotDevices.MountsCoversAgain | pkg/snapshot/overlay.go:839-853 | a reader that has lost its device has it again after a Mounts exactly if that attaches |
| SnapshotDevices.CommitKeeps | pkg/snapshot/overlay.go:904-943 | Commit keeps every reader covered; exactly when it takes the new name, and that the only device it detaches is the committed snapshot's own, also when it fails |
| SnapshotDevices.RemoveKeepsExactlyWhen | pkg/snapshot/overlay.go:1108-1162 | by the state, the snapshot and the host's behaviour alone: Remove leaves a reader without its device exactly if it detaches a block snapshot with readers, or fails after having detached the parent of the last active or view snapshot on it, an active reader |
| SnapshotDevices.RemoveOfParent | pkg/snapshot/overlay.go:1113-1162 | Remove of a block snapshot whose detach goes through keeps its readers covered exactly if it has none, although with children it returns an error |
| SnapshotDevices.RemoveSucceedsExactlyWhen | pkg/snapshot/overlay.go:1113-1166 | by the state and the host's answers alone, exactly when Remove drops the snapshot |
| SnapshotDevices.RemoveDetachesExactly | pkg/snapshot/overlay.go:1113-1152 | the devices that are gone after a Remove, successful or not: the own one, and the parent's if it gets that far |
| SnapshotDevices.ReleasesExactlyWhen | pkg/snapshot/overlay.go:1131-1152 | a successful Remove releases an attached parent's device exactly if the removed snapshot was active, the parent looks like a block, no other active or view snapshot is on it and no overlay uses it; removing a view never does |
| SnapshotDevices.ReadersStayCovered | pkg/snapshot/storage.go:236-291 | across any run of Prepare, View, Mounts, Commit and Remove, a block parent's device stays attached as long as an active or view reader of it exists, exactly if no Remove of the run is one of those two |
| SnapshotDevices.CarefulNeverStrands | pkg/snapshot/overlay.go:1131-1162 | sufficient for a caller: remove only childless snapshots, and for an active reader let Remove finish once the parent's device has been detached |
| SnapshotDevices.FailedRemoveStrandsReader | pkg/snapshot/overlay.go:1146-1165 | one image and one running container: a failing Remove of the childless container leaves it without its device, until a Mounts attaches it again |
| SnapshotLocks.LocksExclude | pkg/snapshot/overlay.go:812-818 | two calls that hold their locks share neither snapshot nor parent |
| SnapshotLocks.RemovesExclude | pkg/snapshot/overlay.go:1077-1091 | two calls of Remove are never inside the write transaction together |
| SnapshotLocks.NoDeadlock | pkg/snapshot/overlay.go:1131-1137 | any number of concurrent Mounts and Remove calls cannot deadlock on the locks and the write transaction: while one is unfinished some call goes on, without any call giving up, because a parent's id is smaller than its child's |
| SnapshotLocks.EveryRunIsBounded | pkg/snapshot/overlay.go:1131-1137 | all of these calls end |
| SnapshotLocks.OppositeOrdersDeadlock | pkg/snapshot/overlay.go:814-817 | without that order of ids two calls can block each other for good |
| SnapshotDirs.StepIsGoodExactlyWhen | pkg/snapshot/overlay.go:481-509 | a step keeps live snapshots' directories in place and off all worklists exactly if it is not a Prepare committing an id whose directory is gone or listed by a running Cleanup |
| SnapshotDirs.DirectoriesFollowMetadata | pkg/snapshot/overlay.go:1008-1063 | for every interleaving: in all its states live snapshots have their directories and no pending worklist names a live id, exactly if no Prepare makes such a commit; and none does if every failing Prepare takes its directory away |
| SnapshotDirs.StaleDirectoryLosesSnapshot | pkg/snapshot/overlay.go:502-509 | a run in which a failed Prepare keeps its directory, its id is reused, and Cleanup deletes the live snapshot's directory |
| SnapshotDirs.RemoveLeavesOnlyLive | pkg/snapshot/overlay.go:1158-1183 | a synchronous Remove that nothing disturbs takes the snapshot out of the metadata and leaves exactly the directories of the other live snapshots |
| SnapshotDirs.CleanupLeavesOnlyLive | pkg/snapshot/overlay.go:1008-1063 | so does, for what asynchronous Removes have left, a Cleanup that nothing disturbs |
| QuotaDriver.SplitJoin | pkg/snapshot/diskquota/quota_utils.go:65-74 | splitting the report into lines and fields loses nothing and leaves no separator |
| QuotaDriver.LoadQuotaIDs | pkg/snapshot/diskquota/quota_utils.go:55-86 | the loaded ids are exactly those above QuotaMinID that some line of the report records, together with their maximum; an error exactly if the command fails |
| QuotaDriver.PrintedReportIsRead | pkg/snapshot/diskquota/quota_utils.go:65-85 | printing and loading: from a report of usage lines, each with any fields after the id, and other lines, exactly the ids above QuotaMinID that fit into a uint32 are loaded |
| QuotaDriver.Collect | pkg/snapshot/diskquota/quota_utils.go:65-85 | the loop over the report's lines returns exactly the ids that its lines give, and their maximum |
| QuotaDriver.PrjQuotaDriver.Load | pkg/snapshot/diskquota/prjquota.go:189-194 | a load replaces both fields; a failed one empties them, so that the next allocation loads again |
| QuotaDriver.PrjQuotaDriver.GetNextQuotaID | pkg/snapshot/diskquota/prjquota.go:185-217 | the id handed out is the successor of the maximum, not recorded before, and in (QuotaMinID, QuotaMaxID] exactly when the maximum is not the largest uint32; between loads ids strictly increase; when the search loads again, and that it ends if every loaded id is below QuotaMaxID |
| QuotaDriver.LargestIDWrapsAround | pkg/snapshot/diskquota/prjquota.go:200-201 | a one-line report after which the only id that can be handed out is 0 |
| QuotaDriver.MaximumIDBlocksAllocation | pkg/snapshot/diskquota/prjquota.go:196-212 | a one-line report with one id taken after which the search loads again |
| QuotaDriver.SearchNeverEnds | pkg/snapshot/diskquota/prjquota.go:196-212 | however often that report is read, the search is still going on |
| DiskUsage.Counter.Count | pkg/utils/du_unix.go:66-71 | an inode is counted and its size added on its first sight only |
| DiskUsage.Counter.Walk | pkg/utils/du_unix.go:53-73 | the walk of one root adds exactly the inodes its SkipDir rules let it see, and ends as they say |
| DiskUsage.DiskUsageWithoutMountpoint | pkg/utils/du_unix.go:46-83 | the reported count and size are the cardinality of, and the block sum over, the set of distinct inodes seen over all roots; otherwise the first walk that fails decides between an error and the panic on a missing node |
| DiskUsage.FailsExactlyWhen | pkg/utils/du_unix.go:53-73 | without a file named mountpoint, there is no usage exactly if something outside the mountpoint directories is missing or cannot be read; only the former panics, only the latter is an error |
| DiskUsage.OutsideIsReachable | pkg/utils/du_unix.go:54-57 | the inodes that should be counted are those at the end of some path that enters no directory named mountpoint |
| DiskUsage.CountedOrLost | pkg/utils/du_unix.go:53-73 | every such inode is seen by the walk or lies behind a file named mountpoint |
| DiskUsage.CountsEverythingExactlyWhen | pkg/utils/du_unix.go:46-83 | the count is that of the inodes outside the mountpoint directories exactly when everything behind a file named mountpoint is also met elsewhere; without hard links and overlapping roots, exactly when there is no such file |
| DiskUsage.MountpointFileHidesSiblings | pkg/utils/du_unix.go:55-57 | a directory whose file named mountpoint hides the file after it |
| DiskUsage.UsageIgnoresOrder | pkg/utils/du_unix.go:52-76 | the order of roots and entries and the repetition of roots do not matter |

## Left out

- Registry HTTP, TLS, resolvers, MySQL and compression: each operation succeeds, fails, reports not-found or already-exists.
- The external binaries and the configfs and sysfs writes: each is one atomic step with an outcome.
- `zdfs.PrepareOverlayBDSpec` and the containerd metastore are not part of this model; exclusive write transactions, increasing ids given back on rollback, and the refusal to remove a parent or to commit anything but an active snapshot are assumed.
- Digests are collision free: a digest stands for its content, and chain ids are the sequences that they hash.
- PipelineRuns.SuccessfulRun: its rows are those that StoreConvertedLayerDetails asks for when a database is configured; whether the database accepts them is the subject of DedupCache.
- The check for a converted manifest and the tagging at the start of `overlaybdBuilder.Build` run before any goroutine and are not part of the pipeline's state machine; the check itself is in ManifestReuse.
- BuilderEngine.OverlaybdEngine.UploadLayer: `noUpload` runs are the case in which the push succeeds; DedupCache leaves them out, since rows are then stored without an upload.
- IndexSafety.SuccessfulConversion: the content fetched for an index is taken to be what its digest names; what `overlaybdBuilder.Build` makes of a manifest is an arbitrary digest, size and media type here.
- Shared devices, locks and directories are modelled as state machines on values rather than as classes, because their properties are about interleaved calls.
- SnapshotDevices.ReadersStayCovered: covers autoRemoveDev outside the Docker runtime mode; that mode counts children differently. The host's answers within one operation are inputs of its exact condition.
- SnapshotDirs.DirectoriesFollowMetadata: a Remove whose closing commit fails after its directory is gone is excepted, since `Remove` ignores that error.
- SnapshotSpecs.Snapshotter.CreateMountPoint: a closing `t.Commit` that fails is not modelled; Docker's init and container layers, id-mapped mounts, quotas and the mount options returned are left out. So is the panic that follows the transaction for a read-only root file system over a layer blob that Commit has not converted.
- SnapshotSpecs.Snapshotter.Commit: labels are given as they are after the metadata update; the index panic of a construction that looks at the bottom of an empty list counts as a failure.
- QuotaDriver.PrjQuotaDriver.GetNextQuotaID: works on what successive loads return, as LoadQuotaIDs guarantees it; setting quotas on directories is left out.
- DiskUsage.DiskUsageWithoutMountpoint: an inode reports the same number of blocks throughout the walk, cancellation is left out, and the size does not overflow int64.
- The local-apply path of `applyOCIV1LayerInObd`, `pushObject`'s writer handling, metrics, logging, CLI commands, record-trace signals and JSON encoding: plumbing without a hard property.
