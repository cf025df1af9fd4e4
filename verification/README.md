# Live migration of pods: a verified model

The operator moves a running pod from one cluster to another.  At the source,
`MigratePodPipelined` checkpoints the pod's containers in parallel, uploads the
checkpoint files in parallel, deletes the pod and finally removes the files.
After the uploads it sends a file named "dummy", the sentinel.  At the
destination a file handler stores what is uploaded, and a watcher starts a
restore when it sees a file whose name contains "dummy" appear.

This project models that protocol as transition systems and proves what holds
of every run: for every number of containers and files, every pattern of
failures and every interleaving of the goroutines.  Beside it stand the
file-name codec both ends rely on, the restore loops, the first-error latch of
the API server, and the heap behaviour of two helpers.

External calls (kubelet, curl, buildah, API server, directory operations) are
outcomes chosen in advance: `Model.Config` for one migration, `Restore.Steps`
for one file of a restore.  The theorems quantify over all of them.

## Layout

| file | contents |
|---|---|
| `Storage.dfy`, `Model.dfy`, `Text.dfy` | the two directories, listings, one migration's inputs, effects, substrings |
| `FanOut.dfy` | one goroutine per item joined on a WaitGroup |
| `Capture.dfy` | `CheckpointPodPipelined` |
| `Upload.dfy`, `Sentinel.dfy` | `MigrateCheckpointParallelized`, the file handler's two steps and the watcher |
| `Pipeline.dfy`, `PipelineInv.dfy`, `PipelineTheorems.dfy` | `MigratePodPipelined`: machine, inductive invariant, theorems |
| `Termination.dfy`, `Sequential.dfy`, `Schedule.dfy` | pod deletion, the sequential versions, and their agreement with the pipeline |
| `FileNames.dfy` | the file-name codec and image tags |
| `Restore.dfy`, `ParallelRestore.dfy`, `EndToEnd.dfy` | the three restore functions, and migration followed by restore |
| `FileHandler.dfy`, `Latch.dfy`, `Helpers.dfy`, `Converter.dfy` | the smaller stateful components |

## Assumptions about the environment

- The service lookup and the pod watch succeed, and every external call returns.
- The directory the file handler writes is the directory the watcher watches.
- `os.ReadDir` returns distinct names in sorted order, and nothing but the
  operator writes to either directory during a migration.
- curl returns only after the handler of its request has returned.  An upload
  reads the file's contents when it stores them, in one step.
- The kubelet gives different snapshots different names (`DistinctSnapshots`);
  results that need this say so.
- Creating a file that exists already truncates it and raises no create event.
- One migration runs at a time, and the watcher has no event pending when it
  starts.
- A failed removal of the source directory leaves it as it was.
- In `BuildahRestoreParallelized` an assignment of the pod name, and a read or a
  store of the container list, is one step (`ParallelRestore`).  Go promises less
  for such unsynchronised accesses to values of several words.
- The watcher takes events one by one in the order they were raised, and a
  restore sees the directory as it was when the event was taken.

## Findings

Several claims one would expect are false of the code.  For each there is the
exact condition under which it holds, or what holds instead.

- A restore can start on a half-copied file exactly when some uploaded file is
  new at the destination, gets created, and has "dummy" in its name
  (`SafeExactlyWhenQuiet` for the uploader, `PipelineSafeExactly` for the whole
  pipeline; witness `AlarmIsUnsafe`).
- A sentinel left over from an earlier migration raises no create event, so
  the next migration triggers no restore (`RestoreTriggeredExactly`).
- The pod is deleted whatever became of its checkpoints.  If stage 1 gives up
  early, or stage 2 cannot read the directory, nothing has been migrated
  (`FinishedRun`).  If an upload fails, the sentinel follows and the cleanup
  removes the source's copy all the same.  `SnapshotSurvivesExactly` says for each
  snapshot exactly when it is whole at the destination, and when any whole copy
  of it is left.
- All goroutines finish (`EveryGoroutineFinishes`), but only because
  `TerminateCheckpointedPod` never returns an error: with one, the stage-2 worker
  would wait at its send for ever (`MaximalRunsFinish`).
  The comment in `WaitForPodDeletion` says that a closed watch counts as a
  deletion; the code returns an error there, which `TerminateCheckpointedPod` drops.
- The pod built by `BuildahRestorePipelined` has no containers, since the list
  filled in the loop shadows the one it is built from (`BuildahRestorePipelined`).
- Two failed steps on one file block that restore for ever, as its channel of
  capacity 2 is never drained (`RunSteps`).
- `BuildahRestoreParallelized` may name the pod "dummy" and may create it without
  containers, even if every step works (`RestoreIsUnsure`; exact conditions in
  `NameIsSureExactly` and `ContainersAreSureExactly`).
- From a checkpoint of 2024 the container name is recovered exactly if it has one
  hyphen (`ContainerNameRoundTrip`); the source's comment speaks of one part,
  the code takes two.  Without a "2024" part anywhere after the first, as in most
  checkpoints of another year, nothing is found (`MissingExactly`), and all such
  files share one nameless container and one image tag (`UndatedCollide`).  The scan
  panics exactly on paths with a single part before the last "2024"
  (`OutOfRangeExactly`).
- The watcher's restore panics on a checkpoint exactly if the pod's name begins
  with "2024-" and the rest of the file name has no "2024" part, for example on
  pod `2024-x` checkpointed in 2025 (`WatcherPanicsExactly`).  Checkpoints of 2024
  never do that (`DatedPasses`).
- Files other than the sentinel that are left over at the destination take part in the next restore, and if one of
  them sorts first it names the pod (`RestoreAfterMigration`).
- Image tags collide exactly when the last two parts before the year agree, in the
  whole path (`TagsCollideExactly`).  For container names with a hyphen these are
  the last two parts of the names (`HyphenatedTagsCollideExactly`, witnesses
  `TagCollision`).  For a name without one, the first of the two comes from the
  namespace: in namespace `x-a`, containers `b` and `a-b` collide
  (`NamespaceCollision`).
- Different checkpoints can have the same file name, since a hyphen may belong to
  the namespace or to the container (`SharedFileName`).  Two checkpoints with the
  same file name are the same exactly if their container names have equally many
  hyphens (`FileNameInjective`).
- The statuses of a converted list are right exactly if all of them equal the
  last one (`Converter.List`).

## Model

| member | source | states |
|---|---|---|
| `FanOut.SpawnInv` | controllers/checkpoint.go:46-64 | Each step of the loop that adds to the WaitGroup, starts a goroutine and waits keeps the fan-out invariant: the counter is the number of started, unfinished workers, plus one between Add and go |
| `FanOut.AdvanceInv` | controllers/migrate.go:103-128 | Any step of any worker keeps that invariant and lowers the measure |
| `FanOut.NoNegativeCounter` | controllers/checkpoint.go:52-64 | No Done takes the counter below zero |
| `FanOut.FanProgress` | controllers/checkpoint.go:46-64 | A fan-out that was not joined can always step: Wait never hangs if the workers' calls return |
| `Storage.LessExactly` | controllers/restore.go:204 | The order of directory listings is the lexicographic one |
| `Capture.JoinedRequests` | controllers/checkpoint.go:45-67 | When the parallel checkpoint returns, every list entry has got exactly one request and one answer, and the requests are the container list up to order |
| `Upload.TriggersOnName` | controllers/livemigration.go:153-159 | The watcher's test on the full path holds exactly if the file's own name contains "dummy" |
| `Upload.UpStep` | controllers/migrate.go:103-145 | Every step of a worker, of the caller or of the watcher keeps the upload invariant (per-file destination contents, source directory, trace) and lowers the measure |
| `Upload.UpProgress` | controllers/migrate.go:103-147 | Until the parallel uploader has returned, one of its goroutines can step |
| `Upload.UploadConfluence` | controllers/migrate.go:103-145 | In every state that satisfies the invariant and in which the call is over, the destination is the sequential fold over the same files with the same outcomes, then the sentinel step |
| `Upload.ReferenceFiles` | controllers/migrate.go:33-54 | What the sequential reference leaves under each name, in terms of source contents and outcomes |
| `Upload.ReferenceSentinel` | controllers/migrate.go:130-145 | What it leaves under the sentinel's name |
| `Upload.TouchedExactly` | controllers/migrate.go:130 | touch makes an empty file if there is none and changes nothing else |
| `Sentinel.UploadRefinesLoop` | controllers/migrate.go:33-54 | For every run and every failure pattern, the destination left by the parallel uploader equals that of uploading one file after the other, followed by the sentinel; the source has gained the sentinel |
| `Sentinel.UploadLeavesExactly` | controllers/migrate.go:103-128 | On the inputs alone, for every returned run: each listed file is whole, cut off after the bytes copied, or as it was before, according to its own upload; no other name at the destination and no other source file changes, the sentinel aside |
| `Sentinel.SentinelLeftExactly` | controllers/migrate.go:130-145 | For every returned run: a new sentinel is an empty file and arrives as `Whole("")` if its upload works; an existing one keeps its contents; without one nothing is posted |
| `Sentinel.SentinelSafety` | controllers/migrate.go:103-145 | In every run without a file taken for the sentinel, at most one restore starts, only after every worker has finished, and it finds each file whose upload did not fail whole, with its source contents |
| `Sentinel.RestoreStartsExactlyOnce` | controllers/livemigration.go:149-166 | After the call and with no event pending, one restore was started if the sentinel was created anew, none otherwise |
| `Sentinel.UploadTerminates` | controllers/migrate.go:99-148 | Runs of the uploader and watcher are no longer than linear in the number of files, and one that cannot go on has returned |
| `Sentinel.AlarmIsUnsafe` | controllers/livemigration.go:156-159 | If some file is taken for the sentinel, a run exists whose restore finds that very file created but not filled |
| `Sentinel.SafeExactlyWhenQuiet` | controllers/livemigration.go:153-159 | No run lets a restore start before all uploads are over, if and only if no file is taken for the sentinel |
| `Pipeline.ControlStep` | controllers/migrate.go:204-272 | Every step keeps program counters, channel closes and the outer WaitGroup consistent |
| `Pipeline.BranchesStep` | controllers/migrate.go:208-246 | Every step keeps the branches taken consistent with the outcomes of the calls |
| `PipelineInv.InvStep` | controllers/migrate.go:204-272 | The full invariant (control, checkpoint requests, source directory, upload, order of effects) is inductive over all moves of all goroutines |
| `PipelineInv.RunInv` | controllers/migrate.go:197-272 | It holds in every state of every run |
| `PipelineTheorems.ChannelsAndWaitGroupsAreSafe` | controllers/migrate.go:204-251 | Always: nobody is about to send on or close a closed channel or to take a counter below zero, each channel is closed at most once, all three counters equal their busy workers, and no Add or go follows the start of its Wait |
| `PipelineTheorems.DeleteNeverOvertakesCheckpoint` | controllers/migrate.go:205-253 | The pod is deleted at most once; no checkpoint request is in flight then or issued afterwards, also when stage 1 exits early |
| `PipelineTheorems.CleanupNeverRacesUpload` | controllers/migrate.go:261-269 | The source directory is removed at most once, after all uploads and the sentinel have been attempted; while uploads run, the directory is the one that was listed |
| `PipelineTheorems.RestoreFindsEverySnapshot` | controllers/migrate.go:229-246 | Sentinel safety for the whole pipeline: if no snapshot's upload is taken for the sentinel's, a restore starts after all uploads are over and finds every snapshot whose upload did not fail, whole |
| `PipelineTheorems.RestoreTriggeredExactly` | controllers/livemigration.go:149-166 | A finished migration has triggered exactly one restore if stage 2 ran and the sentinel was created anew at the destination, none otherwise |
| `PipelineTheorems.MeasureStep` | controllers/migrate.go:204-272 | Every move of every goroutine lowers the measure |
| `PipelineTheorems.RunsAreFinite` | controllers/migrate.go:204-272 | No run has more than 14n + 44 steps for n containers |
| `PipelineTheorems.Progress` | controllers/migrate.go:204-272 | In every state satisfying the invariant some goroutine of the call can step, unless all are finished or the stage-2 worker is stranded at its send |
| `PipelineTheorems.MaximalRunsFinish` | controllers/migrate.go:253-269 | A run that cannot go on has all goroutines finished if and only if it is not the case that termination of the pod reported an error while stage 2 uploads |
| `PipelineTheorems.EveryGoroutineFinishes` | controllers/migrate.go:204-272 | Deadlock freedom and termination of the code: with the error that `TerminateCheckpointedPod` really returns, whatever get, delete and watch answer, runs are bounded, no worker is ever stranded, and a run that cannot go on has all goroutines finished |
| `PipelineTheorems.FinishedRun` | controllers/migrate.go:197-272 | The outcome of every finished run: the pod is deleted in any case; with stage 1 and the listing successful the destination is the sequential upload of the snapshots plus sentinel and the cleanup ran once; otherwise the destination is untouched; the source directory in every case |
| `PipelineTheorems.FinishedSentinel` | controllers/migrate.go:130-145 | What every finished run leaves under the sentinel's name at a destination that had none |
| `PipelineTheorems.LastSnapshotWins` | controllers/crio.go:16-25 | After the checkpoint loop the directory holds under each name the last snapshot of that name, and otherwise what was there before |
| `PipelineTheorems.SnapshotSurvivesExactly` | controllers/migrate.go:208-269 | After every finished run a snapshot of a new name is whole at the destination if and only if stage 2 uploads and its upload did not fail, and a whole copy is left anywhere if and only if that is so, or the cleanup failed, or the snapshots were taken and stage 2 did not upload |
| `PipelineTheorems.EveryContainerCheckpointedOnce` | controllers/checkpoint.go:45-67 | Once stage 1 of any run is past the checkpoint, each container was requested exactly once, and the requests are the list up to order |
| `Termination.WaitForPodDeletion` | controllers/utils/utils.go:147-161 | Returns no error if and only if a Deleted event comes before the watch is closed |
| `Termination.TerminateCheckpointedPod` | controllers/checkpoint.go:15-43 | Never returns an error, whatever get, delete and watch answer |
| `Sequential.LoopRequests` | controllers/crio.go:16-25 | The checkpoint loop requests the containers in list order, each once |
| `Sequential.ParallelRefinesLoop` | controllers/checkpoint.go:45-67 | In every run the requests of the parallel checkpoint are those of the sequential loop up to order |
| `Sequential.Migration.CheckpointPodCrio` | controllers/crio.go:11-28 | The loop leaves the directory and the trace of answering all requests in list order |
| `Sequential.Migration.MigrateCheckpoint` | controllers/migrate.go:20-57 | The upload loop leaves the fold of the uploads, whatever fails; the only error is a failed ReadDir, and then nothing changes |
| `Sequential.Migration.MigrateCheckpointParallelized` | controllers/migrate.go:99-148 | Whatever run the uploader's goroutines take, the directories it leaves are those of the fold and the sentinel step; its trace is the run's |
| `Sequential.Migration.MigratePod` | controllers/migrate.go:150-195 | For every run of its uploader: error if and only if the directory cannot be created, and then pod and destination are untouched; otherwise the pod is gone if the deletion was accepted, each listed file arrives as its own upload went, and source, destination and pod do not depend on the run |
| `Schedule.PipelineAgreesWithMigratePod` | controllers/migrate.go:150-272 | On the same inputs and outcomes, every finished run of the pipeline whose directory operations work ends with the destination and the pod that `MigratePod` leaves, and with its source directory if the cleanup fails |
| `Schedule.LoopOrderIsARun` | controllers/migrate.go:33-145 | Uploading one file after the other and then the sentinel is a run of the parallel uploader |
| `Schedule.MigratePodIsASchedule` | controllers/migrate.go:150-272 | Every run of `MigratePod`, whatever its uploader does, followed by the cleanup, has the effects of a finished run of the pipeline in the same order |
| `Schedule.SequentialOrderIsASchedule` | controllers/migrate.go:150-272 | In particular the effects strictly one after the other are a finished run of the pipeline |
| `Schedule.PipelineSafeExactly` | controllers/livemigration.go:153-159 | No run of the pipeline lets a restore start before all uploads are over, if and only if stage 2 never uploads or no snapshot's upload is taken for the sentinel's |
| `FileNames.PodNameIsTheGroup` | controllers/utils/utils.go:164-174 | The result is the group of the unique leftmost lazy match, and empty if nothing matches |
| `FileNames.MarkHasNoOverlap` | controllers/utils/utils.go:166 | In a path whose directory is free of "checkpoint-", no occurrence starts inside the directory |
| `FileNames.PodNameRoundTrip` | controllers/utils/utils.go:164-174 | Extraction returns the pod name if and only if it has no newline and no underscore after its first character |
| `FileNames.PodOfName` | controllers/utils/utils.go:164-174 | The pod name is recovered from every file name that begins with it, whatever namespace, container and date follow |
| `FileNames.SplitJoin` | controllers/utils/utils.go:178 | Splitting at hyphens loses nothing: joining gives the text back, the parts are hyphen-free and one more than the hyphens |
| `FileNames.RetrieveContainerName` | controllers/utils/utils.go:176-197 | The descending scan returns the two parts before the last "2024", nothing if there is none or it comes first, and goes out of range if it comes second |
| `FileNames.ContainerNameRoundTrip` | controllers/utils/utils.go:176-197 | On every path `head-container-2024-rest` without a later "2024" part the index is in range, and the result is the container name if and only if that has one hyphen |
| `FileNames.MissingExactly` | controllers/utils/utils.go:180-196 | Nothing is found if and only if no part after the first is "2024" |
| `FileNames.OutOfRangeExactly` | controllers/utils/utils.go:186-187 | The index access panics if and only if a single part stands before the last "2024" |
| `FileNames.PodPanicsExactly` | controllers/utils/utils.go:184-187 | In a directory without a hyphen, the scan of a pod's checkpoint panics if and only if the pod's name begins with "2024-" and no later part is "2024" |
| `FileNames.StampHasNoYear` | controllers/utils/utils.go:183-184 | What follows the year in a date and time of section 5.6 of RFC 3339 never contains a "2024" part |
| `FileNames.FileNameRoundTrip` | controllers/utils/utils.go:164-197 | Both extractors invert the file-name printer, in any directory free of the mark |
| `FileNames.RoundTripsWrittenOut` | controllers/utils/utils.go:164-197 | The same with "checkpoint-" and "2024" written out |
| `FileNames.FileNameInjective` | controllers/utils/utils.go:164-197 | Two checkpoints with the same file name are equal if and only if their container names have equally many hyphens |
| `FileNames.SharedFileName` | controllers/utils/utils.go:178 | Otherwise they can differ: namespace `x-y` with container `z` prints like namespace `x` with container `y-z` |
| `FileNames.TagsCollideExactly` | controllers/livemigration.go:335-361 | Two checkpoints get the same image tag if and only if the last two parts of their paths before the year agree; no condition on the container names |
| `FileNames.HyphenatedTagsCollideExactly` | controllers/livemigration.go:335-361 | If both container names have a hyphen, that is if and only if the last two parts of the names agree |
| `FileNames.PlainTagsDoNotCollide` | controllers/livemigration.go:335-361 | Distinct hyphen-free containers of one pod and namespace are extracted under distinct names |
| `FileNames.TagsDoNotCollide` | controllers/livemigration.go:335-361 | Distinct one-hyphen container names get distinct tags |
| `FileNames.NamespaceCollision` | controllers/utils/utils.go:184-189 | In a namespace ending in `-y`, containers `z` and `y-z` are extracted under the same name |
| `FileNames.TagCollision` | controllers/utils/utils.go:184-189 | Names that differ only before their last two parts are extracted as the same name |
| `Restore.UndatedCollide` | controllers/livemigration.go:286 | Any two checkpoint files without a "2024" part give the same nameless container and image |
| `Restore.ResultChannel.Send` | controllers/livemigration.go:289 | A send on the undrained channel goes through exactly if there is room |
| `Restore.RunSteps` | controllers/livemigration.go:289-368 | Error if and only if the chmod fails; blocks for ever if and only if the chmod works and two of from, add, config and commit fail; otherwise one container with the committed image; the image is committed if and only if the commit works and one of the three steps before it did |
| `Restore.ProcessFile` | controllers/livemigration.go:275-369 | The same, and if and only if for the panic; the sentinel yields no container and the name "dummy"; the container's name and image are those extracted from the path |
| `Restore.BuildahRestorePipelined` | controllers/restore.go:203-243 | The first bad file decides the result; pod creation is reached exactly when there is none; the pod has the first file's pod name and no containers; an empty listing panics |
| `Restore.BuildahRestore` | controllers/restore.go:29-141 | The pod is submitted exactly if all files before the sentinel went through, with their containers in order; otherwise the first that did not decides |
| `Restore.RestoreListing` | controllers/restore.go:29-141 | On one pod's checkpoints of any date plus sentinel: submitted if and only if for every file chmod, from, add and config worked and the name does not panic; right pod name, one container per file in order with that file's container name and image, none skipped; otherwise the first such file decides between an error and the panic |
| `Restore.DatedListing` | controllers/restore.go:69 | For checkpoints of 2024 the condition is that the four steps work, and every container has a name |
| `ParallelRestore.NameIsSomeWorkers` | controllers/restore.go:154-181 | When the parallel restore gets past its Wait, every worker has come back and the pod name is one that some worker assigned |
| `ParallelRestore.EndsExactly` | controllers/restore.go:154-173 | A run that cannot go on has passed the Wait if and only if every call of processFile comes back |
| `ParallelRestore.ContainersAreSomeWorkers` | controllers/restore.go:166 | At any time the container list holds only containers made by workers, none twice |
| `ParallelRestore.AnyNameIsPossible` | controllers/restore.go:161 | Every worker's name is the final one in some run |
| `ParallelRestore.FailureCanUnname` | controllers/restore.go:161-165 | If some file fails, the pod can end up without a name |
| `ParallelRestore.OthersCanBeLost` | controllers/restore.go:166 | For every worker some run ends with the list holding that worker's container at most |
| `ParallelRestore.NameIsSureExactly` | controllers/restore.go:161 | The pod is sure to get a given name if and only if every worker assigns that name |
| `ParallelRestore.ContainersAreSureExactly` | controllers/restore.go:166 | No container can get lost if and only if there is at most one worker or no worker makes a container |
| `ParallelRestore.RestoreIsUnsure` | controllers/livemigration.go:277-280 | On one pod's listing with every step working, one run gives the pod its name, another gives it "dummy", and one leaves it without containers |
| `EndToEnd.RestoreFindsExactly` | controllers/livemigration.go:152-159 | Whatever the schedule and the destination to begin with, the names a restore finds are exactly the sentinel, what was there before and the snapshots that arrived |
| `EndToEnd.RestoreReadsOnePod` | controllers/restore.go:203-210 | With an empty destination to begin with, the listing it reads is the pod's checkpoints and, last, the sentinel |
| `EndToEnd.RestoreAfterMigration` | controllers/livemigration.go:156-165 | End-to-end identity, for checkpoints of any date: the pod the watcher's restore creates is named after the first listed file, which gives the migrated pod's name if it is a snapshot; if the destination was empty it is one if and only if any snapshot arrived, and otherwise the restore ends in an error; creation is reached if and only if that name is not empty and every file passes (no panic, chmod works, at most one failed step); otherwise the first file that does not pass decides between panic, error and blocking for ever |
| `EndToEnd.WatcherPanicsExactly` | controllers/utils/utils.go:184-187 | A pod's checkpoint makes the watcher's restore panic if and only if the pod's name begins with "2024-" and no later part is "2024" |
| `EndToEnd.DatedPasses` | controllers/livemigration.go:286-356 | A checkpoint of 2024 passes if and only if its chmod works and at most one step fails |
| `FileHandler.Handler.HandleFile` | file-handler/file-handler.go:36-76 | A POST whose file can be opened and created stores it whole with status 200, or its first bytes with status 500 if the copy breaks off, raises a create event if and only if the name is new, and touches no other file; every other request leaves the directory alone; the status of each |
| `FileHandler.FoldedVerbs` | file-handler/file-handler.go:37-69 | The spellings of POST and GET that are accepted |
| `Latch.FirstErrorWins` | api-server/signals.go:16-31 | Over any sequence of calls the stored error is the first non-nil one, and none exactly if all were nil |
| `Latch.ErrSignaler.SignalError` | api-server/signals.go:16-31 | One call stores the first non-nil error and closes the channel with it; later calls change nothing |
| `Latch.ErrSignaler.Error` | api-server/signals.go:33-37 | Returns the stored error, which is not nil once the channel is closed |
| `Latch.LatchIsConsistent` | api-server/signals.go:16-43 | In every interleaving of any number of callers: at most one close, never before an error is stored, and closed if and only if stored whenever the mutex is free |
| `Latch.FirstErrorIsStored` | api-server/signals.go:16-31 | No error gets lost: nothing is stored if and only if no call past its tests had an error; what is stored is the error of the first such call in lock order, and that order lists exactly the calls past their tests |
| `Latch.EveryCallReturns` | api-server/signals.go:16-43 | A run that cannot go on has every call and Start returned, and the channel closed if and only if some call had an error |
| `Latch.StoredErrorIsFinal` | api-server/signals.go:24-30 | A stored error never changes |
| `Latch.ErrorArmReturnsAnError` | api-server/manager.go:64-70 | Start returns an error if and only if it took the error arm, and then the stored one |
| `Helpers.GetPodsLabelSet` | controllers/helpers.go:78-84 | A new map with exactly the template's labels, for every iteration order |
| `Helpers.GetPodsAnnotationSet` | controllers/helpers.go:92-103 | A new map in which `sourcePod`, `snapshotPolicy` and `snapshotPath` are the migration's source pod, action and path, and every other key is as in the template |
| `Helpers.Int32` | controllers/helpers.go:47 | The conversion to int32 is in range, congruent to its argument and the identity on the range |
| `Helpers.DesiredDeployment` | controllers/helpers.go:39-76 | Selector and pod labels are one new map holding the template's labels and `migratingPod`; the annotations key by key; the template's own maps are unchanged |
| `Helpers.RelabelPods` | controllers/helpers.go:55-63 | A later change of the pod labels reaches the selector and not the template |
| `Converter.Object` | api-server/endpoints/converter.go:11-22 | All fields agree, and the selector and the status are the argument's own, not copies |
| `Converter.List` | api-server/endpoints/converter.go:24-32 | Each item mirrors its own element but for the status; all statuses are one cell holding the last element's; they are right if and only if all equal the last |

## Left out

- ParallelRestore.NameIsSomeWorkers: takes an assignment of the pod name as one step; a torn string, which Go allows in such a race, is not modelled.
- ParallelRestore.ContainersAreSomeWorkers: takes the container list as a value that is read and stored as a whole; two appends writing the same slot of a shared backing array are not modelled.
- Restore.BuildahRestorePipelined: the listing is an input, so an unreadable directory appears as the empty listing.
- Sequential.Migration.MigrateCheckpoint: the loop never asks for an entry's info; the outcome `NoInfo` counts as a file that was not created.
- EndToEnd.RestoreAfterMigration: is about migrations in which no snapshot's upload is taken for the sentinel's, that is, about restores that do not start too early.
- The watcher is always ready for the next event: the time it spends inside a running restore is not modelled, and neither is a restore blocking the watcher.
- `Reconcile`: set-up, the polling for the source pod, and the final select on two channels that nothing sends on.
- `PrintContainerIDs`: the container list is an input.
- `MigrateDummyFile`: the same loop as `MigrateCheckpoint` restricted to one name.
- `WaitForServiceReady`, `WaitForContainerReady`: polling in real time.
- `manager.Start`: waiting for the cache, creating the server and closing the internal stop channel; only its select is modelled.
- `GetActualRunningPod`, `getPodsPrefix`, `getPodsFinalizers`, `desiredPod`, `PushDockerImage`, `RemoveCheckpointPod`: easy members.
- `main.go`, the HTTP endpoints and server wiring, `Validate`, the dummy pod and service, generated deep copies, manifests and scripts.
