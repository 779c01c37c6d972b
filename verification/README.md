# Verification of the indexed core

This project models the Qt-free core of `indexed`, a Linux file-search tool, in Dafny and proves what
its parts promise one another. `dafny verify dfyconfig.toml` checks all of it.

| files | part of the program |
|---|---|
| `IndexService`, `ServiceModel`, `ServiceFrames`, `ServiceQueue`, `ServiceScope`, `ServiceRequests`, `ServiceData`, `ServiceCoverage`, `ServiceProgress`, `ServiceRemoval`, `ServicePersistence`, `ServiceDrained`, `ServiceAnyOrder`, `ServiceRace`, `ServiceExclusions` | the index-work protocol: requesters, one command worker, one file-operations thread, over the store, the index file and a changing disk |
| `IndexStore`, `LiveEvents` | the live and staging pools, the incremental changes, and what live file-system events do to them |
| `WalkTree`, `WalkScanner`, `WalkProtocol` | the parallel directory walk over a finite tree, for any number of workers |
| `IndexPool`, `IndexSerializer`, `Crc32`, `Words` | the in-memory pool, the binary index file, its checksum |
| `Tokens`, `SubstringScan`, `SearchEngine`, `SearchCoordinator` | searching, its accelerators, and the search-as-you-type pipeline |
| `PathUtils` | root collapsing and root differences |
| `SaveThrottle`, `HelperLoop`, `StatusFile` | the helper's live saves and its status file |
| `Common` | shared vocabulary |

Two forms appear side by side. What one thread does between two locks is a class method or a method
with a loop, proved against a specification function over the old state. What several threads do
together is a step system: `Enabled` says when a step can be taken, `Apply` what it does (calling the
same specification functions), invariants are proved step by step, and the main theorems speak about
every run. Fields named `hist`, `visited`, `info`, `lost` and the like are histories that no step reads; the ledger of
`ServicePersistence` is computed from a run. A specification function that a method is proved against has its
own laws, stated without it.

What the models take from outside: the disk is a finite map from paths to nodes that the file thread
and anybody else may change; a scan sees paths one at a time and hands each to the store in a later
step; a scan during which the disk does not change sees exactly the scope that the walk theorems prove
it emits, and one during which file operations take paths off it sees everything that stays and nothing
that was not there; each scan has its own exclusions; writing the index file is one step that replaces
it or does not, whatever it reports; clocks, listings, cancellation moments, whether an index file is
recent enough to be loaded, and choices of schedule are inputs. Bytes are characters below 256; machine integers are
bounded and casts and wrap-arounds are written out where the source has them.

Where the code and its comments part, the model follows the code, and a lemma says what follows:

- a selected directory below another selected root is scanned exactly if the walk from above goes into it; on another device it is not (`SelectedScannedExactly`, `SelectedMountSkipped`);
- a Settings change compares roots only: new exclusions reach the roots it scans and no others, so one that alters nothing else does nothing, and the index reflects its options exactly if it scanned everything or the kept roots contribute the same under their old exclusions and the new ones (`ExclusionsIgnored`, `ReflectedExactly`, `IndexReflectsLatest`);
- a Settings change that only drops the root "/" leaves everything indexed (`RemovalExactly`);
- a file removed while no scan runs stays in the index file if it was there, and exactly then a reload brings it back (`ReloadRevives`);
- a helper rebuild whose save failed is forgotten by `MarkSaved`: at a clean exit the file holds the store exactly if the last rebuild's save or a later one replaced the file, or the file from before it already held it (`CleanExitExactly`);
- removing a path takes away one copy only (`RemoveLeavesCopies`);
- removing a directory leaves everything that was live below it in the index (`RemovalLeavesBelow`, `DrainedExactly`);
- requesters that race leave the index off the latest options exactly when the latest request took an incremental path from an index that was not what its old roots and its own exclusions say (`AnyOrderExactly`, with `RacingRequestersLoseRoots` as an instance);
- a live event never indexes the directory that appeared, only the last entry of its scan, and two Added events leave two copies (`AddedExactly`, `AddedDirectoryMissed`, `AddedTwiceOutlivesRemoval`);
- whole-word search tests only the first occurrence, which is right for an entry exactly when no whole-word occurrence follows a first one that is none, and it narrows exactly from prefixes that already have a separator (`WholeWordExactly`, `WholeWordNarrowsExactly`).

Three families of runs appear in the service theorems. The queue theorems hold in all runs. The removal
theorems hold in all runs in which a removal meets a store that lists its path at most once, which
`RemoveLeavesCopies` shows to be what one removal needs; loads, reloads and foreign writes of the index
file (the elevated helper replaces it) are among them. The coverage theorems hold in orderly runs
(`ServiceRequests.Orderly`): the old roots of a Settings change are the roots of the request registered
before it (none before the first), requests are enqueued in the order in which they were registered, root
lists are collapsed, no change only drops "/", and a file that is loaded lists only paths under the last
dequeued request's roots, none twice. Exclusions are free: every request carries its own. What the index
then holds is said root by root (`Held`): each root with the exclusions it was last scanned with.
`ServiceAnyOrder` drops the first two conditions and says exactly what is then left of coverage.

## Model

| member | source | states |
|---|---|---|
| `ServiceQueue.QueuesAlways` | src/core/indexer/IndexService.cpp:44-228 | In every reachable state of every run, with any requesters: at most one scan token is uncancelled and it is the latest; busy reports alternate from true, and the last one is true while a command is at work; at most one reload is queued and not started; a drained queue without shutdown is not busy and owes no load; file jobs run as a prefix of the accepted ones, and all of them have run when the file thread has left |
| `ServiceQueue.StepTokens` | src/core/indexer/IndexService.cpp:44-82 | Every step of every thread keeps all tokens but the latest cancelled, and never uncancels one |
| `ServiceQueue.StopsEveryScan` | src/core/indexer/IndexService.cpp:124-155 | After RequestStopLocalIndexing or Shutdown every token ever handed out is cancelled |
| `ServiceQueue.StepBusy` | src/core/indexer/IndexService.cpp:396-417 | Every step keeps pendingBusy_ equal to the rebuilds and Settings changes registered and not yet released (at least that many after a shutdown) and the busy flag in step with the report log |
| `ServiceQueue.StepShown` | src/core/indexer/IndexService.cpp:396-403 | Every step keeps a command at work reported as busy |
| `ServiceQueue.DrainedNotBusy` | src/core/indexer/IndexService.cpp:405-417 | When nothing busy is queued or running and nobody shut down, the count is zero and the last report was false |
| `ServiceQueue.IdleWhenLast` | src/core/indexer/IndexService.cpp:405-417 | The service reports idle only when the command that ended was the last one registered |
| `ServiceQueue.StepReload` | src/core/indexer/IndexService.cpp:84-93 | Every step keeps reloadQueued_ equivalent to one reload waiting, and an accepted reload request answered by a waiting reload or a load about to begin |
| `ServiceQueue.ReloadsServed` | src/core/indexer/IndexService.cpp:317-328 | At most one reload waits; once drained without shutdown every accepted reload request has been followed by a load that began after it |
| `ServiceQueue.StepFiles` | src/core/indexer/IndexService.cpp:184-228 | Every step keeps accepted = executed + current + queued file jobs; the file thread leaves only with an empty queue after the stop, which comes only after the worker has gone |
| `ServiceCoverage.IndexReflectsLatest` | src/core/indexer/IndexService.cpp:238-315 | In every orderly run in which only file operations change the disk and nothing is loaded: between commands, unless needsFullRebuild_ is set, the live paths are, without duplicates and but for what has gone off the disk, exactly what scans of the last dequeued request's roots emit now, each root with the exclusions it was last scanned with; needsFullRebuild_ is set only after a cancelled request; once drained, the index is that of an uncancelled latest request, and is a scan with its own options if and only if it scanned everything or every kept root contributes the same under its old exclusions and the request's |
| `ServiceCoverage.RemovalExactly` | src/core/storage/IndexStore.cpp:14-20 | Dropping roots leaves exactly the scope of the kept roots if and only if "/" is not dropped or nothing was indexed |
| `ServiceCoverage.RunOrderly` | src/core/indexer/IndexService.cpp:196-210 | The queue order, token and store invariants hold after every orderly run, also when the disk changes, files are removed and the index file is loaded |
| `ServiceData.StepData` | src/core/indexer/IndexService.cpp:238-341 | Every step keeps, stage by stage of a command, what the live and staged paths are: duplicate-free, under the right roots, and as long as only file operations change the disk equal, but for what has gone off it, to the scope of what is covered, each root with its exclusions |
| `ServiceData.TakeKeeps` | src/core/indexer/IndexService.cpp:205-206 | Dequeuing: what the index reflects is what the request starts from |
| `ServiceData.DecideLoadKeeps` | src/core/indexer/Indexer.cpp:38-58 | Deciding to load a recent index file starts from rows that lie under the request's roots without duplicates, if the file fits them |
| `ServiceData.InstallKeeps` | src/core/storage/IndexStore.cpp:87-92 | Installing a loaded pool leaves a duplicate-free live list under the roots it was loaded for |
| `ServiceData.DecideKeeps` | src/core/indexer/IndexService.cpp:283-298 | Choosing between rebuild, incremental add, incremental remove and nothing starts each from a store it is right for; the exclusions of the request reach the scanned roots and no others |
| `ServiceData.AddDone` | src/core/indexer/Indexer.cpp:85-100 | A completed incremental add leaves covered what was covered before and the added roots under the request's exclusions |
| `ServiceData.RemovalDone` | src/core/indexer/Indexer.cpp:102-106 | After the last dropped root is removed, what was covered for the kept roots is left |
| `ServiceData.EndScanKeeps` | src/core/indexer/Indexer.cpp:73-78 | The cancel check after a scan lets only a complete scan be swapped in or saved |
| `ServiceData.FilesVanish` | src/core/indexer/IndexService.cpp:95-122 | A file operation at any stage of a scan, save or removal takes what it removes out of the disk and every scope, and the stage stays right for the disk as it is then |
| `ServiceData.QuietFilesKeeps` | src/core/indexer/IndexService.cpp:106-112 | Recording and dropping a removed path takes only what is off the disk out of the index |
| `ServiceRequests.StepQueued` | src/core/indexer/IndexService.cpp:172-182 | Requests enqueued in registration order, however many are still to be enqueued, stay queued in that order, each continuing from the one before |
| `ServiceScope.RemovalScope` | src/core/storage/IndexStore.cpp:75-85 | A path is in the scope of the kept roots, each with its exclusions, exactly when it is in the old scope and under no dropped root, unless "/" is dropped |
| `ServiceScope.PartsDisjoint` | src/core/settings/RootsDiff.cpp:11-28 | Disjoint parts of a collapsed root list never cover the same path |
| `ServiceScope.ScopeUnion` | src/core/indexer/Indexer.cpp:85-98 | The scope of a cover, roots with the exclusions each was scanned with, is the union of its parts' scopes |
| `ServiceScope.ScopeWithout` | src/core/indexer/WalkScanner.cpp:157-201 | Taking a path and what is below it off the disk takes exactly these out of every scope |
| `ServiceScope.SameScope` | src/core/indexer/WalkScanner.cpp:186-200 | Two lists of exclusions per root give one scope if and only if every root contributes the same under both |
| `ServiceScope.ReflectedExactly` | src/core/indexer/IndexService.cpp:283-298 | What a decided request leaves covered is a scan with its own options if and only if it scanned everything or every kept root contributes the same under the exclusions it was last scanned with and under the request's |
| `ServiceModel.ScopeIsInScan` | src/core/indexer/Indexer.cpp:63-72 | The scope of a scan's options is exactly what the walk theorems prove a scan with these roots and exclusions emits |
| `ServiceRemoval.RemovedStaysRemoved` | src/core/indexer/IndexService.cpp:95-122 | In every interleaving of any requests with scans, adds, saves, loads, cancellations, disk changes, foreign writes of the index file and file operations, as long as a removal meets a store that lists its path at most once: a removed and not re-created path is live, once command and operation have finished, exactly if a load brought it back; once a save followed the scan that recorded it, it is out of the live index, every scan, every load in progress and the file, until somebody re-creates it or writes it back into the file |
| `ServiceRemoval.FinalSaveIsClean` | src/core/indexer/IndexService.cpp:250-253 | When a save after a completed scan does replace the file, its image holds no removal recorded while the scan ran, and those removals are settled; that there is such a save is RecordedIsSaved |
| `ServicePersistence.RecordedIsSaved` | src/core/indexer/IndexService.cpp:250-253 | In the same runs: a command that completed with recorded removals has saved again after the last of them was applied again, and as long as its last save replaced the file and nobody else has written it since, none of the recorded paths is in the file |
| `ServicePersistence.CompletedIsSaved` | src/core/indexer/IndexService.cpp:244-315 | In every run: between commands, unless needsFullRebuild_ is set, everything the worker did to the live index has been saved, and unless a load came later, if the last save replaced the file and nobody else has written it since, the live index is what the file holds without what the file thread has dropped since |
| `ServicePersistence.FileMatchesIndex` | src/core/indexer/IndexService.cpp:244-315 | In particular, if the file lists nothing twice, a path is live exactly if the file lists it and the file thread has not dropped it since |
| `ServicePersistence.StepSaved` | src/core/indexer/Indexer.cpp:117-135 | Every step keeps what is known of unsaved changes at each stage of a command |
| `ServicePersistence.StepRecord` | src/core/indexer/IndexService.cpp:330-341 | Every step keeps the recorded removals in the command's hands until a save without them |
| `ServicePersistence.ReapplyAll` | src/core/indexer/IndexService.cpp:337-340 | The steps that apply the recorded removals again leave the live list that the method FinishScan leaves |
| `ServicePersistence.ReappliedCopies` | src/core/indexer/IndexService.cpp:337-340 | They take one copy of a path for each time it was recorded, and no other path |
| `ServiceRemoval.OrderlyRemovals` | src/core/indexer/IndexService.cpp:95-122 | Every orderly run keeps the index duplicate-free, so the removal theorem covers it, and if it installs no load no removed path is live once command and operation have finished |
| `ServiceRemoval.RevivedOnlyByLoads` | src/core/indexer/IndexService.cpp:317-328 | No step but the installing of a load brings a removed path back |
| `ServiceRemoval.ReloadRevives` | src/core/indexer/IndexService.cpp:107-112 | A removal made while no scan runs is not saved: a reload afterwards brings the path back, to stay, if and only if the index file listed it |
| `ServiceRemoval.StepRemoval` | src/core/indexer/IndexService.cpp:330-341 | Every step keeps: a removed path still live is being dropped or is owed a re-application; one still staged or in a scan's hands is recorded or about to be |
| `ServiceRemoval.NoteRemoval` | src/core/indexer/IndexService.cpp:106-111 | Recording under scanRunning_ loses no removal a scan could undo |
| `ServiceRemoval.SwapRemoval` | src/core/storage/IndexStore.cpp:38-41 | Swapping in a scan brings back no removal that is not owed a re-application |
| `ServiceRemoval.ReapplyRemoval` | src/core/indexer/IndexService.cpp:337-340 | Each re-application pays its debt and re-creates none |
| `ServiceFrames.StepFrame` | src/core/indexer/IndexService.cpp:44-236 | Which fields under mutex_ and which pending commands each step changes, and how |
| `IndexServices.IndexService.RegisterScan` | src/core/indexer/IndexService.cpp:46-57 | Cancels every earlier token, registers the new one and counts it, unless shutting down |
| `IndexServices.IndexService.RequestIndexing` | src/core/indexer/IndexService.cpp:44-62 | With no other thread in between: cancels every earlier scan and queues the rebuild with its roots, its exclusions and a new token, or does nothing when shutting down |
| `IndexServices.IndexService.RequestSettingsChange` | src/core/indexer/IndexService.cpp:64-82 | The same for a Settings change, with the new options' roots and exclusions |
| `IndexServices.IndexService.RequestReload` | src/core/indexer/IndexService.cpp:84-93 | Queues a reload if none is queued, and changes nothing otherwise |
| `IndexServices.IndexService.RequestStopLocalIndexing` | src/core/indexer/IndexService.cpp:124-127 | Cancels every scan and queues the stop |
| `IndexServices.IndexService.MarkReload` | src/core/indexer/IndexService.cpp:85-91 | Accepts a reload only if none is queued |
| `IndexServices.IndexService.CancelScans` | src/core/indexer/IndexService.cpp:230-236 | Cancels and forgets every registered token |
| `IndexServices.IndexService.Enqueue` | src/core/indexer/IndexService.cpp:172-182 | Appends the command unless shutting down |
| `IndexServices.IndexService.BeginShutdown` | src/core/indexer/IndexService.cpp:146-155 | Cancels every registered scan and discards the queued commands |
| `IndexServices.IndexService.NextForWorker` | src/core/indexer/IndexService.cpp:200-207 | Leaves on shutdown, otherwise takes the oldest command |
| `IndexServices.IndexService.NextForFiles` | src/core/indexer/IndexService.cpp:216-225 | Takes the oldest job even when stopping; leaves only when none is left |
| `IndexServices.IndexService.EnqueueFileJob` | src/core/indexer/IndexService.cpp:184-194 | Accepts a job unless stopping |
| `IndexServices.IndexService.RecordRemoval` | src/core/indexer/IndexService.cpp:106-111 | Records the removal exactly while a scan is running |
| `IndexServices.IndexService.EndBusySection` | src/core/indexer/IndexService.cpp:405-410 | Decrements the count and reports what remains |
| `IndexServices.IndexService.FinishScan` | src/core/indexer/IndexService.cpp:330-341 | Clears the scan flag and the record, says whether there were any, and takes one copy of a path from the live index for each time it was recorded: from a duplicate-free index exactly the recorded paths go |
| `IndexServices.DropEachCopies` | src/core/indexer/IndexService.cpp:337-340 | Applying a list of removals takes one copy per removal of each path, as far as there are copies |
| `IndexServices.DropEachUnique` | src/core/indexer/IndexService.cpp:337-340 | From a duplicate-free list exactly the removed paths go |
| `ServiceCoverage.SavedImageReflects` | src/core/indexer/Indexer.cpp:117-135 | Every image a save writes is duplicate-free and under the saving command's roots, and in runs without foreign changes and loads it is, like the live index, what is covered; it is a scan with the saving request's own options exactly under the condition of IndexReflectsLatest |
| `ServiceProgress.WorkerProgresses` | src/core/indexer/IndexService.cpp:196-210 | In every state of an orderly run in which a command is queued or in its hands, the command worker has a step to take, one that keeps the run orderly |
| `ServiceProgress.CanDrain` | src/core/indexer/IndexService.cpp:196-210 | From every orderly state short of a shutdown, enqueuing what was requested and the worker's own steps lead to a drained state with the same latest request, without a request, a change of the disk or a load |
| `ServiceProgress.NextStepNearer` | src/core/indexer/IndexService.cpp:238-341 | Every step of a command outside a scan lowers a measure of what is left of it |
| `ServiceProgress.ScanNearer` | src/core/indexer/WalkScanner.cpp:141-206 | So does every step of a scan that sees something new, hands something over or ends |
| `ServiceProgress.FilesProgress` | src/core/indexer/IndexService.cpp:212-228 | So has the file thread until it has run every accepted job and been stopped |
| `ServiceAnyOrder.AnyOrderExactly` | src/core/indexer/IndexService.cpp:255-315 | For any requests by anybody in any order, whatever files are removed meanwhile, without foreign changes of the disk and loads: when everything has drained and the latest request is uncancelled, it was the last one decided, the index is, but for what has gone off the disk, exactly its outcome, and it is a scan with its own options if and only if it scanned everything or found, on every path it leaves alone, what a scan of its old roots with its own exclusions finds; a rebuild always scans everything |
| `ServiceAnyOrder.DecideFinds` | src/core/indexer/IndexService.cpp:281-298 | What an incremental request finds is, but for what has gone off the disk, what the request decided before it left, or nothing if there was none, whatever its old roots and exclusions are |
| `ServiceAnyOrder.OutcomeExactly` | src/core/settings/RootsDiff.cpp:11-28 | An incremental request turns what it found into a scan of its new roots under its own exclusions if and only if it found that of its old roots under its own exclusions where it relies on it |
| `ServiceAnyOrder.StepTracked` | src/core/indexer/IndexService.cpp:172-207 | Every step keeps the uncancelled latest request queued, in the worker's hands or the last one decided, and lets no other pass the cancel test after that |
| `ServiceAnyOrder.StepAnyOrder` | src/core/indexer/IndexService.cpp:238-315 | Every step keeps, stage by stage and for any requests, what the live and staged paths are in terms of what the request found |
| `ServiceRace.RacingRequestersLoseRoots` | src/core/indexer/IndexService.cpp:46-61 | An instance of AnyOrderExactly: a steady run in which a later request overtakes an earlier one, does not find its old roots, and everything drains with it uncancelled and a file of its roots missing |
| `ServiceExclusions.ExclusionsIgnored` | src/core/indexer/IndexService.cpp:283-298 | From every state at rest, a Settings change that alters only the exclusions runs to its end uncancelled and leaves the live index as it was; it is then right for the request if and only if every root contributes the same under the exclusions it was last scanned with and under the new ones |
| `ServiceExclusions.ExcludedStaysLive` | src/ui/MainWindow.cpp:432-437 | An instance: a file that the latest Settings change excludes stays in the drained index |
| `ServiceExclusions.SharedExclusionsReflected` | src/core/indexer/IndexService.cpp:238-315 | If all requests of an orderly run have the same exclusions, the drained index is the latest request's own scan |
| `ServiceExclusions.OrderlyIsSteady` | src/core/indexer/IndexService.cpp:44-82 | Orderly runs without foreign changes and loads are among the runs of AnyOrderExactly |
| `ServiceDrained.DrainedExactly` | src/core/indexer/IndexService.cpp:95-122 | When an orderly run in which only file operations change the disk has drained, the index is exactly the scope of the disk as it then is, together with live paths that lay below a removed one |
| `ServiceDrained.FileRemovalsReflected` | src/core/indexer/IndexService.cpp:95-122 | If every operation removed a file, a link or an empty directory, the drained index is exactly the scope of the disk as it then is |
| `ServiceDrained.StaleBelowRemoved` | src/core/indexer/IndexService.cpp:98-112 | A live path that has gone off the disk without being removed itself lies strictly below a removed one |
| `ServiceDrained.RemovalLeavesBelow` | src/core/indexer/IndexService.cpp:98-112 | Removing a path takes it and everything below it off the disk, but of a duplicate-free index only the path itself: what was live below it stays live, and nothing else changes |
| `IndexStores.IndexStore.BeginWrite` | src/core/storage/IndexStore.cpp:24-26 | Empties the staging pool; the live index is untouched |
| `IndexStores.IndexStore.AddEntry` | src/core/storage/IndexStore.cpp:28-36 | Stages one entry; the live index is untouched |
| `IndexStores.IndexStore.EndWrite` | src/core/storage/IndexStore.cpp:38-41 | The staged paths become the live ones in one step |
| `IndexStores.IndexStore.AbortWrite` | src/core/storage/IndexStore.cpp:43-46 | Drops what is staged; the live index is untouched |
| `IndexStores.IndexStore.ApplyAdd` | src/core/storage/IndexStore.cpp:48-51 | Appends to the live paths, duplicates included |
| `IndexStores.IndexStore.ApplyRemove` | src/core/storage/IndexStore.cpp:53-59 | Takes the first live copy of the path out of the live list and nothing else |
| `IndexStores.IndexStore.ApplyRename` | src/core/storage/IndexStore.cpp:61-73 | Removes the first copy of the old path and appends the new one, under the name that follows its last slash, with zero metadata |
| `IndexStores.IndexStore.RemoveEntriesUnderPath` | src/core/storage/IndexStore.cpp:75-85 | Leaves exactly the live paths that are not under the prefix, in order |
| `IndexStores.IndexStore.LoadPool` | src/core/storage/IndexStore.cpp:87-92 | Installs the loaded pool and both timestamps |
| `IndexStores.IndexStore.GetIndexAgeSeconds` | src/core/storage/IndexStore.cpp:107-112 | Whole seconds since the build, zero for a clock that is behind |
| `IndexStores.RemovedFirstLive` | src/core/storage/IndexStore.cpp:53-59 | Finding and tombstoning the first live copy drops the first occurrence from the live list |
| `IndexStores.RemoveLeavesCopies` | src/core/storage/IndexStore.cpp:53-59 | ApplyRemove takes away exactly one copy, so the path is gone exactly when it was there at most once |
| `IndexStores.RemovedUnderLive` | src/core/storage/IndexStore.cpp:75-85 | Tombstoning every entry under a prefix filters the live list |
| `IndexStores.RemovePaths` | src/core/indexer/Indexer.cpp:102-106 | Filters the live list by every given root |
| `IndexStores.NotUnderAnyMembers` | src/core/indexer/Indexer.cpp:102-106 | What is left is exactly what is under none of the removed roots |
| `IndexStores.RemovingSlashKeepsAll` | src/core/storage/IndexStore.cpp:14-20 | Removing the root "/" removes nothing below it |
| `LiveEvents.ApplyChangeEvent` | src/core/indexer/Indexer.cpp:164-208 | What each event does to the live list, and whether it notifies |
| `LiveEvents.ChangeNotifies` | src/core/indexer/Indexer.cpp:200-205 | An event that changes the live list notifies |
| `LiveEvents.QuietExactly` | src/core/indexer/Indexer.cpp:200-205 | Only an Added event that finds nothing does not notify, and it changes nothing |
| `LiveEvents.RemovedExactly` | src/core/indexer/Indexer.cpp:166-169 | A Removed event takes one copy of its path and nothing else |
| `LiveEvents.RenamedExactly` | src/core/indexer/Indexer.cpp:170-173 | A Renamed event takes one copy of the old path and adds one of the new |
| `LiveEvents.UniqueExactly` | src/core/indexer/Indexer.cpp:164-208 | A duplicate-free index stays so exactly when the path an event adds is not still there |
| `LiveEvents.ModifiedFileStaysUnique` | src/core/indexer/Indexer.cpp:174-199 | The Modified event of anything but a directory keeps a duplicate-free index duplicate-free and changes no other path; afterwards the path is live exactly if it is a file |
| `LiveEvents.InScanOfIsInScan` | src/core/indexer/Indexer.cpp:185-196 | What a re-scan can find is exactly the walk's scope with the path as its only root |
| `LiveEvents.RescanFinds` | src/core/indexer/Indexer.cpp:185-196 | A file is found, as itself; a directory is never found itself, only an entry below it if there is one; anything else is not found |
| `LiveEvents.AddedExactly` | src/core/indexer/Indexer.cpp:180-199 | After its Added event a path is live if and only if it was before or it is a file |
| `LiveEvents.ModifiedExactly` | src/core/indexer/Indexer.cpp:174-199 | After its Modified event a path is live if and only if it is a file or was listed more than once |
| `LiveEvents.AddedDirectoryMissed` | src/core/indexer/Indexer.cpp:180-199 | The Added event of a directory indexes one entry of its scan and nothing else, so its contents are all live afterwards if and only if the others were before |
| `LiveEvents.AddedTwiceOutlivesRemoval` | src/core/indexer/Indexer.cpp:166-199 | Two Added events for a file leave a copy that its removal does not take away |
| `WalkProtocol.ScanExact` | src/core/indexer/WalkScanner.cpp:214-277 | For any number of workers and any schedule: an uncancelled finished scan has emitted exactly the paths it must, each once; a cancelled one a subset, each at most once |
| `WalkProtocol.StepInv` | src/core/indexer/WalkScanner.cpp:66-112 | Every step of every worker keeps the invariant of jobs, listings, visits, emissions and the in-flight count |
| `WalkProtocol.NoEarlyQuit` | src/core/indexer/WalkScanner.cpp:80-97 | No worker leaves an uncancelled scan while a job is queued or in some worker's hands |
| `WalkProtocol.Progresses` | src/core/indexer/WalkScanner.cpp:80-97 | No deadlock: until every worker has left, some step can be taken |
| `WalkProtocol.StepDecreases` | src/core/indexer/WalkScanner.cpp:141-206 | Every step of any worker uses up part of a natural-number measure |
| `WalkProtocol.ScanBounded` | src/core/indexer/WalkScanner.cpp:214-277 | Every run of a scan has at most 1 + 10 per path + 7 per root + 1 per worker steps |
| `WalkProtocol.CanFinish` | src/core/indexer/WalkScanner.cpp:262-276 | From every reachable state the scan can be carried to its end without a cancellation |
| `WalkProtocol.CancelledStops` | src/core/indexer/WalkScanner.cpp:80-97 | Once the scan is cancelled no worker takes another job or reads another buffer |
| `WalkProtocol.AllBelowVisited` | src/core/indexer/WalkScanner.cpp:151-202 | When all workers have left uncancelled, every path that must be emitted has been visited |
| `WalkProtocol.EmittedInScan` | src/core/indexer/WalkScanner.cpp:188-202 | At every moment what has been emitted belongs to the scan and was emitted once |
| `WalkProtocol.NextIsNew` | src/core/indexer/WalkScanner.cpp:158-200 | The next listed path was never visited, is no root and is not yet a directory of the walk |
| `WalkScanner.DirectoryQueue.Push` | src/core/indexer/WalkScanner.cpp:68-74 | Appends the job |
| `WalkScanner.DirectoryQueue.Pop` | src/core/indexer/WalkScanner.cpp:80-97 | Nothing once cancelled; else the oldest job, counted in flight; else the order to stop exactly when nothing is in flight |
| `WalkScanner.DirectoryQueue.Done` | src/core/indexer/WalkScanner.cpp:99-105 | One job fewer in flight |
| `WalkScanner.SeedRoots` | src/core/indexer/WalkScanner.cpp:229-253 | Every directory root queued once with its own device, every file root emitted once, excluded, missing and symlink roots skipped |
| `WalkScanner.VisitBatch` | src/core/indexer/WalkScanner.cpp:157-201 | One buffer of entries emits and queues what its paths, in order, must |
| `WalkScanner.ProcessDirectory` | src/core/indexer/WalkScanner.cpp:141-206 | A readable directory is read until its end or a cancellation; exactly the passing paths of the buffers read are emitted and exactly the directories among them that are on the allowed device or selected are queued, with the right device, each once if no path is listed twice |
| `WalkScanner.ListingExact` | src/core/indexer/WalkScanner.cpp:157-201 | A listing without repetitions emits exactly its passing paths and queues exactly its walked directories, each once |
| `WalkScanner.DirectoryExact` | src/core/indexer/WalkScanner.cpp:141-206 | When the buffers hold exactly the directory's children, exactly its passing children are emitted and exactly the walked directories among them queued |
| `WalkScanner.FlatVisited` | src/core/indexer/WalkScanner.cpp:151-202 | Visiting several buffers emits and queues what their paths together must |
| `WalkTree.JoinPathParent` | src/core/indexer/WalkScanner.cpp:31-36 | Listing a directory and joining names yields exactly paths whose parent it is |
| `WalkTree.ScanIsPlain` | src/core/indexer/WalkScanner.cpp:42-59 | Nothing a scan emits is missing, a symlink, an excluded path or below one |
| `WalkTree.BelowIsUnder` | src/core/indexer/WalkScanner.cpp:52-59 | Everything a root's walk must emit lies under that root |
| `WalkTree.NoRootBelowRoot` | src/core/indexer/WalkScanner.cpp:195-199 | Below a collapsed root there is no other root: the isExplicitRoot branch is never taken |
| `WalkTree.OneRootAbove` | src/core/indexer/WalkScanner.cpp:216-221 | No path is emitted for two roots |
| `WalkTree.SelectedScannedExactly` | src/core/indexer/WalkScanner.cpp:193-200 | The contents of a selected directory are scanned if and only if it is still a root after collapsing or the walk of a root reaches it and goes into it |
| `WalkTree.BelowComposes` | src/core/indexer/WalkScanner.cpp:193-200 | What is below a directory that a root's walk goes into is below that root |
| `WalkTree.SelectedMountSkipped` | src/core/indexer/WalkScanner.cpp:52-59 | In particular a selected root on another device below another selected root is dropped by collapsing and nothing below it is scanned, against what the comment says |
| `IndexSerializer.Serialize` | src/core/storage/IndexSerializer.cpp:58-114 | The bytes are the rendering of the compacted image of the live entries |
| `IndexSerializer.Load` | src/core/storage/IndexSerializer.cpp:171-259 | Every byte string: either no well-formed image renders to it and the load fails, or it is exactly one image's rendering and the pool is rebuilt from it |
| `IndexSerializer.ReadImage` | src/core/storage/IndexSerializer.cpp:188-259 | The parser with its cursor and checks accepts exactly the renderings of well-formed images |
| `IndexSerializer.ReadValue` | src/core/storage/IndexSerializer.cpp:46-54 | Reads inside the buffer or fails |
| `IndexSerializer.RoundTrip` | src/core/storage/IndexSerializer.cpp:58-114 | Loading what was saved succeeds with both timestamps and, in order and without tombstones, exactly the live entries with equal path, name, folded name, spans and metadata |
| `IndexSerializer.BuiltRoundTrip` | src/core/storage/IndexSerializer.cpp:58-114 | For every pool built by additions and deletions within the field widths: loading what was saved gives exactly the live entries, with no more token spans than before |
| `IndexSerializer.LoadedTotal` | src/core/storage/IndexPool.cpp:141-165 | Loading appends exactly the token spans of the live entries |
| `IndexSerializer.DecodeSound` | src/core/storage/IndexSerializer.cpp:188-259 | Whatever is accepted is the rendering of what was read, down to the last byte |
| `IndexSerializer.DecodeComplete` | src/core/storage/IndexSerializer.cpp:188-259 | Every rendering of a well-formed image is accepted and read back |
| `IndexSerializer.FileLayout` | src/core/storage/IndexSerializer.cpp:102-113 | The offset and width of every field of a file, the letters IDXD and the version it begins with, and the bytes its checksum covers |
| `IndexSerializer.AcceptedExactly` | src/core/storage/IndexSerializer.cpp:188-259 | Acceptance is equivalent to being the rendering of a well-formed image |
| `IndexSerializer.LoadDeterminate` | src/core/storage/IndexSerializer.cpp:171-259 | The load result is determined by the bytes |
| `IndexSerializer.SaveIdempotent` | src/core/storage/IndexSerializer.cpp:75-113 | Saving a loaded canonical image gives the same bytes again |
| `IndexSerializer.DamageDetected` | src/core/storage/IndexSerializer.cpp:203-207 | Changing payload bytes of a serialized image inside any 32 consecutive bits, one whole byte included, makes the load fail |
| `IndexSerializer.PrefixFree` | src/core/storage/IndexSerializer.cpp:249-252 | No accepted file is a strict prefix of another accepted file |
| `IndexSerializer.CompactionKeepsLive` | src/core/storage/IndexSerializer.cpp:79-99 | The compacted records describe exactly the live entries, in order |
| `IndexSerializer.DecodeEncode` | src/core/storage/IndexSerializer.cpp:33-40 | Little-endian writing and reading of an integer that fits its width are inverse |
| `IndexSerializer.EncodeDecode` | src/core/storage/IndexSerializer.cpp:46-54 | Little-endian reading and writing of bytes are inverse |
| `Crc32.Crc32` | src/core/storage/Crc32.cpp:24-31 | The table-driven checksum equals the bit-at-a-time reflected CRC-32 of RFC 1952 section 8 |
| `Crc32.CheckValue` | src/core/storage/Crc32.cpp:8-31 | The checksum of the digits 1 to 9 is 0xCBF43926 |
| `Crc32.MakeCrcTable` | src/core/storage/Crc32.cpp:10-20 | Each table entry is its index fed through eight bit steps |
| `Crc32.FeedByte` | src/core/storage/Crc32.cpp:27-29 | One table step equals eight bit steps |
| `Crc32.FeedInjective` | src/core/storage/Crc32.cpp:24-31 | Feeding the same bits keeps different states different |
| `Crc32.BurstDetected` | src/core/storage/Crc32.cpp:24-31 | Every error burst of up to 32 bits changes the checksum |
| `Crc32.ByteChangeDetected` | src/core/storage/Crc32.cpp:24-31 | Changing any one byte changes the checksum |
| `IndexPools.IndexPool.AddEntry` | src/core/storage/IndexPool.cpp:60-88 | Appends to the six vectors with the casts of the source; everything stays in range |
| `IndexPools.IndexPool.GetEntry` | src/core/storage/IndexPool.cpp:94-107 | Every slice is in range and is the entry's |
| `IndexPools.IndexPool.MarkDeleted` | src/core/storage/IndexPool.cpp:109-111 | Sets one tombstone |
| `IndexPools.IndexPool.FindByPath` | src/core/storage/IndexPool.cpp:117-127 | The first live entry with the path, if any |
| `IndexPools.IndexPool.LoadFromPathPool` | src/core/storage/IndexPool.cpp:141-165 | Rebuilds folded names and token spans for every record |
| `IndexPools.AppendedView` | src/core/storage/IndexPool.cpp:60-88 | The stored entry reads back as given; name and spans are right exactly when offset and token count fit 16 bits |
| `IndexPools.AppendValid` | src/core/storage/IndexPool.cpp:60-88 | Adding keeps the pool in range and every earlier entry's view |
| `IndexPools.TombstoneValid` | src/core/storage/IndexPool.cpp:109-111 | Deleting keeps every view |
| `IndexPools.RebuiltViews` | src/core/storage/IndexPool.cpp:141-165 | The rebuilt pool shows every loaded record, with its cached name and spans |
| `IndexPools.BuiltFaithful` | src/core/storage/IndexPool.cpp:60-111 | In every pool built by additions and deletions within the field widths, all caches agree with the names |
| `IndexPools.BuiltTotal` | src/core/storage/IndexPool.cpp:60-111 | In those pools the entries' token spans account for the whole span vector |
| `Tokens.TokenizeToSpans` | src/core/storage/IndexPool.cpp:19-42 | The spans of the maximal separator-free runs, in order |
| `Tokens.TokenizeInto` | src/core/search/TokenMatcher.cpp:21-40 | The texts of the same spans |
| `Tokens.SeparatorsAre` | src/core/storage/IndexPool.cpp:14-18 | Exactly space, underscore, hyphen and dot separate tokens |
| `Tokens.SpansAreTokens` | src/core/storage/IndexPool.cpp:19-42 | The spans are exactly the maximal separator-free runs, in order and apart |
| `Tokens.CaseFoldAscii` | src/core/storage/IndexPool.cpp:52-58 | Folds A to Z and nothing else |
| `Tokens.FoldsLetters` | src/core/storage/IndexPool.cpp:52-58 | Each letter A to Z becomes the letter at its place from a to z, every other byte stays |
| `Tokens.FoldKeepsSpans` | src/core/storage/IndexPool.cpp:79-85 | Folding a name does not move its tokens, so cached spans serve both case modes |
| `Tokens.NeedleInToken` | src/core/search/SearchEngine.cpp:166-191 | A separator-free needle occurs in a text exactly when it occurs in one of its tokens |
| `Tokens.PrefixTokens` | src/core/search/SearchEngine.cpp:115-123 | Every token of a prefix of a text is a prefix of a token of the text |
| `SubstringScan.FindSubstring` | src/core/search/SimdSearchAvx2.cpp:12-51 | For every chunk width up to 32: the least matching offset, or none if there is none |
| `SubstringScan.ClearLowestBits` | src/core/search/SimdSearchSse42.cpp:31-39 | mask & (mask - 1) clears exactly the lowest set bit |
| `SubstringScan.MoveMaskBits` | src/core/search/SimdSearchSse42.cpp:26-30 | Bit j of the chunk mask tells whether byte j equals the first needle byte |
| `SearchEngine.Search` | src/core/search/SearchEngine.cpp:89-212 | Without cancellation exactly the first 10,000 live matches in ascending order, each with a span in range that equals the query or its first token; when cancelled, the matches among the entries seen |
| `SearchEngine.SubstringMatches` | src/core/search/SearchEngine.cpp:192-203 | Without whole-word mode a separator-free query matches exactly the entries whose path, in path mode, or name, otherwise, contains it, both folded unless the search is case-sensitive |
| `SearchEngine.WholeWordMatches` | src/core/search/SearchEngine.cpp:192-203 | In whole-word mode exactly those in which its first occurrence stands between separators or ends |
| `SearchEngine.TokenMatches` | src/core/search/SearchEngine.cpp:164-191 | A query with a separator matches exactly the entries in whose path, in path mode, or name, otherwise, every token of the query lies in some token, both folded unless the search is case-sensitive |
| `SearchEngine.HitSpans` | src/core/search/SearchEngine.cpp:181-203 | The reported span is the first occurrence of the query, or of its first token, in the path in path mode and in the name otherwise, folded like them |
| `SearchEngine.SearchEntry` | src/core/search/SearchEngine.cpp:162-204 | One entry is reported exactly when it matches, with its match span |
| `SearchEngine.MatchingIsExact` | src/core/search/SearchEngine.cpp:130-209 | The reference result is the ascending list of exactly the live matching entries |
| `SearchEngine.CachedTokens` | src/core/search/SearchEngine.cpp:166-180 | Cached spans give the same tokens as live tokenizing in both case modes |
| `SearchEngine.Narrowing` | src/core/search/SearchEngine.cpp:115-123 | An entry matching a query matches every prefix of it, across the switch from substring to token mode, without whole-word mode or once the prefix has a separator |
| `SearchEngine.MatchingNarrows` | src/core/search/SearchEngine.cpp:130-209 | The matches of a longer query are among those of each of its prefixes |
| `SearchEngine.SwitchToTokens` | src/core/search/SearchEngine.cpp:166-203 | Token-mode matches of a query match its separator-free prefixes in substring mode |
| `SearchEngine.WholeWordNarrowsExactly` | src/core/search/SearchEngine.cpp:115-196 | With whole-word mode on, in every option setting, all entries a query finds are found by its prefix if and only if the prefix is the whole query or has a separator |
| `SearchEngine.WholeWordExactly` | src/core/search/SearchEngine.cpp:194-196 | An entry is found exactly when the query is a whole word of it somewhere, if and only if no whole-word occurrence follows a first occurrence that is none |
| `SearchEngine.WholeWordDoesNotNarrow` | src/core/search/SearchEngine.cpp:194-196 | An instance: "abc" finds the entry "abc", its prefix "ab" does not |
| `SearchEngine.WholeWordTestsFirstOnly` | src/core/search/SearchEngine.cpp:194-196 | For every separator-free query there is an entry that has it as a whole word and is not found |
| `PathUtils.CollapseRedundantRoots` | src/core/settings/PathUtils.cpp:122-138 | The sorted list of exactly the topmost canonical inputs |
| `PathUtils.AncestorSortsFirst` | src/core/settings/PathUtils.cpp:125-137 | An ancestor always sorts before its descendants: why one pass suffices |
| `PathUtils.AbsorbedExactly` | src/core/settings/PathUtils.cpp:129-136 | In sorted order a candidate is absorbed exactly when it is not topmost |
| `PathUtils.CollapsedIsAntichain` | src/core/settings/PathUtils.cpp:122-138 | The outputs are canonical inputs, none under another |
| `PathUtils.CollapsedCoverage` | src/core/settings/PathUtils.cpp:122-138 | A path is under some output exactly when it is under some canonical input |
| `PathUtils.CollapseTwice` | src/core/settings/PathUtils.cpp:122-138 | For an idempotent canonicalizer, collapsing twice changes nothing |
| `PathUtils.CollapseFixpoint` | src/core/settings/PathUtils.cpp:122-138 | A sorted antichain of canonical paths is its own collapse |
| `PathUtils.StripTrailingSlash` | src/core/settings/PathUtils.cpp:88-93 | Drops trailing slashes only, keeping one character |
| `PathUtils.UnderTestsAgree` | src/core/storage/IndexStore.cpp:14-20 | The two ancestor tests of the source agree except below "/" |
| `PathUtils.DiffRoots` | src/core/settings/RootsDiff.cpp:11-28 | Exactly the roots only in the new list and those only in the old one |
| `PathUtils.DiffAccounts` | src/core/settings/RootsDiff.cpp:11-28 | New roots are the kept old ones and the added ones |
| `SaveThrottles.SaveThrottle.ShouldSave` | src/core/indexer/SaveThrottle.cpp:14-23 | Due exactly when dirty and the wrapped elapsed time reaches the interval; then clears and restarts |
| `SaveThrottles.SaveThrottle.RecordSaveDuration` | src/core/indexer/SaveThrottle.cpp:29-35 | Interval max(min, 5d) from the end of the save, in 64-bit arithmetic |
| `SaveThrottles.SaveThrottle.MarkSaved` | src/core/indexer/SaveThrottle.cpp:37-40 | Clears and restarts the interval |
| `SaveThrottles.SaveThrottle.MarkDirty` | src/core/indexer/SaveThrottle.cpp:10-12 | Sets the pending change |
| `SaveThrottles.SaveThrottle.HasPendingChanges` | src/core/indexer/SaveThrottle.cpp:25-27 | Whether a change is waiting |
| `SaveThrottles.DueExactly` | src/core/indexer/SaveThrottle.cpp:14-17 | When a poll is due, for clocks that advance and clocks that went back |
| `SaveThrottles.GapAfterSave` | src/core/indexer/SaveThrottle.cpp:14-35 | A save at t taking d is followed by no other before t + d + max(min, 5d), whatever comes between |
| `SaveThrottles.RateBound` | src/core/indexer/SaveThrottle.cpp:14-40 | At most 1 + T/min saves start in any window of length T |
| `SaveThrottles.FirstPollAfterGap` | src/core/indexer/SaveThrottle.cpp:14-35 | The first poll after the gap saves exactly when the save failed or a change has come since |
| `HelperLoop.NoLostChange` | src/helper/main_helper.cpp:306-345 | In every interleaving of changes, notifications and the poll loop's stages: between saves a store that differs from the file is marked dirty or about to be, unless the last rebuild is lost |
| `HelperLoop.StepKeeps` | src/helper/main_helper.cpp:306-345 | Every step of the loop and the monitors keeps what is known of unsaved changes at each stage |
| `HelperLoop.CleanExit` | src/helper/main_helper.cpp:347-353 | After a clean exit, one whose final save if any replaced the file, the file holds exactly the store unless the last rebuild is lost |
| `HelperLoop.CleanExitExactly` | src/helper/main_helper.cpp:317-353 | At a clean exit, whatever the saves reported: a lost rebuild's store is the store, the file is the one from before that rebuild, and the file holds the store if and only if no rebuild is lost or that file already did |
| `HelperLoop.LostNeverWritten` | src/core/platform/Elevation.cpp:252-263 | A rebuild is lost when its save did not replace the file, which is not the same as reporting failure; for as long as none has since, the file is exactly what it was when that rebuild scanned |
| `HelperLoop.StepLost` | src/helper/main_helper.cpp:306-345 | Every step keeps a lost rebuild out of the file, and a store without announced changes equal to the rebuilt one |
| `HelperLoop.ExitedFileDecodes` | src/helper/main_helper.cpp:347-353 | That file loads back to every live entry of the store, in order |
| `HelperLoop.FailedRebuildForgotten` | src/helper/main_helper.cpp:307-336 | An instance from every state between saves: MarkSaved after a rebuild whose save left the file alone forgets it, and the helper can exit with the rebuilt store never written |
| `HelperLoop.SaveIfDue` | src/helper/main_helper.cpp:337-343 | The loop's save does to the throttle what the model's poll event does |
| `HelperLoop.SaveWrites` | src/core/indexer/Indexer.cpp:108-135 | A save that replaces the file leaves in it the store as it was serialized, with the timestamps it was given |
| `HelperLoop.SaveStagesArePoll` | src/helper/main_helper.cpp:337-343 | The stages of an undisturbed save amount to one poll event |
| `StatusFile.RoundTrip` | src/core/indexer/StatusFile.cpp:92-214 | Parsing a serialized status gives it back, newlines and backslashes included |
| `StatusFile.ParsedExactly` | src/core/indexer/StatusFile.cpp:109-214 | A text parses to a status if and only if it ends with a newline or is empty and its lines begin with that status's record, key by key |
| `StatusFile.LinesExactly` | src/core/indexer/StatusFile.cpp:115-127 | The lines join to the text again, and there are lines exactly for texts that are empty or end with a newline |
| `StatusFile.ExampleText` | src/core/indexer/StatusFile.cpp:92-107 | The text of one status, written out |
| `StatusFile.StrictPrefixRejected` | src/core/indexer/StatusFile.cpp:109-128 | Every strict prefix of a serialized status is rejected |
| `StatusFile.TrailingLinesIgnored` | src/core/indexer/StatusFile.cpp:197-213 | Whole lines after the record are ignored |
| `StatusFile.FewerLinesRejected` | src/core/indexer/StatusFile.cpp:129-211 | A record missing any of its last lines is rejected |
| `StatusFile.UnescapeEscape` | src/core/indexer/StatusFile.cpp:15-42 | Unescaping an escaped text gives it back, and an escaped text has no newline |
| `StatusFile.NumberRoundTrip` | src/core/indexer/StatusFile.cpp:79-88 | Exactly the 64-bit numbers come back from their decimal form |
| `StatusFile.Escape` | src/core/indexer/StatusFile.cpp:15-28 | The escaped text: one line, and reversible |
| `StatusFile.Unescape` | src/core/indexer/StatusFile.cpp:30-42 | The unescaped text |
| `StatusFile.ParseUint64` | src/core/indexer/StatusFile.cpp:79-88 | Digits only, at least one, within 64 bits |
| `StatusFile.SerializeStatus` | src/core/indexer/StatusFile.cpp:92-107 | The lines of the record in their fixed order |
| `StatusFile.SplitLines` | src/core/indexer/StatusFile.cpp:115-127 | The lines, or nothing when something follows the last newline |
| `StatusFile.ParseStatus` | src/core/indexer/StatusFile.cpp:109-214 | The record the lines hold, field by field, or nothing |
| `StatusFile.StateNameRoundTrip` | src/core/indexer/StatusFile.cpp:44-77 | Every state name parses back to its state |
| `SearchCoordinators.NoStaleResults` | src/ui/SearchCoordinator.cpp:49-107 | In every interleaving: each emission is the engine's full answer to its query on the pool it saw, searches emit in start order and at most once, searching_ is true exactly while the latest search is uncancelled and unanswered, and an arriving result is emitted only for the latest uncancelled search |
| `SearchCoordinators.CancelledNeverEmits` | src/ui/SearchCoordinator.cpp:80-93 | Once cancelled, a search never emits |
| `SearchCoordinators.StartCancels` | src/ui/SearchCoordinator.cpp:49-60 | In every run, starting any query, also one too short to search, cancels every search started before |
| `SearchCoordinators.SupersededNeverEmits` | src/ui/SearchCoordinator.cpp:80-93 | Nothing started before a query is emitted after it |
| `SearchCoordinators.AnswersItsQuery` | src/ui/SearchCoordinator.cpp:62-93 | What the search started for a query emits is the engine's full answer to that query |
| `SearchCoordinators.StepKeeps` | src/ui/SearchCoordinator.cpp:49-107 | Every step keeps all tokens but the latest cancelled, posts unique and complete, and a pending search's result still to come |
| `SearchCoordinators.SearchCoordinator.StartSearch` | src/ui/SearchCoordinator.cpp:49-97 | Whatever the query, the search before it is cancelled; a new one starts and searching_ is true exactly if the query has two or more characters |
| `SearchCoordinators.SearchCoordinator.CancelRunningSearch` | src/ui/SearchCoordinator.cpp:99-107 | Cancels the current token and clears searching_ |
| `SearchCoordinators.SearchCoordinator.ResultsArrived` | src/ui/SearchCoordinator.cpp:86-91 | Emits exactly when the token is uncancelled, then clears searching_ |

## Left out

- Regular-expression and diacritics-insensitive search: they are RE2's and utf8proc's behaviour, which is not part of this model.
- Live monitoring inside the index-work protocol (`StartMonitoring`, `StopMonitoring`): single events are in `LiveEvents`, and monitors that run beside saves in `HelperLoop`, where they change the store arbitrarily.
- The progress counter `filesFound` and every status report: display only.
- System calls, the temporary-file-and-rename of a save, locks and condition variables themselves: each critical section is one step, a save is one step that replaces the file or does not, and waiting is not a step.
- `CanonicalizeBestEffort`: `realpath` is a parameter of `CollapseRedundantRoots`; idempotence is assumed only where a lemma says so.
- Directory listings that repeat a name while the directory changes: a scan in the protocol sees each path at most once.
- ServiceRemoval.RemovedStaysRemoved: speaks of the removed paths themselves; what was below a removed directory is in `ServiceDrained`.
- A file operation that fails after having removed part of a directory: a change of the disk by somebody else.
- Texts and paths of 4 GiB and more, and pools with 2^32 or more token spans: the 32-bit length and start fields are taken to be wide enough.
- SearchEngine.Search: assumes every name has fewer than 65536 tokens, as the source's comment does (`AppendedView` says exactly when the cached spans are right).
- SearchCoordinators.NoStaleResults: the conversion of the search box's text to bytes (a query carries its length and its bytes), the debounce timer, the building of display entries and the reaping of finished threads are not modelled.
- ServiceCoverage.IndexReflectsLatest: after a load only says that the index is duplicate-free and under the right roots (`StepData`), because the file carries no root list and may be older than the disk.
- ServiceAnyOrder.AnyOrderExactly: says nothing about runs with loads or with changes of the disk other than file operations, and leaves out the one Settings change that `RemovalExactly` is about.
- LiveEvents.AddedExactly: the event's path is taken to be its own canonical form, so a symlink is not followed, and the disk not to change during the re-scan.
- SearchEngine.WholeWordNarrowsExactly: speaks of entries with arbitrary byte strings as names.
- IndexSerializer.BuiltRoundTrip: the pool is built from the empty one; for pools built on a loaded one, `RoundTrip` applies as long as their caches agree with the names.
- SaveThrottles.GapAfterSave: assumes a nondecreasing clock and no 64-bit overflow; `DueExactly` says what a clock going back does.
- Settings, INI files, elevation checks, mount enumeration, logging and the user interface: easier relatives of what is here, or operating-system plumbing.
