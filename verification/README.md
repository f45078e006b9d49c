# Model of the MiSTer Downloader's core

A Dafny model of the parts of the downloader that hold its branching state, with proofs of what they keep over whole
runs. `dafny verify dfyconfig.toml` checks everything.

* **Scheduler.** `Scheduler.dfy` is the job system as a transition system: one action is one atomic thing that the
  main thread or a pool thread does, and a sequence of actions is one interleaving, with any answers of workers and jobs.
  `Conservation.dfy` has the laws of the pending count, `Outcomes.dfy` why each package ended as it did,
  `Termination.dfy` the proof that every run ends, `Tags.dfy` and `Waiter.dfy` what the tag tracker tells a waiting
  worker. `JobSystem.dfy` and `Reporters.dfy` are the code itself, as classes whose loops change queues, counters and
  dictionaries in place; each method is tied to actions of the transition system or to the meaning of a report.
  `ImporterJobs.dfy` applies it to the jobs of an update.
* **Store.** `Store.dfy` says what each write does to one database's store and proves the dirty mark sound and each file
  in one place, `StoreEffects.dfy` what the removals and settings do entry by entry; `StoreWrapper.dfy` is the write
  adapter's code. `ZipStore.dfy` is the round trip of a zip's index through these writes and back. `RemovalQueue.dfy`,
  `Removal.dfy` and `OnlineImporter.dfy` are deletion and ownership transfer at the end of an update, `Uninstall.dfy` is
  the uninstaller on a disk whose drives can vanish at any moment.
* **Persistence.** `Repository.dfy` relates what is saved per drive, what is loaded, and the two decisions to skip a
  database; `LocalRepository.dfy` is the code.
* **Indexes and files.** `FileFilter.dfy`, `IndexFiles.dfy`, `ZipContents.dfy`, `ZipIndex.dfy`, `Install.dfy`,
  `InstallSafety.dfy`, `FilteredMembers.dfy`, `Space.dfy`, and the redirect cache in `Redirects.dfy`.

Six things turned out not to hold in general. Each has concrete counterexamples and an exact condition.

* A package entangled with a failed file is not always kept from removal. The removal queue keeps, for each spelling of a
  path, the package that was queued first: a package of another database in the same spelling decides
  (`RemovalQueue.FirstPackageDecides`), and so does one in another spelling (`RemovalQueue.EntangledFileCanBeUnlinked`).
  What goes is exact in `RemovalQueue.PlaceGoesIff` and `RemovalQueue.RecordGoesIff`.
* The redirect maps can become cyclic: that of URLs once a chain has more than ten entries
  (`Redirects.TwelveMovesCloseACycle`, `Redirects.MoveIsAcyclicIff`), that of hosts when a host moves to one that leads back
  (`Redirects.TwoHostMovesCloseACycle`, `Redirects.HostMoveIsAcyclicIff`). Lookups stop after ten entries all the same.
* The uninstaller's totals are exact when each database is named once, which its caller ensures; otherwise they differ by
  exactly the files of databases attempted again (`Uninstall.TwiceNamedIsReportedTwice`,
  `Uninstall.ReportsAreAnnouncedPlusAgain`).
* docs/custom-databases.md says a present file with `overwrite: false` is not overwritten. The integrity check of all files
  replaces it when the store vouches for it and its content changed (`ZipContents.IntegrityCheckReplacesProtectedFile`),
  and then also by the download that follows a bad extraction (`ZipContents.RecoveryReplacesProtectedFile`); and the
  extraction of a whole zip replaces it whatever the store says (`ZipContents.WholeZipReplacesProtectedFile`). The
  condition is exact in `ZipContents.ProtectedFileIsReplacedIff`, for any stop on the way.
* open_zip_contents_worker.py says that a bad extraction can never clobber a good file. The extraction one by one cannot,
  but the download that follows it takes the target not to exist and writes it in place: it can end with any content or
  none (`InstallSafety.RecoveryEndsAnyhow`). When a target survives every stop is exact in
  `InstallSafety.SurvivesEveryStopIff`.
* Storing a zip's index and regrouping it in the next update does not always give it back: a stored folder with more fields
  shadows the new one (`ZipStore.StoredFolderKeepsOldFields`), and of zips that share a file the last one owns it
  (`ZipStore.SharedFileIsLost`). `ZipStore.EntriesAreRestoredIff` is exact for any zips, and `ZipStore.FilesAreRestoredIff`
  and `ZipStore.FoldersAreRestoredIff` say it of stores as the importer leaves them.

What the scheduler's results assume of workers and jobs: for termination, a rank as described in `Termination.dfy`, which
`ImporterJobs.dfy` provides; for the waiters, that one job object is in at most one live package at a time
(`Waiter.Owned`), which `ImporterJobs.dfy` derives from new job objects being new (`ImporterJobs.StartsChains`); and that a
zip tag names one database (`ImporterJobs.ZipTagged`), as it does unless an id contains `:zip:`. Object
identities are job ids, and paths, tags and database names are strings compared as such.

## Model

| member | source | states |
|---|---|---|
| `Conservation.ActionFlow` | src/downloader/job_system.py:180-239 | One step of any thread changes the weight of the packages that have not ended by exactly the packages that step ends or queues, for every weight: nothing else is lost, moved or counted twice |
| `Conservation.ActionConserves` | src/downloader/job_system.py:303-368 | The three laws (every slot is live or ended once, the pending count is live plus cancelled, nothing is dropped before a cancellation) survive every step: pop, start, return, error, exception, notification, reaping, cancelling, draining |
| `Conservation.PendingCountsLiveAndCancelled` | src/downloader/job_system.py:164-178 | At every moment of every interleaving `_pending_jobs_amount` equals queued plus in-flight unresolved plus cancelled packages |
| `Conservation.UncancelledRunEndsClean` | src/downloader/job_system.py:127-139 | An uncancelled run that leaves the main loop has nothing pending and both queues empty, and every pushed slot ended exactly once, completed or failed |
| `Conservation.CancelledRunAccountsForAll` | src/downloader/job_system.py:353-359 | After a cancelled run was wound down, what is still pending is exactly what was cancelled, and every slot ended exactly once |
| `Conservation.PushAllQueues` | src/downloader/job_system.py:280-284 | Jobs are queued in the order they are pushed in, each at the end of the queue of its priority |
| `Termination.CheckedDepthIsBounded` | src/downloader/job_system.py:425-444 | A package that passes the ancestor check has at most max_cycle times the number of job types ancestors (pigeonhole on the counts) |
| `Termination.ChildIsLower` | src/downloader/job_system.py:314-318 | A child, which inherits `tries`, is below its parent in the order (rank, tries left, depth left) |
| `Termination.ReplacementIsLower` | src/downloader/job_system.py:241-278 | A retry or a backup is below the package it replaces in the order (rank, tries left, depth left) |
| `Termination.ActionDescends` | src/downloader/job_system.py:225-239 | Every step lowers the vector of counters of packages per level, lexicographically from the highest level |
| `Termination.NoInfiniteDescent` | src/downloader/job_system.py:184-185 | No infinite sequence of finitely many counters descends lexicographically for ever: the well-foundedness behind the main loop ending |
| `Termination.EveryRunIsFinite` | src/downloader/job_system.py:180-203 | No interleaving of any workers goes on for ever, given a rank that children and retries do not raise and backups lower |
| `Termination.OneBudgetPerLine` | src/downloader/job_system.py:169-175 | A transfer and the job after it share one retry budget: between two backups a line of children and retries is retried max_tries times at most, and the tries of its last package say how often |
| `Tags.InProgressIsExact` | src/downloader/jobs/reporters.py:100-151 | After any sequence of reports a job is in `in_progress[t]` exactly when it carries t, is initiated and is not ended |
| `Tags.TrackExact` | src/downloader/jobs/reporters.py:107-126 | How each report changes the initiated and ended sets, self-spawned and self-retried jobs included, while exactness is kept |
| `Waiter.RunTracks` | src/downloader/jobs/reporters.py:107-151 | Over every uncancelled run whose jobs enter one package at a time: live jobs are not ended, open jobs are live, jobs pushed during the run are initiated, and a start is reported before its completion |
| `Waiter.BusyIsExactlyLive` | src/downloader/jobs/reporters.py:214-220 | In an uncancelled run the in-progress set of a tag is the live, initiated jobs carrying it, and contains every live job pushed during the run that carries it: retries, backups and children keep it non-empty |
| `Waiter.ChildrenAreBusyAtOnce` | src/downloader/job_system.py:313-324 | When a parent completes, its accepted children are in progress under their tags in the same step, so no gap opens between parent and child |
| `Waiter.RunListed` | src/downloader/jobs/reporters.py:196-208 | Every slot that ended completed or failed is in the completed or failed list of each tag of its job |
| `Waiter.ClosedForEver` | src/downloader/jobs/reporters.py:222-228 | Once no live package carries a tag, none ever will and the lists of that tag no longer change, as long as the tag is inherited only |
| `Waiter.WaiterReadsEveryOutcome` | src/downloader/jobs/wait_db_zips_worker.py:46-60 | When an uncancelled run shows nothing in progress under the tag, no live package carries it, every slot that carried it has ended completed or failed and is in the lists that are read next, and the lists are final |
| `JobSystem.JobSystem.InternalPushJob` | src/downloader/job_system.py:164-178 | Queues a package with the parent's tries and counts it, or does nothing when there is no worker |
| `JobSystem.JobSystem.PushJobs` | src/downloader/job_system.py:103-109 | Pushes the jobs before the first one without a worker, and succeeds exactly when there is none |
| `JobSystem.JobSystem.PopPackage` | src/downloader/job_system.py:286-294 | Takes the oldest priority package, else the oldest normal one, else nothing |
| `JobSystem.JobSystem.CountAncestors` | src/downloader/job_system.py:425-444 | The loop over the parents accepts exactly the packages none of whose ancestor types occurs more than max_cycle times |
| `JobSystem.JobSystem.AssertThereAreNoCycles` | src/downloader/job_system.py:425-444 | A rejected package is reported failed and no longer pending; an accepted one changes nothing |
| `JobSystem.JobSystem.RetryPackage` | src/downloader/job_system.py:241-278 | Unless cancelled: with tries left and a retry given that has a worker, exactly that job is queued with one more try, no parent and the same slot; with no retry given or no tries left, the backup with no tries if it was given and has a worker; else nothing, and nothing else changes |
| `JobSystem.JobSystem.HandleReturnedError` | src/downloader/job_system.py:335-340 | A retried or backed-up package stays pending and is reported retried; one without a way on ends as failed and is no longer pending |
| `Outcomes.ErrorOutcome` | src/downloader/job_system.py:241-340 | What an error leads to, field by field: the retry while tries are left, else the backup, else a failure; a failure exactly when cancelled or neither can run |
| `Outcomes.CompletionOutcome` | src/downloader/job_system.py:313-324 | A completion ends its slot and queues exactly the children that have a worker, in order by priority, with their parent's tries; none when cancelled |
| `Outcomes.SubmitTakesTheFirst` | src/downloader/job_system.py:185-191 | The first package of the priority queue, or else of the other one, is submitted or rejected; the rest keep their order |
| `Outcomes.EndsIffReason` | src/downloader/job_system.py:180-368 | Over any run a slot ends as completed, failed or cancelled exactly when some step has the reason: it fails only by a rejection, an abort, an exception while cancelling, or an error or exception without a retry or backup that can run |
| `Outcomes.CompletedWasSaid` | src/downloader/job_system.py:225-239 | Only a package whose worker came back without an error completes |
| `Outcomes.CancelledAreListed` | src/downloader/job_system.py:327-359 | Over any run the list of cancelled jobs is that of the cancelled slots, in the order in which they ended |
| `Outcomes.RegisteredAreTheFirst` | src/downloader/job_system.py:103-109 | What is pushed from outside are exactly the jobs before the first one without a worker |
| `Outcomes.AcceptedIff` | src/downloader/job_system.py:425-444 | The ancestor check accepts a package exactly when no type occurs more often among its ancestors than allowed |
| `JobSystem.JobSystem.HandleRaisedException` | src/downloader/job_system.py:361-368 | An abort fails the package, any other exception is treated like a returned error |
| `JobSystem.JobSystem.StartOperating` | src/downloader/job_system.py:225-231 | A pool thread announces the start, or drops the package when the run is cancelled |
| `JobSystem.JobSystem.FinishOperating` | src/downloader/job_system.py:233-239 | A pool thread hands over the children or the error |
| `JobSystem.JobSystem.HandleNotification` | src/downloader/job_system.py:310-330 | One notification is one Handle step of the transition system |
| `JobSystem.JobSystem.HandleNotifications` | src/downloader/job_system.py:303-333 | The loop, with pool threads posting meanwhile, is a run of steps that handles notifications first come first served: all of them, or, when blocking, up to the first one that is not a start |
| `JobSystem.JobSystem.Meanwhile` | src/downloader/job_system.py:225-239 | Whatever pool threads do at a moment, and a cancellation, is a run of steps and only appends to the notifications |
| `JobSystem.JobSystem.FillFutures` | src/downloader/job_system.py:185-191 | The inner loop is a run of Submit steps, ends with empty queues or a full pool, and never overfills the pool |
| `JobSystem.JobSystem.RemoveDoneFutures` | src/downloader/job_system.py:342-351 | The loop is a run of Reap steps and leaves only futures that are not done |
| `JobSystem.JobSystem.CancelFutures` | src/downloader/job_system.py:353-359 | The loop, which waits for each worker that is still running while others move on, is a run of steps and leaves no future |
| `JobSystem.JobSystem.Wrap` | src/downloader/job_system.py:133-137 | What is still queued is cancelled, the queues are emptied, and the reporter is told of everything that was cancelled |
| `JobSystem.JobSystem.Tick` | src/downloader/job_system.py:184-199 | One turn of the main loop, amid starts, returns, exceptions and a cancellation by others between its phases and before each look at the queue, is a legal run of steps, so it conserves work |
| `Reporters.JobTagTracking.AddJobInProgress` | src/downloader/jobs/reporters.py:128-136 | The loop over the tags adds the job under each of its tags unless it has ended |
| `Reporters.JobTagTracking.RemoveJobInProgress` | src/downloader/jobs/reporters.py:138-146 | The loop over the tags removes the job under each of its tags if it was initiated |
| `Reporters.JobTagTracking.AddJobCompleted` | src/downloader/jobs/reporters.py:107-117 | The loop over the children is what a completion means for the tracker |
| `Reporters.InstallationReport.Notify` | src/downloader/jobs/reporters.py:188-212 | Each report turns the whole report into its specified next value |
| `Reporters.InstallationReport.AnyInProgressJobWithTags` | src/downloader/jobs/reporters.py:214-220 | True exactly when some job under one of the tags is initiated and not ended |
| `Reporters.InstallationReport.AddProcessedFiles` | src/downloader/jobs/reporters.py:230-241 | The new files, in the order given and as often as given, and the known ones; over all calls a path is handed to one call only |
| `ImporterJobs.EdgesRespectRank` | src/downloader/jobs/jobs_factory.py:51-84 | The jobs of an update have a rank that children and retries do not raise and backups lower |
| `ImporterJobs.EveryUpdateIsFinite` | src/downloader/jobs/fetch_data_job.py:47-48 | No update goes on for ever: the importer's own children, retries and backups meet what the scheduler needs |
| `ImporterJobs.ChainIsClosed` | src/downloader/jobs/open_zip_summary_job.py:43-47 | Retries and backups stay within a zip's chain of jobs, and children leave it but never join it, except the ones of the database's ProcessDbMainJob |
| `ImporterJobs.TagIsBusyWhileTheChainLives` | src/downloader/jobs/process_db_main_worker.py:66-85 | At every moment of an uncancelled run the in-progress set of a zip's tag is empty exactly when no job of that zip's chain is live: retries, backups and handing over leave no gap |
| `ImporterJobs.OneJobPerDatabase` | src/downloader/jobs/process_db_main_worker.py:66-95 | At any moment of any run, of the jobs that a database goes through one after the other at most one is live: children, retries and backups never add one |
| `ImporterJobs.WaiterLeavesAfterTheChain` | src/downloader/jobs/process_db_main_worker.py:66-85 | While a worker waits for the zips of its database, the job that introduces their tags is over and none comes again; when it then leaves its loop uncancelled, the zip's chain is over for good and all its outcomes are listed |
| `ImporterJobs.ChainsAreOwned` | src/downloader/jobs/jobs_factory.py:51-69 | With new job objects for new chains, every child, retry and backup of the importer is either the package's own job or not live: a job object is in one live package at a time |
| `Store.CleanMeansUnchanged` | src/downloader/local_store_wrapper.py:156-483 | Over any sequence of writes, if no save is asked for then the sections, zips, filtered data and fingerprint are unchanged; only a first base path may have been set |
| `Store.DoMarks` | src/downloader/local_store_wrapper.py:282-328 | No single operation changes what is saved without marking it, and no operation removes a mark |
| `Store.CleanupNeedsApart` | src/downloader/local_store_wrapper.py:410-419 | Without the additions being disjoint from the base section, the final clean-up could lose an entry and ask for no save |
| `Store.AddExternalIsSingle` | src/downloader/local_store_wrapper.py:204-212 | Adding a file on a drive leaves every file in one section if and only if it was not called a repeated presence while another copy is recorded, and every other drive holding it was noted when the store was wrapped |
| `Store.EachFileInOnePlace` | src/downloader/local_store_wrapper.py:108-125 | From a store with each file in at most one section, any writes that put no file on two different drives and never as repeated presence keep every file in at most one section, with the additions disjoint from the base files; putting a file on its drive again is allowed |
| `Store.AgreeingPuts` | src/downloader/local_store_wrapper.py:204-212 | All puts of a file naming one drive, none as a repeated presence, is enough for that |
| `Store.TwicePutIsTwoPlaces` | src/downloader/local_store_wrapper.py:204-212 | Putting one file on two drives in one session leaves it on both, because the notes are not updated |
| `Store.AddFileStores` | src/downloader/local_store_wrapper.py:180-199 | Adding a file puts exactly its description in the base section, takes it off every drive and touches nothing else |
| `Store.AddFolderStores` | src/downloader/local_store_wrapper.py:186-199 | A stored folder keeps its own description when it has at least as many fields and agrees on the shared ones, else it gets the new one |
| `Store.AddExternalStores` | src/downloader/local_store_wrapper.py:204-225 | The drive has exactly the new description |
| `Store.RemovedZipsAreForgotten` | src/downloader/local_store_wrapper.py:363-381 | Removed zips leave no trace in the zips, the filtered data and the base entries; the descriptions, filtered data and entries of other zips are unchanged |
| `Store.FilteredDataIsSaved` | src/downloader/local_store_wrapper.py:443-461 | What is saved is the given data, zip by zip |
| `StoreEffects.RemovalEffects` | src/downloader/local_store_wrapper.py:237-275 | A removal takes exactly its entries away, for every section and path |
| `StoreEffects.RemovalUnlists` | src/downloader/local_store_wrapper.py:258-275 | And exactly its path from the listings of the zips |
| `StoreEffects.SettingEffects` | src/downloader/local_store_wrapper.py:330-361 | The base path and the four fields of the fingerprint are what they were set to, and nothing else changes |
| `StoreEffects.CleanupEffects` | src/downloader/local_store_wrapper.py:383-420 | The clean-up loses no entry and leaves no empty section |
| `StoreEffects.MarkMeansChange` | src/downloader/local_store_wrapper.py:180-420 | A write marks the store for saving only if something that is saved changed, except the removal of zips and a zip description that does not count as the stored one |
| `StoreWrapper.EqualDicts` | src/downloader/local_store_wrapper.py:715-726 | The key by key comparison is equality |
| `StoreWrapper.EqualDictsOrLhsBigger` | src/downloader/local_store_wrapper.py:701-712 | A stored folder counts as the same when it has no fewer fields and agrees on the shared ones |
| `StoreWrapper.WriteOnlyStoreAdapter.constructor` | src/downloader/local_store_wrapper.py:108-130 | Notes, for every path outside the base section, exactly the drives that hold it |
| `StoreWrapper.WriteOnlyStoreAdapter.CleanExternalAdditions` | src/downloader/local_store_wrapper.py:267-280 | Forgets the note, takes the path off every drive and marks exactly when some drive had it |
| `StoreWrapper.WriteOnlyStoreAdapter.AddEntry` | src/downloader/local_store_wrapper.py:189-199 | Takes the path off every drive, drops tags of entries outside zips, and stores and marks only what differs |
| `StoreWrapper.WriteOnlyStoreAdapter.AddFile` | src/downloader/local_store_wrapper.py:180-184 | The file moves to the base section from every drive |
| `StoreWrapper.WriteOnlyStoreAdapter.AddExternalFile` | src/downloader/local_store_wrapper.py:204-212 | The file moves to the drive from the base section and the noted drives, unless copies may stay |
| `StoreWrapper.WriteOnlyStoreAdapter.RemoveFileFromZips` | src/downloader/local_store_wrapper.py:293-301 | The path leaves every drive and every zip description |
| `StoreWrapper.WriteOnlyStoreAdapter.RemoveExternalFolderFromZips` | src/downloader/local_store_wrapper.py:312-328 | The folder leaves one drive and every zip description |
| `StoreWrapper.WriteOnlyStoreAdapter.RemoveZipIds` | src/downloader/local_store_wrapper.py:363-381 | The zips, their filtered data and their ids and tags in the base entries are gone |
| `StoreWrapper.WriteOnlyStoreAdapter.SaveFilteredZipData` | src/downloader/local_store_wrapper.py:443-461 | Keeps the non-empty data, or nothing, and marks exactly on a change |
| `StoreWrapper.WriteOnlyStoreAdapter.AddZipSummary` | src/downloader/local_store_wrapper.py:463-483 | The zip description is set and the fragment's entries are added one after the other |
| `StoreWrapper.WriteOnlyStoreAdapter.SetDbStateFingerprint` | src/downloader/local_store_wrapper.py:339-358 | Sets the four fields and marks exactly when one differs |
| `StoreWrapper.WriteOnlyStoreAdapter.CleanupExternals` | src/downloader/local_store_wrapper.py:383-433 | Drops empty drive sections, base entries that are noted, and an empty external section |
| `Removal.MatchingIsClaiming` | src/downloader/local_store_wrapper.py:630-639 | The claim matcher returns exactly the candidates that some section holds in some case |
| `Removal.UnlinksAreSafe` | src/downloader/online_importer.py:447-493 | No path on the unlink list was processed in this run or is recorded, in any case and section, by a stored database that is not dropping it; each is deleted in a place of its own only; the listed paths are exactly the unprotected ones named by an entry that is not entangled with a failure; and each lower-cased path comes from one spelling |
| `Removal.UnlinksArePlaces` | src/downloader/online_importer.py:469-490 | The unlink list is exactly the places of the entries that have their turn: the package's own, the one below the base path for an external package, and every other section of a dropping database that records the path |
| `Removal.MayDeleteBySetting` | src/downloader/online_importer.py:495-502 | By setting nothing may be deleted, anything may, or exactly what ends in .rbf in any case |
| `Removal.RecordsDroppedExactly` | src/downloader/online_importer.py:482-484 | A database loses exactly the paths it drops and that are not entangled, from every section; every other record is as before |
| `RemovalQueue.InstallationBox.QueueFileRemoval` | src/downloader/online_importer.py:929-934 | Each database's packages join the dictionary by exact path: the first package stays, the databases gather |
| `RemovalQueue.InstallationBox.ConsumeFiles` | src/downloader/online_importer.py:936-939 | The queue has one entry for each queued path, sorted by path, with the package that was queued first and exactly the databases that queued the path; the dictionary is emptied |
| `RemovalQueue.OneEntryPerPath` | src/downloader/online_importer.py:929-939 | No two entries have the same path, and exactly the queued paths have one |
| `RemovalQueue.SpellingsAreNotMerged` | src/downloader/online_importer.py:929-939 | Two spellings of one path stay two entries |
| `RemovalQueue.PathGoesIff` | src/downloader/online_importer.py:455-493 | A path, in whatever case, is unlinked somewhere exactly when this run did not process it, no stored database claims it without dropping it, and in some spelling the package queued first is not entangled with a failed file; where, is PlaceGoesIff |
| `RemovalQueue.PlaceGoesIff` | src/downloader/online_importer.py:455-493 | Place by place what is unlinked, from what was queued: the spelling that comes first of those whose first package is not entangled, and of that package exactly its own place, the one below the base path, and the recorded copies |
| `RemovalQueue.RecordGoesIff` | src/downloader/online_importer.py:469-484 | A database loses its records of an exact path exactly when it queued the path and the package queued first, by whichever database, is not entangled |
| `RemovalQueue.EntangledPackageStaysIff` | src/downloader/online_importer.py:469-475 | What an entangled package gets: its spelling and record stay when the package queued first in that spelling is entangled too; otherwise the record goes, and the file does unless the path is protected |
| `RemovalQueue.FirstPackageDecides` | src/downloader/online_importer.py:929-934 | Two databases drop one file in the same spelling, the first queued package without entanglements: the file is unlinked and both forget it although the other package is entangled with a failure |
| `RemovalQueue.EntangledFileCanBeUnlinked` | src/downloader/online_importer.py:469-475 | Two databases drop one file in two spellings: only one package is entangled, and the path is unlinked |
| `Removal.DisplacementTransfers` | src/downloader/online_importer.py:594-627 | After displacement a store that did not run holds no base path equal to an installed one in any case and no such drive path in the same case; exactly which paths it keeps; what it keeps is unchanged |
| `Removal.ResetIffDownloaded` | src/downloader/online_importer.py:613-618 | A displaced store's fingerprint is reset exactly when a path it lost was downloaded in this run |
| `OnlineImporter.OnlineImporter.ProtectedNames` | src/downloader/online_importer.py:451-463 | The loops collect exactly the processed names and the names claimed by a database that is not dropping them |
| `OnlineImporter.OnlineImporter.ConsumeQueue` | src/downloader/online_importer.py:464-493 | The loop over the removal queue edits the stores as specified, and its unlink list is exactly the places of the entries that have their turn |
| `OnlineImporter.OnlineImporter.ConsumeFiles` | src/downloader/online_importer.py:447-512 | On disk: a file disappears only if the setting allows it and it is a place of a queued path that is not entangled, was not processed in this run and is recorded only by databases that drop it; and every allowed file at a place of a path that has its turn does, unless the file system refused |
| `OnlineImporter.OnlineImporter.DisplaceFileOwnership` | src/downloader/online_importer.py:603-619 | One store is displaced as specified, and the result says whether it lost anything |
| `OnlineImporter.OnlineImporter.Displace` | src/downloader/online_importer.py:621-627 | Exactly the stores that did not run are displaced |
| `Repository.SaveThenLoad` | src/downloader/local_repository.py:133-170 | Splitting a store per drive on save and merging on load gives back every database, empty external sections aside, when its drives are connected; drives that hold nothing any more contribute nothing |
| `Repository.DatabasesAfterSave` | src/downloader/local_repository.py:133-170 | For any later drives, the loaded databases are the saved ones and the configured ones that a drive which was away during the save still has |
| `Repository.SectionsAfterSave` | src/downloader/local_repository.py:133-170 | For any later drives, a loaded database has its core, the saved fragments of the drives that the save saw, and the old fragments of the drives that were away |
| `Repository.SavedDrivesAgree` | src/downloader/local_repository.py:352-378 | Every drive that the save saw has a manifest that says what its fragments are |
| `Repository.FastPathIsSlowPath` | src/downloader/jobs/open_db_worker.py:99-113 | After an error-free save, for every later set of drives, the skip decision from the manifests equals the one from the loaded fragments |
| `Repository.CoveredIffAllCarriersConnected` | src/downloader/external_store_fingerprints.py:56-63 | The expected fingerprints are covered exactly when every drive carrying a fragment of the database is connected, mirrors included and for any fingerprint function |
| `Repository.SkipIffUnchangedAndComplete` | src/downloader/db_utils.py:113-134 | A database is skipped exactly when the checking is the fastest, the stored hash and size are real and those of the database, the stored filter is the user's, and every drive that carries a fragment is connected |
| `Repository.AnyDifferenceIsProcessed` | src/downloader/db_utils.py:113-117 | A difference in any one of checking, hash, size and filter has the database processed, by either decision and whatever is on disk |
| `LocalRepository.ExternalStoreFingerprintsCovered` | src/downloader/external_store_fingerprints.py:56-63 | The loop over the amounts decides multiset inclusion |
| `LocalRepository.LocalRepository.SaveStore` | src/downloader/local_repository.py:299-378 | The loops write the main file, stamp the expected fingerprints, write one pair of files per drive and clean the others |
| `LocalRepository.LocalRepository.LoadStore` | src/downloader/local_repository.py:133-170 | The loops merge every connected drive into the stored databases, skipping databases that are neither stored nor configured |
| `LocalRepository.LocalRepository.LoadExternalStoreFingerprints` | src/downloader/local_repository.py:199-218 | The amounts announced for each database, over the connected drives |
| `LocalRepository.OpenDbWorker.OperateOn` | src/downloader/jobs/open_db_worker.py:99-133 | The fast decision, field by field; the load-store job is released once at most and before any database has to wait for the store |
| `LocalRepository.MixStoreAndDbWorker.ExternalFragmentFingerprints` | src/downloader/local_store_wrapper.py:649-656 | One fingerprint per drive, repetitions kept |
| `LocalRepository.MixStoreAndDbWorker.OperateOn` | src/downloader/jobs/mix_store_and_db_worker.py:45-122 | The slow decision, field by field, and when it forces a save to write the metadata again |
| `LocalRepository.MissingMetadataIsWrittenOnce` | src/downloader/jobs/mix_store_and_db_worker.py:71-76 | An unchanged database without the metadata is processed once; after the forced save the next run skips it |
| `Uninstall.Claimants` | src/downloader/offline_uninstaller.py:323-356 | The paths claimed, in any case and section, by a database outside the attempted ones |
| `Uninstall.OfflineUninstaller.UnlinkWithRetries` | src/downloader/offline_uninstaller.py:403-416 | Between one and retries plus one attempts, all on the one file; it succeeds exactly when the file is gone from disk, and gives up early only when the drive is lost |
| `Uninstall.OfflineUninstaller.RemoveFile` | src/downloader/offline_uninstaller.py:247-287 | One report per file, true of the disk: removed was there and is gone, missing was not there, failed is there after every attempt, disconnected has a lost drive, claimed is not touched; the record goes exactly in the first two cases and the last |
| `Uninstall.PopEffects` | src/downloader/offline_uninstaller.py:259-312 | Exactly one record goes |
| `Uninstall.OfflineUninstaller.RemoveFolder` | src/downloader/offline_uninstaller.py:304-315 | Without a failure an unclaimed folder is gone, has items or cannot be reached; only one without items is tried |
| `Uninstall.OfflineUninstaller.RemoveFolders` | src/downloader/offline_uninstaller.py:294-315 | No claimed folder is removed, a claimed one only loses its record, and longer paths come first, so a folder comes after those in it |
| `Uninstall.OfflineUninstaller.RemoveDb` | src/downloader/offline_uninstaller.py:220-320 | Every file of the reachable fragments is reported once, in order and truly, whatever vanishes when; only unclaimed files leave the disk; success needs every file removed, missing or claimed and no record left, and failure has a reason: a file or folder that resisted, a lost drive or a record left |
| `Uninstall.OfflineUninstaller.ReachableTotals` | src/downloader/offline_uninstaller.py:203-218 | The announced files and bytes are those of the fragments that can be reached at the start |
| `Uninstall.StoredFragments` | src/downloader/offline_uninstaller.py:364-401 | One fragment for the base section and one for each drive of the store, each with exactly one package for each recorded file and folder |
| `Uninstall.OfflineUninstaller.UninstallDbs` | src/downloader/offline_uninstaller.py:131-163 | A stored database counts as uninstalled only if the file of each of its records, in any section, is no longer on disk or recorded by a database that is not named; a file leaves the disk only if a named database records it and no other does; no folder that another database records is removed; the reports are those of the attempts |
| `Uninstall.ReportsAreAnnouncedPlusAgain` | src/downloader/offline_uninstaller.py:140-163 | For any order and any failures, files and bytes reported equal those announced plus exactly those of databases attempted again after a failure |
| `Uninstall.DistinctReportsAreAnnounced` | src/downloader/uninstall_service.py:95-105 | With each database named once, as its caller ensures, what is reported is exactly what was announced |
| `Uninstall.TwiceNamedIsReportedTwice` | src/downloader/offline_uninstaller.py:140-159 | A database named twice whose first attempt fails is announced once and reported twice |
| `Redirects.LookupPreservesTargets` | src/downloader/http_gateway.py:373-384 | On an acyclic map a lookup with its path compression leaves the final target of every key as it was and lengthens no chain |
| `Redirects.CompressShortens` | src/downloader/http_gateway.py:373-384 | After the lookup of a chain of at most ten entries the next one takes a single hop, to the same end |
| `Redirects.ShortChainIsResolved` | src/downloader/http_gateway.py:373-384 | A chain of at most ten entries is followed to its end |
| `Redirects.MoveIsAcyclicIff` | src/downloader/http_gateway.py:165-188 | Recording a move keeps the map acyclic if and only if the place it leads to does not lead back |
| `Redirects.ResolvedMoveIsAcyclic` | src/downloader/http_gateway.py:165-188 | It does so whenever the lookup of the new place reached the end of its chain |
| `Redirects.ExpiryKeepsAcyclic` | src/downloader/http_gateway.py:251-267 | Expiry keeps the map acyclic |
| `Redirects.HistoryStaysAcyclic` | src/downloader/http_gateway.py:83-109 | Any history of lookups, moves and expiries, one at a time, stays acyclic as long as each redirection met a chain of at most ten entries |
| `Redirects.TwelveMovesCloseACycle` | src/downloader/http_gateway.py:373-384 | Twelve moves in a row, the last one back to the first place, close a cycle |
| `Redirects.HttpGateway.Follow` | src/downloader/http_gateway.py:373-384 | The loop follows ten entries at most and shortens the key's own entry |
| `Redirects.HttpGateway.FollowMove` | src/downloader/http_gateway.py:156-185 | Without a location nothing changes; the place is looked up; an unsupported scheme keeps the URL; only a move that may be remembered is recorded, of the host when the resource is the same and of the URL otherwise |
| `Redirects.HostMoveIsAcyclicIff` | src/downloader/http_gateway.py:177-181 | Recording that a host moved keeps the map of hosts acyclic if and only if the new host, which is not looked up, does not lead back |
| `Redirects.TwoHostMovesCloseACycle` | src/downloader/http_gateway.py:177-181 | Two hosts that refer to each other close a cycle with two moves |
| `Redirects.HttpGateway.FillRedirectsSwap` | src/downloader/http_gateway.py:251-267 | Copies exactly what has not expired and says whether anything has |
| `Redirects.HttpGateway.CleanTimeoutRedirects` | src/downloader/http_gateway.py:226-249 | Exactly the expired entries go, from both maps |
| `FileFilter.IsFiltered` | src/downloader/file_filter.py:58-74 | Filtered exactly when no wanted term is met or an unwanted one is |
| `FileFilter.FoldersAreClosedAndMinimal` | src/downloader/file_filter.py:94-108 | The folders that stay are closed under listed ancestors and are the smallest such set with the wanted ones |
| `FileFilter.DropFolders` | src/downloader/file_filter.py:94-108 | The loop keeps exactly the wanted folders and their listed ancestors |
| `FileFilter.SelectFilteredFiles` | src/downloader/file_filter.py:81-110 | Exactly the right files and folders stay, and every dropped entry with a zip id lies under that zip and nowhere else |
| `ZipIndex.ZipSummaries` | src/downloader/local_store_wrapper.py:506-547 | Every zip gets its entries from the base section, the drives in their order and the filtered data, a later one replacing an earlier one, with the external placement marked where it applies |
| `ZipStore.FillFragment` | src/downloader/jobs/process_zip_index_worker.py:156-201 | The base section or one drive gets every kept file and folder of the zip |
| `ZipStore.OpSlots` | src/downloader/local_store_wrapper.py:180-235 | What each addition leaves at any path of any section: only its own path changes |
| `ZipStore.StoreZips` | src/downloader/online_importer.py:645-652 | The loops over the summaries, the filtered data and the clean-up are the writes that the round trip is about |
| `ZipStore.FilesAreRestoredIff` | src/downloader/jobs/process_zip_index_worker.py:50-57 | A zip is filtered with any filter, the kept parts of all zips of the database are written, the rest is saved as filtered data: with any zips, which may share paths, regrouping gives back exactly the zip's files if and only if no later zip takes one of them, by keeping it in the base section, in the same place or where its note is, and no entry of the zip survives at a path it no longer has |
| `ZipStore.EntriesAreRestoredIff` | src/downloader/local_store_wrapper.py:506-547 | For any zips, files and folders alike, without conditions on the store: the zip's entries come back exactly if at every path the section that regrouping prefers, of what all the writes leave, has what the zip kept there, and nothing is left at a path that it does not have |
| `ZipStore.FoldersAreRestoredIff` | src/downloader/local_store_wrapper.py:701-712 | For folders recorded for the zip in no other section, the same if and only if, besides, no folder that is stored at the zip's place when its turn comes is taken for the new one although it shows something else |
| `ZipStore.StoredFolderKeepsOldFields` | src/downloader/local_store_wrapper.py:701-712 | A folder that lost a field since it was stored comes back with the field |
| `ZipStore.LastZipOwnsTheFile` | src/downloader/local_store_wrapper.py:189-199 | Of the zips that keep a file the last one in the base section owns it, whatever was stored |
| `ZipStore.SharedFileIsLost` | src/downloader/local_store_wrapper.py:506-517 | A zip that shares a kept file with a later one does not get it back |
| `ZipStore.ZipPutsAgreeIff` | src/downloader/online_importer.py:629-648 | The importer puts external zip files twice; the two agree on the drive exactly when every file was put where its zip goes |
| `ZipStore.ImporterKeepsOnePlace` | src/downloader/online_importer.py:629-652 | Under that agreement all writes of an update keep each file in one place, and the conditions of the round trip hold |
| `ZipIndex.DeselectedExactly` | src/downloader/local_store_wrapper.py:569-591 | Deselecting removes exactly the indexes' paths from every section |
| `ZipIndex.OperateOn` | src/downloader/jobs/wait_db_zips_worker.py:52-74 | All indexes of completed zip jobs are deselected, unless a zip of the database ran out of space |
| `ZipIndex.ScheduledExactly` | src/downloader/jobs/process_db_index_worker.py:155-176 | Scheduled for removal are exactly the stored paths that neither the database's own index nor the index of a completed zip, as its filter left it, has |
| `ZipIndex.NoCompletedZipLosesAPath` | src/downloader/jobs/process_db_index_worker.py:155-176 | Over whole runs, no path that the filter left in the index of a completed zip is scheduled for removal by its database; a stored path that the filter took out is, exactly when neither the database nor another completed zip has it |
| `IndexFiles.ProcessCheckFilePackages` | src/downloader/jobs/process_db_index_worker.py:178-201 | Splits the files into missing ones, ones to look at because the store does not vouch for the declared hash, and trusted ones, in order |
| `IndexFiles.ProcessValidatePackages` | src/downloader/jobs/process_db_index_worker.py:204-232 | Of the files to look at, good ones are present, bad ones are replaced unless they must not be overwritten |
| `IndexFiles.VerifyHashes` | src/downloader/jobs/process_db_index_worker.py:234-251 | Splits the trusted files by their content on disk |
| `IndexFiles.MainSequence` | src/downloader/jobs/process_db_index_worker.py:116-153 | Where each file of the index ends up, for any store, disk and checking mode, and when the sequence goes on: space and folders could be had |
| `IndexFiles.VouchedForIff` | src/downloader/jobs/process_db_index_worker.py:178-201 | The store vouches for a file exactly when the section it belongs to records it with the declared hash |
| `IndexFiles.PlanIsSound` | src/downloader/jobs/process_db_index_worker.py:116-153 | No file is forgotten, none with the right content is installed, a wrong one is left alone only if the store vouches for it or it must not be overwritten, and nothing is installed without space or folders |
| `ZipContents.NextJobs` | src/downloader/jobs/process_zip_index_worker.py:59-93 | Whether the files of a zip are downloaded one by one, taken out of the archive, or the whole archive is extracted |
| `ZipContents.OpenZipContentsWorker.ExtractAllTo` | src/downloader/file_system.py:623-625 | A whole extraction writes every member of the archive, a later one over an earlier one |
| `ZipContents.OpenZipContentsWorker.OperateOn` | src/downloader/jobs/open_zip_contents_worker.py:44-166 | For any archive: every file's paths are as its own extraction leaves them, temporary path, backup and removal of a bad content included, and no other path changes but by the dump; downloads are launched for exactly the files that came out wrong and have a valid source, and exactly those without a source are reported failed |
| `ZipContents.ExtractionIsARun` | src/downloader/jobs/open_zip_contents_worker.py:61-133 | What the worker does to one file is a run of the file's line in the install machine, so the results about all runs hold of it |
| `ZipContents.ExtractionOutcome` | src/downloader/jobs/open_zip_contents_worker.py:61-149 | What an extraction leaves of a file: installed with a backup if the declared content came, else the target as it was or with what the archive had if written in place, the bad temporary file gone, and a download or a reported failure by its source |
| `ZipContents.FileIsTouchedIff` | src/downloader/jobs/open_zip_contents_worker.py:44-166 | Some run of the extraction and the downloads after it, stopped anywhere, changes or removes a file on disk exactly when the whole archive is dumped and has something for its place, or it is the target, the backup or the temporary path of a file to install whose line can touch it |
| `ZipContents.ProtectedFileIsReplacedIff` | src/downloader/jobs/open_zip_contents_worker.py:44-166 | A present file that must not be overwritten can get other content or disappear exactly when the whole archive is dumped and has something for its place, or integrity is verified, the store vouches for it, its content changed and the declared content can come: by download, also after a bad extraction, out of the archive, or from what a temporary path still has |
| `ZipContents.ForeignFileIsReplacedIff` | src/downloader/jobs/open_zip_contents_worker.py:44-166 | A file on disk that is no target of the index can change exactly when the whole archive is dumped over it, or it is the backup or the temporary path of a file to install, under the stated conditions |
| `ZipContents.WholeZipReplacesProtectedFile` | src/downloader/jobs/open_zip_contents_worker.py:45-46 | Sixty files, fifty-nine of them missing: the whole zip is extracted over the present one that must not be overwritten, recorded or not, without integrity verification |
| `ZipContents.IntegrityCheckReplacesProtectedFile` | src/downloader/jobs/process_db_index_worker.py:128-131 | A file that must not be overwritten, installed once and then changed by its user, is replaced by the integrity check |
| `ZipContents.RecoveryReplacesProtectedFile` | src/downloader/jobs/open_zip_contents_worker.py:142-166 | Such a file is extracted one by one from an archive with a bad member, or dumped from one without it: the extraction leaves it, and the download after it leaves any content or none |
| `FilteredMembers.FilteredFileGoesIff` | src/downloader/jobs/open_zip_contents_worker.py:82-86 | A filtered file of a dumped archive is unlinked exactly when it was not processed in this run, no stored database claims it without dropping it, and it is not entangled with a failed file, whoever it belonged to before |
| `FilteredMembers.RemovalFindsTheMember` | src/downloader/file_system.py:680-684 | The removal finds what was dumped exactly when the archive was dumped below the base path |
| `Install.ExistingFileIsWrittenInPlaceIff` | src/downloader/path_package.py:132-142 | An attempt writes an existing target itself in a whole extraction, and without a declared temporary path also in the download after an extraction and when it is told that the target does not exist; never otherwise |
| `Install.RecoveryIsADownload` | src/downloader/jobs/process_db_index_worker.py:358-376 | The download after an extraction is step by step one that takes the target not to exist |
| `InstallSafety.SurvivesEveryStopIff` | src/downloader/jobs/file_install.py:27-45 | For any files with different paths, any interleaving, any content that comes, any retries and a stop after any step, a target has its old content, the declared one or, if it was not there, its backup, if and only if nothing is extracted over it in place and no download in place can follow a bad extraction |
| `InstallSafety.ReplacedIsBackedUp` | src/downloader/jobs/file_install.py:38-45 | A target for which that holds and that was replaced has its old content in its backup, unless its worker started over |
| `InstallSafety.InPlaceIsNotSafe` | src/downloader/jobs/file_install.py:27-35 | Otherwise some run leaves a content that the target never had and that is not the declared one |
| `InstallSafety.RecoveryEndsAnyhow` | src/downloader/jobs/open_zip_contents_worker.py:156-166 | In the download after an extraction, in place, an existing target can end for good with any content or with none, and is not rescued |
| `InstallSafety.ChangesIff` | src/downloader/jobs/file_install.py:27-45 | Which files on disk some run changes or removes, exactly: targets, backups and temporary paths, each under a condition on the archive, the sources and the disk before |
| `Install.FileSystem.PrepareFileInstall` | src/downloader/jobs/file_install.py:27-35 | The install path, and a backup first when the target itself will be written |
| `Install.FileSystem.FinalizeFileInstall` | src/downloader/jobs/file_install.py:38-45 | Backs up and replaces the target, or does nothing for a file installed in place |
| `Install.FetchFileWorker.OperateOn` | src/downloader/jobs/fetch_file_worker.py:46-72 | The download succeeds exactly when the transfer gave no error and left the declared content; then the target has it, its old content is in its backup and the temporary path is gone; otherwise the target is as it was unless written itself, and a wrong content is removed. All of it is a run of the file's line |
| `Space.FileSizeOnDisk` | src/downloader/free_space_reservation.py:126-129 | The least multiple of the block size that holds the file |
| `Space.ReservationsAreExact` | src/downloader/free_space_reservation.py:44-65 | Over any batches, a partition has reserved exactly the accepted sizes in whole blocks and, if it received a file, keeps strictly more than its minimum |
| `Space.FreeSpaceReservation.ReserveSpaceForFilePkgs` | src/downloader/free_space_reservation.py:44-65 | All or nothing: a rejected batch changes no reservation and names exactly the full partitions |

## Left out

- Liveness of waiting workers: they hold pool threads while the jobs they wait for may be queued, so progress is not claimed.
- The order "the store is loaded before a MixStoreAndDbJob reads it" under threads: the flag is set before the completion is handled.
- Sequential execution of the job system is covered as those interleavings in which one package runs at a time.
- FAIL_FAST and FAIL_GRACEFULLY policies, the list of unhandled errors, log output, clocks and signals; a timeout or a signal is a Cancel action at any moment.
- The empty call notify_jobs_cancelled([]) at a cancellation, which changes no tag.
- JobSystem.JobSystem.PushJobs: reports the first job without a worker as a result instead of raising.
- Reuse of a job system after a cancelled run: its pending count is not reset, which the conservation law shows as the cancelled term.
- Empty entries that reading a defaultdict leaves in the tag dictionaries; they equal absent ones.
- Reporters.InstallationReport.AnyInProgressJobWithTags: the read does not insert the empty entry for an unknown tag.
- add_processed_folders and the lists of jobs per class of the report: they would add easy members only.
- The online checker's jobs, which are a smaller graph of the same kind.
- Sharing of description dictionaries between stores, indexes and packages; the model's descriptions are values.
- Removal.UnlinksAreSafe: lower case is that of ASCII letters.
- OnlineImporter.OnlineImporter: the stores of an update are values in one map, changed by the operations of module Store, not objects that could be shared.
- The folder part of the removal phase (the same claims as for files, and only empty folders go), the folder creation of an index and the copies found on other drives.
- Store.SetZip: whether two zip descriptions count as equal is a parameter of the operation.
- StoreWrapper.WriteOnlyStoreAdapter.RemoveZipIds: requires stored zip ids, as the source would raise otherwise.
- Store sections without their files or folders dictionary, unnormalised paths and the old `|` paths: migrated stores only.
- Repository.Saved: no write error; a failed save, replicas, and the old file names are not modelled. JSON and MD5 are any function of a fragment.
- Repository.State: the expected fingerprints are a multiset, while the source stores them sorted.
- LocalRepository.LocalRepository.LoadStore: the main file has no external sections, which is how saving leaves it.
- Uninstall.FileSystem: nobody else writes, and a drive that vanishes does not come back while databases are uninstalled; the source could see one come back between two questions about a file.
- Uninstall.OfflineUninstaller.UninstallDbs: starts after the checks that refuse a database; how a stored path becomes a package is any function.
- Redirects.HttpGateway: connections, retries, and requests at the same time; two concurrent moves can close a cycle.
- Redirects.Url: the text of a URL is only compared for equality; parsing it and joining it with a location are any function.
- FileFilter.Filter: the terms as parsed; parsing the filter text and unused terms are left out, and so is a listed folder named `.`.
- ZipIndex.ZipSummaries: the summary hash, which does not depend on the entries.
- ZipStore.FoldersAreRestoredIff: a folder that goes to a drive is recorded for the zip in no other section; the general case is ZipStore.EntriesAreRestoredIff.
- ZipStore: the writes of files, folders and removals that come before the zip summaries are any operations.
- ZipContents.ShouldExtractAll: seven tenths of a count is exact, while the source multiplies floating-point numbers, so that at 90 files, for instance, exactly 63 count as more.
- ZipContents.OpenZipContentsWorker.OperateOn: runs to its end; an archive or a copy that fails in the middle is a stop or a failed attempt of the install machine.
- ZipContents.ProtectedFileIsReplacedIff: different files share no target, temporary or backup path, and a dumped archive has no member at another file's temporary or backup path.
- ZipContents.ForeignFileIsReplacedIff: the extraction and its downloads; what the removal queue then does to filtered members is FilteredMembers.FilteredFileGoesIff.
- Install.StepOf: a finished extraction may start over even when no other file of the zip fails.
- FilteredMembers.FilteredFileGoesIff: the path is queued in one spelling and only as that filtered file; other cases are RemovalQueue.PlaceGoesIff. Filtered folders go the same way, if empty.
- ZipContents.Decides: whether the declared files and the target folder are in order is a parameter.
- Install.FetchFileWorker: errors of the file system other than an incomplete write or copy, and the retry loop of the safe fetcher.
- Space: finding the partition of a file and asking the system for its free blocks.
- HTTP, TLS, proxies, the Linux updater, certificates, INI and argument parsing, store migrations and message formatting.
