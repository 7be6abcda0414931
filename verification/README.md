# Verification models of core-service

Dafny models of the parts of `core-service` whose state has to stay right across retries, crashes,
cancellation and concurrent workers, with proofs about every run. `dafny verify dfyconfig.toml`
checks the whole project.

Each module holds a value type for the state, specification functions for the steps, a class whose
methods do what the code does step by step (each `ensures` that its new state is the one of the
specification function), and lemmas about the specification over all inputs and all runs. SQLite
transactions are atomic steps. Telegram, disk, clock, network and the death of the process are
parameters: oracles, answers, or steps that may come at any time.

| module | models |
|---|---|
| `ForwardRoutes` | validation and selection of auto-forward routes, lookup of a destination's record |
| `ForwardDelivery` | one forward job: native forward, caption edit, fallback download and upload, the parallel direct forward |
| `ForwardAgreement` | what one run guarantees for row, destinations and file |
| `ForwardBound` | exactly when a delivery, or a run, makes a second copy possible, for every record, stage and setting |
| `ForwardSafety` | what keeps a job from it: records that are safe to retry, and the runs that leave one behind |
| `ForwardSnapshot` | the settings snapshot of a job, and which of its records the lookup finds |
| `ForwardQueue` | the durable queue: rows, workers, direct reservations, operator actions, restarts at any request, spacing of starts |
| `ForwardOnce` | at most one copy per destination over every run of the queue, exactly, and the runs that break it |
| `ForwardWorkers` | the five goroutines and their shared counter, one atomic action at a time |
| `ForwardFiles` | delete after forward: a run, the library rows and the files on disk |
| `DestinationAccess` | paused destinations and their re-check times |
| `HistoryRunner`, `HistoryRuns`, `HistoryProcess` | backfill jobs with pause, resume, cancel, crash and recovery; what holds over every run; the process as one object |
| `AccountJournal` | the write-ahead journal for adding and removing accounts |
| `FileCleanup`, `DiskRotator` | rows sharing files, the unlink outbox, the rotation sweep and its byte count |
| `FaceDetection`, `PeopleGeneration` | the detection loop of a face scan, the replacement of the people table |
| `ConfigValues` | merge and redaction of configuration documents |
| `Compression` | the buffering compression writer and its encoder pool |

## What the code does differently from what one would expect

Each of these is a lemma with a concrete input and the exact condition, or the one that was found.

* A second copy at a destination is possible over a run of the queue if and only if some worker's run
  posts beside one (`AtMostOneCopyExactly`), and a delivery does so exactly under the answers of
  `RouteBreaksExactly`. Apart from a reconcile action that declares a delivered message unsent, these
  ways lead there:
  * A retry of a captured message goes past that message to an upload when the account limit cannot
    be read or when the client refuses the edit before it asks Telegram (not connected, destination
    not resolved, an account that cannot forward): the result then names no message, and the program
    takes the attempt for rejected. An accepted forward whose answer names no message goes the same
    way (`FallbackBesideCopyExactly`, `RouteDuplicatesExactly`, `UnreadableGateDuplicates`,
    `EarlyRefusalDuplicates`, `NamelessForwardDuplicates`). Without caption edits it never happens
    (`PlainRunsNeverStray`).
  * Settings saved without a route list are not trimmed, so the record of a destination with outer
    blanks is never found (`IndexOfLegacyRoute`, `SnapshotIndexed`), and a lost answer leaves no mark
    (`UnmarkedCopyExactly`): the row goes back to the queue and the next run sends again, without an
    operator and without a caption edit (`LostAnswerSendsAgain`). Otherwise, and without caption
    edits, runs without operator action keep the bound (`AtMostOneCopyWithoutEdits`, `TidyRunsMark`).
  * A lost upload answer under a cancelled context is not marked uncertain: the row becomes
    `interrupted`, and a retry posts a second copy, with and without a local file
    (`InterruptedCopyExactly`, `InterruptedRetrySendsAgain`, `InterruptedForwardSendsAgain`), exactly
    when its request goes out (`RetryBesideCopyExactly`).
  * A job resumed for a caption edit uploads when the edit falls through, with a local file also after
    a lost edit (`ResumedEditExactly`, `CaptionEditFallsThrough`); runs without operator action never
    get there.
* A cancel acknowledged while the job has no worker, as after a restart, leaves the job running for
  ever (`CancelCompletesExactly`, `NobodyCompletes`).
* A crash between the commit of an account addition and the removal of its pending file leaves that
  file behind for good (`SourceLeaksExactly`); removing a legacy account can make it visible again
  (`RemovedAccountReturnsExactly`).
* Deleting rows queues paths outside the media root, which then never leave the outbox
  (`UnhinderedDrain`, `OutsidePathsStayQueued`). A drain that finds no media root clears the outbox;
  when the root comes back its queued files stay for good (`NothingLeaks`, `MissingRootLeaks`).
* A rotation that deletes the larger of two sizes recorded for one file counts too little, never too
  much (`DeletionCounts`).
* A face scan rerun after an interrupted replacement can spread a label (`RerunKeepsLabelsExactly`,
  `LabelSpreads`).
* A flush of a started response overwrites an earlier write error, so a response can be finished as
  complete although bytes are missing (`FinishedTruncates`, `FlushHidesLoss`).
* The handler merges a redacted document first and strips the flags afterwards; both orders are
  covered (`RoundTrip`, `RoundTripOfHandler`).

## Model

| member | source | states |
|---|---|---|
| `ForwardRoutes.NormalizeRoutes` | core-service/internal/app/forward.go:1193-1221 | an accepted list is exactly the submitted one without blank destinations, destinations trimmed, topics in range, no two routes with the same source topic and destination; every refusal names a defect the list has |
| `ForwardRoutes.MatchingForwardRoutes` | core-service/internal/app/forward.go:1919-1952 | the loops over the saved routes select what the specification `Matching` says |
| `ForwardRoutes.MatchingSelects` | core-service/internal/app/forward.go:1919-1952 | for an accepted list each destination is selected at most once; selected are exactly the routes of the topic and the topic-less ones whose destination no route of the topic covers |
| `ForwardRoutes.TrimIdempotent` | core-service/internal/app/forward.go:1640-1645 | trimming a saved destination again finds the same text |
| `ForwardRoutes.ForwardDestinationIndex` | core-service/internal/app/forward.go:1627-1638 | answers the first record with this destination and topic, or -1 |
| `ForwardRoutes.DestinationIndexFound` | core-service/internal/app/forward.go:1627-1638 | an answer that is an index points at a record with this destination and topic |
| `ForwardRoutes.IndexOfSelectedRoute` | core-service/internal/app/forward.go:1376-1391 | for routes selected from an accepted list the lookup with route i's trimmed destination answers i, so progress lands on the right record |
| `ForwardRoutes.IndexOfLegacyRoute` | core-service/internal/app/forward.go:1627-1638 | settings saved without a route list are not trimmed: there the record is found if and only if the saved destination has no outer blanks |
| `ForwardDelivery.ForwardJob.Forward` | core-service/internal/app/forward.go:1301-1464 | one run of a job, field by field, ends in the job and row status of the specification `Run` (attempts, waits and the overriding of the status included) |
| `ForwardDelivery.ForwardJob.Finish` | core-service/internal/app/forward.go:1307-1339 | the deferred bookkeeping: cancelled, engine wait, wait before a send, uncertain destination and automatic retry override the status in this order |
| `ForwardDelivery.ForwardJob.Prepare` | core-service/internal/app/forward.go:1386-1426 | jobs that need an upload fetch their media first; a caption edit whose message is unknown fails without a request |
| `ForwardDelivery.ForwardJob.DeliverAll` | core-service/internal/app/forward.go:1427-1464 | the destinations in order, skipping forwarded and uncertain ones, up to the first failure |
| `ForwardDelivery.ForwardJob.ServeOne` | core-service/internal/app/forward.go:1427-1461 | one destination: its record becomes forwarded, failed, or what the send recorded; only the last one may delete the local file |
| `ForwardDelivery.ForwardJob.ForwardToRoute` | core-service/internal/app/forward.go:1640-1893 | access check, native forward or caption edit, fallback download and upload of one destination equal the specification `ToRoute` |
| `ForwardDelivery.ForwardJob.TryNative` | core-service/internal/app/forward.go:1659-1694 | account gate and native request or caption edit, with what they record |
| `ForwardDelivery.ForwardJob.RecordNative` | core-service/internal/app/forward.go:1695-1780 | accepted, rejected, flood, engine stopped, lost and unresolved answers: what is recorded and what follows |
| `ForwardDelivery.ForwardJob.SendFile` | core-service/internal/app/forward.go:1803-1833 | uploads repeated after flood waits up to the limit; every request is kept in the history |
| `ForwardDelivery.ForwardJob.RecordUpload` | core-service/internal/app/forward.go:1834-1892 | what the last upload answer does to the record and whether the local file goes |
| `ForwardDelivery.ForwardJob.DownloadForForward` | core-service/internal/app/forward.go:1483-1531 | the media is fetched only with a message and a source |
| `ForwardDelivery.ForwardJob.DirectForwardNow` | core-service/internal/app/forward.go:260-312 | the parallel direct forward: one request per destination up to the first that is not accepted |
| `ForwardDelivery.ForwardJob.RecordDirectOutcome` | core-service/internal/app/ingest.go:104-192 | what is stored when the direct forward and the download it ran beside have ended |
| `ForwardDelivery.AtMostOneAlways` | core-service/internal/app/forward.go:1466-1472 | a history that never could hold two copies could not at any earlier moment, and asked for a new delivery only while no copy could be there |
| `ForwardSnapshot.LookupNeverElsewhere` | core-service/internal/app/forward.go:1627-1648 | for every setting that was validated, or has no route list, the lookup with route k's trimmed destination answers k, or -1 when the setting is an untrimmed one without a list; it never answers another route's record |
| `ForwardSnapshot.SnapshotIndexed` | core-service/internal/app/forward.go:1376-1391 | every record of a job made from a setting is found by its lookup if and only if the setting is no untrimmed one without a route list |
| `ForwardAgreement.RouteExtends` | core-service/internal/app/forward.go:1640-1893 | a destination keeps its past requests, success means an accepted request, and the file goes only on a success that may delete |
| `ForwardAgreement.DeliverAgrees` | core-service/internal/app/forward.go:1427-1464 | forwarded and a deleted file mean that every destination was forwarded, each with an accepted request or an operator's word |
| `ForwardAgreement.RunAgrees` | core-service/internal/app/forward.go:1307-1339 | after a run the row is uncertain if and only if a destination is; forwarded, or a deleted file, only with all destinations forwarded |
| `ForwardAgreement.RunGrows` | core-service/internal/app/forward.go:1301-1464 | a run only adds requests to the same destinations and never forgets one |
| `ForwardAgreement.RunCountsAttempts` | core-service/internal/app/forward.go:1307-1339 | a run counts at most one attempt, and a row with at most two counted attempts that goes back to the queue still has at most two |
| `ForwardAgreement.DirectRunAgrees` | core-service/internal/app/ingest.go:104-192 | the direct outcome agrees with its destinations whatever Telegram answers |
| `ForwardBound.SendLoopSafe` | core-service/internal/app/forward.go:1803-1833 | flood repeats of an upload add no possible copy before the answer that ends them, whatever the account gate says |
| `ForwardBound.UploadExactly` | core-service/internal/app/forward.go:1783-1819 | an upload, with all its flood repeats, makes a second copy possible if and only if a copy may be there and its first request goes out |
| `ForwardBound.RouteBreaksExactly` | core-service/internal/app/forward.go:1640-1893 | for every record whose bound holds, at every stage and with every setting, tidy or not: a delivery makes a second copy possible if and only if the access check passes and one of these goes out beside a copy: a native request that is no edit, the upload of a job that forwards no more, or the upload that follows a native attempt whose gate could not be read or whose answer goes on to it and leaves a copy |
| `ForwardBound.RunBreaksExactly` | core-service/internal/app/forward.go:1301-1464 | a worker run of any job whose destinations keep the bound breaks it if and only if one of its deliveries does |
| `ForwardBound.RetryBesideCopyExactly` | core-service/internal/app/forward.go:1640-1819 | beside a copy, with or without a local file, a delivery that does not edit it breaks the bound if and only if access passes and its request goes out: the native one, the upload after an unreadable account limit, or the upload alone |
| `ForwardBound.ResumedEditExactly` | core-service/internal/app/forward.go:1695-1781 | a delivery resumed for a caption edit posts a second copy if and only if access passes, the edit falls through (account limit unreadable, refused before Telegram was asked or, with a local file, lost or unresolved) and the upload goes out: of the local file, or of the media fetched for it |
| `ForwardSafety.FallbackBesideCopyExactly` | core-service/internal/app/forward.go:1742-1777 | the native attempt of a job without a local file starts the fallback upload beside an existing copy if and only if the account limit could not be read before the edit of a captured message, the edit was refused before Telegram was asked, or an accepted forward with an unresolved caption did not name its message |
| `ForwardSafety.RouteDuplicatesExactly` | core-service/internal/app/forward.go:1640-1893 | for every safe record and every answer: a delivery makes a second copy possible if and only if the access check passes, the native attempt leaks in that way, the media can be fetched, access passes again, the file opens and the upload's gate opens (what the condition of RouteBreaksExactly comes to for such records) |
| `ForwardSafety.RouteSafe` | core-service/internal/app/forward.go:1640-1893 | otherwise, and unless the forwarded message has no known id or the lookup does not find the record of a copy just made, a record without a possible copy, or with a captured message to edit, never gets a second one, and what is left for a retry is again such a record |
| `ForwardSafety.DeliverSafe` | core-service/internal/app/forward.go:1427-1464 | the same over all destinations of a job |
| `ForwardSafety.RunSafe` | core-service/internal/app/forward.go:1301-1464 | a worker run of a clean job in which no delivery strays keeps at most one possible copy everywhere, and a row it puts back is clean again |
| `ForwardSafety.UnmarkedCopyExactly` | core-service/internal/app/forward.go:1640-1893 | a delivery whose record the lookup does not find changes nothing in it but the requests made; when it fails within the bound a copy is left, unmarked, if and only if its last request was answered lost, or was a forward with a caption edit answered unresolved |
| `ForwardSafety.IndexedRunsMark` | core-service/internal/app/forward.go:1627-1638 | a run of a job whose records the lookup finds leaves no copy unmarked, whatever is answered |
| `ForwardSafety.PlainRunsNeverStray` | core-service/internal/app/forward.go:1376-1404 | a run of a clean job without caption edits strays only by a copy left unmarked, whatever Telegram, the account gate and the disk answer |
| `ForwardSafety.NamedRunsNeverStray` | core-service/internal/app/forward.go:1672-1690 | a run with caption edits that leaves nothing unmarked does not stray when unresolved forwards name their message and, only if an unserved destination holds a copy, the edit of that copy goes through |
| `ForwardSafety.CapturedRetryIsEdit` | core-service/internal/app/forward.go:1675-1690 | a retry with a captured message id is an edit of that message, not a new delivery |
| `ForwardSafety.SecondCopy` | core-service/internal/app/forward.go:1742-1781 | when the condition holds and Telegram accepts the upload, the destination has two copies and counts as sent |
| `ForwardSafety.UnreadableGateDuplicates` | core-service/internal/app/forward.go:1756-1777 | a concrete family: one unreadable account limit on the retry of a captured message ends in two copies |
| `ForwardSafety.EarlyRefusalDuplicates` | core-service/internal/telegram/forward.go:83-95 | a concrete family: an edit of a captured message that the client refuses before it asks Telegram ends in two copies |
| `ForwardSafety.NamelessForwardDuplicates` | core-service/internal/telegram/forward.go:112-125 | a concrete run: an accepted forward with an edited caption whose answer names no message ends in two copies at the first attempt |
| `ForwardSafety.CaptionEditFallsThrough` | core-service/internal/app/forward.go:1695-1781 | a concrete instance of ResumedEditExactly: a job resumed for a caption edit with its local file marks the lost edit uncertain, uploads in the same call and is recorded as forwarded with two copies |
| `ForwardSafety.InterruptedCopyExactly` | core-service/internal/app/forward.go:1844-1858 | after a run that does not stray, a destination neither sent nor uncertain holds a copy no edit can reach if and only if the context ended and its last request was an upload whose answer was lost, or, for a record that the lookup does not find, any request that may have posted; the row is then interrupted unless another destination is uncertain |
| `ForwardSafety.DirectSafe` | core-service/internal/app/forward.go:260-312 | whatever is answered, the direct forward keeps at most one possible copy per destination and tells by its end whether all were sent |
| `ForwardSafety.DirectRunSafe` | core-service/internal/app/ingest.go:104-192 | whatever is answered, the direct outcome: at most one possible copy, deletion only when all were accepted, and a row handed to the workers is clean and has its local file |
| `ForwardQueue.CutAll` | core-service/internal/store/migrate.go:263-266 | a restart keeps of every destination a history between the ones before and after the interrupted run, with the record as claimed or as the run left it when it was done with the destination |
| `ForwardQueue.FinishedRowAgrees` | core-service/internal/app/forward.go:879-897 | the row that a finished run records agrees with its destinations |
| `ForwardQueue.DirectRowAgrees` | core-service/internal/app/ingest.go:104-192 | so does the row that a direct forward records |
| `ForwardQueue.RestartedRowAgrees` | core-service/internal/store/migrate.go:263-266 | so does a row found in progress after a restart |
| `ForwardQueue.ReconcileAgrees` | core-service/internal/app/forward.go:757-823 | after an accepted reconcile action a row is uncertain if and only if a destination is, forwarded only with all destinations forwarded, and agrees with its destinations |
| `ForwardQueue.ClaimAgrees` | core-service/internal/app/forward.go:465-497 | a claim of the oldest due pending row keeps all rows in agreement and all drivers apart |
| `ForwardQueue.ReleaseAgrees` | core-service/internal/app/forward.go:403-412 | so does giving a claim back |
| `ForwardQueue.StepAgrees` | core-service/internal/app/forward.go:403-897 | every step (enqueue, scan, reserve, claim, release, finish, direct outcome, restart, pause, retry, retry-all, reconcile) keeps the agreement |
| `ForwardQueue.RowsAlwaysAgree` | core-service/internal/app/forward.go:403-897 | over every run with operator actions and restarts: no uncertain destination behind a pending, failed or interrupted row, only forwarded ones behind a forwarded row or a deleted file, one destination per route with the route's settings, and no row driven by two actors |
| `ForwardQueue.RouteListStays` | core-service/internal/app/forward.go:1367-1375 | over every run the snapshot of a row, and so the length of its route list, never changes, and the records loaded by a claim are those saved |
| `ForwardQueue.AttemptsStayBounded` | core-service/internal/app/forward.go:1307-1339 | over every run without operator action, whatever is answered, no job is tried more than three times, engine waits not counted |
| `ForwardQueue.ForwardQueueStore.ClaimForward` | core-service/internal/app/forward.go:465-497 | finds the oldest due pending row, or says that there is none, and takes it for a free worker |
| `ForwardQueue.ForwardQueueStore.ReleaseForwardClaim` | core-service/internal/app/forward.go:403-412 | gives the row back as pending and frees the worker |
| `ForwardQueue.ForwardQueueStore.RunJob` | core-service/internal/app/forward.go:879-897 | a worker runs its job object and records its outcome |
| `ForwardQueue.ForwardQueueStore.RunDirect` | core-service/internal/app/ingest.go:104-192 | the direct goroutine runs the job object and records its outcome |
| `ForwardQueue.ForwardQueueStore.Retry` | core-service/internal/app/forward.go:606-628 | exactly failed and interrupted rows go back to pending |
| `ForwardQueue.ForwardQueueStore.RetryAll` | core-service/internal/app/forward.go:858-877 | the same for all rows |
| `ForwardQueue.ForwardQueueStore.Reconcile` | core-service/internal/app/forward.go:662-856 | accepts exactly the actions that resolve an uncertain destination, or re-send an unresolved row, and resolves exactly the chosen ones |
| `ForwardQueue.StartSchedule.ReserveStart` | core-service/internal/app/forward.go:414-432 | a start is given out now or at the next free time, whichever is later |
| `ForwardQueue.StartsAreSpaced` | core-service/internal/app/forward.go:414-432 | any two starts i and j of a run are at least (j - i) intervals apart, and nobody starts before asking |
| `ForwardOnce.CutSafe` | core-service/internal/store/migrate.go:263-266 | destinations cut by a death keep the bound of the interrupted run |
| `ForwardOnce.StepExactly` | core-service/internal/app/forward.go:403-897 | a step of the queue breaks the bound on copies if and only if it is a worker's run that does, or a restart that interrupts one after it did |
| `ForwardOnce.DeathBreaksOnlyIfRunDoes` | core-service/internal/store/migrate.go:263-266 | a restart finds the bound broken only in a row whose interrupted run would have broken it |
| `ForwardOnce.StepKeepsBroken` | core-service/internal/app/forward.go:403-897 | a bound once broken stays broken over every step, operator actions and restarts included |
| `ForwardOnce.AtMostOneCopyExactly` | core-service/internal/app/forward.go:403-897 | over every run, with operator actions, restarts at any request, caption edits and untrimmed settings: no destination of any job ever could hold two copies if and only if no step of the run was one of those |
| `ForwardOnce.StepSafe` | core-service/internal/app/forward.go:465-497 | a step that is no operator action and does not stray keeps every row and every job in progress clean, whatever setting the job was made from |
| `ForwardOnce.AtMostOneCopy` | core-service/internal/app/forward.go:1301-1464 | over every run without operator action in which no worker's run strays, restarts at any request and untrimmed settings included, no destination could ever hold two copies, and a new delivery is asked for only while none could be there |
| `ForwardOnce.AtMostOneCopyWithoutEdits` | core-service/internal/app/forward.go:1301-1464 | without caption edits the same holds for every run without operator action in which no worker's run leaves a copy unmarked, whatever Telegram, the account gate and the disk answer |
| `ForwardOnce.TidyRunsMark` | core-service/internal/app/forward.go:1376-1391 | jobs made from other settings than untrimmed ones leave no copy unmarked over any run, whatever is answered |
| `ForwardOnce.NamedStepNeverStrays` | core-service/internal/app/forward.go:1301-1464 | in every such run a claimed job that leaves nothing unmarked does not stray when unresolved forwards name their message and, only if an unserved destination holds a copy, its edit goes through |
| `ForwardOnce.LostAnswerSendsAgain` | core-service/internal/app/write_api.go:236-261 | for every job with one destination from an untrimmed setting without a route list: a lost answer puts the row back into the queue with one possible copy, and the next run's accepted request makes two, without an operator and without a caption edit |
| `ForwardOnce.InterruptedRetrySendsAgain` | core-service/internal/app/forward.go:606-628 | for every job with one destination that uploads, with or without a local file: a context that ends while the upload's answer is lost leaves an interrupted row and no uncertain destination, and a retry that nothing hinders posts another copy |
| `ForwardOnce.InterruptedForwardSendsAgain` | core-service/internal/app/forward.go:606-628 | for every job with one destination that forwards natively: a refused forward whose fallback upload loses its answer as the context ends leaves an interrupted row, still without a file, and the retry posts another copy by a native forward |
| `ForwardWorkers.PoolRunsQueue` | core-service/internal/app/forward.go:314-378 | every interleaving of the workers' atomic actions is a run of the queue, so what holds over every run of the queue holds for the pool |
| `ForwardWorkers.ActedKeeps` | core-service/internal/app/forward.go:338-366 | every load, swap, claim, end and decrement keeps the counter equal to the number of workers with a slot and the jobs in progress those of the driving workers |
| `ForwardWorkers.JobsWithinConcurrency` | core-service/internal/app/forward.go:314-378 | over every interleaving: jobs in progress at most the counter, which is the number of workers with a slot and never exceeds the largest concurrency a worker has read, also while the setting changes and across restarts |
| `ForwardWorkers.AtMostFiveJobs` | core-service/internal/app/forward.go:314-398 | never more than five, whatever is configured |
| `ForwardWorkers.WorkerPool.ReadLimit` | core-service/internal/app/forward.go:384-398 | the configured number, between one and five |
| `ForwardWorkers.WorkerPool.LoadActive` | core-service/internal/app/forward.go:339-339 | the counter as the worker sees it |
| `ForwardWorkers.WorkerPool.TrySlot` | core-service/internal/app/forward.go:340-340 | a slot is taken only below the limit and only if nobody changed the counter in between |
| `ForwardWorkers.WorkerPool.ClaimNext` | core-service/internal/app/forward.go:341-342 | a claim, or the way out without one |
| `ForwardWorkers.WorkerPool.RunClaimed` | core-service/internal/app/forward.go:357-358 | the job runs |
| `ForwardWorkers.WorkerPool.GiveBack` | core-service/internal/app/forward.go:343-356 | or goes back to the queue |
| `ForwardWorkers.WorkerPool.LowerActive` | core-service/internal/app/forward.go:347-362 | every exit lowers the counter |
| `ForwardFiles.DeletedOnlyWhenSent` | core-service/internal/app/forward.go:1992-2011 | for every run, answer and drain: the job's row leaves the library only with every destination sent, and every other row keeps its row and its stored file, also when it is the same file |
| `ForwardFiles.UnusedFileGoes` | core-service/internal/app/forward.go:1992-2011 | the file of a deleted row that no other row leads to is gone after a drain that nothing hinders |
| `DestinationAccess.Worst` | core-service/internal/app/forward.go:2082-2082 | the state of a refused destination is the verdict of some account and none ranks higher |
| `DestinationAccess.AccessTable.AccessBlocked` | core-service/internal/app/forward.go:2098-2110 | blocked if and only if some account fails and none of the episode can post; due if and only if the delay since the last failed re-check, or the opening of the block, has passed |
| `DestinationAccess.AccessTable.Update` | core-service/internal/app/forward.go:2139-2228 | one result updates the row of its destination as specified and no other row |
| `DestinationAccess.AccessTable.Weigh` | core-service/internal/app/forward.go:2167-2180 | whatever the order the accounts are read in, the same verdict comes out |
| `DestinationAccess.RowHoldsEpisode` | core-service/internal/app/forward.go:2139-2228 | over every run the row exists if and only if some account's last result is a failure, and it holds the last results since everybody was fine |
| `DestinationAccess.RowVerdict` | core-service/internal/app/forward.go:2139-2228 | over every run: blocked if and only if some account fails and none of the episode can post, with the worst last result of any account |
| `DestinationAccess.BlockSchedule` | core-service/internal/app/forward.go:2201-2218 | while blocked, first_seen is the opening of the block, checks the failed re-checks since, and the next check was set by the last of them or by the opening |
| `DestinationAccess.DelayBounds` | core-service/internal/app/forward.go:2120-2125 | a delay is 0.9 to 1.1 times its base |
| `DestinationAccess.Replay` | core-service/internal/app/forward.go:2139-2228 | after any run over many destinations each row is that of its own events |
| `HistoryRunner.AdvancedOk` | core-service/internal/app/history_runner.go:380-461 | checkpointing the first message of a page that holds the newest messages ahead extends the contiguous descending run of visits |
| `HistoryRunner.RestFits` | core-service/internal/app/history_runner.go:192-273 | the rest of the page again holds the newest messages ahead, and after the last page the whole window was visited |
| `HistoryRunner.CommittedOk` | core-service/internal/app/history_runner.go:380-461 | cursor, counters and queued work of a commit fit together, and the guard on the cursor cannot fail |
| `HistoryRunner.EmptyPageEnds` | core-service/internal/app/history_runner.go:267-273 | an empty last page means that the whole window was visited |
| `HistoryRunner.CheckpointKeeps` | core-service/internal/app/history_runner.go:380-461 | a checkpoint commits a smaller cursor unless the job was cancelled or has reached its limit |
| `HistoryRunner.StepKeeps` | core-service/internal/app/history_runner.go:16-90 | every step of workers, operator, process and chat keeps memory, disk and workers together and every walk sound |
| `HistoryRuns.ExactlyOnce` | core-service/internal/app/history_runner.go:192-273 | over every run with crashes, pauses and resumes: visits descend through the window without repeat or gap, queued work is that of the visited messages, Downloaded <= Processed <= Limit, and done means the limit or the whole window |
| `HistoryRuns.TasksOfVisited` | core-service/internal/app/history_runner.go:415-443 | queued is exactly the work of the visited messages |
| `HistoryRuns.NoTaskTwice` | core-service/internal/app/history_runner.go:415-443 | and no work twice |
| `HistoryRuns.CursorFalls` | core-service/internal/app/history_runner.go:337-461 | each step, crash included, moves the cursor only with a checkpoint and then strictly down, queues that message's work in the same step, and never changes the window of an initialized job |
| `HistoryRuns.CancelGivesUp` | core-service/internal/app/history_api.go:429-457 | an acknowledged cancel is on disk |
| `HistoryRuns.CancelIsFinal` | core-service/internal/app/history_api.go:429-457 | after it nothing more is queued for the job over any further steps and restarts, and the job can only become cancelled |
| `HistoryRuns.TerminalIsFinal` | core-service/internal/app/history_runner.go:463-488 | a finished job stays what it is until it is deleted |
| `HistoryRuns.OnlyUninterruptedWorkersEnd` | core-service/internal/app/history_runner.go:463-488 | a job turns into done or error only at the end of a worker that no pause interrupted |
| `HistoryRuns.PausedJobsHold` | core-service/internal/app/history_runner.go:58-90 | a pause, followed at once by a resume or not, never turns a job into done or error until a new worker takes over |
| `HistoryRuns.ResumeWaitsForOldWorker` | core-service/internal/app/history_runner.go:16-50 | while the old worker is registered the start of a resume does nothing |
| `HistoryRuns.OneWorkerPerJob` | core-service/internal/app/history_runner.go:16-50 | at most one worker runs a job, also across restarts |
| `HistoryRuns.CancelCompletesExactly` | core-service/internal/app/history_api.go:429-457 | an acknowledged cancel can still become the final state if and only if a worker of the job has not yet handled its end |
| `HistoryRuns.NobodyCompletes` | core-service/internal/app/history_runner.go:16-25 | a cancelled job without a worker stays running over every further run |
| `HistoryProcess.Runner.StartHistoryWorker` | core-service/internal/app/history_runner.go:16-50 | starts a worker only for a running, uncancelled job without one |
| `HistoryProcess.Runner.InitializeHistory` | core-service/internal/app/history_runner.go:337-377 | fixes the window once, in the commit that marks the job initialized |
| `HistoryProcess.Runner.FetchPage` | core-service/internal/app/history_runner.go:192-241 | the guards of the loop, then a page |
| `HistoryProcess.Runner.CheckpointHistory` | core-service/internal/app/history_runner.go:380-461 | one transaction for cursor, counters and work, or an error, or nothing at the limit |
| `HistoryProcess.Runner.FinishHistory` | core-service/internal/app/history_runner.go:463-530 | a paused job stays running; otherwise cancelled, error or done |
| `HistoryProcess.Runner.Leave` | core-service/internal/app/history_runner.go:33-46 | gives up the entry and says whether a new worker starts |
| `HistoryProcess.Runner.CancelHistory` | core-service/internal/app/history_api.go:429-457 | acknowledges exactly running jobs, row and memory together, and stops the worker |
| `HistoryProcess.Runner.PauseHistoryWorkers` | core-service/internal/app/history_runner.go:74-90 | marks every running job and stops every worker |
| `HistoryProcess.Runner.Resume` | core-service/internal/app/history_runner.go:58-72 | lists the running jobs to start |
| `HistoryProcess.Runner.RecoverHistoryJobs` | core-service/internal/app/history_api.go:69-90 | a new process knows exactly the running rows |
| `HistoryProcess.Runner.DeleteHistory` | core-service/internal/app/history_api.go:459-512 | deletes a job that is not running, on disk and in memory |
| `HistoryProcess.Runner.Perform` | core-service/internal/app/history_runner.go:16-90 | whatever entry point makes the step, the object is in the state after that step and its memory, disk and workers still fit together |
| `HistoryProcess.Play` | core-service/internal/app/history_runner.go:16-90 | a whole run on the object ends in the state that the theorems about runs speak of |
| `AccountJournal.StepKeepsReady` | core-service/internal/accounts/repository.go:254-306 | no step makes a journaled operation impossible to complete |
| `AccountJournal.StepKeepsOutcome` | core-service/internal/accounts/repository.go:254-365 | no step of a replay and no crash changes what the journal will lead to: files, entries, groups, work and peers |
| `AccountJournal.ReplayKeepsOutcome` | core-service/internal/accounts/repository.go:368-405 | the same over any replay, broken off and taken up anywhere |
| `AccountJournal.Settles` | core-service/internal/accounts/repository.go:368-405 | a replay that empties the journal ends in the state the journal led to |
| `AccountJournal.ReplaysAgree` | core-service/internal/accounts/repository.go:368-405 | any two complete replays of a journal, with any crashes, end in the same state up to leftover pending files and the order of appended entries |
| `AccountJournal.AdditionOutcome` | core-service/internal/accounts/repository.go:119-187 | an addition, wherever the process dies: the session with the journaled digest in place, exactly one entry, everything else unchanged |
| `AccountJournal.RemovalOutcome` | core-service/internal/accounts/repository.go:188-222 | a removal, wherever the process dies: its files and entry gone, its groups unpinned, its open work failed, everything else unchanged |
| `AccountJournal.RemovedAccountReturnsExactly` | core-service/internal/accounts/repository.go:198-210 | a removed account is unknown afterwards, except if and only if a Node copy of the legacy account was the only Node account beside an old session.enc |
| `AccountJournal.NeverOverwritten` | core-service/internal/accounts/repository.go:264-283 | a session file changes only by the removal of its own account or a save of its own session |
| `AccountJournal.ReplayIsNeverStuck` | core-service/internal/accounts/repository.go:254-306 | as long as an operation is journaled one of its steps can be taken |
| `AccountJournal.SourceLeaksExactly` | core-service/internal/accounts/repository.go:299-305 | the pending file of a finished addition stays behind if and only if the process died between the commit and its removal |
| `AccountJournal.CandidatesDiffer` | core-service/internal/accounts/repository.go:157-169 | numbered names differ |
| `AccountJournal.DigitsRoundTrip` | core-service/internal/accounts/repository.go:168-168 | reading a number from its digits gives the number back |
| `AccountJournal.TakenBound` | core-service/internal/accounts/repository.go:157-169 | the search for a free name ends |
| `AccountJournal.Repository.CommitConfig` | core-service/internal/accounts/repository.go:308-365 | the loops over accounts, groups and work make exactly the specified transaction |
| `AccountJournal.Repository.Apply` | core-service/internal/accounts/repository.go:254-306 | a journaled operation is never refused, and what it did before it stopped is a run of replay steps |
| `AccountJournal.Repository.Publication` | core-service/internal/accounts/repository.go:258-283 | links the pending session only if the target is missing, and goes on only with the journaled digest in place |
| `AccountJournal.Repository.Removal` | core-service/internal/accounts/repository.go:284-296 | removes the journaled files |
| `AccountJournal.Repository.Recover` | core-service/internal/accounts/repository.go:368-405 | empties the journal unless the process dies again |
| `AccountJournal.Repository.PickId` | core-service/internal/accounts/repository.go:150-169 | the first free, safe name; a chosen label is never numbered |
| `AccountJournal.Repository.Publish` | core-service/internal/accounts/repository.go:119-187 | before the journal row a failure only removes the pending file; after it the operation is journaled or done |
| `AccountJournal.Repository.RemoveAccount` | core-service/internal/accounts/repository.go:188-222 | refuses exactly unsafe, ambiguous, unknown and already journaled accounts |
| `FileCleanup.MediaNameInside` | core-service/internal/app/file_cleanup.go:14-20 | an accepted name has at least one component and none that is empty, dot, dot-dot or holds a separator |
| `FileCleanup.MediaNameIdempotent` | core-service/internal/app/file_cleanup.go:14-20 | cleaning a cleaned path changes nothing |
| `FileCleanup.StepSound` | core-service/internal/app/file_cleanup.go:76-223 | every insertion, deletion, rotation, drain, cut-off drain and missing root keeps stored files there, and of the files that ever had a row exactly the forgotten ones on disk unknown |
| `FileCleanup.ReferencedFilesStay` | core-service/internal/app/file_cleanup.go:153-218 | no step, committed or cut off, unlinks a file that a row leads to, up to aliases |
| `FileCleanup.StoredFilesAreThere` | core-service/internal/app/file_cleanup.go:153-218 | over every run a stored file is there as long as any row uses it |
| `FileCleanup.NothingLeaks` | core-service/internal/app/file_cleanup.go:76-178 | over every run a file that ever had a row and is on disk is used by a row or in the outbox, also after a crash between unlink and commit, if and only if it was not forgotten: dropped from the outbox, unused, by a drain that found no media root, and without a new row since |
| `FileCleanup.MissingRootLeaks` | core-service/internal/app/file_cleanup.go:169-178 | for every stored file inside the root: deleted, then a drain while the root is missing, then the root back and a drain that nothing hinders, leave the file on disk with nothing queued |
| `FileCleanup.UnhinderedDrain` | core-service/internal/app/file_cleanup.go:200-223 | a drain that nothing hinders leaves on disk, of the files that ever had a row, exactly those with a row and the forgotten ones; queued stay exactly the paths outside the root |
| `FileCleanup.OutsidePathsStayQueued` | core-service/internal/app/file_cleanup.go:201-210 | such a path stays in the outbox over every step while the root exists |
| `FileCleanup.MediaStore.DeleteByWhere` | core-service/internal/app/file_cleanup.go:76-104 | removes exactly the rows and queues their paths |
| `FileCleanup.MediaStore.DrainFileCleanup` | core-service/internal/app/file_cleanup.go:153-223 | the loop over the outbox, with failing removals and a crash at any path, is a drain or a cut-off drain; without a media root it clears the outbox |
| `DiskRotator.SweepDeletes` | core-service/internal/app/disk_rotator.go:182-246 | a sweep deletes exactly the shortest oldest-first prefix of unprotected rows that brings the total to the cap, cut off only by the limit or the end; every other row stays |
| `DiskRotator.NextBatch` | core-service/internal/app/disk_rotator.go:135-157 | a batch goes on where the earlier ones stopped and is empty only when nothing is left |
| `DiskRotator.EligibleRest` | core-service/internal/app/disk_rotator.go:186-207 | deleting the oldest unprotected rows leaves the others unprotected, in order |
| `DiskRotator.CountFirst` | core-service/internal/app/disk_rotator.go:173-177 | the bytes of the stored files can be summed in any order of paths |
| `DiskRotator.DeletionCounts` | core-service/internal/app/disk_rotator.go:228-240 | one deletion takes at least the bytes it counts for, and exactly those if and only if it is exact |
| `DiskRotator.TotalNeverBelow` | core-service/internal/app/disk_rotator.go:209-244 | over any deletions the running total never falls below the bytes of the stored files, and follows them exactly if and only if every deletion is exact |
| `DiskRotator.SweepCountsBytes` | core-service/internal/app/disk_rotator.go:209-244 | at the end of a sweep the library is not larger than the total, and equal when rows sharing a file record one size |
| `DiskRotator.SweepEnds` | core-service/internal/app/disk_rotator.go:135-157 | a sweep that ends over the cap reached its limit or left no unprotected row |
| `DiskRotator.SweepIsRotation` | core-service/internal/app/disk_rotator.go:215-227 | a sweep is a rotation event of the file store: it queues the paths of exactly the deleted rows, those inside the root |
| `DiskRotator.Rotator.RotateBatch` | core-service/internal/app/disk_rotator.go:182-246 | one batch, row by row, equals the specified prefix of its limit |
| `DiskRotator.Rotator.Sweep` | core-service/internal/app/disk_rotator.go:135-157 | whatever the batch size the batches together equal one pass over all unprotected rows; the loop ends because the budget falls |
| `DiskRotator.SweepLibrary` | core-service/internal/app/disk_rotator.go:111-162 | a whole sweep of the library, including the early exit under the cap |
| `FaceDetection.EnoughRead` | core-service/internal/app/faces_scan.go:441-453 | reading limit plus skipped files finds the first open ones |
| `FaceDetection.NotedBooks` | core-service/internal/app/faces_scan.go:418-440 | noting a failure keeps the books: a file with more than one attempt, or given up, failed alone |
| `FaceDetection.FailedSound` | core-service/internal/app/faces_scan.go:524-541 | after a failed request attempts and skipped files still say what the requests said |
| `FaceDetection.AnsweredSound` | core-service/internal/app/faces_scan.go:542-544 | so they do after an answered one |
| `FaceDetection.RoundShrinks` | core-service/internal/app/faces_scan.go:463-588 | a round takes a file or an attempt away |
| `FaceDetection.Scan.Pick` | core-service/internal/app/faces_scan.go:441-453 | the first open files of one type |
| `FaceDetection.Scan.NoteFailure` | core-service/internal/app/faces_scan.go:418-440 | counts an attempt, gives up at three or at a lonely timeout, stops on a fatal error or the hundredth skipped file |
| `FaceDetection.Scan.Send` | core-service/internal/app/faces_scan.go:512-545 | one request keeps every failed file out of requests with others |
| `FaceDetection.Scan.SendWork` | core-service/internal/app/faces_scan.go:503-546 | the chunks of a round, answered in any order: every file is answered or loses an attempt |
| `FaceDetection.Scan.Persist` | core-service/internal/app/faces_scan.go:335-371 | stamps exactly the files without a source and the answered ones |
| `FaceDetection.Scan.ChooseWork` | core-service/internal/app/faces_scan.go:490-499 | a file that failed goes alone |
| `FaceDetection.Scan.Round` | core-service/internal/app/faces_scan.go:463-588 | a round ends the scan or spends attempts; no failed file is stamped and none gets lost |
| `FaceDetection.Scan.DetectPhotos` | core-service/internal/app/faces_scan.go:463-588 | at most three rounds per unscanned file; failed files are sent alone, given up only after a lonely failure and never stamped by it; a loop that ends by itself leaves only files given up |
| `FaceDetection.Scan.DetectVideos` | core-service/internal/app/faces_scan.go:589-655 | the same for the videos, one at a time |
| `PeopleGeneration.WrittenIsMoved` | core-service/internal/app/faces_scan.go:888-903 | the updates written one by one move every face to its cluster's person |
| `PeopleGeneration.ReplacementIsValid` | core-service/internal/app/faces_scan.go:850-913 | a completed replacement has valid references only |
| `PeopleGeneration.ReplacementHolds` | core-service/internal/app/faces_scan.go:850-913 | a face points at person c if and only if it belongs to cluster c, and face_count is the number of faces held |
| `PeopleGeneration.RerunGivesSamePartition` | core-service/internal/app/faces_scan.go:850-913 | a rerun from any state with the same faces gives the same people and partition up to ids |
| `PeopleGeneration.Closest` | core-service/internal/app/faces_scan.go:828-848 | the closest named centroid within the distance, the first of equally close ones |
| `PeopleGeneration.CarryOverLabel` | core-service/internal/app/faces_scan.go:828-848 | the loop over the snapshot finds that one's name |
| `PeopleGeneration.RerunKeepsLabelsExactly` | core-service/internal/app/faces_scan.go:806-848 | a rerun after an interrupted replacement carries over the same labels if and only if no unnamed cluster lies within the matching distance of a named one |
| `PeopleGeneration.RerunsKeepLabels` | core-service/internal/app/faces_scan.go:806-848 | then any number of interrupted runs leaves the labels alone |
| `PeopleGeneration.LabelSpreads` | core-service/internal/app/faces_scan.go:806-848 | a concrete case of three centroids in which an interrupted run names a cluster that an uninterrupted one leaves unnamed |
| `PeopleGeneration.PeopleTable.MoveGroup` | core-service/internal/app/faces_scan.go:888-903 | re-points a cluster's faces and commits after every 5000, with valid references at each commit |
| `PeopleGeneration.PeopleTable.ClearGeneration` | core-service/internal/app/faces_scan.go:904-913 | the last transaction leaves only the new generation |
| `PeopleGeneration.PeopleTable.ReplacePeople` | core-service/internal/app/faces_scan.go:850-913 | valid references whatever commit the process dies at, and the specified state on completion |
| `ConfigValues.PartMerges` | core-service/internal/app/config_values.go:24-67 | merging a patch that says nothing new changes nothing |
| `ConfigValues.AgreeNowhere` | core-service/internal/app/config_values.go:24-67 | documents that agree everywhere are equal |
| `ConfigValues.MergedHoldsPatch` | core-service/internal/app/config_values.go:24-67 | a merged document says everything that the patch says |
| `ConfigValues.MergeTwice` | core-service/internal/app/config_values.go:24-67 | merging a patch twice equals merging it once, for every document and every patch whose group and account lists name each id once |
| `ConfigValues.NoSecretIsShown` | core-service/internal/app/config_values.go:89-108 | a redacted document holds none of the secrets, whatever the document looked like |
| `ConfigValues.RedactedIsPart` | core-service/internal/app/config_values.go:89-139 | a redacted document is part of the document but for the presence flags |
| `ConfigValues.RoundTrip` | core-service/internal/app/config_values.go:83-139 | merging the redacted document without its flags back into the document gives the document |
| `ConfigValues.RoundTripOfHandler` | core-service/internal/app/config_values.go:83-139 | so does merging it as sent and stripping the flags afterwards, for a document without stored flags |
| `ConfigValues.MergeConfig` | core-service/internal/app/config_values.go:24-67 | the loop over the patch, keys in any order, computes the merge |
| `ConfigValues.MergeOne` | core-service/internal/app/config_values.go:29-66 | one key: lists of groups and accounts by id, objects recursively, anything else replaced |
| `ConfigValues.StripPresenceFlags` | core-service/internal/app/config_values.go:83-87 | removes the flag of every secret |
| `ConfigValues.RedactConfig` | core-service/internal/app/config_values.go:89-139 | the steps of the redaction compute the redacted document |
| `Compression.WriteSound` | core-service/internal/app/http_compression.go:303-340 | an error-free write leaves everything in the buffer or everything on one way |
| `Compression.FlushSound` | core-service/internal/app/http_compression.go:341-363 | after an error-free flush the client can decode everything written so far |
| `Compression.HandledSound` | core-service/internal/app/http_compression.go:242-363 | over every error-free run the buffer stays below 1024 bytes and bytes are never mixed |
| `Compression.FinishedDelivers` | core-service/internal/app/http_compression.go:375-389 | after an error-free finish the client decodes the concatenation of the writes, and Content-Encoding is this writer's if and only if all bytes went through an encoder |
| `Compression.RanKeeps` | core-service/internal/app/http_compression.go:242-363 | over every run, with errors at any call: bytes are never mixed between the two ways, the buffer stays below 1024 bytes, and what is out or waits is never longer than what was written, and equal to it if as long |
| `Compression.ErrorStands` | core-service/internal/app/http_compression.go:341-363 | a failure is forgotten only by a later flush that succeeds |
| `Compression.FinishedTruncates` | core-service/internal/app/http_compression.go:375-389 | over every run with errors: a finish that reports success delivers what was taken; when that is not everything, some call failed and a later flush, which succeeded, hid it |
| `Compression.FlushHidesLoss` | core-service/internal/app/http_compression.go:356-362 | for every plain response: a write of which only the first bytes were taken, a flush that succeeds and a finish that reports success deliver the truncated body |
| `Compression.EncodedBySize` | core-service/internal/app/http_compression.go:303-340 | without flushes a response of a known type is encoded if and only if it may be and 1024 bytes or more were written, however they were split |
| `Compression.SlotsAreEncoders` | core-service/internal/app/http_compression.go:38-85 | over every run of any number of responses the slots in use are exactly the live encoders, never more than eight |
| `Compression.Pool.Acquire` | core-service/internal/app/http_compression.go:38-77 | a slot, a cancelled request, or busy |
| `Compression.CompressedResponse.WriteHeader` | core-service/internal/app/http_compression.go:242-252 | the first final status is kept with a copy of the headers |
| `Compression.CompressedResponse.Start` | core-service/internal/app/http_compression.go:253-286 | headers once, then what was buffered |
| `Compression.CompressedResponse.Put` | core-service/internal/app/http_compression.go:303-340 | the decision of a write, with the bytes kept in the array or sent |
| `Compression.CompressedResponse.Keep` | core-service/internal/app/http_compression.go:331-335 | the copy into the array appends the bytes |
| `Compression.CompressedResponse.FlushError` | core-service/internal/app/http_compression.go:341-363 | a flush |
| `Compression.CompressedResponse.FinishResponse` | core-service/internal/app/http_compression.go:375-389 | the end of a response |
| `Compression.CompressedResponse.ReleaseEncoder` | core-service/internal/app/http_compression.go:390-396 | the encoder and its slot go back |

## Left out

- Display texts (reasons, methods, progress records, log lines, websocket events) and HTTP handlers around the state machines.
- Caption texts: expansion, regular expressions and the rewriting of caption modes in the route validation.
- Forward queue: back-off times (a claim may take any row that is due), the `failed` row of a full queue, and removal of queue rows.
- Forward queue: a run of a job is one step of the queue; intermediate progress writes show only in the restart step, which keeps any first part of the run's requests and, for destinations the run was done with, the old or the new record.
- Forward queue: settings whose route list never went through the validation, for which a lookup could find another route's record.
- Forward queue: restart repair of rows that lack a settings snapshot, and the removal of duplicate rows.
- Forward delivery: a missing native sender is one case of the unreadable account gate; flood waits pass no time; protection rules are settings of a job.
- Forward delivery: a refusal of a new message is taken to have delivered nothing, and a lost answer to have delivered it.
- ForwardRoutes.NormalizeRoutes: caption fields of a route are not part of this model.
- ForwardOnce.AtMostOneCopy: excludes operator actions and runs in which a delivery strays; AtMostOneCopyExactly covers those too and says when the bound breaks there.
- ForwardSafety.NamedRunsNeverStray: the answers named are sufficient; the exact ones are those of RouteDuplicatesExactly.
- ForwardWorkers: the ticker and wake-up channel; a worker whose claim fails may look again at any time.
- DestinationAccess: normalisation of destination names to keys, error codes, and rows written by other features.
- Backfill: the page contract (newest messages below the cursor, without gaps; the last page holds the rest) stands for Telegram and `core-service/internal/telegram/history.go`; messages are not deleted during a walk; new ones only get higher ids.
- Backfill: pauses between messages, the back-pressure wait, the drain goroutine, group configuration at the first initialization, one job per group, and the purge of uninitialized jobs.
- Account journal: fsync and partial writes of a single file; sessions of journaled accounts are not saved meanwhile; pending files get fresh names.
- Account journal: the order in which entries of different accounts are appended.
- File cleanup: symbolic links to files (links between directories are aliases), verified-media rows and derived files.
- Disk rotator: parsing of sizes and settings, events; rows that change between two batches of one sweep.
- Face scan: the numbers inside detections, quality backfill, counters; new files do not arrive during a loop; faces do not change during a replacement.
- Face scan: the clustering itself; clusters are an input, distances are reals without rounding.
- Configuration: documents are values, so changes in place and sharing between target and patch are not captured; ids beyond 64 bits are not cut.
- Compression: choice of the encoding, idle encoders kept by the pool, deadlines, and the 503 answer of the middleware; an encoder decodes to what it was fed once flushed or closed.
