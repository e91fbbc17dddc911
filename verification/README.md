# Mu3Lab control plane: verified models

Mu3Lab's control plane keeps a household server running: it installs apps,
queues their changes, downloads their images, backs them up, holds a calendar
until Nextcloud is connected, decides who may administer and where AI requests
may go. Behind that lie small protocols, decided by plain state updates and
guards. This project models them in Dafny and proves what they promise, over
every run, with other people and machines acting in between and with crashes
between any two steps.

Each protocol has a specification (functions from state to state), the
operations as the program performs them (classes whose methods are proved
equal to those functions, or to a run of the protocol's steps), and the
theorems about whole runs. What one operation does, on which condition, is
stated besides in terms of the fields and answers it finds, without the
specification's own words (the `...Facts` modules, `CalendarAnswers`,
`BatchClaims`, and the contracts of the methods).

| files | what they model |
|---|---|
| `CalDav`, `LocalCalendar`, `CalendarFacts`, `CalendarRuns`, `CalendarSafety`, `CalendarAnswers`, `CalendarUploads`, `CalendarSettling` | the calendar kept for one person and its hand-back to Nextcloud by conditional requests (RFC 9110 sections 13.1.1 and 13.1.2; RFC 4791 section 5.3.2) |
| `Jobs`, `JobFacts`, `JobRuns`, `JobLeases`, `JobGuard` | the durable job queue: leases, takeover, cancellation, idempotent submission, and the check before every side effect |
| `Graph`, `AppOrder` | depth-first searches: the install plan, the order of core apps, "does this app need that one" |
| `Batches`, `BatchRuns`, `BatchClaims`, `Downloads` | install batches: one setup at a time, the owner's order, pausing, failure and blocking; the download manager's tick |
| `ImageFetch`, `FetchFacts`, `FetchPool`, `FetchTruth`, `Downloading` | the parallel resumable download of image layers |
| `Decimal`, `BackupHolds`, `BackupSafety`, `BackupRace`, `BackupService` | the hold that remembers an app stopped for its backup, on top of the job queue |
| `Access`, `AccessFacts`, `AccessRuns`, `Promotions`, `PeopleAdmin` | demotion, deactivation, reactivation and retried revocations |
| `AiRouting`, `AiSettings`, `AiJobs`, `AiFacts` | AI settings as routes, chat list and provider keys, and the two jobs that change them |
| `Duplex`, `DuplexFacts`, `VoiceSwitch` | switching the voice assistant to full duplex and back |

Conventions. One database transaction, one file write and one request are one
step; the clock does not run backwards. Random tokens, ETags and job ids come
from counters, so they never repeat. SHA-256 and the keyed request hash are
taken to be collision-free: a digest is the content it names, a fingerprint the
command itself. What the program asks of Docker, Kopia, Authentik, a registry
or a person is a parameter or an event with every possible answer.

## What turned out not to hold

These are stated as theorems too: what fails, and exactly when.

* A hold can be dropped by the worker's check although it is not the one the
  check read (`ctl/backup_service.py:480-504`); the app then stays stopped and
  nothing ever starts it (`BackupRace.AStaleDropLosesTheApp`,
  `BackupSafety.ForgottenForEver`). A drop can lose its app exactly when the
  start of the hold it removes was not asked for, while its stop was or a
  before-action is about to ask for it (`BackupSafety.DropsLoseAppsExactlyWhenUnsafe`);
  comparing the hold's `since` with the one read is enough to be safe
  (`BackupSafety.DroppingWhatWasReadIsSafe`).
* A demotion can be lost in two ways. Reactivation releases the hold and records
  the demotion again in two transactions (`ctl/people.py:172-175`), and may stop
  in between (`AccessRuns.AReactivationCutShort`). And demoting someone already
  deactivated queues no removal of the role (`ctl/access.py:100-101`), so when
  Authentik does not answer either, a later reactivation brings the
  administrator back although the change was reported as made
  (`ctl/people.py:182-190`; `AccessRuns.ADemotionNeverQueued`). It is lost
  exactly when one of the person's changes stops while Authentik still has them
  in an administrator group and no removal of the role is queued
  (`AccessRuns.DemotionsAreLostExactlyWhenCutOff`).
* A revocation read as due before its person was promoted again is carried out
  regardless (`ctl/access.py:250-272`) and can leave nobody in charge
  (`AccessRuns.AStaleRevocation`). The household can come to have no
  administrator exactly after a revocation of the account or the role of the
  only one whom the change under way leaves in place
  (`AccessRuns.NobodyIsLeftExactlyAfterHarm`).
* Promoting someone deactivated keeps the removal of the role that an earlier
  demotion queued, since only a demotion's own hold is released with its
  revocations (`ctl/access.py:118-124`, `ctl/people.py:180-183`); carried out
  later, it undoes the promotion (`Promotions.APromotionUndone`). A promotion that
  goes through can end undone, with nothing further asked for, exactly when a removal of
  the role was pending or read as due when it was asked for
  (`Promotions.PromotionsCanEndUndoneExactly`); one that no revocation comes between,
  exactly when it was pending for a deactivated person or read as due
  (`Promotions.PromotionsAreUndoneExactly`).
* An app claimed by a batch whose job could not be queued leaves the batch
  waiting for ever (`ctl/install_batches.py:551-561`; `BatchRuns.ALostEnqueue`,
  `BatchRuns.LostEnqueueStallsTheBatch`). Nothing else does: every other running
  batch can still be closed (`BatchRuns.StallsExactlyWhenOrphaned`).
* The byte counter comes to less than the finished ranges where the ranges file
  could not be written for a range and was not written for it later, at whatever
  attempt (`ctl/image_fetch.py:509-515`; `FetchPool.AMarkIsLost`), and to more where
  the report of progress raises something no handler is for: what that worker had
  received is not taken back (`ctl/image_fetch.py:489-506`;
  `FetchPool.BytesAreLeftCounted`). It is exact exactly when the two come to the same
  number of bytes, and off by their difference otherwise (`FetchPool.CounterBalances`,
  `FetchPool.CounterIsExactWhen`).
* A record can say that chat or voice stays on this server while LiteLLM still has
  routes that lead out for it. An apply writes LiteLLM's files and starts it anew only
  when they changed in that very call (`ctl/provider_ops.py:140-150`). So a change to more
  privacy that is cut off, or a change to less that is not put back, is not only false
  at the time (`AiSettings.ACancelledNarrowing`, `AiSettings.ACancelledRollback`, and for
  voice, whose record is not widened as chat's is, `AiSettings.AFailedVoiceRollback`):
  choosing again what the files already hold restarts nothing and still succeeds, also
  by chat's own advice to choose again (`AiSettings.ARetryThatChangesNothing`,
  `AiSettings.AWideningLeftInForce`; `ctl/local_models.py:791-811`, `851-858`).
  A promise is true exactly when, since each apply that wrote routes leading out, LiteLLM
  was started with files that keep the use here (`AiSettings.PromisesAreTrueExactly`); a
  success makes it true exactly when it changed the files or nothing else could be in
  force (`AiSettings.ASuccessIsTrueExactly`).
* Putting separate steps back clears the record of the stopped apps before the
  settings file is written and the apps are started (`ctl/duplex_voice.py:494-496`
  and `515-517`). When that file cannot be written, or the worker stops while apps are
  started, all apps not yet running are lost, not one (`Duplex.AnUnwrittenFileLosesBoth`,
  `Duplex.ACrashLosesBoth`). The wanted apps run again exactly when every app some step
  lost was later started or given up by the owner, or taken in hand by a later switch
  (`Duplex.SwitchingRestores`).
* Switching on passes over an app whose record says stopped
  (`ctl/lifecycle/app_control.py:77-80`, `ctl/duplex_voice.py:426`). One that came up
  without getting healthy, or whose start could not be recorded, is such an app
  (`ctl/duplex_voice.py:453-459`), so it stays up beside the full-duplex model
  (`Duplex.AHiddenAppStaysUp`). The model is alone exactly when no step left an app
  like that (`Duplex.AloneOnTheCard`).
* After a fully answered sync the calendar still says it has something to send
  exactly when a deletion has no version (`ctl/local_calendar.py:213-217`;
  `CalendarSettling.PendingAfterCalmSync`).

## Model

| member | source | states |
|---|---|---|
| CalDav.ExchangeSound | ctl/local_calendar.py:353-362 | whatever the network does to a conditional request, the collection changes at most as its If-Match or If-None-Match allows, and its history stays consistent |
| CalDav.AnswerTells | ctl/local_calendar.py:401-440 | what each status or body says about the collection at the moment it was given |
| CalDav.ChangesExactly | ctl/local_calendar.py:353-362 | a conditional change is made exactly when its request arrives and what it asks for stands at that moment |
| CalDav.AnswersExactly | ctl/local_calendar.py:397-441 | which answer that, a change that no longer applies, and a reading get |
| CalDav.CreatedLessRemoved | ctl/local_calendar.py:400-402 | from any moment on, a file is there exactly when it was created, or there at first, once more than it was removed |
| LocalCalendar.ImportedDistinct | ctl/local_calendar.py:310-338 | copying a calendar in never gives two events one id |
| LocalCalendar.Calendar.CreateEvent | ctl/local_calendar.py:255-264 | creating an event: its new bucket, or why it was refused |
| LocalCalendar.Calendar.UpdateEvent | ctl/local_calendar.py:267-295 | changing an event needs its latest revision; the copy keeps the version it came from |
| LocalCalendar.Calendar.DeleteEvent | ctl/local_calendar.py:298-307 | deleting an event leaves a tombstone exactly for copies still in Nextcloud |
| LocalCalendar.Calendar.ImportFromNextcloud | ctl/local_calendar.py:310-338 | the copy loop gives exactly the imported bucket |
| LocalCalendar.Calendar.SendStones | ctl/local_calendar.py:376-390 | sending the deletions, removing each from the list in place, leaves exactly the specified list |
| LocalCalendar.Calendar.SendStored | ctl/local_calendar.py:391-443 | sending the events, changing the dictionary in place, leaves exactly the specified events |
| LocalCalendar.Calendar.PushToNextcloud | ctl/local_calendar.py:364-446 | a whole sync: server, bucket and report, also when Mu3Lab stops before the save |
| LocalCalendar.Calendar.ResolveConflict | ctl/local_calendar.py:449-475 | settling a conflict either way, also when Mu3Lab stops before the save |
| CalendarRuns.EventsAccount | ctl/local_calendar.py:391-443 | sending the events loses none: each stays but for a conflict mark, or Nextcloud held it; every change made is for one of them |
| CalendarRuns.StonesAccount | ctl/local_calendar.py:376-390 | sending deletions removes only the versions they name, and none appears |
| CalendarRuns.PushAccounts | ctl/local_calendar.py:364-446 | a sync as a whole accounts for every event and every change it made |
| CalendarRuns.ReplacedAccounts | ctl/local_calendar.py:458-475 | keeping one's own version delivers it and replaces only the version just seen |
| CalendarSafety.StepKeepsText | ctl/local_calendar.py:254-306 | no single step makes a text written here disappear unaccounted for |
| CalendarSafety.NoTextLost | ctl/local_calendar.py:364-475 | over every run: a text written here is still here, or at the very step that took it away the person replaced or gave it up, or Nextcloud held exactly it |
| CalendarAnswers.DeletionsGoAsAnswered | ctl/local_calendar.py:390-406 | over any weather: exactly the deletions answered with 200, 204, 404 or 412 leave the list, the rest stay in order; the first three are counted, the 412s and those without a version named; any other answer, or none, ends the sync there |
| CalendarAnswers.DecidedMeansGone | ctl/local_calendar.py:397-406 | an answer that ends a deletion, other than 404, means that version does not stand in Nextcloud |
| CalendarAnswers.NoDeletionLost | ctl/local_calendar.py:297-306 | over every run: a deletion is still to be sent, or there was a saved sync in which an answer decided it |
| CalendarAnswers.EventGoesAsAnswered | ctl/local_calendar.py:407-441 | for each answer to an upload, and to reading the file where it exists: when the event is forgotten, when the sync ends, which conflict it gets |
| CalendarAnswers.EventsGoAsDecided | ctl/local_calendar.py:407-441 | what the events' list, count and titles come to from these, one by one |
| CalendarAnswers.SyncGoesAsAnswered | ctl/local_calendar.py:384-446 | the whole sync: deletions first, then events, both lists kept as answered, the report added up |
| CalendarFacts.CreatesExactly | ctl/local_calendar.py:255-264 | a new event's record and its place; refused exactly when unreadable or the calendar is full |
| CalendarFacts.UpdatesExactly | ctl/local_calendar.py:279-294 | an edit replaces one event's text and title, marks it edited, and keeps what ties it to Nextcloud |
| CalendarFacts.RefusedExactly | ctl/local_calendar.py:267-275 | an edit or deletion of an event that is gone, repeats, or was seen in an old version is refused, each with its own error |
| CalendarFacts.RemovesExactly | ctl/local_calendar.py:298-306 | a deleted event goes, and exactly a copy not known to be gone from Nextcloud leaves its file, version and name to be deleted |
| CalendarFacts.ListsExactly | ctl/nextcloud_calendar.py:483-521 | what a full listing gives to copy: the listed files with plain names, each with its text and, unless left out, its version |
| CalendarFacts.CopiesInExactly | ctl/local_calendar.py:310-338 | while there is room every readable event of the rows is here once, as held before or as an untouched copy of the first row that has it, and nothing else comes |
| CalendarFacts.SettlesExactly | ctl/local_calendar.py:449-475 | a conflict is settled by giving up the text, or putting it where the file was just seen missing or onto the version just seen; else the event stays |
| CalendarFacts.NothingToSettle | ctl/local_calendar.py:455-457 | an event without a conflict cannot be settled |
| CalendarFacts.StoppingLosesTheSave | ctl/local_calendar.py:364-475 | a sync or settlement stopped before its save leaves the bucket as it was, and Nextcloud as if the save had come |
| CalendarSafety.RunTraced | ctl/local_calendar.py:310-338 | every copy and every tombstone names a version some copy-in of the run really found |
| CalendarSafety.SyncTouchesOnlyCopiedVersions | ctl/local_calendar.py:391-441 | a sync never replaces or deletes a version other than the one its copy or tombstone came from |
| CalendarUploads.CreatedNamesDiffer | ctl/local_calendar.py:255-264 | seen at any two moments of a run, two events created here have the same name in Nextcloud exactly when they are one event |
| CalendarUploads.KindStays | ctl/local_calendar.py:255-338 | ids are never given again: what goes by one id is created here at every moment of a run, or a copy at every moment |
| CalendarUploads.EveryChangeIsForSomeone | ctl/local_calendar.py:376-443 | every change a sync makes deletes what a tombstone names or was made for an event of the bucket |
| CalendarUploads.AtMostOneUpload | ctl/local_calendar.py:341-446 | for one event created here, over the whole run and after it is forgotten: every change Mu3Lab makes for it is on its one name and no removal, a sync only creates it where nothing stands, and no more often than the file was removed, plus once |
| CalendarSettling.ThereAndBack | ctl/local_calendar.py:310-338 | copying in and handing back without edits leaves Nextcloud as it was and, once answered, nothing here |
| CalendarSettling.CalmSyncSettles | ctl/local_calendar.py:364-446 | after a fully answered sync only conflicts and versionless deletions remain, all is reported, and another sync changes nothing |
| CalendarSettling.PendingAfterCalmSync | ctl/local_calendar.py:212-217 | it then has nothing to send exactly when no deletion lacked a version |
| LocalCalendar.Calendar.HasPendingUpload | ctl/local_calendar.py:212-217 | whether a sync has something to send |
| Jobs.JobStore.CreateJob | ctl/jobs.py:120-208 | submitting: replay, refusal while another job holds the resource, or one new queued job |
| Jobs.JobStore.FindByKey | ctl/jobs.py:434-470 | looking a request up, remembering it where an active job answers it |
| Jobs.JobStore.MoveJob | ctl/jobs.py:210-255 | moving a job: a runner needs the lease and heeds a cancel; finished is final; leases end with running |
| Jobs.JobStore.ClaimJob | ctl/jobs.py:257-310 | claiming: jobs cancelled under a dead worker are finished first, then the oldest claimable one is leased |
| Jobs.JobStore.RenewLease | ctl/jobs.py:320-332 | only the leaseholder of a running job renews it |
| Jobs.JobStore.CancelJob | ctl/jobs.py:522-546 | a running job is asked to stop, any other is moved to cancelled in a second transaction, before which a worker may claim |
| Jobs.CancelledAnyway | ctl/jobs.py:528-546 | a waiting job is cancelled whoever claims in between, and that worker is told to stop |
| Jobs.JobStore.Acknowledge | ctl/jobs.py:567-584 | only the leaseholder records the cancellation of a running job |
| Jobs.JobStore.RetryJob | ctl/jobs.py:472-520 | a retry is one transaction: a refused attempt leaves the waiting job as it was |
| JobFacts.MovesExactly | ctl/jobs.py:210-255 | which moves are made and which refused, with which error, and what a moved row keeps |
| JobFacts.ClaimsExactly | ctl/jobs.py:257-310 | which row a claim takes, for how long, which it ends, and that it touches no other |
| JobFacts.RenewsExactly | ctl/jobs.py:320-332 | a renewal succeeds exactly for the worker the job runs for, from now on for the time given |
| JobFacts.CancelsExactly | ctl/jobs.py:522-546 | a running job is marked, a queued or waiting one cancelled, a finished one refused |
| JobFacts.AcknowledgesExactly | ctl/jobs.py:567-584 | only the worker a job runs for records that it stopped |
| JobFacts.InterruptsExactly | ctl/jobs.py:548-565 | when a runner is told that it was cancelled, when that it lost the job |
| JobFacts.CreatesExactly | ctl/jobs.py:120-208 | a submission is answered, refused, joined to an active job or inserted, by key, caller, command and service |
| JobFacts.LooksUpExactly | ctl/jobs.py:434-470 | a lookup answers by the same conditions and inserts nothing |
| JobFacts.RetriesExactly | ctl/jobs.py:472-520 | which jobs can be tried again, and that a waiting one is cancelled only with an accepted attempt |
| JobLeases.LeasesLastExactlySoLong | ctl/jobs.py:257-332 | for as long as a claim or renewal gave it, whatever else happens, nobody claims the job and its worker is not told that it lost it; after that, and not before, a worker that finds no other job takes it |
| JobRuns.RunInv | ctl/jobs.py:160-174 | over every run: one active job per resource, a lease only while running, rows and requests never lost or redirected, finished states final |
| JobRuns.ClaimTakesTheOldest | ctl/jobs.py:266-304 | a claim takes a claimable job no later-created one overtakes, and touches no other but the buried ones |
| JobRuns.CancelledJobsEnd | ctl/jobs.py:234-242 | once cancelled while running, no claim returns the job, and it only ends - with whatever outcome - even if its worker dies |
| JobRuns.DeadWorkersCancelledJobIsBuried | ctl/jobs.py:266-280 | when the dead worker's lease has run out, the next claim by anyone records the job as cancelled |
| JobRuns.TakenOver | ctl/jobs.py:222-242 | after a takeover the earlier worker's heartbeat, acknowledgement and moves all fail for as long as the job runs |
| JobRuns.OneRunner | ctl/jobs.py:548-565 | while a job runs, two workers never both pass the interruption check |
| JobRuns.AcceptedOnceReplaysForEver | ctl/jobs.py:411-432 | an accepted request gets the same job, and changes nothing, in every later state |
| JobRuns.OtherCommandsAreRefused | ctl/jobs.py:419-432 | a remembered key refuses any other command and leaves the store as it was |
| JobRuns.InsertedOnce | ctl/jobs.py:149-207 | in any run at most one job is inserted for a caller, namespace and key |
| JobRuns.LookupForeseesSubmission | ctl/jobs.py:434-470 | looking a command up tells exactly what submitting it would do |
| JobGuard.AtMostOneEffectAfterCancel | ctl/job_guard.py:63-92 | after a cancel request a runner that checks before each effect performs at most the one it was cleared for, outside shielded blocks |
| JobGuard.AtMostOneEffectAfterTakeover | ctl/job_guard.py:63-92 | while another worker has the job, the earlier one performs at most one more effect, shielded or not |
| JobGuard.AllOrNothing | ctl/job_guard.py:63-92 | while the store stays as it is, a runner that checks before each effect performs all its effects, or none when it must leave the job |
| JobGuard.Execution.Checkpoint | ctl/job_guard.py:83-92 | a checkpoint raises exactly when the lease may be gone, the job is no longer this worker's, or an unshielded cancel is pending |
| JobGuard.Execution.Shield | ctl/job_guard.py:63-80 | entering a block that a cancel must not cut short |
| JobGuard.Execution.Unshield | ctl/job_guard.py:63-80 | leaving it, so that a pending cancel counts again |
| JobGuard.Execution.LoseLease | ctl/job_guard.py:35-45 | once its lease was lost the thread is told for good |
| AppOrder.Search.Visit | ctl/install_batches.py:64-111 | the search ends; it succeeds exactly when nothing reached is refused or on a cycle, and places all it reaches after what it needs |
| AppOrder.Order | ctl/core_setup.py:76-102 | visiting each root in turn gives one order without duplicates of exactly what they reach |
| AppOrder.Plan | ctl/install_batches.py:56-116 | a plan exists exactly for distinct requests reaching nothing refused or cyclic; it is exactly the apps to install, each after its dependencies |
| AppOrder.PlannableExactly | ctl/install_batches.py:56-116 | which requests have a plan, in terms of the registry: all they reach is known, installable, not part of the platform if asked for and names only what is there, with the core services it needs set up, and nothing needs itself |
| AppOrder.PlannedAppsAreOptional | ctl/install_batches.py:77-93 | what is planned is always an optional app |
| AppOrder.CoreServices | ctl/core_setup.py:76-102 | every core app once, after its dependencies; failing exactly on a cycle, an unknown or an optional dependency |
| AppOrder.OrderedExactly | ctl/core_setup.py:76-102 | which core apps can be ordered, in terms of the registry |
| AppOrder.DependsOn | ctl/install_batches.py:326-346 | true only for a transitive dependency, and always then when the apps on the way are known |
| Graph.SomethingLast | ctl/install_batches.py:493-513 | among finitely many apps without cycles, one needs none of the others |
| Batches.InstallBatch.ContinueBatch | ctl/install_batches.py:515-561 | one claim of the next app, or the batch closed, or left waiting |
| Batches.InstallBatch.CommitEnqueued | ctl/install_batches.py:136-153 | queueing the claimed app's job puts its id on the app and the batch back to running |
| Batches.InstallBatch.AdvanceForJob | ctl/install_batches.py:384-488 | the end of a job, with the loop blocking every waiting app that needs the failed one, and the next claim |
| Batches.InstallBatch.BlockThoseNeeding | ctl/install_batches.py:452-474 | exactly the waiting apps that transitively need the failed one are blocked |
| Batches.InstallBatch.SetDownloadState | ctl/install_batches.py:581-591 | only waiting apps change, and a paused one does not go back to downloading |
| Batches.InstallBatch.PauseDownload | ctl/install_batches.py:602-612 | an app can be paused exactly while its download waits or runs |
| Batches.InstallBatch.ResumeDownload | ctl/install_batches.py:614-624 | only a paused app of the batch can be resumed |
| Batches.InstallBatch.Reorder | ctl/install_batches.py:626-646 | the owner's order is refused for repeats and strangers, and otherwise placed on waiting apps only |
| Batches.InstallBatch.Append | ctl/install_batches.py:170-280 | a later selection joins a running batch behind what is there, without repeats; refused when nothing is new or something new is in another batch |
| Batches.InstallBatch.Cancel | ctl/install_batches.py:676-702 | cancelling ends a batch not closed as succeeded, what waits in it, and the job of a claimed app that no worker has taken |
| Batches.ReadyOrdinal | ctl/install_batches.py:492-513 | among the apps ready with their dependencies set up, the one of least priority, ties by plan |
| BatchRuns.AlwaysOneAtATime | ctl/install_batches.py:515-561 | in every run at most one app is queued, whatever is reordered, paused, added or cancelled |
| BatchRuns.ClaimedWhenItsDependenciesAre | ctl/install_batches.py:492-513 | only a claim queues an app, and only the first in the owner's order whose in-batch dependencies all succeeded |
| BatchClaims.ContinuesExactly | ctl/install_batches.py:515-561 | what continuing a batch does in each case: the first ready app queued, the batch closed as what, or nothing |
| BatchClaims.ReadyMeansStarted | ctl/install_batches.py:492-513 | an idle batch with a ready app starts one, the first by priority and plan |
| BatchClaims.NothingReadyNothingStarts | ctl/install_batches.py:500-503 | while every waiting app waits for its images, downloads or is paused, nothing starts |
| BatchClaims.OnlyReadyAppsStart | ctl/install_batches.py:492-561 | in every run an app is queued only by a claim and only as the first that waits, has its images and all it needs from the batch set up |
| BatchClaims.JobEndsExactly | ctl/install_batches.py:384-488 | what a job's end does to its app and to every other of the batch |
| BatchClaims.OtherJobsDoNothing | ctl/install_batches.py:384-400 | the end of a job no app of the batch was queued with changes nothing |
| BatchClaims.ReordersExactly | ctl/install_batches.py:626-646 | in a run: an order that lists apps of the batch once each gives those that wait their places as priorities; any other is refused |
| BatchClaims.PausesExactly | ctl/install_batches.py:602-624 | in a run: a download that waits or runs can be paused, a paused one resumed, and then it waits |
| BatchRuns.AddedAppsComeLast | ctl/install_batches.py:195-239 | what is added later comes after everything already there |
| BatchRuns.TheFirstListedStarts | ctl/install_batches.py:626-646 | once every waiting app is listed, the first listed one that can start is the next set up |
| BatchRuns.TransitiveDependenciesDone | ctl/install_batches.py:493-513 | a started app has all it transitively needs in the batch set up |
| BatchRuns.StartedAppsHaveTheirDependencies | ctl/install_batches.py:384-488 | so in every run in which nothing added late is a dependency of an app already there |
| BatchRuns.DeadIsBlocked | ctl/install_batches.py:452-474 | after any failure no waiting app needs, even indirectly, one that failed, was cancelled or is blocked |
| BatchRuns.NeverStuck | ctl/install_batches.py:443-561 | an idle running batch with its downloads ready starts an app while one waits, and else closes, as succeeded exactly when every app did |
| BatchRuns.ClosedAsSucceeded | ctl/install_batches.py:536-549 | a batch shown as succeeded has every app set up, after any later calls too |
| BatchRuns.NewBatch | ctl/install_batches.py:239-268 | a new batch satisfies what these runs start from |
| BatchRuns.ALostEnqueue | ctl/install_batches.py:551-561 | a run from a new batch to a claim whose job was never queued |
| BatchRuns.LostEnqueueStallsTheBatch | ctl/install_batches.py:551-561 | such a claim stalls the batch for ever, short of cancelling it |
| BatchRuns.RestsExactlyWhenOrphaned | ctl/install_batches.py:515-561 | with downloads ready, no job running and no claim open, continuing changes nothing exactly when there is such a claim |
| BatchRuns.StallsExactlyWhenOrphaned | ctl/install_batches.py:384-561 | a running batch can still be closed by downloads, claims and jobs, without a cancel, exactly when there is none |
| Downloads.Manager.Tick | ctl/download_manager.py:95-116 | a tick stops what is unwanted or paused and starts waiting apps in order within each batch's limit, leaving none waiting while there is room |
| ImageFetch.RangesPartition | ctl/image_fetch.py:465-468 | every byte of a layer lies in exactly one range, and none reaches outside |
| ImageFetch.AllRanges | ctl/image_fetch.py:517-531 | the ranges' sizes add up to the layer's, and only all of them do |
| FetchFacts.EntersExactly | ctl/image_fetch.py:517-531 | what a layer enters the pool with: all finished when it is here whole, else its usable recorded ranges, and the rest to fetch |
| FetchFacts.WritesExactly | ctl/image_fetch.py:486-491 | bytes written into a part file are in their place, and what was around them stays |
| FetchFacts.ReceivesExactly | ctl/image_fetch.py:482-491 | a piece of a range goes behind what was received, into the part file, and is counted; after a stop, or without a part file, nothing is |
| FetchFacts.EndsExactly | ctl/image_fetch.py:496-507 | how a broken, refused, stopped or unreported attempt goes on: tried again five times at most, with what was received taken back, but for an error no handler is for |
| FetchFacts.MarksExactly | ctl/image_fetch.py:494-515 | a range is marked only when received in full: in memory, in the ranges file and for the counter, or, where that file cannot be written, in memory alone and tried again |
| FetchFacts.StagesExactly | ctl/image_fetch.py:517-542 | what each operation on a layer's files does, and when it does nothing |
| FetchPool.RunKeeps | ctl/image_fetch.py:556-606 | the pool's invariant over every run of workers, failures, pauses and restarts |
| FetchPool.CounterBalances | ctl/image_fetch.py:465-515 | at every moment of one process the counter is the finished ranges' bytes plus what workers are receiving, less the ranges whose last write of the ranges file failed, plus what workers had received that ended without taking it back |
| FetchPool.CounterIsExactWhen | ctl/image_fetch.py:465-515 | so it is exact exactly when those two come to the same; and, while every worker takes back what it received, never too high and exact exactly when no mark is lost |
| FetchPool.CounterIsExact | ctl/image_fetch.py:358-375 | so it is exact at every moment while no write of a ranges file and no report of progress fails |
| FetchPool.BytesAreLeftCounted | ctl/image_fetch.py:489-506 | a run in which the counter ends too high: progress cannot be reported after the first bytes |
| FetchPool.LostMarkIsNotCounted | ctl/image_fetch.py:499-515 | how a failed write, at any attempt, leaves a finished range uncounted, whether progress can be reported or not |
| FetchPool.AMarkIsLost | ctl/image_fetch.py:469-515 | a run in which the counter ends short: the write fails at the first attempt and then the owner pauses |
| FetchPool.CompletedIsDrained | ctl/image_fetch.py:559-606 | when every worker has ended and nothing failed, every task was handed out |
| FetchPool.CompleteMeansAllBytes | ctl/image_fetch.py:544-606 | when the pool ends well every range is finished and the counter is the total size |
| FetchPool.EachRangeOnce | ctl/image_fetch.py:556-580 | the ranges handed to workers are the missing ones in order, each at most once, and all of them on normal return |
| FetchPool.FinishedIsNotRefetched | ctl/image_fetch.py:517-531 | a finished range is never handed out again |
| FetchPool.ResumeTakesOver | ctl/image_fetch.py:517-531 | resuming takes over exactly the recorded ranges and asks for exactly the others |
| FetchTruth.StoredFilesMatchTheirDigest | ctl/image_fetch.py:533-542 | whatever the server sends, a file stored under a digest hashes to it |
| FetchTruth.RecordedRangesHoldTheTruth | ctl/image_fetch.py:465-515 | given prefixes of what was asked for, every recorded range holds the layer's bytes, across pauses, errors, crashes and restarts |
| FetchTruth.CompleteDownloadsVerify | ctl/image_fetch.py:533-554 | and then no final check fails: a complete part file is the layer |
| Downloading.Downloader.Prepare | ctl/image_fetch.py:517-531 | preparing a layer, file by file, is a run of the protocol; what it marks, counts and queues |
| Downloading.Downloader.FetchRange | ctl/image_fetch.py:465-507 | succeeds exactly when one of the first six answers brings the whole range, unbroken and recorded, and each before it allows another try; one range in at most six attempts is a run of its worker's steps; the counter ends higher by its length when it is marked, by what was received when an error no handler is for ends it, and else as it was |
| Downloading.Downloader.Attempt | ctl/image_fetch.py:469-506 | how an attempt ends, exactly, by what the answer brings: marked, tried again, given up for which reason, or left with bytes counted; a marked range holds the bytes of the body |
| Downloading.Downloader.Finish | ctl/image_fetch.py:533-542 | the check keeps the layer exactly when it is its digest's content, discards it otherwise, and fails without a part file |
| BackupHolds.OneSlotEach | ctl/backup_service.py:324-334 | no two holds share a stop or start request |
| BackupSafety.StoppedAppsStayHeld | ctl/backup_service.py:369-418 | with a crash allowed between any two steps: while a stop was queued for a hold and no start for it, that hold stands |
| BackupSafety.DropKeepsExactlyWhenSafe | ctl/backup_service.py:478-505 | the check's drop keeps all that holds in every state exactly when the hold it removes is asked to start, or neither stopped for nor about to be |
| BackupSafety.DroppingWhatWasReadIsSafe | ctl/backup_service.py:480-504 | dropping the hold that was read is always safe |
| BackupSafety.DropsLoseAppsExactlyWhenUnsafe | ctl/backup_service.py:478-505 | after an unsafe drop some course of events leaves the app stopped with nothing left to start it; after a safe one none does |
| BackupSafety.StartsForOneHoldShareOneJob | ctl/backup_service.py:324-334 | every later start for one hold gets the same job and makes none, in any later state |
| BackupSafety.StuckAppsAreStarted | ctl/backup_service.py:478-505 | a hold old enough and not being uploaded is started by one check when the app is free |
| BackupSafety.ActionsBeginExactly | ctl/backup_service.py:337-405 | when a before- or after-action goes on to its first write, and what it takes up |
| BackupSafety.ChecksExactly | ctl/backup_service.py:480-491 | what the check takes up for a source it does not pass over |
| BackupSafety.LooksElsewhere | ctl/backup_service.py:486-489 | a source Kopia says it is copying is left alone, as is one held for less than three minutes, or forty-five when Kopia does not answer |
| BackupSafety.ForgottenForEver | ctl/backup_service.py:393-418 | an app whose hold was dropped too early is never asked to start again |
| BackupRace.AStaleDropLosesTheApp | ctl/backup_service.py:480-505 | a run in which exactly that happens |
| BackupService.Service.Before | ctl/backup_service.py:337-390 | the before-action is a run of its own steps; what it holds, submits and answers in each case |
| BackupService.Service.After | ctl/backup_service.py:393-418 | the after-action is a run of its own steps; what it submits, and that a hold of a running app goes exactly when its start was accepted |
| BackupService.Service.CheckOne | ctl/backup_service.py:480-505 | the check of one source, in each case |
| BackupService.Service.RestartStuck | ctl/backup_service.py:478-505 | the check over all holds: a source being uploaded or held too briefly is left alone, with no start asked for it; any other listed running one is asked to start and dropped unless refused |
| Access.AccessStore.Record | ctl/access.py:88-115 | a hold at once and every revocation pending; a demotion never weakens a deactivation, which keeps a demotion's tasks |
| Access.AccessStore.ReleaseHold | ctl/access.py:118-124 | only a hold of the given kind goes, with its revocations |
| Access.AccessStore.RunDue | ctl/access.py:239-290 | the loop over due revocations: each outcome noted on its row if that is still there |
| AccessFacts.RecordsExactly | ctl/access.py:88-115 | which hold stands after a record, with which tasks pending, and what it leaves alone |
| AccessFacts.RefusesExactly | ctl/people.py:138-160 | who may be changed: refused exactly for strangers, for taking the rights of the only one in charge, and for the installation's own account |
| AccessFacts.RevocationsExactly | ctl/access.py:239-290 | which revocations are read as due, and what attempting one changes whatever happened since |
| AccessFacts.ChangesExactly | ctl/people.py:126-192 | what an accepted change begins with, and where it stops |
| AccessFacts.ProceedsExactly | ctl/people.py:161-192 | what each write of a change leaves, and what is still to be done after it |
| AccessFacts.RoundsExactly | ctl/access.py:239-290 | a round of different revocations: exactly whose account is disabled and whose role is gone after it, and what each row still there says |
| AccessRuns.DemotedPeopleStayDemoted | ctl/people.py:126-192 | from a demotion to the next promotion a person is never an effective administrator, but between a reactivation's two writes, in every run that cuts none of their changes off |
| AccessRuns.DemotionsAreLostExactlyWhenCutOff | ctl/people.py:166-192 | over every run: the person can become an administrator again without a promotion exactly when one of their changes stopped while Authentik had them in an administrator group and no removal of the role was queued |
| AccessRuns.AReactivationCutShort | ctl/people.py:172-175 | a run that loses a demotion between a reactivation's two writes |
| AccessRuns.ADemotionNeverQueued | ctl/access.py:99-101 | a run without a crash that loses the demotion of a deactivated administrator |
| AccessRuns.StepSomeAdmin | ctl/access.py:250-272 | every step keeps an administrator whom the change under way leaves in place, except exactly a revocation of the account or the role of the only such one |
| AccessRuns.AlwaysAnAdmin | ctl/people.py:58-59 | so no run without such a revocation leaves the household without an effective administrator |
| AccessRuns.NobodyIsLeftExactlyAfterHarm | ctl/access.py:250-272 | and after one, the change under way can leave nobody in charge |
| AccessRuns.AStaleRevocation | ctl/access.py:250-272 | a run in which a stale revocation leaves nobody in charge |
| Promotions.PromotionsAreUndoneExactly | ctl/people.py:180-183 | an uninterrupted promotion makes an administrator, who can lose the role with nothing asked for exactly when an earlier demotion's removal was pending for a deactivated person, or read as due |
| Promotions.PromotionsCanEndUndoneExactly | ctl/people.py:180-183 | with revocations and other people's changes anywhere in between, a promotion that goes through can end without the role exactly when a removal of it was pending or read as due when it was asked for |
| Promotions.RolesAreTakenExactly | ctl/access.py:239-290 | in any state an administrator no change is under way for can lose the role unasked exactly while a removal of it is queued or about to be attempted |
| Promotions.APromotionUndone | ctl/access.py:118-124 | a run in which a promotion is undone so |
| PeopleAdmin.PeopleService.Change | ctl/people.py:126-192 | one change is a run of its own steps; refused exactly when it would leave no administrator or is not allowed, and then changes nothing; else the holds and groups it ends with, wherever a call fails |
| AiRouting.ProperIsAccepted | ctl/local_models.py:222-239 | exactly the proper settings are accepted, unchanged |
| AiFacts.AcceptedExactly | ctl/local_models.py:198-239 | exactly which records are accepted, and as which settings |
| AiFacts.ReadExactly | ctl/local_models.py:247-279 | what any record is read as, with its defaults, and what is kept of one that is refused |
| AiFacts.FollowsAsChecked | ctl/local_models.py:333-351 | the choice that stands for following chat is read as voice that follows chat |
| AiFacts.VoiceReadExactly | ctl/local_models.py:333-351 | what voice does by chat's settings or its own record |
| AiFacts.LeadsExactly | ctl/local_models.py:396-470 | where each name leads: every route there is, and no other |
| AiFacts.VoiceTriesInOrder | ctl/local_models.py:441-470 | voice tries this server before going outside, and its own list there before any model |
| AiFacts.OffersExactly | ctl/local_models.py:382-393 | the names chat offers, in order |
| AiRouting.ReadIsUsable | ctl/local_models.py:247-279 | whatever was stored, the settings read are usable; a corrupt record is local only |
| AiRouting.RoutesLeaveExactlyWhenUsed | ctl/local_models.py:368-470 | for every stored records some route reaches the provider gateway exactly when outside providers count as used |
| AiRouting.LabelsAreTrue | ctl/local_models.py:382-438 | every name in the chat list has a route, and every route of that name is where its label says |
| AiRouting.ProviderKeys | ctl/core_wiring.py:83-101 | every known provider's key is exported in order, enabled only while its connection works and something may go outside |
| AiSettings.SavedIsRead | ctl/local_models.py:247-283 | saved settings are read back unchanged |
| AiSettings.StaysExactly | ctl/local_models.py:425-470 | chat's routes, and voice's, stay on this server exactly when the record says so |
| AiSettings.StepAccounts | ctl/provider_ops.py:133-165 | after each step - a save, an apply however far it got, another write, a start of LiteLLM - a route that leads out may be in force exactly when an apply just wrote it, or one might before and LiteLLM was not started with files that keep the use here |
| AiSettings.PromisesAreTrueExactly | ctl/provider_ops.py:140-150 | over any such steps: a record that promises chat or voice to stay here is true of every routing that may be in force exactly when, since each apply that wrote routes leading out, LiteLLM was started with files that do not |
| AiSettings.JobAccounts | ctl/local_models.py:684-900 | one job from a settled state, for each way either can end: the promise is true exactly unless it was narrowing and its apply did not get through, or widening, reached the files and was not put back through |
| AiSettings.WorkingJobsSettle | ctl/local_models.py:639-645 | a job that works, on its choice or back on the earlier settings, leaves a settled state settled |
| AiSettings.ASuccessIsTrueExactly | ctl/provider_ops.py:145-148 | whatever went before, a job that succeeds with a private choice leaves it true exactly when its apply changed the files or no route that leads out could be in force |
| AiSettings.ACancelledNarrowing | ctl/local_models.py:850-858 | a change of chat's settings, cut off with the files written, that leaves a local-only record over outside routes |
| AiSettings.ARetryThatChangesNothing | ctl/provider_ops.py:145-148 | the same settings chosen again succeed, restart nothing, and leave those routes in force |
| AiSettings.AWideningLeftInForce | ctl/local_models.py:791-813 | a widening whose rollback only reached the files, then the earlier settings chosen again as the message says: a success over outside routes, with nothing cut off |
| AiSettings.ACancelledRollback | ctl/local_models.py:791-796 | a change of chat's settings, cut off while it is put back, that leaves a local-only record over outside routes |
| AiSettings.AFailedVoiceRollback | ctl/local_models.py:732-752 | a change of voice's setting whose failed rollback does the same without being cut off |
| AiJobs.AiRecord.Apply | ctl/provider_ops.py:133-165 | an apply writes the files and starts LiteLLM anew exactly when they changed in it; as far as it gets |
| AiJobs.AiRecord.ChangeSettings | ctl/local_models.py:764-900 | which requests change nothing; else the job is the run of saves and applies that what failed leads to, and what it reports |
| AiJobs.AiRecord.RollBack | ctl/local_models.py:791-813 | putting the earlier settings back; where that fails chat's record is widened if either settings let it out |
| AiJobs.AiRecord.ChangeVoice | ctl/local_models.py:684-761 | voice's job likewise, also when it follows chat again; it never changes chat's record |
| Duplex.StepAccounts | ctl/duplex_voice.py:402-523 | every step accounts for each app the household wants - up, in hand, or lost in exactly the listed ways - and for each app up behind a record that says stopped |
| Duplex.SwitchingRestores | ctl/duplex_voice.py:463-523 | back in separate steps after any switches, failed or undone anywhere, exactly the wanted apps are up if and only if each app some step lost was later started or given up by the owner, or taken in hand by a later switch |
| Duplex.AloneOnTheCard | ctl/duplex_voice.py:418-488 | while the agent talks to the model no other app with a GPU build is up, if and only if no step left one up behind a record that says stopped |
| Duplex.AlwaysWithinBounds | ctl/duplex_voice.py:154-169 | no app the owner had stopped comes up or is recorded as running again, the agent's duplex mode means no record says running, and the switch's own restarts are never refused |
| Duplex.WhatACrashLoses | ctl/duplex_voice.py:418-460 | a crash, or a checkpoint that ends the job, loses the stopped apps the record lacks: the one being stopped, and while apps are started again every one not yet up |
| Duplex.AHiddenAppStaysUp | ctl/lifecycle/app_control.py:77-80 | a run in which an app that did not get healthy stays up beside the full-duplex model |
| Duplex.AnUnwrittenFileLosesBoth | ctl/duplex_voice.py:486-497 | a run with no crash, every stop working, in which two apps are lost because the settings file cannot be written |
| Duplex.ACrashLosesBoth | ctl/duplex_voice.py:494-496 | a run that a crash then makes lose two apps |
| DuplexFacts.ThereAndBack | ctl/duplex_voice.py:463-523 | switching on and off again, when everything works: there, every app that ran is down, recorded so and remembered, and the model on the card; back, everything is as it was |
| DuplexFacts.SwitchesBackExactly | ctl/duplex_voice.py:509-523 | where each way of leaving the full-duplex mode ends: card not freed, record not saved, settings file not written, or all remembered apps running again |
| DuplexFacts.UndoesExactly | ctl/duplex_voice.py:486-497 | where each way of undoing a failed switch ends, for the apps that switch stopped |
| VoiceSwitch.Switch.StopOne | ctl/duplex_voice.py:425-436 | stopping one app: what is down, recorded and remembered, for each way it can go and each checkpoint that can end it |
| VoiceSwitch.Switch.StartOne | ctl/duplex_voice.py:446-459 | starting one app: what is up and recorded, for each way it can go |
| VoiceSwitch.Switch.StopApps | ctl/duplex_voice.py:418-436 | the stopping loop is a run of the job's own steps: it passes over what the record says is stopped, and remembers each app once its own record is written |
| VoiceSwitch.Switch.StartApps | ctl/duplex_voice.py:439-460 | the starting loop is a run of the job's own steps, going on past apps that fail but not past a record that cannot be written |
| VoiceSwitch.Switch.SwitchOn | ctl/duplex_voice.py:463-506 | switching on is a run of the job's own steps; it ends on, or back in separate steps unless the record cannot be saved, or stopped at a checkpoint with nothing undone |
| VoiceSwitch.Switch.SwitchOff | ctl/duplex_voice.py:509-523 | switching off is a run of the job's own steps; while the card is in use the mode stays, and without both writes no app is started |

## Left out

* SQLite, encryption, file modes, locks, Docker, systemd, HTTP clients and subprocesses: each is one step, or an event with every outcome.
* iCalendar parsing, recurrence and time zones: an event's text is opaque, with what a parser reads from it and the equality of `_same_ics`.
* Calendar listing, ranges and caches (`ctl/nextcloud_calendar.py:382-400`) and editing while connected (`ctl/nextcloud_calendar.py:812-907`): only the conditional requests are modelled.
* Deleting an event whose upload reached Nextcloud but whose reply was lost: no tombstone is kept (`ctl/local_calendar.py:298-307`), so nothing says it stays deleted there.
- CalendarSafety.SyncTouchesOnlyCopiedVersions: for runs that start with an empty bucket; a bucket stored by an older release may name versions no copy-in of the run found.
* The jobs' audit log, event log, redaction, parameters' encoding and `claims` counter; rows written before fingerprints existed appear only as legacy keys.
- JobRuns.TakenOver: while the job runs; after another worker finished it, `interruption` answers any worker with nothing (`ctl/jobs.py:564-565`).
- JobGuard.AtMostOneEffectAfterCancel: until the job is recorded as succeeded or failed, for the same reason.
- JobRuns.CancelledJobsEnd: the job is moved by its runner; an operator may still move it, as the transition table allows.
* Batch reset (`ctl/install_batches.py:748-813`), the legacy state `paused` with `resume`, replayed batch requests and the choice of the batch to append to, `parallel_downloads` beyond a tick, and error texts.
- BatchRuns.NeverStuck: assumes a fixed, loadable registry, and no selection of an app that needs one of the batch that already failed.
- BatchRuns.StartedAppsHaveTheirDependencies: assumes that no later selection brings an app that one already in the batch needs.
- AppOrder.DependsOn: when the registry cannot be read the program answers no; the model takes the registry as loaded.
* The download threads of `ctl/download_manager.py:118-142`: their state changes are the batch's own operations.
* Registry sign-in, manifests, reuse of layers Docker holds, loading into Docker, widening, rates and retry delays (`ctl/image_fetch.py:137-356`, `377-405`, `581-606`).
- FetchPool.CounterBalances: layers are distinct and one process at a time uses the cache; a layer listed twice is prepared twice by the program.
- FetchTruth.RecordedRangesHoldTheTruth: the manifest gives each layer's true size, and what the operating system reports as written stays written.
* Backups of the platform's own state and of media folders, which stop nothing; Kopia's schedules, policies and mounts.
- BackupSafety.StoppedAppsStayHeld: Kopia runs one action per source at a time, nobody else submits in the hooks' namespace, and each drop by the check is a safe one.
- BackupHolds.OneSlotEach: a moment's text is its decimal seconds instead of ISO 8601; both are one text per second.
- AccessRuns.DemotedPeopleStayDemoted: a revocation and its note are one step, groups change only through Mu3Lab, usernames stay bound to their subject.
- AccessRuns.AlwaysAnAdmin: groups and accounts change in Authentik only through Mu3Lab.
* Retry delays and error texts of revocations; what revoking sessions, keys and chat tools does elsewhere; invitations and recovery links.
* What downloading and checking models and rewiring followers do; deadlines and reasoning effort of voice routes; speech routes.
- AiSettings.PromisesAreTrueExactly: about the routes LiteLLM may be running with, the old ones and the new where a start failed or was cut off; the gateway behind it turns its provider keys off once no use goes out (`AiRouting.ProviderKeys`), and whether the gateway was started with that is not modelled. One apply is one step, as the worker runs one job at a time; LiteLLM may start at any other, and reads the files as they are then.
- BackupSafety.StuckAppsAreStarted: a hold whose moment cannot be read counts as old; the model's holds have readable moments.
* Downloading and building the full-duplex model, its checksum files, and what Settings shows.
- BatchRuns.StallsExactlyWhenOrphaned: also that every queued job has an id of its own, as the job store gives them.
- CalendarUploads.AtMostOneUpload: for runs that start with an empty bucket; UIDs come from a counter instead of random bits.
- BackupSafety.DropsLoseAppsExactlyWhenUnsafe: for sources whose stop request is well formed and whose key no row from before fingerprints has.
- Duplex.SwitchingRestores: the set of apps with a GPU build stays the same between switching on and off, and an owner's own start or stop in Apps is one step with its record.
