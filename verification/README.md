# Telegram Saved Messages Organizer: verified model

This project models the stateful cores of the organizer's backend, and one text function of
its frontend, and proves what they promise over whole runs.

* **Scan jobs** import a user's Saved Messages in bounded slices. Worker processes share one
  database: a worker claims a job with a fresh owner token, holds a lease that expires, commits
  pages together with the job's cursor and counters, and then requeues, finalizes or releases
  the job, or loses it. Users start, stop, disconnect, reconnect, delete, edit and reorganize at the
  same time, and workers crash between any two transactions. `ScanProtocol` is this protocol as
  a transition system over one store, any number of workers and a clock that never goes back.
* **Telegram connections** go through a state machine of challenges, authorizations and
  invalidations with a generation that changes whenever the authorized account may change.
* **Stream slots, rate limits and web sessions** are three smaller protocols over shared rows.
* **Message text** is cut into plain parts and links without losing a character.

The code that changes rows step by step is modelled as classes (`ScanStore.Tables`,
`ConnectionService.TelegramConnection`, `SavedMessages.SavedMessagesScanner`,
`StreamSlots.StreamTable`, `RateLimits.DatabaseRateLimiter`, `WebSessions.AccountService`). Each
method is proved to leave exactly what a specification function says. What those functions leave
is stated column by column, without them, and the theorems are about the transition systems built
from them.

| file | contents |
|---|---|
| `ScanRows.dfy` | rows of jobs and messages, single-row updates, the coherence of a job row |
| `TelegramAuth.dfy`, `ConnectionService.dfy` | the connection's transitions, and the class that assigns its columns, commits and rolls back |
| `ScanTransactions.dfy`, `ScanStore.dfy` | the transactions of the scan service as functions, and statement by statement |
| `StoreRules.dfy` | the rules every transaction keeps on the whole store |
| `Scanner.dfy`, `SavedMessages.dfy` | pages and the client's answers, and the scan loop |
| `ScanProtocol.dfy`, `ProtocolInvariant.dfy` | the transition system and its invariant |
| `ScanOutcomes.dfy` | what each action leaves of the row it is about, column by column |
| `ScanSafety.dfy`, `Fencing.dfy`, `Leases.dfy`, `ConnectionHistory.dfy`, `FairQueue.dfy` | results about runs, whatever Telegram answers |
| `SourceViews.dfy`, `ExactlyOnce.dfy`, `Completion.dfy`, `JobLibraries.dfy`, `Replacement.dfy`, `Organization.dfy`, `Deletions.dfy` | what jobs could see of a source that changes, and what they make of it |
| `Scenarios.dfy` | two concrete runs, from a new deployment on |
| `StreamSlots.dfy`, `RateLimits.dfy`, `WebSessions.dfy`, `MessageContent.dfy` | the smaller cores |

A *run* starts from an empty deployment (or one with jobs and rows from before provenance was
recorded) and takes any enabled action at every step. What Telegram lists for an account is part
of the world: it changes at any time, because messages arrive or are deleted elsewhere, and
because users delete messages through this service, also while a scan is under way. A run is
*honest* if Telegram answers the worker that owns a job newest first, with messages listed at
some time since the job was created, leaving out none above the end of the answer that was
listed all that time. Every answer fetched from the list of any such moment, however late its
page is persisted, is one (`ExactlyOnce.EveryFetchIsAnAnswer`). A run is *prompt* if every answer
is the list as it is when the page is persisted. Results that compare an import with its source
are about honest or prompt runs; all others hold whatever the client answers.

Findings about the code:

* A text the user edited in the cache is overwritten by the next scan that persists the message
  with another text, replacement or not; categories and tags survive
  (`Organization.TextIsLostExactly`, `Organization.EditedThenRescanned`).
* A deleted message comes back exactly with a page that holds it
  (`Deletions.RemovedRowsReturnWithPages`). With prompt answers a message deleted everywhere is
  gone for good; with honest ones, too, unless a job of its user and account is under way that
  has not committed it (`Deletions.PromptDeletionsStick`, `Deletions.HonestDeletionsStick`). Such a
  job does bring it back if it fetched it before the deletion and commits its page after it
  (`Deletions.StalePagesBringBack`, and a run from a new deployment in
  `Scenarios.DeletedMessageReturns`).
* A claim from a stale pick can overtake a waiting job that the claimed job has overtaken before
  (`Scenarios.OvertakenTwice`). Jobs taken from behind the waiting one are the only excess, and
  with one claim per pick they are boundedly many (`FairQueue.BypassIsFromBehind`,
  `FairQueue.BoundedBypassByWorkers`).
* A trimmed link text can end in white space and is then trimmed further by a second pass, as
  "a ." shows (`MessageContent.TrimmingTwice`); candidates found in a message hold no white space.
* `status` treats a Telegram user id of zero as missing. For rows this code writes, its
  corruption branches fire exactly on a connection bound to id zero
  (`ScanSafety.StatusNeverFindsCorruption`, `TelegramAuth.ZeroPrincipalIsErased`).
* `start` leaves a connection without a phone number exactly when Telegram calls a client
  authorized that was given no session and names an account nobody else is bound to
  (`TelegramAuth.Start`, `TelegramAuth.BoundWithoutPhone`). Runs leave that answer out.
* The lockout of `login` never lasts longer than 30 seconds: a locked account counts no failures
  and an elapsed lockout starts the count again, so the doubled delays cannot be reached
  (`WebSessions.LockoutsStayShort`).

## Model

| member | source | states |
|---|---|---|
| ProtocolInvariant.InvAlways | backend/app/telegram/service.py:423-1301 | in every world of every run: rows are coherent, at most one active job per user, markers are live, row ids distinct, connections coherent with distinct principals, owner tokens fresh and unshared, and each worker's view of the job it still owns agrees with the row |
| ProtocolInvariant.InvStep | backend/app/telegram/service.py:312-373 | one action of a user or a worker keeps that invariant; jobs evolve forward, counters move only with a page of their own job, and only the user reorganizes messages |
| ScanSafety.JobsAreCoherent | backend/app/models.py:215-267 | lease columns set exactly while running or stopping, finished exactly when terminal, stop flag exactly when stopping among active jobs, reasons and errors fitting the state, one active job per user |
| ScanSafety.JobsOnlyMoveForward | backend/app/telegram/service.py:989-1008 | terminal rows are frozen for ever, a stopping job is never pending or running again, counters never fall, no job disappears |
| ScanSafety.BudgetIsNeverExceeded | backend/app/telegram/service.py:618-623 | whatever the client returns, a job never counts more messages than the limit it was created with |
| ScanSafety.JobsCarrySettings | backend/app/telegram/service.py:147-156 | every job with a provenance carries the deployment's limits from its creation to its end |
| ScanSafety.OneHolderPerJob | backend/app/telegram/service.py:477-507 | in no world of any run do two workers hold unexpired leases on one job |
| ScanSafety.ClaimsExclude | backend/app/telegram/service.py:477-507 | a claim with a fresh token succeeds exactly on a claimable job, and for the length of a lease every other claim of it changes nothing |
| ScanSafety.MarkersAlwaysLive | backend/app/telegram/service.py:117-133 | every replacement marker names an active replacement job of the row's own user |
| ScanSafety.StatusNeverFindsCorruption | backend/app/auth/service.py:53-121 | every connection a run produces is coherent, and the corruption branches of `status` fire on it exactly if it is bound to principal zero |
| ScanSafety.RetiredTokensStayRetired | backend/app/telegram/service.py:423-507 | an owner token that was drawn and is not the owner of a job never owns it again |
| Fencing.ProgressIsFenced | backend/app/telegram/service.py:1275-1296 | counters and cursor of a job move only with a page committed by the holder of its unexpired lease while the connection is connected as the job's own |
| Fencing.ImportsAreFenced | backend/app/telegram/service.py:1167-1197 | a row appears, or its copied columns change, only with such a page that holds the message of this row, in the library of the job's user and under the job's principal; or its text alone changes, because the user edits it |
| Fencing.NothingElseImports | backend/app/messages/service.py:311-339 | every action but a page commit adds no row and changes no copied column except the text the user edits; rows leave only by the user's deletion or by a sweep |
| Fencing.EndsAreFenced | backend/app/telegram/service.py:896-913 | a job completes, fails with provenance or returns to the queue only by its owner, and except for a release only while the lease is unexpired |
| Leases.HeartbeatsKeepTheJob | backend/app/telegram/service.py:539-559 | a worker whose heartbeats come less than the length of a lease apart holds its job throughout, whatever others do, until it ends its slice itself or the job is cancelled |
| Leases.HeldJobsStay | backend/app/telegram/service.py:477-507 | after any step the holder of an unexpired lease still owns its job, unless it gave it up or the job was cancelled |
| Leases.DisconnectsAreFinal | backend/app/telegram/client.py:289-357 | after a disconnect no lease from before it fits the connection again in any later world, so no page of it is persisted |
| ScanOutcomes.SlicesEndAsFound | backend/app/telegram/service.py:312-346 | the holder's slice ends its job with "source exhausted", "message limit reached" or "runtime limit reached" if that is what it found, cancelled if it found a stop; after a page or time limit with "runtime limit reached" exactly if the runtime was used up when it was looked at; else the job is pending, or cancelled if a stop was requested meanwhile |
| ScanOutcomes.LostLeasesChangeNothing | backend/app/telegram/service.py:896-913 | a worker that has lost its lease drops its job and changes nothing, with any of its statements |
| ScanOutcomes.HeartbeatsRenew | backend/app/telegram/service.py:539-559 | a heartbeat of the holder moves heartbeat and expiry alone, and the lease holds for a full length from then on |
| ScanOutcomes.FailuresAreRecorded | backend/app/telegram/service.py:880-948 | an error of the holder ends the job as failed, with the error |
| ScanOutcomes.ReleasesReturnTheJob | backend/app/telegram/service.py:1014-1065 | the owner that is shut down leaves the job pending in its place, or cancelled if a stop was requested |
| ScanOutcomes.StopsAreNoticed | backend/app/telegram/service.py:862-877 | a worker that holds its job stops exactly if a stop was requested |
| ScanOutcomes.StopsTakeEffect | backend/app/telegram/service.py:181-214 | a stop cancels a job nobody runs and marks any other as stopping, with its lease |
| ScanOutcomes.ClaimsTakeFreeJobs | backend/app/telegram/service.py:423-507 | a claim gives a free job to the claimant for a full lease, keeping when it was first started; it fails a job without provenance, finishes off an abandoned stop, and leaves any other job alone |
| ScanOutcomes.SlicesStartWhereTheJobIs | backend/app/telegram/service.py:508-536 | the claimant that still owns its job starts from the row's columns, at its cursor |
| ScanOutcomes.SweepsCancelAbandonedStops | backend/app/telegram/service.py:1068-1101 | exactly the stopping jobs with expired leases are cancelled |
| ScanOutcomes.PagesAdvanceTheJob | backend/app/telegram/service.py:1275-1296 | a persisted page adds its messages to the counter, one page, and its cursor, and changes no other column of the job |
| ScanOutcomes.ScansStartForConfirmedAccounts | backend/app/telegram/service.py:136-170 | a job is created exactly if Telegram confirms the connected account of a user without an active job, with the replacement mode, page size, provenance and limits asked for |
| ScanOutcomes.LostAuthorizationsErase | backend/app/telegram/service.py:1104-1157 | an unauthorized worker erases the connection its job is bound to and cancels exactly the active scans bound to it, and changes nothing if the user has reconnected |
| ScanOutcomes.UnreadableConnectionsAreErased | backend/app/telegram/service.py:632-669 | a worker that cannot open the secrets erases the connection its job is bound to, and no other |
| ScanOutcomes.RefreshedSessionsAreSaved | backend/app/telegram/service.py:798-859 | the holder's refreshed session is saved exactly while the connection is connected as the job's own |
| ScanOutcomes.DisconnectsEraseEverything | backend/app/telegram/client.py:289-357 | a disconnect leaves a connection that holds nothing, in a new generation, and no active scan of the user; other users are untouched |
| ScanOutcomes.RequestsChangeTheirConnection | backend/app/auth/service.py:396-422 | a request about a connection changes that connection alone, and cancels the user's active scans exactly if it says so |
| ScanOutcomes.DeletionsChangeTheConnection | backend/app/telegram/client.py:141-236 | a deletion in Telegram changes the user's connection alone, as the attempt says, and cancels the user's active scans exactly if it says so |
| ScanOutcomes.FirstStartsCreateTheConnection | backend/app/auth/service.py:123-160 | the first start of a user creates the connection unless it is refused, and nothing else creates one |
| ScanOutcomes.OrganizingChangesOneColumn | backend/app/messages/service.py:311-339 | an edit, a category or tags change that column of that row and nothing else |
| ConnectionHistory.HistoryAlways | backend/app/auth/service.py:363-394 | in every world of every run the record of bound generations agrees with the connections, the jobs and the imported rows |
| ConnectionHistory.GenerationsNeverFall | backend/app/telegram/client.py:239-286 | between two worlds of a run a connection stays, its generation does not fall, and a bound generation keeps its principal |
| ConnectionHistory.OnePrincipalPerGeneration | backend/app/auth/service.py:387-394 | a connection seen twice in a run with the same generation and bound both times is bound to the same principal |
| ConnectionHistory.OnePrincipalPerRowGeneration | backend/app/telegram/service.py:1243-1270 | rows of one user with equal connection generation have equal principal, even seen at different times |
| ConnectionHistory.WorkersTouchOnlyTheirConnection | backend/app/telegram/service.py:798-859 | a worker changes a connection only by saving a session while it holds an unexpired lease and the connection is connected as the job's own, or by erasing the very connection its job is bound to |
| SourceViews.ViewIsHistory | backend/app/telegram/scanner.py:364-377 | what a job could see is its history: the messages its source listed at every moment from the job's creation to its end, and those it listed at some moment |
| SourceViews.SteadyView | backend/app/telegram/service.py:702-762 | if the source stays as it is while the job is active, both are that source, whatever it is before and after |
| ExactlyOnce.PromptRunsAreHonest | backend/app/telegram/scanner.py:364-377 | a fetch of the list as it is when the page is persisted is an honest answer |
| ExactlyOnce.EveryFetchIsAnAnswer | backend/app/telegram/scanner.py:364-377 | so is a fetch of the list as it was at any earlier moment in the life of the job |
| ExactlyOnce.CommittedExactlyOnce | backend/app/telegram/service.py:702-762 | in honest runs a job commits its ids newest first and each once, `messages_scanned` is their number and the cursor the last of them; each was listed at some time since the job was created, and each that was listed all the time, down to the cursor, is among them |
| ExactlyOnce.SteadyJobsImportTheirSource | backend/app/telegram/service.py:702-762 | if the source stays as it is while the job is active, those ids are exactly the newest `messages_scanned` of it |
| ExactlyOnce.CommitsOnlyGrow | backend/app/telegram/service.py:1275-1297 | in every run what a job committed stays a prefix of what it commits later |
| ExactlyOnce.ExhaustedJobsAreComplete | backend/app/telegram/scanner.py:248-289 | a worker that ends with "source exhausted" and still owns its job has imported everything listed all the time since the job was created |
| ExactlyOnce.ImportStep | backend/app/telegram/service.py:613-766 | every honest step, whatever happens to sources in it, keeps what every job committed an import without gap or repetition, every counter and cursor in step with it, and every claim of exhaustion true |
| Completion.CompletionReasonsHold | backend/app/telegram/service.py:320-346 | in every run a job completed with "message limit reached" counted exactly its limit, and one completed with "runtime limit reached" ran that long |
| Completion.ExhaustedMeansEverything | backend/app/telegram/service.py:320-346 | in honest runs a job completed with "source exhausted" has committed everything that was listed all the time while it was active |
| Completion.ExhaustedMeansTheSource | backend/app/telegram/service.py:320-346 | if its source stayed as it was while it was active, that is exactly the source |
| Completion.CompletionIsAFinish | backend/app/telegram/service.py:896-913 | a job becomes completed only by the end of a slice of the worker that holds its unexpired lease |
| Replacement.ReplacementIsExact | backend/app/telegram/service.py:880-948 | right after a sweep the user's library is exactly what the job committed under its principal, minus what the user deleted after the job had committed it; so a message listed all the time while the job was active and not so deleted is there, and a message not listed once then is gone |
| Replacement.SteadyReplacementIsTheSource | backend/app/telegram/service.py:880-948 | if the source stays as it is while the job is active, the library is exactly the source minus what the user deleted after the job had committed it |
| Replacement.ReplacementUnderDeletions | backend/app/messages/service.py:341-364 | if only the user deletes from the source while the job is active, through this service, and answers are prompt, the library is exactly the source as it is at the sweep, minus what the user deleted locally after the job had committed it |
| Replacement.SweepLeavesCommitted | backend/app/telegram/service.py:915-938 | the sweep of an honest run leaves exactly the messages its job committed and the user did not delete after that, and the job is complete |
| Deletions.RowAfterStep | backend/app/messages/service.py:341-383 | a row is in the library after a step exactly if the step persists a page with its message, or it was there and is neither deleted nor swept away |
| Deletions.LibraryIsHistory | backend/app/telegram/service.py:1208-1273 | over any stretch of any run a row is in the library at the end exactly if it was there at the beginning, or a page with its message was persisted, and it was not removed since |
| Deletions.RemovedRowsReturnWithPages | backend/app/messages/service.py:341-364 | a removed row is back exactly if a page with its message was persisted after the removal |
| Deletions.PromptDeletionsStick | backend/app/messages/service.py:341-364 | with prompt answers a message that is neither in the library nor listed does not come back as long as it is not listed |
| Deletions.HonestDeletionsStick | backend/app/messages/service.py:341-364 | with honest answers, too, unless a job of its user and account is under way that has not committed it |
| Deletions.UnlistedImportsAreStale | backend/app/telegram/service.py:702-762 | in honest runs a message not listed any more is imported only by a job that was under way when it left the list, had not committed it, and had seen it listed before |
| Deletions.StalePagesBringBack | backend/app/messages/service.py:433-456 | any honest run that ends with a deletion everywhere goes on honestly with the commit of a page fetched just before it, and then the message is in the library and not listed |
| Scenarios.DeletedMessageReturns | backend/app/messages/service.py:341-348 | an honest run from a new deployment in which a message deleted here and in Telegram is in the library one step later |
| Replacement.SweepIsCompletion | backend/app/telegram/service.py:312-346 | a replacement job becomes completed with "source exhausted" exactly in the step that sweeps its user's library |
| Replacement.RowsLeaveOnlyBySweep | backend/app/telegram/service.py:915-938 | in every run a row leaves only by its user's deletion or in such a sweep, so a stopped, failed or limited replacement deletes nothing |
| Replacement.CompletedImportIsComplete | backend/app/telegram/service.py:1222-1273 | an import that ends with "source exhausted", replacement or not, leaves every message in the library that was listed all the time while the job was active and the user did not delete after the job had committed it |
| Replacement.RemovedIsDeleted | backend/app/messages/service.py:341-364 | in every run the ids counted as removed are exactly those the user deleted, locally or everywhere, while the job was active and after it had committed them |
| JobLibraries.LibraryStep | backend/app/telegram/service.py:1160-1301 | every honest step, deletions in Telegram included, keeps the library of every active job equal to what it committed minus what was deleted, marked exactly by it |
| Organization.SurvivorsKeepOrganization | backend/app/telegram/service.py:1222-1273 | over any stretch of any run without the user's own changes a message that is still there has its row, category and tags, unless its row was deleted and imported anew |
| Organization.RowsAreDistinct | backend/app/models.py:382-393 | one row per user, principal and Telegram id, each with its own row id, in every world of every run |
| Organization.UpsertAllTwice | backend/app/telegram/service.py:1208-1273 | importing a page again by the same scan changes no row and uses no row id, whatever duplicates it holds |
| Organization.LastMessageWins | backend/app/telegram/service.py:1219-1273 | an imported row carries the text and columns of the last message of the page with its id, and its media unless an image lacks a preview; a new row has the message's category and no tags |
| Organization.TextAfterStep | backend/app/messages/service.py:333-337 | the text of a row after any step: the edit, if it is one; the text of the last such message, if a page with it is persisted; else what it was |
| Organization.TextIsLostExactly | backend/app/telegram/service.py:1222-1241 | over any stretch of any run in which a row stays and is not edited, its text is lost exactly if a page with its message is persisted and the last such page has another text |
| Organization.EditedThenRescanned | backend/app/telegram/service.py:1222-1241 | a corrected text is back to the old one after a page with the old text |
| StoreRules.UpsertAllImports | backend/app/telegram/service.py:1219-1273 | an import adds exactly the page's keys, keeps identity and organization of old rows, leaves other rows alone, and stamps generation and marker |
| FairQueue.BypassIsFromBehind | backend/app/telegram/service.py:376-413 | with an advancing clock and whatever picks, the active jobs in front of a waiting job only shrink, by at least one with every job taken from there; what overtakes it beyond that is taken from behind it |
| FairQueue.BoundedBypass | backend/app/telegram/service.py:376-413 | with pick and claim adjacent nothing is taken from behind, so at most as many claims are made as jobs were in front |
| FairQueue.BoundedBypassByWorkers | backend/app/telegram/service.py:376-413 | with stale picks but one claim per pick, each worker takes at most one job more than were in front of the waiting one |
| FairQueue.WaitingJobIsClaimedByWorkers | backend/app/telegram/service.py:384-402 | so no job starves: after that many claims of n workers, and one more, the waiting job has been claimed |
| Scenarios.OvertakenTwice | backend/app/telegram/service.py:384-406 | a run in which a job is overtaken twice by the only job in front of it, through a stale pick |
| FairQueue.NoJobOvertakesTwice | backend/app/telegram/service.py:494-498 | no job is claimed twice while another waits |
| FairQueue.WaitingJobIsClaimed | backend/app/telegram/service.py:384-402 | while a job can be picked, one claim more than there were jobs in front of it claims the job itself |
| FairQueue.SlicesReturnToTheQueue | backend/app/telegram/service.py:989-1065 | without a stop a requeued job goes to the back of the queue and a released one keeps its place |
| FairQueue.SomeJobIsPicked | backend/app/telegram/service.py:384-402 | as long as a job can be picked some job is, and what can be picked of a job with a provenance is what can be claimed |
| ScanStore.Tables.ClaimScanJob | backend/app/telegram/service.py:423-536 | the four updates of a claim together leave what `Claim` says and keep the rules; the lease is returned exactly if the job was claimable |
| ScanStore.Tables.RenewLease | backend/app/telegram/service.py:539-559 | exactly for the holder of an unexpired lease heartbeat and expiry move to the present and a lease length later, no other column changes, and the lease holds until then |
| ScanStore.Tables.UpsertMessages | backend/app/telegram/service.py:1208-1273 | the message loop over prefetched rows equals the import function, and fails exactly if a new message comes twice |
| ScanStore.Tables.PersistScanPage | backend/app/telegram/service.py:1160-1301 | all of a page or nothing is persisted: exactly if the connection matches, the lease holds at both fences and no new message is repeated |
| ScanStore.Tables.FinalizeScanJob | backend/app/telegram/service.py:880-948 | the terminal row, the sweep and the cleared markers, for the holder only |
| ScanStore.Tables.RequeueScanJob | backend/app/telegram/service.py:951-1011 | back to the queue, or cancelled with cleared markers if a stop was requested, for the holder only |
| ScanStore.Tables.ReleaseInterruptedScan | backend/app/telegram/service.py:1014-1065 | the same for the owner even after its lease expired, with the heartbeat kept |
| ScanStore.Tables.TerminalizeExpiredStoppingJobs | backend/app/telegram/service.py:1068-1101 | exactly the stopping jobs with expired leases are cancelled and their markers cleared |
| ScanStore.Tables.EndProcessing | backend/app/telegram/service.py:312-346 | the holder's row ends completed, cancelled or pending as the reason, the stop flag and the runtime say that was looked at before the fenced transaction |
| ScanStore.Tables.StopRequested | backend/app/telegram/service.py:862-877 | a worker learns the stop flag of a job only while it holds it |
| ScanStore.Tables.CancelActiveScans | backend/app/auth/service.py:396-422 | clears markers and cancels exactly the active jobs of the user, or those bound to one provenance |
| ScanStore.Tables.DowngradeConnection | backend/app/telegram/service.py:1104-1157 | erases the connection of the lease's provenance and cancels the jobs bound to it |
| ScanStore.Tables.InvalidateUnreadableConnection | backend/app/telegram/service.py:632-669 | a connection whose secrets cannot be opened is erased only if it is the lease's own |
| ScanStore.Tables.PersistRefreshedSession | backend/app/telegram/service.py:798-859 | the session is saved exactly if connection and lease still match at the second fence, and nothing else changes |
| ScanStore.Tables.StopScan | backend/app/telegram/service.py:181-214 | the user's active job, if there is one, is cancelled at once when nobody runs it and marked stopping otherwise |
| ScanStore.Tables.StartScan | backend/app/telegram/service.py:86-170 | every outcome of `start`: the job that can still run is returned, a stale stopping job is finished off first, any other active job refuses |
| ScanStore.Tables.InsertJob | backend/app/telegram/service.py:136-170 | a job is inserted with the provenance of the connection validated in the same transaction, or nothing but the validation is kept |
| TelegramAuth.Status | backend/app/auth/service.py:53-121 | keeps the connection coherent, binds nothing, and answers "connected" only for an untouched connected row that opens |
| TelegramAuth.StatusTellsTheTruth | backend/app/auth/service.py:53-121 | on coherent rows the answer is connected, code or password required exactly as the row says, unless its secrets do not open, its challenge is over or it is bound to account zero; it is erased exactly then |
| TelegramAuth.StartBindsOrSendsCode | backend/app/auth/service.py:123-221 | the exact condition of every answer of `start`, and what it leaves: the new credentials, the challenge or the bound account, and the generation |
| TelegramAuth.VerificationBindsOrRefuses | backend/app/auth/service.py:223-304 | the exact condition of every answer of `verify`, and what it leaves |
| TelegramAuth.ConfirmationsAreExact | backend/app/telegram/service.py:216-309 | a deletion in Telegram and the start of a scan go through exactly if Telegram confirms the connected account; an account it does not confirm loses its connection, and one it cannot ask about keeps it |
| TelegramAuth.Start | backend/app/auth/service.py:123-221 | coherence is lost exactly if Telegram calls a client authorized that was given no session and names a free account; a principal is bound only without conflict; a new generation cancels scans; a rejection leaves the row or its erasure |
| TelegramAuth.BoundWithoutPhone | backend/app/auth/service.py:123-221 | a first start that is called authorized at once leaves a connected row without a phone number |
| TelegramAuth.ZeroPrincipalIsErased | backend/app/auth/service.py:53-121 | an account with id zero signs in, is connected and coherent, and is erased by the next look at the status |
| TelegramAuth.Verify | backend/app/auth/service.py:223-304 | keeps the connection coherent, binds only without conflict in a generation of its own, and answers a repeated request without touching the row |
| TelegramAuth.DeleteRemote | backend/app/telegram/client.py:141-236 | succeeds only for the connected provenance of the messages and leaves it bound; otherwise binds nothing |
| TelegramAuth.ValidateForScan | backend/app/telegram/service.py:216-309 | a scan may start only for a connection Telegram confirms under its own principal |
| ConnectionService.TelegramConnection.Status | backend/app/auth/service.py:53-121 | the column assignments leave in the database what `TelegramAuth.Status` says |
| ConnectionService.TelegramConnection.Start | backend/app/auth/service.py:123-221 | the same for `start`, with every rejected request rolled back to the last commit |
| ConnectionService.TelegramConnection.Verify | backend/app/auth/service.py:223-304 | the same for `verify` |
| ConnectionService.TelegramConnection.BindPrincipal | backend/app/auth/service.py:363-394 | opens a new generation and cancels scans exactly if the principal changes and is not the first of a pending challenge |
| ConnectionService.TelegramConnection.Revoke | backend/app/telegram/client.py:289-357 | leaves nothing in the row, disconnected, in the next generation |
| ConnectionService.TelegramConnection.DeleteRemote | backend/app/telegram/client.py:141-236 | the same for the deletion of remote messages |
| ConnectionService.TelegramConnection.ValidateForScan | backend/app/telegram/service.py:216-309 | the same for the validation of a scan, the new session staying uncommitted on success |
| Scanner.BelowIsFilter | backend/app/telegram/scanner.py:364-377 | what a fetch below an offset yields is the source filtered by that offset, in order |
| Scanner.PageOfAnswer | backend/app/telegram/scanner.py:379-399 | a page built, and possibly cut, from a descending answer is its beginning, its cursor is its last id, and no `has_more` on an uncut page means the answer is used up |
| Scanner.ImportGrows | backend/app/telegram/scanner.py:248-289 | the beginning of an answer below the last imported id extends an import without gap or repetition, and an uncut answer shorter than asked for completes it |
| Scanner.SteadyImport | backend/app/telegram/scanner.py:364-377 | an import from a source that stays as it is, is the newest part of it below the start, and complete exactly if it is all of it |
| SavedMessages.SavedMessagesScanner.Scan | backend/app/telegram/scanner.py:145-297 | whatever the client answers and whatever interrupts it, a scan stays within its limits, its progress record counts what it handed on, and each way of ending means what its name says; with an honest client, whose list may change from round to round, what it handed on is an import from its start, complete if it ended with "source exhausted", with more to come if it ended at the message limit, and the record holds the cursor to resume from |
| SavedMessages.ScanSteadily | backend/app/telegram/scanner.py:145-297 | a call of scan, undisturbed, without a page limit and over a list that stays as it is, hands on exactly the first min(n, limit) messages below its start and ends with "source exhausted" exactly if n is within the limit, with "message limit reached" exactly if not |
| SavedMessages.ListingsAreHonest | backend/app/telegram/scanner.py:364-377 | a client that answers each round from what is listed then is honest, whatever arrives and disappears between rounds |
| SavedMessages.SavedMessagesScanner.Round | backend/app/telegram/scanner.py:183-289 | one round, for any answer: it ends before anything is taken for a reason that holds, or hands on the beginning of the answer with its previews, and goes on exactly if the page says so |
| SavedMessages.RoundIsAStep | backend/app/telegram/service.py:702-762 | a round of a claimed slice is an enabled step of the protocol: a conclusion, a look at the stop flag, or the commit of exactly that page, after which worker and loop agree on counters, offset and end |
| SavedMessages.RoundImports | backend/app/telegram/scanner.py:248-289 | a round with an honest client extends the import, ends for a reason that is true of it, or moves the offset strictly down |
| SavedMessages.CacheMediaPreviews | backend/app/telegram/scanner.py:419-503 | the page with its previews, cut before the first message whose preview runs out of time, with the prefix's minimum as cursor |
| SavedMessages.PageExtends | backend/app/telegram/scanner.py:419-503 | a page with its previews, wherever it was cut, extends the import, and its end says truly whether the source goes on |
| SavedMessages.PagesAreFull | backend/app/telegram/scanner.py:193-222 | a page holds as many of the messages answered as the page size and what is left of the message limit allow |
| SavedMessages.SlicesJoin | backend/app/telegram/scanner.py:264-289 | any sequence of slices that resume one another, wherever they were cut, delivers one import without gap or repetition, complete if its last slice is |
| SavedMessages.TallyGivesCursor | backend/app/telegram/scanner.py:330-337 | the last id in the progress record is the cursor the next slice resumes from |
| StreamSlots.StreamsAreBounded | backend/app/telegram/streams.py:27-62 | at any time at most the configured number of owners hold an unexpired lease of a user, on distinct slots |
| StreamSlots.NobodyTakesAnUnexpiredLease | backend/app/telegram/streams.py:65-93 | an unexpired lease keeps its row through every step of anyone else |
| StreamSlots.ReclaimedForGood | backend/app/telegram/streams.py:65-93 | an owner whose slot was reclaimed has no row in any later world of the run, takes no lease for valid there, and changes no row by anything it does |
| StreamSlots.ClaimsFailOnlyWhenFull | backend/app/telegram/streams.py:27-62 | a claim gives up only slots it found held by a lease unexpired when the claim began, each at the moment it tried it |
| StreamSlots.StreamTable.ClaimScanStream | backend/app/telegram/streams.py:27-62 | an undisturbed claim takes the first slot that can be taken and fails exactly if none can |
| StreamSlots.StreamTable.RenewScanStream | backend/app/telegram/streams.py:65-81 | a renewal succeeds exactly for the owner of an unexpired slot |
| StreamSlots.StreamTable.ReleaseScanStream | backend/app/telegram/streams.py:84-93 | a release deletes exactly the owner's own slot |
| RateLimits.WindowQuota | backend/app/abuse.py:122-163 | over any history of calls and prunings at most the quota is accepted in a window, the open window's counter has counted them all, and counters stay between one and quota plus one |
| RateLimits.CallsAreJudged | backend/app/abuse.py:122-163 | a call is accepted exactly if every check has calls left in its window, invalid exactly if a subject is empty or a counter comes with two rules, and else told the wait for a check that has none left |
| RateLimits.TwiceTheQuota | backend/app/abuse.py:247-251 | in any interval of the window's length at most twice the quota is accepted |
| RateLimits.RetryAfterIsSafe | backend/app/abuse.py:145-151 | a rejected caller that waits as long as told finds the exhausted window over |
| RateLimits.RetryAfter | backend/app/abuse.py:145-146 | the wait reaches the window's end, is the shortest whole number of seconds that does, and lies between one second and the window |
| RateLimits.CountedOne | backend/app/abuse.py:181-226 | one accepted call moves a counter by exactly one, a call that never names it not at all |
| RateLimits.DatabaseRateLimiter.Consume | backend/app/abuse.py:122-163 | the loop over the checks, with its early end, leaves the counters and the answer the specification says |
| RateLimits.PruningIsInvisible | backend/app/abuse.py:165-179 | whenever a history of calls was pruned, every later call is answered as if it never had been |
| RateLimits.IncrementOne | backend/app/abuse.py:181-226 | an increment keeps every counter between one and quota plus one, moves its own by exactly one up to the quota, and leaves every other counter as it was |
| RateLimits.Uniques | backend/app/abuse.py:232-244 | the same checks without repetition, no two on one counter |
| RateLimits.UniqueChecks | backend/app/abuse.py:232-244 | the dictionary loop computes that list, and fails on an empty subject or two rules for one counter |
| WebSessions.SessionsAreBounded | backend/app/accounts/service.py:179-208 | over every run a user never has more active sessions than allowed |
| WebSessions.SessionsNeedPasswords | backend/app/accounts/service.py:106-152 | whatever session a run shows was opened in it by a valid password for an enabled, unlocked account, or by a change of the password, for that user |
| WebSessions.SessionsAreOpened | backend/app/accounts/service.py:154-177 | a session appears exactly in such a step, and is live until it is idle for too long or its time is over |
| WebSessions.SessionsAreKept | backend/app/accounts/service.py:179-251 | every other session stays as it is unless it is revoked by name, by a new password, by a login that does not keep it, or when it is resolved although it is over; resolving touches it after a while; only old history of the user is pruned |
| WebSessions.AccountsAreJudged | backend/app/accounts/service.py:106-139 | a login changes the account exactly as the password and the lock say, and no other step touches its failures |
| WebSessions.DelaysDouble | backend/app/accounts/service.py:131-136 | the lock lasts half a minute at the fifth failure, doubles with every further one, and is a quarter of an hour from the tenth on |
| WebSessions.DeadSessionsStayDead | backend/app/accounts/service.py:210-232 | a session that expired, was revoked or was pruned is never active again |
| WebSessions.LiveSessionsStay | backend/app/accounts/service.py:198-208 | pruning never removes an active session, and one is revoked only by name, by a new password, by a disabled account or by a login that did not keep it |
| WebSessions.GoodSessionsAlways | backend/app/config.py:282-285 | the idle expiry never passes the absolute expiry |
| WebSessions.LockoutsStayShort | backend/app/accounts/service.py:117-139 | failures never pass the threshold, an account is locked exactly at it, and never for more than 30 seconds |
| WebSessions.HeadIsKept | backend/app/accounts/service.py:182-196 | keeping the head of the ordered select keeps the most recently seen sessions, one fewer than allowed |
| WebSessions.AccountService.PrepareForNewSession | backend/app/accounts/service.py:179-208 | all but the most recently seen active sessions are revoked and only old history of this user is pruned |
| WebSessions.AccountService.Login | backend/app/accounts/service.py:106-152 | succeeds exactly for a valid password of an account that is enabled and not locked, clearing its failures and issuing a live session; a wrong password there counts one more failure, from none after an elapsed lock, and locks exactly at the threshold; any other rejection changes nothing |
| WebSessions.AccountService.ResolveSession | backend/app/accounts/service.py:210-232 | resolves exactly live sessions of enabled accounts, touching them no further than their absolute expiry, and revokes what is over |
| WebSessions.AccountService.RevokeSession | backend/app/accounts/service.py:234-246 | revokes exactly an unrevoked session of that user |
| WebSessions.AccountService.Logout | backend/app/accounts/service.py:248-251 | revokes the session once |
| WebSessions.AccountService.ChangePassword | backend/app/accounts/service.py:280-307 | revokes every unrevoked session of the user and issues one |
| WebSessions.ListActive | backend/app/accounts/service.py:182-192 | the active sessions, each once, most recently seen first |
| MessageContent.PartsAreLossless | frontend/src/lib/message-content.ts:220-244 | the parts joined give back the text |
| MessageContent.PartsAreInPlace | frontend/src/lib/message-content.ts:220-244 | a part is a link exactly if a match of the pattern starts at its place in the text, its value is the match without trailing punctuation and its url what that parses to; and every match has its part |
| MessageContent.CandidatesAre | frontend/src/lib/message-content.ts:18-18 | a match is http://, https:// or www. in any case, one more character of a URL, and as many as follow |
| MessageContent.PartsAreGood | frontend/src/lib/message-content.ts:220-244 | no part is empty, and a link holds no white space, begins with a letter and ends in a character that belongs to it |
| MessageContent.MessageTextParts | frontend/src/lib/message-content.ts:220-244 | the loop over matches yields parts that join to the text, each a link exactly where a match starts, with its trimmed value and parsed url; one empty part exactly for an empty text |
| MessageContent.TrimUrlPunctuation | frontend/src/lib/message-content.ts:31-53 | terminates with the longest prefix that is empty or does not end in trimmable punctuation |
| MessageContent.TrimmingTwice | frontend/src/lib/message-content.ts:31-53 | trimming a second time changes nothing exactly if the stripped text has no white space followed only by what trimming takes off; so it changes nothing on a text without white space |
| MessageContent.TrimmingTwiceDiffers | frontend/src/lib/message-content.ts:31-53 | "a ." is trimmed to "a " and that to "a" |
| MessageContent.TrimmedIsUnique | frontend/src/lib/message-content.ts:31-53 | that prefix is unique, so trimming is determined by it |

## Left out

* Telethon, AES-GCM, Argon2 and HMAC: clients answer anything a parameter says, ciphertexts are
  numbers that open or not, passwords are valid or not, subjects stand for their keyed hashes.
* SQL dialects, isolation anomalies and migrations: each committing block is one atomic step, and
  the partial unique index on active jobs is a constraint.
* Routers, schemas, cookies, CSRF, SSE formatting, configuration parsing and all user interface.
* Categorizer, slugs, URL parsing and link classification: the category of a message and the
  parsed URL are given; tags and categories are columns of the message row, and a missing fallback
  category counts as a failed page.
* Account deletion and the listing operations, which would add only easy members.
* `auth.start` commits the invalidation of a corrupt connection and then goes on with the objects
  of the same session; the model takes both as one step.
* Rows imported before provenance was recorded are keyed like the others, one per user and
  Telegram id, and stay as they are.
* A deletion of cached messages in Telegram and here is one step; the code calls Telegram, then
  commits the deletion of the rows. A crash in between leaves the rows and is, for a run, a change
  of the list in Telegram.
* A request that edits text and category together, or moves several messages at once, is several
  steps of the model.
* SourceViews.ViewIsHistory: a source is a list of ids; a message edited in Telegram keeps its id,
  and its texts are whatever the answers say.
* FairQueue.BoundedBypassByWorkers: assumes that every worker makes one claim per pick, as the loop
  of `process_next_scan_job` does.
* SavedMessages.SavedMessagesScanner.Scan: assumes an honest client or a limit on messages or
  pages, as the service sets both; without them a client can keep the loop going for ever. The
  deadline, the stop flag and the consumer's failures come from a script of rounds; media
  selection by type and size is an outcome of that script.
* RateLimits.WindowQuota: assumes one rule per scope and subject, as the module's constants give,
  and times from the epoch on in whole microseconds.
* WebSessions.SessionsAreBounded: logins of one user are serialized, as the row lock does.
* MessageContent.MessageTextParts: characters instead of UTF-16 units; every character it compares
  is in the basic plane.
