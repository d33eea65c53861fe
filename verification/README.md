# OneBox backend: verified model

OneBox automates one owner's mailbox. Its difficulty lies in two protocols kept in PostgreSQL and in a
few stateful helpers around Google's APIs. This project models them in Dafny and proves what they are
for.

- **Gmail notifications and recovery.** Push notifications become queue rows. Workers claim them under
  expiring leases, read Gmail history from the mailbox cursor, record one triage row per message, and
  advance the cursor. A history gap starts a bounded recovery that is fenced by a generation number.
- **Pending actions.** A staged side effect is approved by its owner, executed once, finalized under a
  two-minute lease, and reconciled by an operator when its outcome is unknown. An audit log, an expiry
  sweep and retention deletes go with it.
- **Provider runner and retries.** Blocking SDK calls run in a bounded pool, one per resource, and may
  outlive their callers. Reads and idempotent writes are retried within a deadline.
- **Mail bodies.** Bounded walks over untrusted MIME trees, and a strict HTML sanitizer.
- **Mail cache and pages.** A cache namespaced by a generation counter, and keyset pages with opaque
  tokens.

## How it is built

A database transaction is a function from stored tables to stored tables. The classes
(`NotificationStore.Store`, `ActionStore.Store`, `ProviderRunner.Runner`, `MailCache.Cache`,
`Sanitizer.StrictHtmlSanitizer`) perform the same steps by assigning fields and are proved equal to those
functions. The protocols are state machines over the functions: any number of workers or request
handlers take one transaction or provider call at a time, in any order, with crashes, lease expiry,
clock steps, retention and lost cache entries in between. A worker holds only what it read, which may be
stale. Results are about every run of the machine, by an invariant over all reachable states.

What the model takes from outside:

- Lease and attempt tokens are fresh numbers, IDs of actions are never used twice, and a row lock makes
  a transaction one step.
- Gmail's history list, followed to its last page, returns every addition up to the history ID it
  reports, and that ID is no older than the call. `messages.list`, followed from its first page to its
  last, returns every message that entered the inbox before the first page was asked for and never was
  outside it; a page token continues the chain it was issued for. The profile reports the current
  history ID; history IDs of a mailbox only grow; lists honour `maxResults`.
- A Google answer with an ID means that the write took effect, a rejection below status 500 that it did
  not, except a Calendar conflict. Lookups return only what is in the owner's account; the To header of a
  sent message reads back as its recipient, and Gmail decides its thread. The marker header
  of a message and the private properties and ID of an event are set by nobody but OneBox; the notes of
  a task may be written by anyone.
- The settings satisfy the bounds of `server/config.py:112-115`, `:118-120`, `:128-139` and `:330-335`.
- Redis keeps the generation counter; everything else in the cache may vanish.
- Parsing and printing library calls agree with each other as stated in `ActionPayloads.Library` and
  `PageTokens.Library`; case folding may change the length of a text that is not ASCII. Both contracts
  can be met (`ActionPayloads.WellBehavedLibraryExists`, `PageTokens.WellBehavedLibraryExists`).

Modules, in dependency order: `Common`, `PythonText`, `Base64Url`; `NotificationRows`,
`NotificationStore`, `HistoryScan`, `NotificationProtocol`, `NotificationTransactions`,
`NotificationLeases`, `NotificationInvariant`, `NotificationSteps`, `NotificationSafety`,
`NotificationTheorems`, `NotificationRuns`, `NotificationRecovery`, `NotificationCoverage`,
`NotificationRetention`, `NotificationSkip`, `NotificationOverrun`, `NotificationEffects`;
`ActionPayloads`, `ActionFields`, `ActionHandlers`, `ActionVerdicts`, `ActionRows`, `ActionStore`,
`ActionProtocol`, `ActionSafety`, `ActionTheorems`, `ActionRaces`, `ActionEffects`; `PageTokens`,
`ActionListing`; `ProviderRunner`, `RetryPolicy`; `Sanitizer`, `SanitizerTheorems`,
`SanitizerOutput`, `MimeWalk`, `Markup`; `MailCache`.
`dafny verify dfyconfig.toml` checks all of them.

## What the code does not promise

Some claims one might expect are false of the code. The model keeps the code, says exactly when the
claim holds, and shows a run or an input for which it does not.

- A completed recovery has triaged every page it listed, and with them every message that entered the
  inbox before its first page was listed and never was outside it
  (`NotificationCoverage.RecoveryCoversInbox`). It stores the
  history ID of a profile read after its last page, possibly many checkpoints later. That cursor passes
  no inbox message without a triage row if and only if it passes none that arrived in between
  (`NotificationCoverage.RecoveryCoversCursorIff`); it passes none when the profile still reports the
  history ID of the first page (`NotificationCoverage.QuietRecoveryCoversCursor`).
  `NotificationSkip.RecoverySkipsLateMail` is a run that skips one.
- A message below the cursor need not have had a terminal triage row. `finalize_triage_work` does nothing
  when the row no longer carries the call's token, and `_triage_message` returns True even so. A message
  has had a terminal row if and only if some call still held the row when it finalized
  (`NotificationTheorems.TerminalIffFinalized`); a covered message without one was missed by a call of
  its own (`NotificationTheorems.HistoryIsCovered`) whose lease had run out
  (`NotificationTheorems.MissesAreLate`). `NotificationOverrun.OverrunLeavesTheMessage` is a run that
  leaves one behind.
- Reconciling a task searches notes for a marker that anyone may write. Its success stands for some
  write of the command if and only if one was performed, or no other task in the account shows the marker
  (`ActionTheorems.TaskSuccessIsRightIff`). In the run of `ActionRaces.TaskSuccessCanBeWrong` a task
  that was never sent is stored as succeeded, because the approved notes of another quote its marker.
- What an operator finds need not be this action's own write. It can be trusted to be if and only if
  the write was accepted, or nothing else in the account resembles it: carries the marker and, for a
  message, the recipient, and, for a reply, the thread (`ActionTheorems.LookupsAreRightIff`). Other than for tasks, only
  an earlier action of the same command, deleted by retention, leaves such a double
  (`ActionTheorems.DoublesAreDeleted`). In the run of `ActionRaces.SuccessCanBeAnOlderWrite` an action
  succeeds that sent nothing and never will.
- An operator's `failed` verdict can be overtaken by the write. `ActionTheorems.FailureIsFinalIff` says
  exactly when a closed action can no longer be accepted by the provider;
  `ActionRaces.OperatorFailureCanBeWrong` is a run in which it can.
- A request whose own generation read fails looks under generation 0. Its answer is as fresh as that of
  a checked read if and only if nothing stale is stored, or about to be stored, under generation 0
  (`MailCache.ReadIsFreshIff`); `MailCache.StaleAnswersAreReachable` is a run with a stale answer.
- A canonical payload is canonical again if and only if folding left every address within its limit
  (`ActionPayloads.CanonicalizeIsIdempotentIff`). Otherwise the staged action fails its own integrity
  check (`ActionTheorems.StagedIsIntactIff`, `ActionPayloads.FoldingCanBreakIt`).
- A slot of the provider pool is missing if and only if a call was admitted after the shutdown
  (`ProviderRunner.NoSlotMissingIff`, `ProviderRunner.ShutdownLosesTheSlot`).
- `fail_job` with `dead_letter` set never dead-letters on an existing mailbox: the branch needs a mailbox
  that is idle and `manual_required` at once. The row goes back to `pending` and a recovery starts
  (`NotificationRows.FailRows`).

## Model

| member | source | states |
|---|---|---|
| `NotificationTheorems.HistoryIsCovered` | server/workers/mail_notifications.py:134-248 | In every reachable state, every message added after the last coverage start and up to the stored cursor has had a triage row, and a terminal one unless a triage call of that message lost the row before it finalized |
| `NotificationTheorems.CursorsHaveACoverageStart` | server/services/notification_jobs.py:755-783 | A mailbox with a cursor has a coverage start, so the coverage claim is never empty |
| `NotificationTheorems.BaselineIsLastStart` | server/services/notification_jobs.py:675-692 | Coverage starts exactly at the first cursor a watch sets and at the cursor of each completed recovery |
| `NotificationTheorems.RecordedRowsExisted` | server/services/notification_jobs.py:304-359 | A message counts as recorded only if its triage row existed in some earlier state |
| `NotificationTheorems.TerminalIffFinalized` | server/services/notification_jobs.py:362-388 | A message has had a terminal triage row if and only if some triage call finalized it while it still held the row |
| `NotificationTheorems.SettledWereFinalized` | server/services/notification_jobs.py:362-388 | A message counts as settled only if a triage call that held its row finalized it in the run |
| `NotificationTheorems.MissedWereMissed` | server/services/notification_jobs.py:373-382 | A message counts as missed only if a triage call of it finalized nothing on its unfinished row in the run |
| `NotificationTheorems.MissesAreLate` | server/workers/mail_notifications.py:226-227 | A triage call misses its message only after its lease ran out |
| `NotificationOverrun.OverrunLeavesTheMessage` | server/workers/mail_notifications.py:185-248 | From every initial state a run leads to a cursor that has passed a message whose triage row never was terminal |
| `NotificationCoverage.RecoveryCoversInbox` | server/workers/mail_notifications.py:252-304 | A completed recovery has triaged every message of every page it listed, and with them every message that entered the inbox before its first page was listed and never was outside it, whichever workers listed the pages |
| `NotificationCoverage.RecoveryCoversCursorIff` | server/workers/mail_notifications.py:299-304 | The cursor it stores passes no inbox message without a triage row if and only if it passes none that arrived between the listing of its first page and the profile |
| `NotificationCoverage.QuietRecoveryCoversCursor` | server/workers/mail_notifications.py:299-304 | It passes none if the profile reports the same history ID as at the first page |
| `NotificationCoverage.EveryMessageIsAccountedFor` | server/workers/mail_notifications.py:134-304 | In every reachable state, every message that entered the inbox at or below the stored cursor has had its triage row, and a terminal one unless a triage call of it lost the row, except mail older than the first watch and mail in the gap of the last completed recovery |
| `NotificationRecovery.RunsKeepRecoveryOk` | server/workers/mail_notifications.py:252-304 | In every reachable state, what a worker or a checkpoint knows of a recovery is true: the listed identifiers are done or to do, and complete when the chain has ended |
| `NotificationSkip.RecoverySkipsLateMail` | server/workers/mail_notifications.py:271-304 | From every initial state a run leads to a stored cursor that has passed a message without a triage row |
| `NotificationTheorems.CursorNeverDecreases` | server/services/notification_jobs.py:443-449 | Over a whole run no cursor and no generation goes back |
| `NotificationTheorems.CursorsAdvance` | server/services/notification_jobs.py:675-692 | Every step keeps or raises the cursor, including the assignment without `max` that completes a recovery |
| `NotificationTheorems.ProfileIsCurrent` | server/workers/mail_notifications.py:299-304 | The profile a completing recovery carries is at least the cursor it replaces |
| `NotificationTheorems.FrozenDuringRecovery` | server/services/notification_jobs.py:432-443 | While recovery is not idle the cursor changes only in the step that completes it, made by the holder of the recovery lease |
| `NotificationTheorems.SucceededJobsReached` | server/services/notification_jobs.py:443-450 | A succeeded job's history ID is at or below the cursor from then on |
| `NotificationTheorems.OthersStayBusy` | server/services/notification_jobs.py:587-725 | Only completing a recovery makes a processing mailbox idle; message counts are reset only when a recovery starts |
| `NotificationTheorems.SettlePageCounts` | server/services/notification_jobs.py:652-672 | A checkpoint adds exactly the page's listed messages to the count |
| `NotificationRuns.FenceHolds` | server/workers/mail_notifications.py:309-345 | A worker that still owns its job is told True exactly when the mailbox was idle in every state from its unlocked read to its commit, in the generation the job was claimed in |
| `NotificationRuns.MemoriesAreTrue` | server/workers/mail_notifications.py:307-310 | The row a worker carries is the stored row of the earlier state it read |
| `NotificationRuns.GenerationGrows` | server/services/notification_jobs.py:453-459 | The generation never decreases and has grown if an idle mailbox is not idle any more |
| `NotificationRuns.GenerationCountsRecoveries` | server/services/notification_jobs.py:453-459 | The generation grows by one for each idle-to-required step and at no other |
| `NotificationRuns.RecoveryIsBounded` | server/models.py:150-162 | In every reachable state: processing iff both lease columns are set, `resync_required` iff not idle, count below the limit |
| `NotificationRuns.CountIsCommitted` | server/services/notification_jobs.py:652-672 | The stored message count is the sum of the pages committed in the recovery under way |
| `NotificationRuns.CompletedRecoveryIsBounded` | server/workers/mail_notifications.py:260-304 | A completed recovery listed at most the configured number of messages |
| `NotificationRuns.ManualIsForEver` | server/services/notification_jobs.py:712-725 | `manual_required` is never left and freezes cursor and generation |
| `NotificationRuns.ClaimsNeverOverlap` | server/services/notification_jobs.py:183-282 | Two claims of one job, triage row, recovery or watch never hold it at the same time |
| `NotificationRuns.OnlyTheLatestTokenActs` | server/services/notification_jobs.py:634-649 | Only the last token handed out for a resource passes an ownership test, however stale the claim |
| `NotificationRuns.TerminalJobsStay` | server/services/notification_jobs.py:402-450 | A terminal job row stays as it is while it is stored |
| `NotificationRuns.TerminalTriageStays` | server/services/notification_jobs.py:362-388 | A terminal triage row stays as it is while it is stored |
| `NotificationRuns.DeliveriesAreUnique` | server/services/notification_jobs.py:148-180 | While its row is retained, a Pub/Sub message is queued once |
| `NotificationRetention.DeadJobsWaitForTheOperator` | server/services/notification_jobs.py:564-584 | While a dead-lettered job is stored, its mailbox is in `manual_required` |
| `NotificationRetention.UnfinishedRowsAreKept` | server/services/retention.py:57-70 | No step deletes a job or triage row that is not terminal |
| `NotificationSafety.RunsKeepInv` | server/workers/mail_notifications.py:307-416 | The protocol invariant holds in every reachable state |
| `NotificationSafety.EveryStepLegal` | server/services/notification_jobs.py:183-725 | Every step moves recovery along its graph, freezes cursors outside idle, and leaves terminal rows alone |
| `NotificationSteps.ActKeepsInv` | server/workers/mail_notifications.py:185-416 | Each single step, run with whatever stale claim, keeps the invariant |
| `NotificationSteps.HistoryListedKeeps` | server/workers/mail_notifications.py:371-395 | A finished history scan leaves every addition up to its cursor done or to do |
| `NotificationSteps.SettleTriageKeeps` | server/workers/mail_notifications.py:212-248 | Finishing a triage call keeps the invariant even when its row was taken over |
| `NotificationSteps.FinishRecoveryKeeps` | server/services/notification_jobs.py:675-692 | Completing a recovery restarts coverage at the profile's history ID |
| `NotificationSteps.CompleteFromScan` | server/workers/mail_notifications.py:400-416 | The cursor argument of a finished scan covers everything above the stored cursor |
| `NotificationLeases.LeaseStepKeepsGrants` | server/services/notification_jobs.py:728-804 | Granting on a free resource and ending by token keep lease windows disjoint and stored tokens latest |
| `NotificationTransactions.ClaimJobKept` | server/services/notification_jobs.py:183-282 | Claiming grants a fresh lease on a free or expired row, or clears expired leases, and keeps the tables well formed |
| `NotificationTransactions.CompleteJobKept` | server/services/notification_jobs.py:402-450 | Completing acts only for the holder, ends its lease, and changes nobody else's |
| `NotificationTransactions.FailJobKept` | server/services/notification_jobs.py:469-534 | Failing acts only for the holder, ends its lease, and may start a recovery |
| `NotificationTransactions.ClaimResyncKept` | server/services/notification_jobs.py:587-631 | A recovery is leased only when due, and an expired lease is cleared with back-off |
| `NotificationTransactions.CompleteResyncKept` | server/services/notification_jobs.py:675-692 | Completing a recovery acts only for the holder of this generation's lease |
| `NotificationTransactions.CheckpointResyncKept` | server/services/notification_jobs.py:652-672 | A checkpoint below the limit keeps the recovery bounded and ends the lease |
| `NotificationTransactions.RequireManualKept` | server/services/notification_jobs.py:712-725 | Giving up a recovery acts only for the holder and keeps the tables well formed |
| `NotificationTransactions.ClaimTriageKept` | server/services/notification_jobs.py:304-359 | A triage row is created or re-leased only when free, due and not terminal |
| `NotificationTransactions.FinalizeTriageKept` | server/services/notification_jobs.py:362-388 | Finalizing acts only for the holder and ends its lease |
| `NotificationTransactions.ClaimWatchKept` | server/services/notification_jobs.py:728-752 | The watch is leased only when due and free |
| `NotificationTransactions.CompleteWatchKept` | server/services/notification_jobs.py:755-783 | Renewal acts only for the holder and keeps an existing cursor |
| `NotificationTransactions.PruneKept` | server/services/retention.py:57-70 | Retention removes no lease and changes no remaining row |
| `NotificationRows.RetryDelayDoubles` | server/services/notification_jobs.py:72-79 | Delays start at the minimum, double with each attempt, and stop at the maximum |
| `NotificationEffects.TerminalRowsAreReports` | server/services/notification_jobs.py:362-388 | Over every run: a stored terminal triage row carries the state, the summary (none for an absent or empty one, otherwise its first 4,000 characters) and the error of the call that finalized it |
| `NotificationEffects.FinalizedTriageReports` | server/services/notification_jobs.py:383-388 | The holder's finalization stores exactly that report and changes no other row |
| `NotificationEffects.EnqueueOutcomes` | server/services/notification_jobs.py:148-180 | A job is queued exactly for the configured, watched mailbox of the owner and a new Pub/Sub identifier, carries the envelope and can be claimed at once |
| `NotificationEffects.ClaimOutcomes` | server/services/notification_jobs.py:183-282 | A claim of a due job leases it; or backs off an expired lease, dead-letters it behind `manual_required`, or starts a recovery at the attempt limit; and from when on each row can be claimed next |
| `NotificationEffects.FailedJobIsRetried` | server/services/notification_jobs.py:469-534 | A failed job can be claimed again after its back-off, or at once together with a recovery in a new generation |
| `NotificationEffects.RequeuedJobIsDue` | server/services/notification_jobs.py:537-561 | A requeued job can be claimed exactly from the time asked for, or after its back-off |
| `NotificationEffects.DeadLetteredJobIsOver` | server/services/notification_jobs.py:564-584 | No claim ever finds a dead-lettered job |
| `NotificationEffects.CompletedJobIsOver` | server/services/notification_jobs.py:402-450 | A completed job is terminal without an error; one that lost its fence is retried after its back-off |
| `NotificationEffects.CheckpointResumes` | server/services/notification_jobs.py:652-672 | The next claim of a checkpointed recovery goes on from the stored page and count in the same generation, and can be made at once |
| `NotificationEffects.ReleaseResumes` | server/services/notification_jobs.py:695-709 | The next claim of a released recovery goes on from the same page and count, after its back-off |
| `NotificationEffects.LapsedRecoveryResumes` | server/services/notification_jobs.py:587-631 | A recovery whose lease ran out is handed back by the next claim and goes on from the same page and count after its back-off |
| `NotificationEffects.RecoveryEnds` | server/services/notification_jobs.py:675-725 | Neither a completed nor an abandoned recovery is claimed again |
| `NotificationEffects.RenewedWatchLasts` | server/services/notification_jobs.py:755-783 | A renewed watch is due again exactly when its new expiration comes near |
| `NotificationEffects.FailedWatchBacksOff` | server/services/notification_jobs.py:786-804 | A failed renewal is retried after its back-off, and not before the old watch comes near its expiration |
| `NotificationEffects.ReleasedTriageIsDue` | server/services/notification_jobs.py:853-871 | A released triage row can be claimed exactly from its back-off on |
| `NotificationEffects.ClaimedTriageIsLeased` | server/services/notification_jobs.py:304-359 | A claimed triage row can be claimed next when its lease runs out, and keeps the history ID it was first seen at |
| `NotificationEffects.PrunedExactly` | server/services/retention.py:57-70 | Retention deletes exactly the finished rows that are older than their cutoffs |
| `NotificationStore.Store.RetryDeadline` | server/services/notification_jobs.py:72-79 | The computed deadline is the back-off of the attempt |
| `NotificationStore.Store.EnqueueNotification` | server/services/notification_jobs.py:148-180 | New row, duplicate, missing baseline, wrong mailbox or wrong owner, as the transaction function says |
| `NotificationStore.Store.ClaimNotificationJob` | server/services/notification_jobs.py:183-282 | The claim's new tables and result, branch by branch |
| `NotificationStore.Store.CompleteJobAndAdvanceCursor` | server/services/notification_jobs.py:402-450 | New tables and result of the completion |
| `NotificationStore.Store.StartResyncLocked` | server/services/notification_jobs.py:453-466 | The mailbox row of a started recovery |
| `NotificationStore.Store.Fail` | server/services/notification_jobs.py:469-534 | New tables of a failed job |
| `NotificationStore.Store.FailHeld` | server/services/notification_jobs.py:497-534 | The rewritten job and mailbox rows under their locks |
| `NotificationStore.Store.Requeue` | server/services/notification_jobs.py:537-561 | New tables of a requeued job |
| `NotificationRows.FailRows` | server/services/notification_jobs.py:502-533 | With a mailbox row, a failed job goes back to pending whatever was asked: its dead-letter branch cannot be reached |
| `NotificationStore.Store.DeadLetter` | server/services/notification_jobs.py:564-584 | New tables of a dead-lettered job |
| `NotificationStore.Store.ClaimTriageWork` | server/services/notification_jobs.py:304-359 | New tables and claim of a triage lease |
| `NotificationStore.Store.FinalizeTriageWork` | server/services/notification_jobs.py:362-388 | New tables of a finalized triage row |
| `NotificationStore.Store.ReleaseTriageWork` | server/services/notification_jobs.py:853-871 | New tables of a released triage row |
| `NotificationStore.Store.ClaimMailboxResync` | server/services/notification_jobs.py:587-631 | New tables and claim of a recovery lease |
| `NotificationStore.Store.CheckpointBoundedResync` | server/services/notification_jobs.py:652-672 | New tables and result of a checkpoint |
| `NotificationStore.Store.CompleteBoundedResync` | server/services/notification_jobs.py:675-692 | New tables and result of a completed recovery |
| `NotificationStore.Store.ReleaseMailboxResync` | server/services/notification_jobs.py:695-709 | New tables and result of a released recovery |
| `NotificationStore.Store.RequireManualResync` | server/services/notification_jobs.py:712-725 | New tables and result of an abandoned recovery |
| `NotificationStore.Store.ClaimWatchRenewal` | server/services/notification_jobs.py:728-752 | New tables and token of a watch lease |
| `NotificationStore.Store.CompleteWatchRenewal` | server/services/notification_jobs.py:755-783 | New tables and result of a renewed watch |
| `NotificationStore.Store.FailWatchRenewal` | server/services/notification_jobs.py:786-804 | New tables of a failed renewal |
| `NotificationStore.Store.DeleteRetained` | server/services/retention.py:57-70 | Deletes exactly the terminal rows older than the cutoffs and counts them |
| `HistoryScan.HistoryMessageIds` | server/workers/mail_notifications.py:134-182 | The paged loop returns the distinct message IDs in order and the highest cursor, or the limit error, exactly as the whole chain of pages determines |
| `HistoryScan.TakeHistory` | server/workers/mail_notifications.py:151-177 | One response contributes its IDs and cursors, or overflows the limit |
| `HistoryScan.TakeAdded` | server/workers/mail_notifications.py:163-177 | One `messagesAdded` list contributes its new usable IDs, or overflows the limit |
| `HistoryScan.StoppedAt` | server/workers/mail_notifications.py:166-181 | Stopping early at a limit is the same answer as reading the whole chain |
| `HistoryScan.ScanIsExact` | server/workers/mail_notifications.py:134-182 | A successful scan lists exactly the usable message IDs of its pages, each once, and its cursor is the greatest history ID met |
| `ActionTheorems.AtMostOneDispatch` | server/services/pending_actions.py:463-527 | Over every run: at most one attempt, one execution and one dispatch per action |
| `ActionTheorems.ExecutionWasApproved` | server/routes/agent_router.py:172-192 | Execution is entered only by the handler whose earlier approval committed: by the owner, before `expires_at`, with the approved payload matching its hash |
| `ActionTheorems.VerdictsAreSound` | server/services/pending_actions.py:530-743 | A stored `succeeded`, whoever decided it, stands from then on for an accepted write of its command, or for another task that shows its marker; an executor's `succeeded` stands for its own write and its `failed` for none |
| `ActionTheorems.LookupsAreRightIff` | server/services/action_handlers.py:285-369 | For mails, events and tasks: every lookup that finds is right about this action if and only if its write was accepted or nothing else in the account resembles it |
| `ActionTheorems.DoublesAreDeleted` | server/services/pending_actions.py:661-743 | Other than for tasks, what resembles the write of a stored action is the accepted write of an earlier action of its command, which is no longer stored |
| `ActionTheorems.SuccessIsOwn` | server/services/pending_actions.py:661-743 | Other than for tasks, a stored success stands for the action's own accepted write, or for that of such an earlier action |
| `ActionRaces.SuccessCanBeAnOlderWrite` | server/services/pending_actions.py:700-743 | From every initial state a run leads to a mail stored as succeeded whose own write was never sent and never will be |
| `ActionTheorems.TaskSuccessIsRightIff` | server/services/action_handlers.py:351-407 | Every task scan that finds is right if and only if the write was performed or no other task in the account shows the marker |
| `ActionTheorems.StrayTasksQuoteTheMarker` | server/services/action_handlers.py:222-226 | Such another task was written outside OneBox, or its own approved notes quote the marker |
| `ActionRaces.TaskSuccessCanBeWrong` | server/services/action_handlers.py:398-407 | From every initial state a run leads to a task stored as succeeded whose write was never sent |
| `ActionTheorems.KeysAreValid` | server/services/pending_actions.py:66-79 | Every stored or approved action has a well-formed command key |
| `ActionTheorems.FailureIsFinalIff` | server/services/pending_actions.py:700-729 | A closed action can no longer be accepted exactly if no handler is still to send, nothing is under way and nothing was accepted |
| `ActionRaces.OperatorFailureCanBeWrong` | server/services/pending_actions.py:700-729 | A run in which an operator's `failed` is stored while the write is in flight, and the write can still be accepted |
| `ActionTheorems.AuditReplaysStatus` | server/services/pending_actions.py:125-147 | The audit log starts at pending, is a chain along the status graph, ends at the stored status, repeats a status only on reconciliation_required, and enters processing only by its first event |
| `ActionTheorems.ResolvedStays` | server/services/pending_actions.py:530-590 | A resolved action keeps its verdict until it is deleted |
| `ActionTheorems.UnresolvedIsKept` | server/services/retention.py:44-56 | Pending, processing and reconciliation_required actions are never deleted |
| `ActionTheorems.OutcomesAreNotOverwritten` | server/services/pending_actions.py:543-588 | A late or stale finalizer resolves nothing; only reconciliation leaves reconciliation_required |
| `ActionTheorems.EveryStepIsLawful` | server/services/pending_actions.py:436-743 | Every step moves statuses along the graph, deletes only resolved rows, and keeps the command |
| `ActionTheorems.CommandsAreUnique` | server/services/pending_actions.py:192-254 | At most one stored action per owner and command key |
| `ActionTheorems.RetryFindsTheAction` | server/services/pending_actions.py:213-224 | Repeating a command finds its action; another payload under the same key is refused; nothing is stored |
| `ActionTheorems.StagedIsIntactIff` | server/services/pending_actions.py:150-154 | A staged action passes the hash check if and only if folding left its addresses within their limit |
| `ActionTheorems.UneditedStaysIntact` | server/services/pending_actions.py:150-154 | It keeps passing the check as long as nobody edits its payload |
| `ActionTheorems.GrantsWereCommitted` | server/services/pending_actions.py:463-527 | Every recorded claim goes back to an approval step of the run |
| `ActionTheorems.MarksCount` | server/services/action_handlers.py:88-199 | Executions and dispatches are counted by what the provider has seen |
| `ActionTheorems.SendsAreTheTrace` | server/services/action_handlers.py:88-231 | When an execution ends, its write was sent as often as its call trace holds a marked call |
| `ActionEffects.ConclusionsHaveGrounds` | server/services/pending_actions.py:530-743 | Over every run: the result and error of a stored success or failure are those of an earlier step of a handler of this action: a lookup that showed the command's own artifact or its absence, an execution whose marked write was answered with that ID or refused, or a refusal before any write |
| `ActionEffects.OperatorFailuresAreAbsences` | server/services/action_handlers.py:271-279 | Over every run: an operator's `failed` goes back to a lookup of this action whose search was answered without a match, or to which the provider said 404 |
| `ActionEffects.RejectedIsNeverEntered` | server/services/pending_actions.py:436-460 | Over every run: once the owner has rejected a pending action, its execution is entered and its write sent nowhere in the run, and the action stays rejected while it is stored |
| `ActionEffects.RejectedExactly` | server/services/pending_actions.py:436-460 | A pending action becomes rejected with exactly one event, and the owner is told the stored row; a repeated rejection changes nothing, any other is refused |
| `ActionEffects.ClaimedExactly` | server/services/pending_actions.py:463-527 | An approval starts the first attempt exactly for a pending, unexpired, intact action; expiry, a lapsed lease and an altered payload are stored with one event each; the owner is told the stored row |
| `ActionEffects.FinalizedExactly` | server/services/pending_actions.py:530-590 | A finalizer changes only the attempt of its token: within the lease it stores the status, result and error asked for with one event, after it the outcome is unknown |
| `ActionEffects.OpenedExactly` | server/services/pending_actions.py:671-691 | An operator takes up exactly the actions of unknown outcome and of lapsed lease, and is told the stored row |
| `ActionEffects.ReconciledExactly` | server/services/pending_actions.py:700-743 | The operator's verdict is stored with one event while the outcome is unknown, and otherwise nothing is |
| `ActionEffects.UnknownIsRefused` | server/services/pending_actions.py:540-557 | Unknown and foreign actions, and attempts without a token, are refused and nothing changes |
| `ActionEffects.StagedExactly` | server/services/pending_actions.py:192-237 | A new command is stored canonical, pending and unattempted for 15 minutes with an empty log; anything else is refused |
| `ActionEffects.CleanedExactly` | server/services/retention.py:38-70 | A clean-up expires exactly the unlocked pending actions past their expiry and deletes exactly the actions resolved before the retention period, with their events |
| `ActionSafety.ActKeepsInv` | server/services/pending_actions.py:192-743 | Each single step keeps the invariant |
| `ActionSafety.FoundIsEvidence` | server/services/action_handlers.py:234-407 | What any lookup declares found, from truthful pages, is an artifact in the owner's account that carries the command's marker |
| `ActionSafety.ReplayIsChained` | server/services/pending_actions.py:125-147 | Replaying the log and its event-by-event description agree |
| `ActionSafety.OutcomeIsSound` | server/services/pending_actions.py:605-658 | An executor asks for success only with an accepted write and for failure only with one that was not |
| `ActionSafety.ClaimShape` | server/services/pending_actions.py:505-527 | A claim that returns True records the first attempt of a pending, owned, unexpired, intact row under a fresh token |
| `ActionStore.Store.CreatePendingAction` | server/services/pending_actions.py:192-254 | New tables and result of staging a command |
| `ActionStore.Store.RejectPendingAction` | server/services/pending_actions.py:436-460 | New tables and result of a rejection |
| `ActionStore.Store.ClaimPendingAction` | server/services/pending_actions.py:463-527 | New tables and result of an approval, branch by branch |
| `ActionStore.Store.FinalizeClaimedAction` | server/services/pending_actions.py:530-590 | New tables and result of a finalization |
| `ActionStore.Store.MarkReconciliationRequired` | server/services/pending_actions.py:164-189 | New row and audit event of an unknown outcome |
| `ActionStore.Store.PromoteForReconciliation` | server/services/pending_actions.py:671-691 | New tables and result of opening a reconciliation |
| `ActionStore.Store.SettleReconciliation` | server/services/pending_actions.py:700-743 | New tables and result of a reconciliation verdict |
| `ActionStore.Store.StaleBatch` | server/services/pending_actions.py:348-354 | The batch holds distinct stale unlocked rows, the earliest to expire, all of them if fewer than the limit |
| `ActionStore.Store.ExpireStaleActions` | server/services/pending_actions.py:336-373 | Whatever others lock at each batch, the loop expires exactly the stale rows but those locked at its last batch, with one audit event each, and returns their number |
| `ActionStore.Store.CleanupRetainedRecords` | server/services/retention.py:34-56 | After such a sweep, exactly the resolved rows older than the cutoff are deleted, with their audit events |
| `ActionHandlers.ExecuteAction` | server/services/action_handlers.py:88-199 | Outcome and provider calls of one execution |
| `ActionHandlers.CreateTaskSync` | server/services/action_handlers.py:202-231 | Outcome and provider calls of creating a task |
| `ActionHandlers.OneMarkedWrite` | server/services/action_handlers.py:88-231 | At most one marked write is issued, as the last call |
| `ActionHandlers.VerdictsAreSound` | server/services/action_handlers.py:186-199 | A reported success is an accepted write; a confirmed failure is one that was not accepted |
| `ActionHandlers.ReconcileAction` | server/services/action_handlers.py:234-407 | Each kind's lookup gives the verdict determined by everything the provider holds for it |
| `ActionHandlers.FoundCarriesMarker` | server/services/action_handlers.py:285-369 | A found message bears the command's marker, the payload's recipient and, for a reply, its thread; a found event bears the marker; a found task is one of the scanned tasks whose notes contain it |
| `ActionHandlers.ReconcileGmail` | server/services/action_handlers.py:285-333 | The paging lookup gives the verdict determined by all pages: conflict, absence, mismatch or the single exact match |
| `ActionHandlers.FoundIsExact` | server/services/action_handlers.py:313-333 | A found message is the only match and has the command's marker and Message-ID, the payload's recipient and, for a reply, its thread |
| `ActionHandlers.ListAll` | server/services/action_handlers.py:372-395 | The paging loop returns all items in order, or the failure it met |
| `ActionHandlers.ScanTaskMarker` | server/services/action_handlers.py:398-407 | The nested scan returns exactly the marked tasks of all lists with an ID, or the first failure |
| `ActionHandlers.MatchingBears` | server/services/action_handlers.py:398-407 | The matches are the tasks whose notes contain the marker |
| `ActionHandlers.TasksAreNeverDeclaredAbsent` | server/services/action_handlers.py:351-369 | A task command is never failed by reconciliation, and found exactly on a unique match |
| `ActionHandlers.CreatedTaskIsFound` | server/services/action_handlers.py:222-226 | The notes of a created task contain its marker |
| `ActionHandlers.MarkersDoNotClash` | server/services/action_handlers.py:76-77 | They contain another command's marker only if the approved notes already did |
| `ActionVerdicts.NotFoundIff` | server/services/action_handlers.py:271-312 | A lookup declares a mail or an event absent exactly if its search was answered without a match, or the deciding call was a 404; never a task, and never after an outage |
| `ActionVerdicts.FoundIff` | server/services/action_handlers.py:285-369 | It declares an artifact found exactly if the provider showed a single one that is the command's own, and answers its ID |
| `ActionVerdicts.MarkedCallIs` | server/services/action_handlers.py:88-231 | The marked call is the kind's own, made exactly for a canonical payload and a reachable provider; a task goes to the only list of the reserved title, or to the one created because there was none |
| `ActionVerdicts.OutcomeIs` | server/services/action_handlers.py:88-199 | A success is an answer with an ID to the marked call; a confirmed failure is a rejection of it, except a Calendar conflict, or a refusal before it |
| `ActionVerdicts.ItemsAreAt` | server/services/action_handlers.py:372-395 | The items of a listing are those of its pages in order |
| `ActionPayloads.CanonicalizeIsIdempotentIff` | server/action_payloads.py:188-199 | Canonicalizing a canonical payload gives it back, for all four action types, exactly if every folded address is within its limit, and refuses it otherwise |
| `ActionPayloads.FoldingCanBreakIt` | server/action_payloads.py:35-43 | A mail that is accepted, and refused when canonicalized again |
| `ActionPayloads.AttendeesFixed` | server/action_payloads.py:147-153 | Stored attendees are ascending, free of duplicates, exactly the canonical forms supplied, and a fixed point exactly if all are within the limit |
| `ActionPayloads.SortedSetSorts` | server/action_payloads.py:150-150 | The sorted set is strictly ascending with the same elements |
| `ActionPayloads.EmailFixed` | server/action_payloads.py:35-43 | A canonical address is canonical again exactly if folding left it within the limit |
| `ActionFields.CanonicalFields` | server/action_payloads.py:58-199 | For all four action types: a payload is accepted exactly if it keeps the rule of every field of its type; and then exactly those fields are stored, each made from the field of the same name |
| `ActionListing.FollowingTokensListsEverything` | server/services/pending_actions.py:376-432 | Following the page tokens from the start gives exactly the sorted list of the owner's actions, in the expected number of pages |
| `ActionListing.PagesAreTheSortedList` | server/services/pending_actions.py:391-432 | From any position: every remaining row exactly once, newest first |
| `ActionListing.PageCountIsCeiling` | server/services/pending_actions.py:404-405 | The number of pages is the number of rows divided by the limit, rounded up |
| `ActionListing.NewerRowsChangeNothing` | server/services/pending_actions.py:383-389 | Rows newer than the position do not change the remaining pages |
| `ActionListing.ChangingTablesAreListed` | server/services/pending_actions.py:376-432 | Following the tokens while rows come, go and change status: no row twice, all in order, none that did not match, and at the end every row that matched throughout |
| `ActionListing.ShiftingPagesAreSound` | server/services/pending_actions.py:391-432 | The same from any position, for any sequence of matching sets |
| `ActionListing.ListingStaysWithOwner` | server/services/pending_actions.py:391-397 | No token widens the owner or status filter, no page exceeds the limit, and an item tells its row's creation time and whether it is pending past its expiry |
| `ActionListing.DescendingSorts` | server/services/pending_actions.py:404-404 | The list is strictly descending and holds exactly the matching rows |
| `PageTokens.TokensRoundTrip` | server/pagination.py:15-33 | A token decodes to the position it was made from and carries no padding |
| `PageTokens.AcceptedTokens` | server/pagination.py:21-33 | A token is accepted exactly if it is base64url of a JSON object that names an instant with a time zone and an ID, and stands for these |
| `Base64Url.RoundTrip` | server/pagination.py:18-24 | Unpadded base64url is read back by the strict and by the lenient decoder |
| `Base64Url.BodiesAreBounded` | server/mail/mime.py:160-176 | For every text: a body comes back exactly if it decodes strictly to between one and `max_bytes` bytes; the early length check costs nothing |
| `ProviderRunner.SlotsAreConserved` | server/integrations/provider.py:50-107 | Free, held and lost slots add up to `max_workers`; without a shutdown none is lost |
| `ProviderRunner.OneThreadPerResource` | server/integrations/google.py:287-315 | At most one operation is under way on a resource, even after its caller left |
| `ProviderRunner.ThreadsAreBounded` | server/integrations/provider.py:37-47 | No more operations are under way than there are slots |
| `ProviderRunner.ReleasedExactlyOnce` | server/integrations/provider.py:92-107 | Slot and lock of a finished call were released exactly once, by the caller or by the done-callback |
| `ProviderRunner.NothingLeaks` | server/integrations/provider.py:92-107 | When all calls are over everything is free again |
| `ProviderRunner.LostIffAdmittedAfterClose` | server/integrations/provider.py:77-91 | The calls that lose their slot are exactly those granted one after the shutdown |
| `ProviderRunner.NoSlotMissingIff` | server/integrations/provider.py:50-114 | Free and held slots add up to `max_workers` if and only if no call was granted one after the shutdown |
| `ProviderRunner.ShutdownLosesTheSlot` | server/integrations/provider.py:68-91 | From every initial state a run ends with every call over and a slot missing |
| `ProviderRunner.Runner.Admitted` | server/integrations/provider.py:77-91 | State after a slot was granted |
| `ProviderRunner.Runner.StopAwaiting` | server/integrations/provider.py:92-107 | State after the caller stops waiting |
| `ProviderRunner.Runner.ReleaseWhenFinished` | server/integrations/provider.py:102-105 | State after the done-callback |
| `ProviderRunner.Runner.Finally` | server/integrations/google.py:313-315 | State after the caller's own release of the lock |
| `RetryPolicy.RunRetryable` | server/integrations/google.py:326-374 | Attempts, waits and result are exact: within attempts and deadline, retrying what may be retried and nothing else; an ambiguous write is dispatched once |
| `RetryPolicy.RetriedFailures` | server/integrations/google.py:99-120 | Exactly deadline, capacity, transport, 429, 5xx and quota failures are retried |
| `RetryPolicy.AmbiguousIsNeverRetried` | server/integrations/google.py:105-108 | No failure of an ambiguous write is retried |
| `RetryPolicy.DelayBounds` | server/integrations/google.py:123-135 | A delay is at least Retry-After (section 10.2.3 of RFC 9110) and otherwise within the cap |
| `RetryPolicy.DelaysDouble` | server/integrations/google.py:123-135 | The backoff starts at the initial delay and doubles with each attempt up to the cap; a delay is its random part or Retry-After, whichever is longer |
| `RetryPolicy.RetryAfterIsPassedOn` | server/integrations/google.py:99-120 | Every failure that is retried carries the Retry-After of its response |
| `MimeWalk.WalkParts` | server/mail/mime.py:179-203 | Exactly the objects among the first 512 nodes of the preorder cut at depth 32 |
| `MimeWalk.ExtractMailContent` | server/mail/mime.py:206-233 | The first decodable plain body, otherwise the first HTML body as the sanitizer of module `Sanitizer` renders it |
| `MimeWalk.GetEmailBody` | server/mail/inbound.py:96-149 | The first nonempty text leaf or the first malformed node of the same bounded preorder |
| `MimeWalk.LeafBody` | server/mail/inbound.py:127-148 | What one leaf contributes |
| `MimeWalk.VisitsNext` | server/mail/mime.py:184-203 | One pass of the stack loop takes the next node of the preorder |
| `MimeWalk.FirstBodyIs` | server/mail/mime.py:206-222 | The body chosen for a type is the one that precedes every other decodable body of that type |
| `MimeWalk.FirstVerdictIs` | server/mail/inbound.py:107-149 | The node that decides precedes every other node that says something |
| `SanitizerTheorems.OutputIsWellNested` | server/mail/mime.py:98-157 | For every event sequence the output is a well-nested word over the allowlist |
| `SanitizerTheorems.OutputTextIsVisible` | server/mail/mime.py:98-149 | Its text is exactly the text outside dropped elements |
| `SanitizerTheorems.SanitizedLinks` | server/mail/mime.py:89-120 | Every link of the output is nonempty and safe |
| `SanitizerTheorems.SanitizeIsIdempotent` | server/mail/mime.py:98-157 | Sanitizing the output again, in whatever pieces its text is reported, gives the same document |
| `SanitizerTheorems.RenderingIsOfAtoms` | server/mail/mime.py:151-154 | The rendered string depends only on tags and characters, not on text pieces |
| `SanitizerOutput.OutputIsVisibleContent` | server/mail/mime.py:98-149 | Start tags and text of the output are exactly the allowlisted start tags and the text outside dropped elements, in their order |
| `SanitizerOutput.LinkIs` | server/mail/mime.py:111-118 | A link is kept exactly on `a`, with the first nonempty target named, if that is safe |
| `SanitizerOutput.ElementsAfter` | server/mail/mime.py:119-143 | A start tag opens its element, an end tag closes the innermost open element of its name with everything inside it, and nothing else opens or closes anything |
| `SanitizerOutput.TextIs` | server/mail/mime.py:119-157 | The plain text is the visible text with a line break at each start and each effective end of a breaking element |
| `Markup.RenderedIsReadBack` | server/mail/mime.py:112-154 | A reader of markup gets back from the rendered string exactly the tags, links and characters put in |
| `Markup.RenderedIsHarmless` | server/mail/mime.py:112-154 | Whatever the mail, the rendered string reads as allowlisted tags without attributes, safe links, and the visible text, and nothing else |
| `Markup.SanitizedMail` | server/mail/mime.py:224-233 | For a mail with an HTML body alone: HTML is given exactly if something of it is visible, it reads as harmless markup and the visible text, and the body is the plain text without white space at its ends |
| `Markup.RenderedIsAFixedPoint` | server/mail/mime.py:98-157 | Parsing and sanitizing the rendered string gives the same string |
| `Markup.UnescapeUndoesEscape` | server/mail/mime.py:115-148 | Unescaping gives the escaped text back |
| `Markup.EscapedIsInert` | server/mail/mime.py:115-148 | Escaped text holds no angle bracket, and an escaped link target no quote |
| `Sanitizer.StrictHtmlSanitizer.HandleStartTag` | server/mail/mime.py:98-122 | State after a start tag |
| `Sanitizer.StrictHtmlSanitizer.HandleEndTag` | server/mail/mime.py:129-143 | The closing loop closes the innermost elements up to the named one |
| `Sanitizer.StrictHtmlSanitizer.HandleStartEndTag` | server/mail/mime.py:124-127 | State after a self-closing tag |
| `Sanitizer.StrictHtmlSanitizer.HandleData` | server/mail/mime.py:145-149 | State after text |
| `Sanitizer.StrictHtmlSanitizer.Feed` | server/mail/mime.py:229-231 | State after all events |
| `Sanitizer.StrictHtmlSanitizer.RenderedHtml` | server/mail/mime.py:151-154 | The output with everything still open closed, innermost first |
| `MailCache.AnswersAreFresh` | server/redis_cache.py:60-98 | A request that read the generation after a mutation's increment never answers with older content, whatever else is lost or fails |
| `MailCache.RunsKeepInv` | server/routes/google_mail.py:52-66 | Everything stored under a generation shows at least the mutations that led to it |
| `MailCache.FloorIsPublished` | server/redis_cache.py:83-98 | The current generation promises exactly the newest published mutation |
| `MailCache.ReadIsFreshIff` | server/redis_cache.py:60-80 | A request that read the generation, or fell back to 0, never answers below the newest published mutation if and only if no entry and no fetch under way for its view is older under that generation |
| `MailCache.CheckedReadIsFresh` | server/redis_cache.py:60-74 | It never does after a successful read, or while the counter was never advanced |
| `MailCache.StaleAnswersAreReachable` | server/redis_cache.py:72-74 | From every initial state a run leads to an answer older than a published mutation |
| `MailCache.Cache.Key` | server/redis_cache.py:60-80 | The protocol's read of the generation; after a successful one the request will never answer below the newest published mutation |
| `MailCache.Cache.Get` | server/redis_cache.py:38-47 | The protocol's lookup; a hit shows at least what the generation of the key promises |
| `MailCache.Cache.Set` | server/redis_cache.py:27-35 | The protocol's store; the new entry keeps the promise of its generation, and a failure stores nothing |
| `MailCache.Cache.Invalidate` | server/redis_cache.py:83-98 | The protocol's increment; no stored entry belongs to the new generation, which promises the mutation |

## Left out

- NotificationTheorems.HistoryIsCovered: coverage starts again at each completed recovery; what came before is `NotificationCoverage.EveryMessageIsAccountedFor`.
- ActionStore.Store.StaleBatch: rows of equal expiry are ordered arbitrarily.
- ActionStore.Store.CreatePendingAction: the lookup, the insertion and the handling of a unique-index conflict are one step; the summary text and the legacy idempotency column are not stored.
- ActionStore.Store.MarkReconciliationRequired: the evidence dictionary is not stored.
- ActionTheorems.VerdictsAreSound: evidence dictionaries of rows and events are not modelled, and the effect of a command is one marked write; creating the task list before a task is unmarked.
- HistoryScan.HistoryMessageIds: a provider failure in mid-scan is a separate step of the protocol.
- RetryPolicy.RunRetryable: cancellation while sleeping and non-finite Retry-After values are not modelled.
- ProviderRunner.OneThreadPerResource: one runner instance; `close_google_adapter` also forgets the resource locks, so a call that outlives the shutdown may meet one of the next runner.
- ProviderRunner.Runner.Admitted: fairness of the event loop, and the weak dictionary that forgets the lock of a collected resource, are not modelled.
- MailCache.AnswersAreFresh: one user's cache, and the counter itself is never evicted.
- Markup.Parse: reads text with the references that `html.escape` writes and tags with double-quoted attributes; the HTML tokenizer, which also reads other markup, is outside the model.
- MimeWalk.ExtractMailContent: the HTML tokenizer is a parameter.
- MimeWalk.WalkParts: a generator is modelled as the list of everything it yields.
- The drivers `process_notification_job`, `_triage_message`, `_bounded_resync`, `execute_claimed_action` and the mail route handlers are steps of the state machines, not methods: their point is what other workers do between their calls.
- Which due job SKIP LOCKED picks first: any due job may be claimed.
- A commit whose acknowledgement is lost: a transaction either happens and is reported or does not happen.
- Envelope parsing, watch response parsing, heartbeats and status reports: easy members.
- Reply-target resolution, action summaries and the response dictionaries.
- Message content, prompts, Gemini calls and the agent's mutation budget.
- Header, label, date and recipient parsing beyond the body walk (`extract_email_content`), and the inbound skip policy (`should_process_email`): easy members.
- JWT and Pub/Sub verification, OAuth exchange, encryption, settings validation, logging and readiness.
- SQLAlchemy, PostgreSQL, Redis and Google SDK internals.
- Leaving `manual_required`, which is done by hand in the database.
