# Verification of the ACMP back end

This project models the state machines and text transformations of the ACMP API (a NestJS service over PostgreSQL)
and proves what they promise, for every input, every run and every interleaving. It needs nothing but Dafny:
`dafny verify dfyconfig.toml` checks all of it.

| file | what it models |
|---|---|
| `BriefEvents.dfy` | the `brief_events` row, schedule validation and the three writers that change it |
| `InvitationSync.dfy` | one synchronisation of an event as a function of the rows, the recipients and the fate of every write and send |
| `InvitationLaws.dfy`, `InvitationRuns.dfy` | what every synchronisation keeps, and what whole histories promise |
| `InvitationForgotten.dfy` | which events a synchronisation that dies can make the cron job forget |
| `InvitationMail.dfy` | what each address and each downloaded file shows |
| `InvitationSends.dfy`, `InvitationNotes.dfy` | exactly which messages one synchronisation sends, what it leaves behind and notes, whom it invites, and how long the cron job looks |
| `InvitationWorker.dfy` | the worker in place: row tables, loops and the stored event, proved equal to `InvitationSync` |
| `ZoomHost.dfy` | bookings of the shared Zoom host under interleaved transactions |
| `Bookings.dfy`, `BookingRuns.dfy` | the session trigger under interleaved transactions with row locks, and what it answers there |
| `Integrity.dfy`, `CohortGroups.dfy` | the capacity and group triggers over seven tables, and the service's view of group names |
| `IntegrityVerdicts.dfy` | the exact verdict of each trigger in terms of the table after the write, and which partners that keeps in order |
| `SqlSplitter.dfy`, `SqlPieces.dfy`, `TextTools.dfy` | the SQL statement splitter against a recursive lexer, and against what statements are made of |
| `CalendarText.dfy`, `CalendarOctets.dfy` | the iCalendar printer against the reading rules of RFC 5545, in octets as RFC 3629 writes them |
| `EvaluationJobs.dfy` | workers, cancellations and enqueues of one evaluation job, interleaved |
| `Transactions.dfy` | nested transactional calls with effects after commit |
| `BriefLifecycle.dfy` | brief statuses, vertical counts and the revision history |
| `BriefVerdicts.dfy` | the exact verdict and outcome of each brief operation, and what a decision means over a history |
| `BriefStatements.dfy`, `BriefAlone.dfy` | the brief operations statement by statement: interleaved, on one brief too, and cut off anywhere; and uninterrupted |
| `BriefCounts.dfy`, `BriefRevisions.dfy` | how far the vertical counts are from the truth, and when a brief's history is complete, under all of that |
| `Rubric.dfy` | rubric scoring and the weighted final score |
| `ChatPaging.dfy` | cursor paging of chat messages |

Every database write and external call of a synchronisation draws one of four fates: it is done, it is refused, it
takes effect although the caller sees an error, or the process dies before it. Sent messages go to a log that only
the statements read. Concurrency is modelled as state machines whose steps interleave freely; a lock is held until
its transaction ends, and a check made after taking a lock sees every committed row.

## What turned out not to hold

Each of these is kept as the code has it and pinned down by a member below.

- A synchronisation that dies can leave work that nothing looks for again a day after the event.
  `InvitationForgotten.ForgottenExactly` says for which events, from their stored rows alone;
  `InvitationRuns.DeadSyncCanForget` is the plainest case.
- A calendar file downloaded between an edit and the next synchronisation carries the old SEQUENCE with new contents
  (`InvitationRuns.DownloadAgrees` says exactly when it agrees with the mail, `InvitationMail.EditedDownloadDisagrees`
  gives the runs). A file downloaded before the participant has a row carries the event's revision as its SEQUENCE, so
  their first mail loses against it (`InvitationMail.FirstMailLosesToDownload`, `InvitationMail.StaleDownloadStays`).
- When a participant's e-mail address changes, the old address keeps its REQUEST for ever
  (`InvitationMail.OldAddressKeepsItsRequest`; `InvitationMail.CalendarOfAddress` is the exact law).
- The rows of a participant and of a host, or of two participants, at one address share one calendar entry but count
  their SEQUENCE each on its own, so the wrong one can win (`InvitationMail.NewHostLosesToWithdrawal`;
  `InvitationMail.SharedCalendar` is the exact condition).
- Group triggers return early on soft-deleted rows, so restoring a team or participant can break the group agreement
  (`Integrity.RestoreCanDisagree`; `RestoringTeam` and `RestoringParticipant` give the exact condition).
- A group name the database accepts need not resolve, because the trigger strips spaces only
  (`CohortGroups.StoredNameResolvesIf`).
- A session entering as completed skips the three-session count (`Bookings.CompletedRowSkipsTheCount`).
- Lowering the cap of a brief, a mentor or a cohort, and moving a team to another cohort, are never checked against what
  is already there (`Integrity.CapsKeptExactly` and `Integrity.CapsHoldExactly` give the exact condition).
- `enqueue` and `retryFailedJob` write the job row without looking at the status they overwrite, and can revive a
  cancelled job (`EvaluationJobs.FailedEnqueueRevives`). A cancellation is final exactly when no retry or hand-over to
  the queue is under way when it commits (`EvaluationJobs.CancellationIsFinal`).
- A second delivery takes a completed job back, and it can then be cancelled with its evaluation written
  (`EvaluationJobs.CompletedCanBeCancelled`; `EvaluationJobs.CompletionIsFinal` says when a completion stands).
- Effects registered by a nested call whose failure is caught still run after the commit
  (`Transactions.CaughtFailuresStillRunEffects`).
- A staff edit or restore that moves a counted brief to another vertical leaves both counts wrong
  (`BriefLifecycle.StaffEditConserves`).
- A restore cannot always be undone: the brief's old vertical may be full by then (`BriefLifecycle.RestoreCanBeFinal`;
  `BriefLifecycle.RestoreUndoes` gives the exact condition).
- Brief, count and revision are written one after the other outside a transaction, and nothing locks the brief. An
  operation cut off in between leaves a count too low or a version without its revision for ever
  (`BriefCounts.CountStaysShort`, `BriefRevisions.VersionsAreAccounted`). Two submissions that both read the draft
  count it twice (`BriefCounts.DoubleSubmissionCountsTwice`; `BriefCounts.CountsAddUp` is the exact law), and two updates
  that both read one version leave two revisions of the next (`BriefRevisions.OverlappingUpdatesClash`;
  `BriefRevisions.HistoryStandsExactly` is the exact condition). Submissions that race for a vertical's last place overrun
  its cap (`BriefCounts.RacingSubmissionsOverrun`; `BriefCounts.OverrunExactly` is the exact condition).
- `isOnlyComments` can drop a statement that has code (`SqlSplitter.CodeCanBeDropped`);
  `SqlSplitter.CommentTestIsRight` says exactly when it judges rightly.
- Messages sent in the same millisecond as a page's oldest message are skipped by the next page
  (`ChatPaging.NextPageContinues`), and `after` shows its own message again whenever the timestamp has a fraction of a
  millisecond (`ChatPaging.CursorsSplitHistory`).

## Model

| member | source | states |
|---|---|---|
| `BriefEvents.ValidateSchedule` | apps/api/src/modules/brief-events/brief-events.service.ts:78-86 | a schedule is accepted exactly when it lies in the future, is well formed and lasts 15 to 480 minutes; its end is then the start plus the asked minutes; every refusal is a bad request |
| `BriefEvents.Edited` | apps/api/src/modules/brief-events/brief-events.service.ts:161-174 | an edit is accepted exactly when the event is scheduled, the schedule valid and the host free; it then has the asked start and duration with the matching end, the next revision, and keeps its host |
| `BriefEvents.CancelledBy` | apps/api/src/modules/brief-events/brief-events.service.ts:178-187 | the result is cancelled with the next revision and otherwise unchanged; an event already cancelled stays as it is |
| `InvitationLaws.RestampKeeps` | apps/api/src/modules/brief-events/brief-events.service.ts:287-296 | restamping a stale row keeps all table laws: one row per key, counters in range, every sent message explained by its row, no two messages in conflict |
| `InvitationLaws.SendKeeps` | apps/api/src/modules/brief-events/brief-events.service.ts:345-357 | sending what an up-to-date row says agrees with every earlier message under the same SEQUENCE |
| `InvitationLaws.AddKeeps` | apps/api/src/modules/brief-events/brief-events.service.ts:298-300 | inviting a newcomer keeps all table laws |
| `InvitationLaws.ReconcileLaw` | apps/api/src/modules/brief-events/brief-events.service.ts:287-297 | whatever write fails, the reconciling loop keeps the table laws and only grows; if it ends, every row says what the recipients say |
| `InvitationLaws.InviteLaw` | apps/api/src/modules/brief-events/brief-events.service.ts:298-300 | the inviting loop keeps the laws, sends nothing, and if it ends every recipient has exactly one row |
| `InvitationLaws.DeliverOnKeeps` | apps/api/src/modules/brief-events/brief-events.service.ts:353-380 | delivery on one channel keeps the table laws whether the send or its record is done, refused, lost or cut short |
| `InvitationLaws.DeliverOnDoes` | apps/api/src/modules/brief-events/brief-events.service.ts:353-380 | after a delivery at most the row's own message was added, and it was whenever the counter moved, but for a push that is switched off; the counter is up to date or the failure is noted, other channels are untouched, and without faults it is up to date |
| `InvitationLaws.DeliverAllKeeps` | apps/api/src/modules/brief-events/brief-events.service.ts:301-301 | the delivery loop keeps the table laws, leaves every row saying what the recipients say, and only adds messages |
| `InvitationLaws.DeliverAllDoes` | apps/api/src/modules/brief-events/brief-events.service.ts:301-301 | a delivery loop that ends leaves no row's mail behind without a noted error; without faults and quiet hours every counter is up to date |
| `InvitationRuns.ServeLaw` | apps/api/src/modules/brief-events/brief-events.service.ts:281-301 | reconciling, inviting and delivering one table together keep its laws and, if they end, leave it in order |
| `InvitationRuns.OpeningLaw` | apps/api/src/modules/brief-events/brief-events.service.ts:270-282 | the automatic cancellation and the Zoom update keep revisions ordered and never reopen an event; once past them the event is scheduled exactly when it was and its brief is still open |
| `InvitationRuns.RecordedRevisionWasAccepted` | apps/api/src/modules/brief-events/brief-events.service.ts:275-281 | over a whole synchronisation a revision is recorded only after Zoom accepted it, and it is the present one |
| `InvitationRuns.UnpreparedHostIsNotInvited` | apps/api/src/modules/brief-events/brief-events.service.ts:313-316 | over a whole synchronisation that reaches the hosts of an upcoming event: while the host's account cannot be prepared, no host row and no mail is touched, and an end of the synchronisation has noted it |
| `InvitationRuns.HostService` | apps/api/src/modules/brief-events/brief-events.service.ts:311-343 | host rows obey the same laws, and a service that ends leaves them in order or has noted the missing account |
| `InvitationRuns.SyncLaw` | apps/api/src/modules/brief-events/brief-events.service.ts:257-309 | one synchronisation under any faults keeps the world's invariant and only grows; if it finished, the tables are in order; without faults nothing is left to do |
| `InvitationRuns.NextLaw` | apps/api/src/modules/brief-events/brief-events.service.ts:161-309 | an edit, a cancellation and a synchronisation each keep the invariant |
| `InvitationRuns.HistoryIsSafe` | apps/api/src/modules/brief-events/brief-events.service.ts:136-380 | in every history of edits, cancellations and faulty synchronisations: no two messages of a row with one SEQUENCE differ in method, address or (for requests) revision; counters lie between -1 and the sequence; one row per key; Zoom's revision never runs ahead |
| `InvitationRuns.HistoryOnlyGrows` | apps/api/src/modules/brief-events/brief-events.service.ts:161-309 | from any moment of a history to any later one sequences, rows, messages and revisions never go back, and a cancelled event stays cancelled |
| `InvitationRuns.CalendarIgnoresOrder` | apps/api/src/modules/brief-events/brief-events.service.ts:283-301 | two calendars that got the same mail in any order and with any duplicates show the same method, address and requested revision, by the newest-SEQUENCE rule of section 2.1.5 of RFC 5546 |
| `InvitationRuns.CalendarShowsRow` | apps/api/src/modules/brief-events/brief-events.service.ts:353-358 | once a row's mail is delivered, every calendar that got it all shows what the row says |
| `InvitationRuns.CalendarsConverge` | apps/api/src/modules/brief-events/brief-events.service.ts:270-304 | after a synchronisation without faults the newest message to an attendee, over all addresses, is a REQUEST at the current revision and address exactly when the participant is a current recipient of a still scheduled event, and otherwise a CANCEL |
| `InvitationRuns.HostCalendarsConverge` | apps/api/src/modules/brief-events/brief-events.service.ts:311-343 | likewise only the resolved host's calendar shows a REQUEST |
| `InvitationRuns.OneHostStands` | apps/api/src/modules/brief-events/brief-events.service.ts:317-329 | at most one host row is active, and it is the resolved host's; for an upcoming scheduled event there is one |
| `InvitationRuns.NothingForgotten` | apps/api/src/modules/brief-events/brief-events.service.ts:244-255 | after every synchronisation that reached its end, whatever failed, nothing is left to do or the cron job selects the event at any later time |
| `InvitationRuns.SecondSyncIsSilent` | apps/api/src/modules/brief-events/brief-events.service.ts:257-380 | a second synchronisation after a faultless one, with the same people in any order, sends nothing and changes no row, whatever would have failed |
| `InvitationRuns.DeadSyncCanForget` | apps/api/src/modules/brief-events/brief-events.service.ts:275-304 | for every delivered event with a row: a cancellation cut short after Zoom's record leaves work to do that the cron job does not look for a day after the event |
| `InvitationForgotten.NotedWorkIsKept` | apps/api/src/modules/brief-events/brief-events.service.ts:244-304 | whatever happens to a synchronisation, even its death at any operation: when an error was noted before it, nothing is left to do afterwards or the cron job selects the event |
| `InvitationForgotten.ForgottenExactly` | apps/api/src/modules/brief-events/brief-events.service.ts:244-304 | for any reachable event, some synchronisation cut off somewhere leaves work the cron job never looks for if and only if no error was noted and the event is scheduled, has a pending host row, or has attendee rows to withdraw and none behind |
| `InvitationForgotten.WithdrawalShows` | apps/api/src/modules/brief-events/brief-events.service.ts:287-301 | withdrawing from a cancelled event, whatever fails, ends with every row withdrawn or leaves something behind that was behind |
| `InvitationRuns.DownloadAgrees` | apps/api/src/modules/brief-events/brief-events.service.ts:225-233 | the file of a caller with a row agrees with mail already sent under its SEQUENCE exactly when the row is withdrawn or at the event's revision |
| `InvitationMail.EditedDownloadDisagrees` | apps/api/src/modules/brief-events/brief-events.service.ts:225-233 | after any faultless synchronisation every accepted edit makes the file downloaded before the next one disagree with mail already sent |
| `InvitationMail.FirstMailLosesToDownload` | apps/api/src/modules/brief-events/brief-events.service.ts:231-232 | mail to a participant who had no row before a synchronisation has SEQUENCE 0, whoever else has rows, so a calendar with a file they downloaded without a row shows the mail exactly when the event had never been changed by then |
| `InvitationMail.StaleDownloadStays` | apps/api/src/modules/brief-events/brief-events.service.ts:225-233 | from any scheduled state, a run for a participant without a row in which a downloaded file, one revision old, stays in the calendar |
| `InvitationMail.SyncTells` | apps/api/src/modules/brief-events/brief-events.service.ts:283-382 | whatever fails, each message a synchronisation sends, to attendees and hosts, has the method, address, SEQUENCE and revision that one row calls for afterwards; no push goes to anybody with push off or in quiet hours; new rows are at sequence 0 |
| `InvitationSends.CounterMeansSent` | apps/api/src/modules/brief-events/brief-events.service.ts:353-382 | in any synchronisation, whatever fails, for every attendee and channel: at most one message goes out, and it is what the row says; no push goes to anybody with push off or in quiet hours; a counter moves only to the row's sequence, and when it does that message was sent, unless it is a push that is switched off |
| `InvitationSends.DueIsSentOnce` | apps/api/src/modules/brief-events/brief-events.service.ts:353-382 | without faults, exactly: mail and notices go to everybody whose row is ahead of the counter and a push to each of those with push on, one message each and nothing else; only quiet hours leave a counter behind |
| `InvitationSends.HostMailIsSentOnce` | apps/api/src/modules/brief-events/brief-events.service.ts:330-341 | the same for the mail to hosts, with faults and without |
| `InvitationNotes.LeftoversAreNoted` | apps/api/src/modules/brief-events/brief-events.service.ts:274-382 | after every synchronisation that reached its end each kind of work still open is named by the note on the event; only pushes held back by quiet hours go without a note; the host's account is noted only for an upcoming scheduled event of an open brief |
| `InvitationNotes.InvitedExactly` | apps/api/src/modules/brief-events/brief-events.service.ts:283-329 | whatever fails nobody gets a new row but a current recipient, or the host, of a scheduled event of an open brief that has not ended; a synchronisation that ends has given one to each recipient, and to the host unless the account could not be prepared |
| `InvitationNotes.SequenceCountsChanges` | apps/api/src/modules/brief-events/brief-events.service.ts:287-325 | whatever fails, over one synchronisation: the SEQUENCE of an attendee or host row rises by exactly one when a row that stands before or afterwards changes its state, revision or address, and else stays as it is |
| `InvitationNotes.SettledIsLeftAlone` | apps/api/src/modules/brief-events/brief-events.service.ts:244-255 | after a faultless synchronisation the cron job selects the event for exactly a day after its end and never again |
| `InvitationNotes.RefusalsLeaveNoTrace` | apps/api/src/modules/brief-events/brief-events.service.ts:257-382 | a synchronisation in which every write and call is refused, or ends the process, changes nothing, sends nothing and does not finish |
| `InvitationMail.CalendarOfAddress` | apps/api/src/modules/brief-events/brief-events.service.ts:287-301 | address by address, after a synchronisation without faults: the calendar of the row's address shows a REQUEST exactly when the participant is invited, that of any other address exactly when it did before |
| `InvitationMail.AddressLeftAlone` | apps/api/src/modules/brief-events/brief-events.service.ts:287-301 | over any history, whatever fails, an address at which a participant has no row gets no more mail about them |
| `InvitationMail.OldAddressKeepsItsRequest` | apps/api/src/modules/brief-events/brief-events.service.ts:287-301 | an address at which somebody was invited still shows its REQUEST after any history, whatever fails, in which they have no row there |
| `InvitationMail.SharedCalendar` | apps/api/src/modules/brief-events/calendar-invitation.ts:38-38 | two delivered rows at one address: in every order of the mail its calendar shows a REQUEST, or none, if and only if each row says so itself or is behind the other |
| `InvitationMail.NewHostLosesToWithdrawal` | apps/api/src/modules/brief-events/brief-events.service.ts:317-327 | a participant who stops being one and becomes the event's first host at the same address sees no REQUEST after faultless synchronisations, in whatever order the mail came |
| `InvitationWorker.RowTable.ReconcileRows` | apps/api/src/modules/brief-events/brief-events.service.ts:287-297 | the in-place loop computes the reconciling function, with its progress and failures |
| `InvitationWorker.RowTable.InviteNewcomers` | apps/api/src/modules/brief-events/brief-events.service.ts:298-300 | the in-place loop computes the inviting function |
| `InvitationWorker.RowTable.DeliverOneChannel` | apps/api/src/modules/brief-events/brief-events.service.ts:353-380 | one guarded send with its record equals the delivery function, including sends that are not recorded; it logs at most the row's message, and does so whenever it raises the counter, but for a push that is switched off |
| `InvitationWorker.RowTable.Deliver` | apps/api/src/modules/brief-events/brief-events.service.ts:345-382 | mail, notice and push of one attendee, or the mail of one host |
| `InvitationWorker.RowTable.DeliverPending` | apps/api/src/modules/brief-events/brief-events.service.ts:301-301 | the in-place loop over all rows computes the delivery function |
| `InvitationWorker.EventStore.constructor` | apps/api/src/modules/brief-events/brief-events.service.ts:151-151 | a saved event starts valid: scheduled, at revision 0, with its note set and no invitations |
| `InvitationWorker.EventStore.Update` | apps/api/src/modules/brief-events/brief-events.service.ts:161-176 | an edit is accepted exactly when the event is scheduled, the schedule valid and the host free; it sets start, duration and end and takes the next revision, nothing else; a refused one changes nothing, and the invariant stays |
| `InvitationWorker.EventStore.CancelByManager` | apps/api/src/modules/brief-events/brief-events.service.ts:178-190 | a scheduled event becomes cancelled with the next revision, a cancelled one stays as it is, and the invariant stays |
| `InvitationWorker.EventStore.SyncHosts` | apps/api/src/modules/brief-events/brief-events.service.ts:311-343 | the host part in place computes the host function |
| `InvitationWorker.EventStore.SyncEvent` | apps/api/src/modules/brief-events/brief-events.service.ts:257-309 | the worker in place computes exactly the synchronisation the laws speak of, and keeps the invariant for every recipient list without repeated participants |
| `ZoomHost.PlansDiffer` | apps/api/src/modules/brief-events/brief-events.service.ts:88-91 | two transactions past their checks never plan the same row, and one of them is the worker's |
| `ZoomHost.CommitKeepsPlans` | apps/api/src/modules/brief-events/brief-events.service.ts:93-99 | another transaction's commit never makes a checked plan wrong |
| `ZoomHost.StepKeepsInvariant` | apps/api/src/modules/brief-events/brief-events.service.ts:136-190 | every step of every transaction keeps: scheduled events on a host disjoint, checked plans still fit, locks exclusive |
| `ZoomHost.HostIsNeverDoubleBooked` | apps/api/src/modules/brief-events/brief-events.service.ts:93-99 | in every state of every interleaving scheduled events on one Zoom host never overlap, and every event keeps end = start + duration with 15 to 480 minutes |
| `ZoomHost.CancelledForever` | apps/api/src/modules/brief-events/brief-events.service.ts:161-190 | in every interleaving no event disappears, no update is lost, and a cancelled event never becomes scheduled again |
| `ZoomHost.FreeExactly` | apps/api/src/modules/brief-events/brief-events.service.ts:93-99 | the overlap check passes if and only if the event ends before or starts after every other scheduled event on its host, and if and only if the table with the new or moved event has no overlap; cancelled events block nothing |
| `ZoomHost.PlannedExactly` | apps/api/src/modules/brief-events/brief-events.service.ts:136-190 | a creation or edit is written exactly when the schedule is valid, the event new or still scheduled, and no other scheduled event of the host overlaps; a cancellation exactly when the event is scheduled |
| `ZoomHost.PlannedIs` | apps/api/src/modules/brief-events/brief-events.service.ts:136-190 | what is written: a new or moved event at the asked time with the matching end and the next revision, or the cancelled event with nothing else changed |
| `ZoomHost.NoDeadlock` | apps/api/src/modules/brief-events/brief-events.service.ts:88-91 | in every state of every interleaving in which transactions are open, one of them can take its next lock, check or commit, or has all its locks and nothing to write |
| `ZoomHost.UnhinderedGoesThrough` | apps/api/src/modules/brief-events/brief-events.service.ts:136-190 | a transaction whose locks nobody holds begins, takes its locks in order, checks, and commits exactly the row it planned |
| `ZoomHost.HostCalendar.Create` | apps/api/src/modules/brief-events/brief-events.service.ts:136-159 | a bad schedule is a bad request; a valid one conflicts exactly when a scheduled event of the host overlaps; otherwise the event is created exactly when Zoom and the database both succeed; a failure leaves the rows alone and, when the compensation works, no meeting behind |
| `ZoomHost.HostCalendar.Update` | apps/api/src/modules/brief-events/brief-events.service.ts:161-176 | the edit in place: refused as a conflict exactly when another scheduled event of the host overlaps, and as a bad request exactly when the event is cancelled or the schedule bad; a refusal changes nothing |
| `ZoomHost.HostCalendar.Cancel` | apps/api/src/modules/brief-events/brief-events.service.ts:178-190 | the cancellation in place: a scheduled event becomes cancelled with the next revision, and nothing else changes |
| `Bookings.StepKeepsLocks` | apps/api/src/database/migrations/1793577600000-RepairStageEvaluationAndIntegrity.ts:59-76 | locks of different transactions stay disjoint and cover what each one is about to write |
| `Bookings.IntentsApart` | apps/api/src/database/migrations/1793577600000-RepairStageEvaluationAndIntegrity.ts:66-66 | two transactions never plan to write one row, nor to book one mentor |
| `Bookings.StepKeepsNoOverlap` | apps/api/src/database/migrations/1793577600000-RepairStageEvaluationAndIntegrity.ts:66-72 | every step keeps the committed table, and what each open transaction will leave, free of overlaps |
| `Bookings.StepKeepsCap` | apps/api/src/database/migrations/1793577600000-RepairStageEvaluationAndIntegrity.ts:63-65 | every step in which completed sessions come from scheduled or confirmed ones keeps every claim at three sessions or fewer, counting open transactions |
| `Bookings.MentorIsNeverDoubleBooked` | apps/api/src/database/migrations/1793577600000-RepairStageEvaluationAndIntegrity.ts:59-76 | under every interleaving any two sessions of one mentor that are not deleted and each scheduled or confirmed occupy disjoint half-open intervals |
| `Bookings.ClaimHasAtMostThreeSessions` | apps/api/src/database/migrations/1793577600000-RepairStageEvaluationAndIntegrity.ts:63-65 | under every such interleaving a claim has at most three sessions, completed ones included |
| `Bookings.CompletedRowSkipsTheCount` | apps/api/src/database/migrations/1793577600000-RepairStageEvaluationAndIntegrity.ts:62-62 | a row entering as completed keeps the claim within three exactly when it replaces a counted row or there was room |
| `Bookings.AcceptedIffTheTableStaysRight` | apps/api/src/database/migrations/1793577600000-RepairStageEvaluationAndIntegrity.ts:59-76 | a booked row is accepted exactly when it belongs to an active claim, takes time, and the table with it has no overlap and no fourth session of the claim |
| `Bookings.AcceptedExactly` | apps/api/src/database/migrations/1793577600000-RepairStageEvaluationAndIntegrity.ts:59-76 | by columns: a row that is deleted, or neither scheduled nor confirmed, is always accepted; a scheduled or confirmed one exactly when it belongs to an active claim of its team and mentor, takes time, keeps clear of the mentor's other scheduled or confirmed sessions, and leaves no fourth session of the claim |
| `Bookings.RefusalIsTheFirst` | apps/api/src/database/migrations/1793577600000-RepairStageEvaluationAndIntegrity.ts:59-76 | a refusal names the first check that fails, by columns |
| `Bookings.SessionTable.Save` | apps/api/src/database/migrations/1793577600000-RepairStageEvaluationAndIntegrity.ts:59-76 | one write behind the trigger: the verdict is the one `Bookings.AcceptedExactly` pins down and names the first failing check, a refusal changes nothing, and no overlap arises |
| `BookingRuns.CommittedSessionsAreClaimed` | apps/api/src/database/migrations/1793577600000-RepairStageEvaluationAndIntegrity.ts:59-65 | under every interleaving of transactions and of changes to claims: when a transaction commits, each scheduled or confirmed session it writes belongs at that moment to an active claim of its team and mentor |
| `BookingRuns.SessionsAreClaimed` | apps/api/src/database/migrations/1793577600000-RepairStageEvaluationAndIntegrity.ts:59-65 | so while claims stand, every committed scheduled or confirmed session belongs to one |
| `BookingRuns.StepsGiveTheVerdict` | apps/api/src/database/migrations/1793577600000-RepairStageEvaluationAndIntegrity.ts:59-76 | under every interleaving the trigger skips its checks exactly for rows that are deleted or neither scheduled nor confirmed, gets past the claim exactly when the verdict for the rows its transaction sees is not about the claim, and past the overlap check exactly when the mentor is free |
| `BookingRuns.AcceptedGoesThrough` | apps/api/src/database/migrations/1793577600000-RepairStageEvaluationAndIntegrity.ts:59-76 | a transaction that writes one row, while nobody holds the locks it needs, goes through whenever the verdict accepts the row, and changes nothing else |
| `BookingRuns.RefusedChangesNothing` | apps/api/src/database/migrations/1793577600000-RepairStageEvaluationAndIntegrity.ts:59-76 | a refused one comes to the check the verdict names, where all it can do is abort, which leaves everything as it was |
| `Integrity.StepKeepsGroups` | apps/api/src/database/migrations/1793659200000-AddCohortGroups.ts:10-68 | every accepted write that restores no deleted team or participant keeps live memberships in one cohort and group, and live groups listed by their cohort |
| `Integrity.GroupsAlwaysAgree` | apps/api/src/database/migrations/1793659200000-AddCohortGroups.ts:10-68 | the same over every history of writes from empty tables |
| `Integrity.RestoringTeam` | apps/api/src/database/migrations/1793659200000-AddCohortGroups.ts:43-58 | restoring a team keeps the agreement exactly when the group trigger, which a restore does not fire, would accept the row |
| `Integrity.RestoringParticipant` | apps/api/src/database/migrations/1793659200000-AddCohortGroups.ts:25-42 | restoring a participant keeps it exactly when the group is listed and all live teams agree |
| `Integrity.RestoreCanDisagree` | apps/api/src/database/migrations/1793659200000-AddCohortGroups.ts:43-58 | a concrete restore that every trigger accepts and that breaks the agreement |
| `Integrity.StepKeepsCaps` | apps/api/src/database/migrations/1793577600000-RepairStageEvaluationAndIntegrity.ts:13-58 | so no accepted write exceeds a cap that is not lowered, while teams stay in their cohort |
| `Integrity.CapsKeptExactly` | apps/api/src/database/migrations/1793577600000-RepairStageEvaluationAndIntegrity.ts:13-58 | inserts, updates, soft deletes, restores and removals alike: an accepted write keeps all caps and unique indexes if and only if what is already there fits under the new cap, or into the team's new cohort |
| `Integrity.CapsAlwaysHold` | apps/api/src/database/migrations/1793577600000-RepairStageEvaluationAndIntegrity.ts:13-58 | over every history that lowers no cap and moves no team: members per team, teams per brief and claims per mentor within their caps, one confirmed team per participant, one active claim per team |
| `Integrity.TeamGuardIsExact` | apps/api/src/database/migrations/1793577600000-RepairStageEvaluationAndIntegrity.ts:28-30 | counting the other confirmed members below the cap means exactly that the table with the new row is within it |
| `Integrity.MentorGuardIsExact` | apps/api/src/database/migrations/1793577600000-RepairStageEvaluationAndIntegrity.ts:53-54 | the same for active claims of a mentor |
| `Integrity.BriefGuardIsExact` | apps/api/src/database/migrations/1793577600000-RepairStageEvaluationAndIntegrity.ts:40-41 | the same for teams assigned to a brief |
| `Integrity.CapsHoldExactly` | apps/api/src/database/migrations/1793577600000-RepairStageEvaluationAndIntegrity.ts:13-58 | over every history the caps hold throughout if and only if each accepted write finds that what is already there fits |
| `Integrity.Tables.Save` | apps/api/src/database/migrations/1793659200000-AddCohortGroups.ts:10-68 | one write in place: accepted exactly when keys, triggers and indexes accept it, which the rows of `IntegrityVerdicts` below spell out, otherwise nothing changes; both invariants stay |
| `Integrity.Tables.constructor` | apps/api/src/database/migrations/1793659200000-AddCohortGroups.ts:4-8 | empty tables satisfy both invariants |
| `IntegrityVerdicts.MemberVerdict` | apps/api/src/database/migrations/1793577600000-RepairStageEvaluationAndIntegrity.ts:13-33 | a membership is accepted exactly when participant and team are of one cohort, a live one shares their group, and a confirmed one is the participant's only one and leaves the team within its size |
| `IntegrityVerdicts.BriefVerdict` | apps/api/src/database/migrations/1793577600000-RepairStageEvaluationAndIntegrity.ts:34-45 | the brief of a new team, or a named brief: a live team that is not disqualified takes it exactly when it is approved, of the team's cohort and within its number of teams afterwards |
| `IntegrityVerdicts.ClaimVerdict` | apps/api/src/database/migrations/1793577600000-RepairStageEvaluationAndIntegrity.ts:46-58 | a claim is accepted exactly when, if active and live, its mentor is active and in the team's cohort, within the number of claims afterwards, and the team has no other one |
| `IntegrityVerdicts.TeamVerdict` | apps/api/src/database/migrations/1793659200000-AddCohortGroups.ts:43-57 | a team that restores nothing is accepted exactly when its brief is, the groups agree afterwards, and a new live team of a cohort with groups has one |
| `IntegrityVerdicts.ParticipantVerdict` | apps/api/src/database/migrations/1793659200000-AddCohortGroups.ts:26-42 | a participant that is not restored is accepted exactly when the groups agree afterwards, and one who enters a cohort with groups has a group |
| `IntegrityVerdicts.RestoredParticipantVerdict` | apps/api/src/database/migrations/1793659200000-AddCohortGroups.ts:26-42 | a restored participant needs a listed group, and one at all in a cohort with groups; its live teams are asked only when the restore changes its group or cohort too |
| `IntegrityVerdicts.CohortVerdict` | apps/api/src/database/migrations/1793659200000-AddCohortGroups.ts:10-25 | new groups are accepted exactly when they are at most 100 names of 1 to 100 characters without spaces at their ends, different in lower case too, and the groups in use are among them |
| `IntegrityVerdicts.PlainVerdict` | apps/api/src/database/migrations/1793577600000-RepairStageEvaluationAndIntegrity.ts:19-58 | briefs and mentors are accepted exactly when their cohort exists; memberships and claims can always be removed |
| `IntegrityVerdicts.ReferencesAlwaysHold` | apps/api/src/database/migrations/1793577600000-RepairStageEvaluationAndIntegrity.ts:19-58 | over every history each row refers to rows that exist |
| `IntegrityVerdicts.GroupNamesAlwaysValid` | apps/api/src/database/migrations/1793659200000-AddCohortGroups.ts:10-25 | over every history the groups of each cohort are such names |
| `IntegrityVerdicts.AssignedBriefFits` | apps/api/src/database/migrations/1793577600000-RepairStageEvaluationAndIntegrity.ts:34-45 | an accepted team that is new, or whose brief is named, live and not disqualified, has an approved brief of its cohort in the table after the write |
| `IntegrityVerdicts.ClaimedMentorFits` | apps/api/src/database/migrations/1793577600000-RepairStageEvaluationAndIntegrity.ts:46-58 | an accepted active claim is by an active mentor of the team's cohort |
| `IntegrityVerdicts.PartnersAlwaysFit` | apps/api/src/database/migrations/1793577600000-RepairStageEvaluationAndIntegrity.ts:34-58 | over every history in which no brief loses approval or cohort, no mentor activity or cohort, and no team its cohort: every live team that is not disqualified works on an approved brief of its cohort, and every active, live claim is by an active mentor of the team's cohort |
| `CohortGroups.NormalizedNamesAreAccepted` | apps/api/src/common/services/cohort-groups.ts:3-8 | names the service normalises pass the cohort trigger, and normalising twice changes nothing |
| `CohortGroups.NormalizesWhatIsValid` | apps/api/src/common/services/cohort-groups.ts:1-8 | the service accepts a list of names exactly when the cohort trigger accepts it trimmed: at most 100 names of 1 to 100 characters, no two alike in lower case; the result is the trimmed list |
| `CohortGroups.ResolvedGroupIsTheStoredSpelling` | apps/api/src/common/services/cohort-groups.ts:10-19 | a lookup answers a name exactly when it is the stored one whose lower-case form is asked for, so the answer is the unique stored spelling |
| `CohortGroups.ResolvesExactly` | apps/api/src/common/services/cohort-groups.ts:10-19 | a cohort without groups takes exactly those who name none; in a cohort with groups a lookup fails exactly when no group has the asked name in lower case, and never answers without a group |
| `CohortGroups.StoredNamesResolve` | apps/api/src/common/services/cohort-groups.ts:3-19 | every normalised name resolves to itself |
| `CohortGroups.StoredNameResolvesIf` | apps/api/src/common/services/cohort-groups.ts:16-18 | a name the trigger accepts resolves to itself exactly when stripping all white space does not change its lower-case form |
| `CohortGroups.ResolvedParticipantIsAccepted` | apps/api/src/common/services/cohort-groups.ts:10-19 | a new participant with a resolved group passes the participant trigger |
| `TextTools.TrimOf` | apps/api/src/database/migrations/1720540000000-InitialSchema.ts:109-109 | trimming takes exactly the white space around a trimmed text |
| `TextTools.TrimIsTrimmed` | apps/api/src/database/migrations/1720540000000-InitialSchema.ts:122-122 | a trimmed text has white space at neither end, and only a blank text trims to nothing |
| `SqlSplitter.ParseSqlStatements` | apps/api/src/database/migrations/1720540000000-InitialSchema.ts:50-128 | the loop with its four lexer variables returns the statements of the segments of the recursive lexer |
| `SqlSplitter.Flush` | apps/api/src/database/migrations/1720540000000-InitialSchema.ts:107-117 | at a terminator and at the end the trimmed text joins the result unless it is empty or only comments |
| `SqlSplitter.SegmentsRejoin` | apps/api/src/database/migrations/1720540000000-InitialSchema.ts:50-128 | for every text the raw segments joined by ";" are the text |
| `SqlSplitter.CutsExactlyAtTerminators` | apps/api/src/database/migrations/1720540000000-InitialSchema.ts:107-117 | for every text a cut lies at a position exactly when the lexer meets a ";" there in normal mode |
| `SqlSplitter.BalancedThenTerminator` | apps/api/src/database/migrations/1720540000000-InitialSchema.ts:60-118 | a balanced text followed by ";" is cut right there, whatever follows |
| `SqlSplitter.PrintThenSplit` | apps/api/src/database/migrations/1720540000000-InitialSchema.ts:50-128 | printing any list of trimmed, balanced statements that are not only comments with ";" and a newline, and splitting it, returns the list |
| `SqlPieces.PiecesAreBalanced` | apps/api/src/database/migrations/1720540000000-InitialSchema.ts:60-118 | a text made of plain pieces, texts in either quotation mark with any contents at all, line comments and block comments is one statement to the splitter, whatever the quoted texts and comments contain |
| `SqlPieces.PiecesComeBack` | apps/api/src/database/migrations/1720540000000-InitialSchema.ts:50-128 | so any list of statements made of such pieces comes back as it was written |
| `SqlSplitter.CommentTestIsRight` | apps/api/src/database/migrations/1720540000000-InitialSchema.ts:133-140 | for every text: the comment test agrees with the lexer if and only if no odd block comment (dashed, unclosed, or closed by its own star) stands before the code, or that comment swallows the rest exactly when the rest has no code |
| `SqlSplitter.CommentTest` | apps/api/src/database/migrations/1720540000000-InitialSchema.ts:133-140 | for every text the two replacements leave only white space exactly when the lexer finds no code or, with an odd comment before the code, when that comment still closes without its dashes and only comments follow |
| `SqlSplitter.DroppedExactly` | apps/api/src/database/migrations/1720540000000-InitialSchema.ts:109-113 | so a segment is dropped exactly when its trimmed text has no code or is swallowed by an odd comment |
| `SqlSplitter.CodeCanBeDropped` | apps/api/src/database/migrations/1720540000000-InitialSchema.ts:133-140 | a concrete statement with code that the splitter drops: dashes inside a block comment swallow what follows |
| `CalendarText.EscapePassesAreOne` | apps/api/src/modules/brief-events/calendar-invitation.ts:15-17 | for every text the four replacement passes equal one pass from left to right |
| `CalendarText.EscapeThenRead` | apps/api/src/modules/brief-events/calendar-invitation.ts:15-17 | for every text the escaped form has no line break and reads back (section 3.3.11 of RFC 5545) as the text with normal line breaks |
| `CalendarText.PlainReadsBack` | apps/api/src/modules/brief-events/calendar-invitation.ts:15-17 | a text without carriage returns reads back unchanged |
| `CalendarText.FoldLine` | apps/api/src/modules/brief-events/calendar-invitation.ts:19-31 | the loop over lines, current line and octets produces the folded text |
| `CalendarText.UnfoldFolded` | apps/api/src/modules/brief-events/calendar-invitation.ts:19-31 | unfolding (section 3.1 of RFC 5545) undoes folding, wherever the line stands |
| `CalendarText.ContentReadsBack` | apps/api/src/modules/brief-events/calendar-invitation.ts:43-43 | folded lines joined by CRLF, unfolded and split, are the same lines |
| `CalendarText.PhysicalLinesAreShort` | apps/api/src/modules/brief-events/calendar-invitation.ts:24-27 | every physical line has at most 75 octets, and no character is split |
| `CalendarOctets.OctetsReadBack` | apps/api/src/modules/brief-events/calendar-invitation.ts:23-27 | the octets of a text, written as in section 3 of RFC 3629, read back as its code points |
| `CalendarOctets.OctetsAreCounted` | apps/api/src/modules/brief-events/calendar-invitation.ts:23-27 | the length the calendar folds by is the number of those octets |
| `CalendarOctets.LinesFitOnTheWire` | apps/api/src/modules/brief-events/calendar-invitation.ts:19-31 | so no physical line of a calendar takes more than 75 octets |
| `CalendarText.CalendarInvitation` | apps/api/src/modules/brief-events/calendar-invitation.ts:33-44 | a calendar is produced exactly when both addresses are free of line breaks; its content is the folded property lines and its method is CANCEL exactly for cancellations |
| `CalendarText.CalendarReadsBack` | apps/api/src/modules/brief-events/calendar-invitation.ts:33-44 | for every title, description and URL the calendar reads back as the nineteen intended property lines; the title, the description followed by the line with the Zoom link, and the URL read back as given but for the spelling of line breaks |
| `CalendarText.CalendarSays` | apps/api/src/modules/brief-events/calendar-invitation.ts:35-42 | read by name, method, status, identifier, SEQUENCE (as a number), the three times and both addresses each stand there once with the right value |
| `EvaluationJobs.StepKeepsInvariant` | apps/api/src/modules/evaluations/evaluation.processor.ts:56-154 | in every interleaving the advisory and row locks have one holder, a worker past its check sees no cancellation, and a cancellation past its check sees no completion |
| `EvaluationJobs.ResultsArriveTogether` | apps/api/src/modules/evaluations/evaluation.processor.ts:243-250 | from one state of a run to the next, evaluation, submission and completed status are written all together, over a job that is not cancelled, or not at all |
| `EvaluationJobs.ResultsAreWhole` | apps/api/src/modules/evaluations/evaluation.processor.ts:243-250 | in every state of every interleaving the evaluation is written exactly when the submission is marked, and a completed job has both |
| `EvaluationJobs.LockedRowIsLeftAlone` | apps/api/src/modules/evaluations/evaluation.processor.ts:243-250 | in every interleaving, between a worker's or a canceller's write of the job row and its commit, no other process changes status, evaluation or submission |
| `EvaluationJobs.CompletedIsNotCancelled` | apps/api/src/modules/evaluations/evaluations.service.ts:140-159 | no single step of any interleaving cancels a completed job |
| `EvaluationJobs.CompletionIsFinal` | apps/api/src/modules/evaluations/evaluation.processor.ts:56-154 | whatever happens later, other than a new delivery, leaves a completed job, its evaluation and its submission alone if and only if nothing but cancellations is under way now |
| `EvaluationJobs.CompletedCanBeCancelled` | apps/api/src/modules/evaluations/evaluation.processor.ts:56-72 | for every result a run from the start in which a second delivery takes the completed job back and a cancellation then goes through, with the evaluation written |
| `EvaluationJobs.OnlyUnguardedWritesRevive` | apps/api/src/modules/evaluations/evaluations.service.ts:97-138 | a step revives a cancelled job exactly when it is the save of a retry, the save of an enqueue or the error path of a failed enqueue; none writes a result |
| `EvaluationJobs.CancelledStaysCancelled` | apps/api/src/modules/evaluations/evaluation.processor.ts:294-299 | from a committed cancellation on, unless a retry or a hand-over was under way at that moment, the job, the evaluation and the submission never change |
| `EvaluationJobs.CancellationIsFinal` | apps/api/src/modules/evaluations/evaluations.service.ts:97-159 | whatever happens later leaves a cancelled job alone if and only if no retry and no hand-over to the queue is under way now |
| `EvaluationJobs.FailedEnqueueRevives` | apps/api/src/modules/evaluations/evaluations.service.ts:97-110 | a run in which a failed enqueue overwrites a committed cancellation |
| `EvaluationJobs.JobRows.CommitResults` | apps/api/src/modules/evaluations/evaluation.processor.ts:243-250 | run alone, the rows end up as after the steps of the interleaved model: all three change, or none when the job is cancelled |
| `EvaluationJobs.JobRows.Process` | apps/api/src/modules/evaluations/evaluation.processor.ts:56-154 | a whole worker run alone, from its first read to its commit or report, takes exactly the steps of the interleaved model |
| `EvaluationJobs.WorkAlone` | apps/api/src/modules/evaluations/evaluation.processor.ts:56-154 | those steps are all possible and leave a result, or a pending or failed job, or nothing when the job is cancelled |
| `EvaluationJobs.JobRows.CancelJob` | apps/api/src/modules/evaluations/evaluations.service.ts:140-159 | cancelling succeeds exactly when the job is not completed, and run alone takes the steps of the interleaved model |
| `EvaluationJobs.JobRows.RetryFailedJob` | apps/api/src/modules/evaluations/evaluations.service.ts:119-138 | only a failed job with attempts left is retried, by the steps of the interleaved model; otherwise nothing changes |
| `Transactions.RunRegisters` | apps/api/src/common/decorators/transactional.decorator.ts:5-10 | a body ends well exactly when no uncaught failure is met, and the shared list holds every effect registered until then, in order |
| `Transactions.RunWritesAll` | apps/api/src/common/decorators/transactional.decorator.ts:23-29 | without catches a body that ends performs all writes of all nested calls in program order |
| `Transactions.PerformIsAllOrNothing` | apps/api/src/common/decorators/transactional.decorator.ts:12-35 | for every tree of calls that catch no nested failure: success commits every write and runs every effect once, in registration order; any failure, also of the commit, leaves the store alone and runs nothing |
| `Transactions.CaughtFailuresStillRunEffects` | apps/api/src/common/decorators/transactional.decorator.ts:20-32 | with catches, the effects run are those of the kept work exactly when no caught failure had registered one |
| `Transactions.Service.Nested` | apps/api/src/common/decorators/transactional.decorator.ts:23-29 | a nested call in place: a failure returns to the savepoint but keeps the shared list |
| `Transactions.Service.Transactional` | apps/api/src/common/decorators/transactional.decorator.ts:12-35 | the outermost call in place starts every effect once, in order, even when some of them fail |
| `BriefLifecycle.RestoreBringsBack` | apps/api/src/modules/briefs/briefs.service.ts:678-692 | restoring a snapshot brings back every field it defines, by name, and keeps the others |
| `BriefLifecycle.EditConserves` | apps/api/src/modules/briefs/briefs.service.ts:205-287 | an edit conserves the vertical counts exactly when the brief is not counted or stays in its vertical |
| `BriefLifecycle.StaffEditConserves` | apps/api/src/modules/briefs/briefs.service.ts:752-832 | a staff edit or a restore conserves the counts under exactly that condition |
| `BriefLifecycle.StepConserves` | apps/api/src/modules/briefs/briefs.service.ts:289-323 | every other accepted step keeps each vertical's count equal to the number of its counted briefs |
| `BriefLifecycle.CountsAreConserved` | apps/api/src/modules/briefs/briefs.service.ts:289-431 | over every history of operations that run to their end one at a time, in which staff edits and restores keep counted briefs in place, a vertical's count is the number of its submitted, in-review or approved briefs |
| `BriefLifecycle.CapsAreKept` | apps/api/src/modules/briefs/briefs.service.ts:298-323 | over every history of operations that run to their end one at a time and that lowers no cap, no vertical exceeds its cap |
| `BriefLifecycle.StepKeepsHistory` | apps/api/src/modules/briefs/briefs.service.ts:722-746 | every accepted step keeps the revision history complete |
| `BriefLifecycle.HistoryIsComplete` | apps/api/src/modules/briefs/briefs.service.ts:232-287 | over every history of operations that run to their end one at a time, the revisions with fields are exactly one for each version from 2 to the present, each holding the nine-field snapshot of the version before |
| `BriefLifecycle.RestoreUndoes` | apps/api/src/modules/briefs/briefs.service.ts:631-719 | restoring the revision that made a version brings back the snapshot of the version before; restoring the revision this leaves behind is accepted exactly when the brief can come back to its vertical, and then undoes the restore |
| `BriefLifecycle.HistoryRestoreUndoes` | apps/api/src/modules/briefs/briefs.service.ts:631-719 | the same at the end of every history |
| `BriefLifecycle.RestoreCanBeFinal` | apps/api/src/modules/briefs/briefs.service.ts:662-676 | a history with an accepted restore that cannot be undone |
| `BriefLifecycle.BriefDesk.Create` | apps/api/src/modules/briefs/briefs.service.ts:46-91 | a draft is created exactly when its vertical exists and has room |
| `BriefLifecycle.BriefDesk.Update` | apps/api/src/modules/briefs/briefs.service.ts:205-287 | the edit in place: refused without a change unless the brief is editable and the new vertical has room |
| `BriefLifecycle.BriefDesk.Submit` | apps/api/src/modules/briefs/briefs.service.ts:289-334 | the submission in place, with its count and its note |
| `BriefLifecycle.BriefDesk.StartReview` | apps/api/src/modules/briefs/briefs.service.ts:359-372 | only a submitted brief goes into review, and nothing else changes |
| `BriefLifecycle.BriefDesk.Review` | apps/api/src/modules/briefs/briefs.service.ts:374-443 | the review in place: accepted exactly for a submitted brief or one in review, with feedback unless it approves; approval, rejection and revision request end in the status of that name, and the last two give the vertical its place back |
| `BriefLifecycle.BriefDesk.Delete` | apps/api/src/modules/briefs/briefs.service.ts:483-496 | only drafts go, and one with revisions only when its row is kept and marked |
| `BriefLifecycle.BriefDesk.StaffUpdate` | apps/api/src/modules/briefs/briefs.service.ts:752-832 | the staff edit in place, in any status |
| `BriefLifecycle.BriefDesk.RestoreRevision` | apps/api/src/modules/briefs/briefs.service.ts:631-719 | the restore in place, with the revision it leaves behind |
| `BriefVerdicts.ReviewVerdict` | apps/api/src/modules/briefs/briefs.service.ts:374-443 | which reviews are accepted, and all they change: the status named by the decision, the place in the vertical but for approvals, and one note |
| `BriefVerdicts.SubmitVerdict` | apps/api/src/modules/briefs/briefs.service.ts:289-323 | which submissions are accepted, by status, count and cap, and all they change |
| `BriefVerdicts.UpdateVerdict` | apps/api/src/modules/briefs/briefs.service.ts:205-287 | which edits are accepted, by status, count and cap; exactly the fields named change, the version is the next one, and one revision keeps the nine fields as they were |
| `BriefVerdicts.StaffVerdict` | apps/api/src/modules/briefs/briefs.service.ts:752-832 | the same for staff: in every status, with room asked for unless the brief is a draft |
| `BriefVerdicts.RestoreVerdict` | apps/api/src/modules/briefs/briefs.service.ts:631-719 | which restores are accepted, and that the brief then has the fields the revision kept |
| `BriefVerdicts.CreateVerdict` | apps/api/src/modules/briefs/briefs.service.ts:46-91 | a new brief is a draft at version 1 with the fields given, in a vertical that exists and has room, and takes no place there yet |
| `BriefVerdicts.OtherVerdicts` | apps/api/src/modules/briefs/briefs.service.ts:359-496 | a review begins exactly with a submitted brief; exactly drafts are deleted, with events or without revisions |
| `BriefVerdicts.DecidedForGood` | apps/api/src/modules/briefs/briefs.service.ts:205-443 | from the moment a brief is approved or rejected, over any later history, it keeps its status, and every update, submission, start of a review, review and deletion of it is refused |
| `BriefVerdicts.DecisionStands` | apps/api/src/modules/briefs/briefs.service.ts:374-443 | so an accepted rejection ends the brief's way for ever, and an accepted approval stands |
| `BriefVerdicts.RevisionGivesBack` | apps/api/src/modules/briefs/briefs.service.ts:374-443 | after any history an accepted revision request leaves a brief whose every update that keeps the vertical is accepted; a submission is accepted exactly when its vertical has room, and always when no cap was lowered |
| `BriefVerdicts.StaysWithAuthors` | apps/api/src/modules/briefs/briefs.service.ts:205-323 | over any history without an accepted submission such a brief is not deleted, nobody decides on it, and every update that keeps its vertical is accepted |
| `BriefVerdicts.PlacesAreCounted` | apps/api/src/modules/briefs/briefs.service.ts:289-431 | over every history that keeps counted briefs in their vertical: a vertical's count is the number of its briefs that are submitted, in review or approved, and within its cap when no cap was lowered |
| `BriefStatements.WholePlanPerforms` | apps/api/src/modules/briefs/briefs.service.ts:205-323 | the statements of an operation, run to their end alone, do what its step does |
| `BriefAlone.UninterruptedPerforms` | apps/api/src/modules/briefs/briefs.service.ts:205-323 | in every state of the interleaved model an accepted operation can start, and when nothing comes between its statements it does exactly what its step does and leaves the other operations where they were |
| `BriefStatements.StepKeepsInvariant` | apps/api/src/modules/briefs/briefs.service.ts:205-323 | in every interleaving of statements, of operations on one brief too, what is saved is a version that was there or the next one, in a vertical that exists, and no identifier is created twice |
| `BriefStatements.AloneFindsAsRead` | apps/api/src/modules/briefs/briefs.service.ts:205-323 | as long as an operation starts only when no other one on its brief is under way, every save finds the row as its operation read it |
| `BriefCounts.CountsAddUp` | apps/api/src/modules/briefs/briefs.service.ts:289-431 | in every interleaving, of operations on one brief too, cut off anywhere, with any edits: count, owed places and saves that regained a counted brief are together the counted briefs and the saves that lost one; so the count is right exactly when these balance |
| `BriefCounts.CountFallsShort` | apps/api/src/modules/briefs/briefs.service.ts:289-431 | while every save found the row as it was read and edits kept counted briefs in place: a count falls short of the counted briefs by exactly the submissions and refusals between their two writes |
| `BriefCounts.CountStaysShort` | apps/api/src/modules/briefs/briefs.service.ts:309-323 | while saves find what was read, an operation cut off between its two writes leaves the count too low in every later state |
| `BriefRevisions.HistoryStandsExactly` | apps/api/src/modules/briefs/briefs.service.ts:232-287 | in every interleaving, of operations on one brief too, cut off anywhere, until the brief is deleted: its history has been complete in every state so far if and only if every save so far found the version its operation had read |
| `BriefRevisions.StaleSaveBreaks` | apps/api/src/modules/briefs/briefs.service.ts:259-284 | a save that finds another version breaks the history at once |
| `BriefRevisions.VersionsAreAccounted` | apps/api/src/modules/briefs/briefs.service.ts:232-287 | while those saves find the version they read, a version has its revision exactly when its edit is not waiting, or cut off, before recording it, and a recorded version is right and recorded once |
| `BriefRevisions.AloneMeetsVersions` | apps/api/src/modules/briefs/briefs.service.ts:205-287 | operations on one brief that do not overlap meet the versions they read |
| `BriefRevisions.OverlappingUpdatesClash` | apps/api/src/modules/briefs/briefs.service.ts:205-287 | two updates that both read one version raise it once and leave two revisions of it |
| `BriefCounts.CountStaysWithinCap` | apps/api/src/modules/briefs/briefs.service.ts:298-323 | when submissions start only where there is room with those under way too, and no cap is lowered, no count exceeds its cap in any interleaving, of operations on one brief too |
| `BriefCounts.OverrunExactly` | apps/api/src/modules/briefs/briefs.service.ts:298-323 | a cap can be exceeded without anything new starting if and only if the count and the submissions under way exceed it already |
| `BriefCounts.RacingSubmissionsOverrun` | apps/api/src/modules/briefs/briefs.service.ts:298-323 | two submissions into a vertical's last place both pass the check and can overrun the cap |
| `BriefCounts.DoubleSubmissionCountsTwice` | apps/api/src/modules/briefs/briefs.service.ts:289-323 | two submissions of one brief that both read the draft count it twice |
| `Rubric.ScoreAgainstRubric` | apps/api/src/common/services/rubric-scoring.ts:11-21 | scores are accepted exactly when there is one for each criterion, the rubric is valid and every score fits; each refusal names the first failing rule; the result is the rounded weighted total |
| `Rubric.ScoresMatchCriteria` | apps/api/src/common/services/rubric-scoring.ts:12-16 | accepted scores and criteria match one to one: none is left over, although the code only looks up a score for each criterion |
| `Rubric.ScoreInRange` | apps/api/src/common/services/rubric-scoring.ts:13-20 | an accepted result lies in 0..100 despite the tolerance on the weights, and full marks give exactly 100 |
| `Rubric.ScoreIsMonotone` | apps/api/src/common/services/rubric-scoring.ts:15-20 | raising any score never lowers the result |
| `Rubric.ScoreIgnoresOrder` | apps/api/src/common/services/rubric-scoring.ts:15-18 | reordering the scores changes neither acceptance nor the total |
| `Rubric.FinalScoreIsBetween` | apps/api/src/database/entities/evaluation.entity.ts:137-156 | two scores mix as human + (ai - human) times the weight, between them exactly when the weight lies in 0..1 for different scores; otherwise the final score is the only, or the common, score |
| `Rubric.AcceptedExactly` | apps/api/src/common/services/rubric-scoring.ts:11-19 | the acceptance by columns: as many scores as criteria, no criterion and no score twice, weights adding up to 100 within a thousandth, and each criterion with a positive maximum, a weight of zero or more and a score between 0 and its maximum |
| `Rubric.OneScoreMoves` | apps/api/src/common/services/rubric-scoring.ts:15-20 | two lists of scores that differ for one criterion have totals that differ by that difference over the maximum times the weight |
| `Rubric.RoundedExactly` | apps/api/src/common/services/rubric-scoring.ts:20-20 | rounding gives a hundredth exactly when the argument lies at most half a hundredth below it or less than that above it |
| `ChatPaging.GetMessages` | apps/api/src/modules/chat/chat.service.ts:459-512 | taking one extra row, dropping it and reversing in place gives the newest matching messages oldest first, undeleted ones of the channel only, at most the limit (50 by default), and says whether there are more |
| `ChatPaging.SortedIsTheOrder` | apps/api/src/modules/chat/chat.service.ts:497-497 | the order keeps every selected message as often as it was selected, newest first |
| `ChatPaging.MatchingExactly` | apps/api/src/modules/chat/chat.service.ts:469-498 | a query finds exactly the channel's undeleted messages older than the millisecond of the message `before` names and newer than that of the one `after` names, newest first |
| `ChatPaging.NextQuery` | apps/api/src/modules/chat/chat.service.ts:475-495 | asking again before the oldest message of a full page matches exactly what that page's query matched that is older than that message's millisecond, because the cursor passes through a Date |
| `ChatPaging.NextPageContinues` | apps/api/src/modules/chat/chat.service.ts:475-502 | the next page continues without a gap exactly when the message after the page was sent in an earlier millisecond than the page's oldest |
| `ChatPaging.WalkShowsAll` | apps/api/src/modules/chat/chat.service.ts:459-512 | for any messages and page size following the cursor ends; it shows every matching message once, in time order, exactly when no page ends between two messages of one millisecond |
| `ChatPaging.DistinctTimesShowAll` | apps/api/src/modules/chat/chat.service.ts:459-512 | with messages in different milliseconds the pages joined oldest first are exactly the channel's undeleted messages in time order, each once, for any page size |
| `ChatPaging.CursorsSplitHistory` | apps/api/src/modules/chat/chat.service.ts:475-495 | around any message, what `after` matches, the message, and what `before` matches are the channel's whole history, except that `after` matches the message itself again exactly when its timestamp has a fraction of a millisecond |

## Left out

- InvitationRuns.SecondSyncIsSilent: leaves `sync_error` open, because a host account that cannot be prepared is noted again.
- BriefLifecycle.CountsAreConserved: speaks of operations that run to their end one at a time; `BriefCounts` has the statements, interleaved and cut off.
- BriefLifecycle.CapsAreKept: speaks of operations that run to their end one at a time; `BriefCounts` has the statements, interleaved and cut off.
- BriefLifecycle.HistoryIsComplete: speaks of operations that run to their end one at a time, `BriefRevisions` has the statements, interleaved and cut off.
- BriefStatements.StepKeepsInvariant: an operation reads the brief and its vertical and checks them at one moment; a statement that the database refuses counts as the end of its operation.
- BriefRevisions.HistoryStandsExactly: speaks of briefs that have not been deleted; a save that overlaps a deletion brings the row back.
- BriefLifecycle.Snapshot: a changed `verticalId` is taken as stored; the brief is also loaded with its `vertical` relation, and whether the ORM lets that object win over the column on saving, or detaches revisions that it did not load, is not modelled.
- Integrity.CapsAlwaysHold: takes each write with its triggers as one step; interleavings are modelled for bookings and the Zoom host only.
- Bookings.StepKeepsLocks: a failed statement ends its transaction; returning to a savepoint is not modelled.
- EvaluationJobs.StepKeepsInvariant: a second delivery of a completed job may process it again, as in the code; the attempts counter and the queue's contents are left out.
- Transactions.PerformIsAllOrNothing: effects that register further effects, and `afterCommit` outside any transaction, are left out.
- Rubric.ScoreAgainstRubric: works on exact reals, so floating-point error and the tests for infinite numbers are left out.
- CalendarText.FoldLine: works on code points with their UTF-8 lengths; lone surrogates are left out.
- CalendarText.CalendarReadsBack: takes the printed timestamps as a parameter, because they come from the platform's date library.
- InvitationSync: one synchronisation sees one clock value; a failing read counts as the death of the process at its next operation.
- Event titles and descriptions beside the revision, mail bodies, HTML, notification texts and identifiers: messages carry method, address, sequence and revision only.
- Organisation and brief titles inside invitations: the event revision does not cover them, so they are taken as fixed.
- The in-memory queue that orders synchronisations of one process: the per-event advisory lock already makes them exclusive.
- Access control, controllers, guards, authentication and input validation by decorators.
- Lower-casing of group names: one function shared by service and database, as a parameter.
- Deletion of participants, teams, briefs and mentors with its cascades: memberships and claims can be removed, the others are soft-deleted or, for drafts of briefs, removed.
- The scores computed from scoring answers: finitely many answer classes.
- Brief columns outside the nine snapshot fields, contacts, images and videos.
- Zoom, Gemini, GitHub, storage, e-mail and push services: only the outcome of a call is kept.
- Dashboards, activity, audit, announcements, certificates, forum and cache services: mostly queries and one-step updates.
