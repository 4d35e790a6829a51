# Verified model of the schedule hub

The hub is a Telegram bot with a durable back end. This project models its state-changing cores and proves what
they keep over whole runs: two leased work queues, the schedule pipeline (template, snapshot store, matching,
diff, publication, reminders, calendar feed), crash-tolerant ingestion (polling inbox, resumable export import), and
three small cores (membership roster, AI quota, tolerant HTML tree).

Times are integers and days are calendar ordinals. One `session.begin()` block is one atomic step; between
two steps the process may die, and other workers may take theirs. Network calls, handlers, clocks and text
libraries are parameters; properties hold for all of them. Two library facts are assumed where a lemma says so:
the similarity ratio of equal texts is one and lies in the unit interval (`Schedule.RulesOk`), and SHA-256 is
injective (`SnapshotHash.HashesOk`, `Calendar.Injective`). `WeekTemplate.IdsOk` assumes the same of lesson ids within one group,
although the source joins the hashed fields with a bar and keeps 20 hexadecimal digits of the hash.

## How it is laid out

- Queues: `LeasedQueue` is one abstract queue whose choice of eligible row is left open; `JobQueue` (two time
  columns) and `OutboxQueue` (one column for both) refine it step by step, so its run theorems hold of both.
  `RetryPolicy` is the back-off, `JobWorker` and `OutboxWorker` are the polling drivers.
- Schedule: `Days`, `WeekTemplate`, `SnapshotHash`, `ScheduleSync`, `Schedule` (what a matching is), `Matching`
  (the greedy passes), `MatchingLaws` (what they prefer), `ScheduleDiff`, `RepeatedIds`, `Reminders`, `Publisher`, `LineFolding`, `TextEscape`, `Calendar`.
- Ingestion: `Inbox`, `UpdatePump`, `PollingProtocol`; `ImportPlanner`, `Archive`, `BatchRun` (a resumable batch
  run over any data), `Importer`, `Reconciliation`.
- Small cores: `Membership`, `Quota`, `HtmlTree`. Helpers: `Numbers`, `Ordering`, `Whitespace`, `Wrappers`.

Operations that change state are class methods or loops, proved against a function or relation of the old state;
the lemmas are about those functions and relations. `dafny verify dfyconfig.toml` checks everything.

## What the code does that its descriptions do not say

- The diff compares neither day nor subgroup. Lessons that keep their ids and every compared field go unreported
  wherever they move (`ScheduleDiff.RelocatedGoesUnreported`); a silent diff keeps the days exactly when no pair found
  by id changed day (`SilentKeepsDaysIff`). Ids move by whole weeks only (`WeekTemplate.SameIdMovesByWeeks`), and they
  do: when the source corrects its week number by one, every lesson of an undated template moves by a week and
  nothing is reported, on a Monday always and later in the week provided no lesson falls on a weekday already past
  (`WeekTemplate.RenumberedWeeksGoUnreported`).
- A source id that occurs twice makes an unchanged list report every field in which its first and last lesson differ
  (`ScheduleDiff.RepeatedIdReportsItself`, one way), and two blocks of one slot do get one id
  (`WeekTemplate.TwinEntriesReportThemselves`). It is harmless when the copies of an id look alike to the score and
  lessons that look alike agree in every compared field (`RepeatedIds.AgreeingCopiesAreSilent`).
- A stored snapshot is read back in another order than it was hashed in. The hash check then passes exactly when
  lessons that tie on the sort key were stored in lesson-key order (`SnapshotHash.ReloadPassesIff`). Otherwise the
  week cannot be read back and every later sync of it fails (`ScheduleSync.ConfirmedIsLastFetch`, `SyncWeek`).
- An update is safe in every continuation exactly when its id is above everything stored or held at the moment the
  server issues it (`PollingProtocol.NeverLostIff`); `HeldBatchLosesLateId` is a run that loses one while no
  offset is in force.
- Telegram dates are whole seconds, so two different explicit updates of one user can carry one time, and then the
  later delivery wins (`Membership.JoinedAndRemovedInOneSecond`). Whether a user is in the group is independent of the
  delivery order exactly when the explicit updates of the latest time agree on it (`Membership.ActiveIsSettledIff`);
  the full status is so exactly under the condition of `Membership.StatusIsSettledIff`.
- The AI counters are said never to undercount. A day or month is counted too low exactly when the requests that were
  never settled cost more than they reserved (`Quota.UndercountsIff`), for instance after one answer without usage
  data that cost more than its reservation (`Quota.UnmeteredAnswerUndercounts`).
- Two lessons without source ids (and without a bar in their texts) share a calendar identifier exactly when day,
  subject and subgroup agree, whatever their times (`Calendar.UnidentifiedShareUidIff`).
- The bound of 300 seconds on the wait of a failed update is never reached: the wait ends at 256 seconds
  (`Inbox.DelayDoublesToItsEnd`).
- A forced digest, and a quiet evening, mark the day's digest as done although no evening summary is sent
  (`Publisher.MarkedDayStaysSilent`).
- The HTML tree builder moves the content of an element such as `br` behind it; a written document comes back
  unchanged exactly when there is none (`HtmlTree.HoistedIsSameIff`).

## Model

| member | source | states |
|---|---|---|
| LeasedQueue.AttemptsStayWithinBudget | src/szs_hub/jobs/queue.py:163-221 | at every moment of every run attempts are at most max_attempts and an open unleased row has one left |
| LeasedQueue.ClaimsCountUp | src/szs_hub/jobs/queue.py:198-221 | the claims of a row carry the attempts 1, 2, 3, … in order, under any interleaving and any clocks |
| LeasedQueue.CompletionAcceptedIff | src/szs_hub/jobs/queue.py:223-277 | a completion is accepted if and only if its holder made the claim, and nothing since claimed, finished, gave up or expired that row |
| LeasedQueue.ClosedForGood | src/szs_hub/jobs/queue.py:149-305 | a terminal row never changes again |
| LeasedQueue.AtMostOneSuccess | src/szs_hub/jobs/queue.py:223-247 | after an accepted success no completion of that row is ever accepted again |
| LeasedQueue.ClaimsAreBounded | src/szs_hub/jobs/queue.py:163-221 | over a run the number of claims equals the attempts recorded and is at most the sum of max_attempts admitted |
| LeasedQueue.LeasesExcludeEachOther | src/szs_hub/jobs/queue.py:158-277 | on one non-decreasing clock a row is claimed inside an earlier lease only after an accepted failure of that earlier claim |
| RetryPolicy.RetryDelayStartsAndEnds | src/szs_hub/jobs/queue.py:493-496 | the first retry waits the base, and from the thirty-first attempt on the wait no longer changes |
| RetryPolicy.RetryDelayGrowsWithinBounds | src/szs_hub/jobs/queue.py:493-496 | delays never shrink from attempt to attempt and stay between base and cap |
| RetryPolicy.RetryDelayDoubles | src/szs_hub/jobs/queue.py:493-496 | below the cap and the exponent bound each attempt doubles the delay |
| JobQueue.Queue.Enqueue | src/szs_hub/jobs/queue.py:93-147 | one row per key: a new row, the old one (perhaps deferred), or a conflict exactly when kind or payload differ |
| JobQueue.RowAfterEnqueue | src/szs_hub/jobs/queue.py:93-147 | an existing job changes only when it is pending, of the same key, kind and payload, and put off on request to a later time |
| JobQueue.Queue.ClaimDue | src/szs_hub/jobs/queue.py:149-221 | fails exhausted expired rows, then leases a wanted row that is due, pending ones before expired ones, the one longest due first and the smallest id among equals, or answers that none is eligible |
| JobQueue.ClaimedIsFirstInLine | src/szs_hub/jobs/queue.py:177-188 | a running row is claimed only when no wanted row is pending and due; no row of the same standing has an earlier run_at, or the same and a smaller id |
| JobQueue.IdleMeansNothingDue | src/szs_hub/jobs/queue.py:163-193 | a poll that claims nothing leaves no wanted row pending and due and none running past its lease |
| JobQueue.RowAfterPoll | src/szs_hub/jobs/queue.py:163-221 | what one poll makes of every row, in its fields: the claimed one, the exhausted ones, all others |
| JobQueue.Queue.Succeed | src/szs_hub/jobs/queue.py:223-247 | accepted exactly when this worker holds this attempt; closes the row |
| JobQueue.Queue.Fail | src/szs_hub/jobs/queue.py:249-277 | accepted exactly when this worker holds this attempt; back to pending after the retry delay, or failed on the last attempt |
| JobQueue.TransitionRefines | src/szs_hub/jobs/queue.py:93-305 | every job transaction is a step of the abstract leased queue |
| JobQueue.RunRefines | src/szs_hub/jobs/queue.py:93-305 | every run of many workers is a run of the abstract leased queue |
| JobQueue.NoConcurrentHandlers | src/szs_hub/jobs/queue.py:158-277 | on one clock a job is claimed inside an earlier lease only after an accepted failure of the earlier claim |
| JobQueue.FinishedJobsAreFrozen | src/szs_hub/jobs/queue.py:149-305 | no queue transaction writes a succeeded, failed or cancelled job again; only retention may clear the last_error of a failed one |
| JobQueue.HandlerCallsAreBounded | src/szs_hub/jobs/worker.py:49-67 | over a run handlers start at most as often as the sum of max_attempts of the jobs admitted |
| OutboxQueue.Outbox.Enqueue | src/szs_hub/jobs/queue.py:325-376 | one message per key, conflicts refused, otherwise the existing row is returned unchanged |
| OutboxQueue.Outbox.ClaimDue | src/szs_hub/jobs/queue.py:378-433 | sweeps exhausted messages, then leases one that is due, pending ones before expired ones, the earliest available_at first and the smallest id among equals |
| OutboxQueue.ClaimedIsFirstInLine | src/szs_hub/jobs/queue.py:386-400 | an expired message is claimed only when none is pending and due; none of the same standing became available earlier, or at once with a smaller id |
| OutboxQueue.RowAfterPoll | src/szs_hub/jobs/queue.py:378-433 | what one poll makes of every message, in its fields |
| OutboxQueue.Outbox.MarkSent | src/szs_hub/jobs/queue.py:435-456 | accepted exactly for the sending attempt in force; records the message id |
| OutboxQueue.Outbox.Fail | src/szs_hub/jobs/queue.py:458-479 | accepted exactly for the sending attempt in force; retried later or failed on the last attempt |
| OutboxQueue.TransitionRefines | src/szs_hub/jobs/queue.py:325-490 | every outbox transaction is a step of the same abstract queue although one column holds both kinds of instant |
| OutboxQueue.RunRefines | src/szs_hub/jobs/queue.py:325-490 | every outbox run is a run of the abstract leased queue |
| OutboxQueue.NoConcurrentSends | src/szs_hub/jobs/queue.py:378-479 | on one clock a message is given to a second sender inside a lease only after an accepted failure |
| OutboxWorker.ClaimThenReport | src/szs_hub/jobs/worker.py:96-108 | an undisturbed claim and report are accepted, spend one attempt and leave the message not sending |
| OutboxWorker.Worker.RunOnce | src/szs_hub/jobs/worker.py:96-108 | one poll is a claim and the accepted report that fits what sending did, or leaves nothing eligible |
| OutboxWorker.Worker.RunUntilIdle | src/szs_hub/jobs/worker.py:110-116 | with no new messages the busy loop stops, after at most the attempts remaining |
| JobWorker.ClaimThenReport | src/szs_hub/jobs/worker.py:49-67 | an undisturbed claim and report are accepted, spend one attempt and leave the row not running |
| JobWorker.Worker.RunOnce | src/szs_hub/jobs/worker.py:49-67 | one poll is a claim and the report that fits the handler's outcome, or leaves nothing eligible |
| JobWorker.Worker.RunUntilIdle | src/szs_hub/jobs/worker.py:69-76 | with no new work the busy loop stops, after at most the attempts remaining |
| Schedule.StableIsUnique | src/szs_hub/domain/schedule.py:174-188 | there is only one matching without a blocking pair |
| Schedule.MatchingIsUnique | src/szs_hub/domain/schedule.py:154-194 | the pairs and their order are determined by the two lesson lists, whatever the iteration order of sets |
| Matching.ChooseGreedily | src/szs_hub/domain/schedule.py:183-188 | going down the sorted candidates yields the matching without blocking pairs |
| Matching.MatchLessons | src/szs_hub/domain/schedule.py:154-194 | both passes together give the unique matching, and the unmatched lessons of each side in order |
| MatchingLaws.StartOutranks | src/szs_hub/domain/schedule.py:174-210 | an old lesson scored into a pair with a lesson at another time, although a free new lesson has its subject and start, means that this one is scored into a pair with an old lesson of its subject and start |
| MatchingLaws.MoreSharedOutranks | src/szs_hub/domain/schedule.py:174-210 | a free new lesson of the same subject that shares more of subgroup and type, the starts telling no difference, is taken by an old lesson that starts with it or shares as much |
| MatchingLaws.NearerStartOutranks | src/szs_hub/domain/schedule.py:174-210 | all else tied, a free new lesson with the nearer start is taken by an old lesson that starts with it, shares more or is no farther |
| MatchingLaws.LaterOldLessonIsServedFirst | src/szs_hub/domain/schedule.py:180-188 | of two old lessons alike but for their ids the later one is scored into a pair if the earlier one is |
| MatchingLaws.LaterNewLessonIsServedFirst | src/szs_hub/domain/schedule.py:180-188 | of two new lessons alike but for their ids the later one is scored into a pair if the earlier one is |
| ScheduleDiff.DiffSchedules | src/szs_hub/domain/schedule.py:123-151 | different groups are refused; otherwise the report of the unique matching |
| ScheduleDiff.ReportIsExact | src/szs_hub/domain/schedule.py:133-151 | a change is reported if and only if a matched pair differs in it or a lesson is unmatched |
| ScheduleDiff.ReportIsInOrder | src/szs_hub/domain/schedule.py:150-151 | changes run by day and time of the new lesson, or of the cancelled one, then by subject, then by the name of the kind |
| ScheduleDiff.SilentIff | src/szs_hub/domain/schedule.py:123-151 | nothing is reported exactly when everything is matched and matched lessons agree in every compared field |
| ScheduleDiff.SelfMatchingIsIdentity | src/szs_hub/domain/schedule.py:154-194 | with distinct ids a list is matched to itself index by index, even with many ties at the top score |
| ScheduleDiff.SelfDiffIsSilent | src/szs_hub/domain/schedule.py:123-151 | diffing a list with distinct ids against itself reports nothing |
| ScheduleDiff.SilentKeepsDaysIff | src/szs_hub/domain/schedule.py:135-147 | a silent diff keeps every lesson's day exactly when no pair found by id changed day |
| ScheduleDiff.RelocatedGoesUnreported | src/szs_hub/domain/schedule.py:135-147 | identified lessons that keep their ids and every compared field are not reported, to whatever day or subgroup they move |
| ScheduleDiff.RepeatedIdReportsItself | src/szs_hub/domain/schedule.py:162-172 | in a list compared with itself, if the last and the first lesson with an id differ in a field, that change is reported |
| RepeatedIds.AgreeingCopiesAreSilent | src/szs_hub/domain/schedule.py:154-194 | a list whose copies of an id tie in the score and whose ties agree in every compared field is silent against itself |
| ScheduleDiff.MatchingIsOneToOne | src/szs_hub/domain/schedule.py:154-194 | no lesson is in two pairs |
| ScheduleDiff.GoodScoreIsMatched | src/szs_hub/domain/schedule.py:174-188 | of two lessons scoring 70 or more at least one is matched |
| ScheduleDiff.NoSubjectBothCancelledAndAdded | src/szs_hub/domain/schedule.py:174-210 | one day never shows the same normalized subject both as cancelled and as added |
| ScheduleDiff.AgreeingEnvelopesReportNothing | src/szs_hub/schedule/ci.py:195-218 | envelopes that agree on the shared days from today on, where ids are distinct, report nothing, whatever lies outside |
| ScheduleDiff.OverlappingChanges | src/szs_hub/schedule/ci.py:195-218 | compares exactly the lessons of the shared window from today on |
| ScheduleDiff.SharedKeeps | src/szs_hub/schedule/ci.py:195-218 | a lesson is compared as often as it occurs when its day is not past and lies within both horizons, and not at all otherwise |
| SnapshotHash.ContentIgnoresOrder | src/szs_hub/domain/schedule.py:78-81 | with distinct sort keys the canonical content does not depend on lesson order |
| SnapshotHash.SameContentIff | src/szs_hub/domain/schedule.py:43-63 | two lessons have one key if and only if days, times and ids are equal and every text is after normalization |
| SnapshotHash.ContentIsInOrder | src/szs_hub/domain/schedule.py:78-81 | the hashed content holds the canonical forms by day, time, subject and source id |
| SnapshotHash.RowsComeBackInOrder | src/szs_hub/schedule/service.py:560-584 | the stored lessons come back by day, time and lesson key, none lost or invented |
| SnapshotHash.ReloadPassesIff | src/szs_hub/schedule/service.py:560-584 | a stored list passes its hash check after reloading exactly when ties stand in lesson-key order |
| SnapshotHash.TiedPairFailsInOneOrder | src/szs_hub/schedule/service.py:560-584 | of two different lessons tied on the sort key one order cannot be read back |
| ScheduleSync.LoadVersionIff | src/szs_hub/schedule/service.py:560-584 | a stored row loads exactly when its ties stand in key order, and then has the stored canonical content |
| ScheduleSync.ConfirmedIsLastFetch | src/szs_hub/schedule/service.py:292-329 | after any syncs the confirmed week, when readable, is the last successful fetch in content, time and parity; and exactly when it is readable |
| ScheduleSync.NeverFetchedIsUnconfirmed | src/szs_hub/schedule/service.py:292-329 | a week never fetched successfully is never reported as confirmed |
| ScheduleSync.MarkerDecides | src/szs_hub/schedule/service.py:292-329 | a marker that names a complete snapshot of its week decides what is confirmed |
| ScheduleSync.LastFetchedWithoutMarker | src/szs_hub/schedule/service.py:292-329 | without such a marker the complete snapshot fetched last is confirmed, at its own time and parity |
| ScheduleSync.FreshIff | src/szs_hub/schedule/service.py:679-703 | data is called fresh if and only if the last good fetch lies in the window and no check failed since, and unavailable if and only if there was none |
| ScheduleSync.FailureKeepsInv | src/szs_hub/schedule/service.py:466-497 | a failed check keeps the confirmed version of every week |
| ScheduleSync.SuccessKeepsInv | src/szs_hub/schedule/service.py:438-464 | confirming a stored version keeps the invariant for every week |
| ScheduleSync.Service.StoreSnapshot | src/szs_hub/schedule/service.py:331-388 | content-addressed: a new row only for new content, the old version otherwise, refusals as in the source |
| ScheduleSync.Service.SyncWeek | src/szs_hub/schedule/service.py:152-258 | succeeds exactly when the request is valid, the old confirmation loads and the fetch, with teacher names dropped unless retained, is storable; then the version has the fetched content, created tells whether it was new and the changes are those of a matching with the version before; a failed fetch answers the old confirmation, a refused sync changes nothing |
| WeekTemplate.ParityAlternates | src/szs_hub/schedule/spbgasu.py:535-547 | Mondays are whole weeks apart and parity alternates in both directions from the current week |
| WeekTemplate.MaterializeWeek | src/szs_hub/schedule/spbgasu.py:485-532 | one week: the placed entries sorted by day and time, or the first error in template order |
| WeekTemplate.PlacedInOneWeek | src/szs_hub/schedule/spbgasu.py:499-530 | an entry is placed in exactly one of two consecutive weeks, or in neither when its date lies outside |
| WeekTemplate.TwoWeeksAreTheEntries | src/szs_hub/schedule/spbgasu.py:485-532 | the two weeks hold every entry that belongs to them exactly once, on its own day, and nothing else |
| WeekTemplate.BuildEnvelope | src/szs_hub/publisher.py:708-740 | succeeds exactly when every entry that belongs to one of the two weeks is usable there and the weeks together hold at most 200 lessons; then each entry lands on its day of the week its parity and the published number name |
| WeekTemplate.AllEntriesLand | src/szs_hub/schedule/spbgasu.py:485-547 | with an odd number the first week holds the numerator entries and the second the denominator ones, with an even number the reverse, each on the Monday plus its weekday; dated entries on their date |
| WeekTemplate.BothWeeksIff | src/szs_hub/schedule/spbgasu.py:485-532 | both weeks materialize if and only if every entry that lands in them has a known slot and a subject |
| WeekTemplate.EnvelopeIdsDistinct | src/szs_hub/schedule/spbgasu.py:514-529 | a template whose entries differ in what ids are hashed from gives an envelope of distinct ids |
| WeekTemplate.TwinEntriesReportThemselves | src/szs_hub/schedule/spbgasu.py:514-529 | a week materialized from two entries that differ only in what is not hashed differs from itself |
| WeekTemplate.SameIdMovesByWeeks | src/szs_hub/schedule/spbgasu.py:496-529 | two materialized lessons with one id lie a whole number of weeks apart |
| WeekTemplate.RenumberedWeeksGoUnreported | src/szs_hub/publisher.py:720-732 | with the week number corrected by one every lesson of an undated template of distinct ids moves by a week and the comparison reports nothing, provided no lesson falls on a weekday already past |
| WeekTemplate.OneLessonIsEnough | src/szs_hub/schedule/spbgasu.py:485-532 | any undated lesson with a subject and a known slot makes such a template, so the silent move happens |
| Reminders.DueReminder | src/szs_hub/schedule/ci.py:424-476 | the decision at one tick, from the lessons, the clock and the remembered markers |
| Reminders.MorningReminderIff | src/szs_hub/schedule/ci.py:465-476 | the reminder of the first lesson is due in the two hours before it and only while not remembered |
| Reminders.BreakReminderIff | src/szs_hub/schedule/ci.py:441-463 | the reminder of the next lesson is due from a quarter of an hour before the end of one that has started until the next one starts, only while not remembered, where lessons do not overlap it |
| Reminders.RemindersNameTheFuture | src/szs_hub/schedule/ci.py:424-476 | every reminder names a slot of that day that has not started and is the next one to start |
| Reminders.SameCandidateBetween | src/szs_hub/schedule/ci.py:440-470 | between two ticks with the same pending reminder every tick has that reminder pending |
| Reminders.NoReminderTwice | src/szs_hub/schedule/ci.py:424-476 | over any non-decreasing ticks with a fixed envelope no marker is sent twice, although only 100 are kept, for any number of slots |
| Publisher.Bridge.PublishDispatched | src/szs_hub/publisher.py:414-587 | refuses exactly the stale envelopes; otherwise sends a prefix of the planned messages and moves the baseline only after all of them |
| Publisher.WhenNoticed | src/szs_hub/publisher.py:496-530 | the planned messages hold one notice of the changes, in quiet mode of the urgent ones, exactly when there are any |
| Publisher.UrgentIff | src/szs_hub/schedule/ci.py:484-501 | urgent are the changes of other kinds than teacher and type whose lesson, old or new, starts within 24 hours |
| Publisher.WhenSummed | src/szs_hub/schedule/ci.py:221-229 | the evening summary is planned exactly from eight o'clock on a day not marked yet, outside quiet mode and without a forced digest |
| Publisher.WhenReminded | src/szs_hub/publisher.py:554-567 | the due reminder is planned exactly outside quiet mode |
| Publisher.InWhichOrder | src/szs_hub/publisher.py:470-567 | the card comes first, then notice, summary and reminder, each at most once |
| Publisher.WhatIsStored | src/szs_hub/publisher.py:568-581 | what a finished run leaves as baseline, marked day and cards |
| Publisher.Bridge.PublishDueReminder | src/szs_hub/publisher.py:590-665 | refreshes an existing card and sends a due reminder; never touches baseline or digest day |
| Publisher.WhatATickSends | src/szs_hub/publisher.py:590-665 | the card exactly when there is one, the due reminder exactly outside quiet mode |
| Publisher.Bridge.LoadState | src/szs_hub/schedule/ci.py:141-174 | a missing or damaged state file reads as a first run |
| Publisher.BaselineOnlyAdvances | src/szs_hub/publisher.py:459-466 | unless the state file is lost in between, an accepted envelope is never accepted again and the baseline never goes back in time |
| Publisher.AcceptedEnvelopesAreChained | src/szs_hub/publisher.py:470-581 | consecutive accepted envelopes are compared with each other and what is found is sent before the baseline moves; after a loss of the state file the later one reports nothing |
| Publisher.MarkedDayStaysSilent | src/szs_hub/schedule/ci.py:221-229 | once a completed run marked a day, no later run of that day sends the evening summary, unless the state file is lost in between |
| Publisher.SummaryTwiceMeansInterrupted | src/szs_hub/publisher.py:532-581 | a summary repeated on one day means the earlier run was interrupted or the state file was lost since |
| Publisher.RemindersAreRemembered | src/szs_hub/publisher.py:560-581 | a reminder is sent only if not remembered, and a completed run remembers it last |
| Publisher.ReminderTwiceMeansForgotten | src/szs_hub/publisher.py:554-661 | over any runs and envelopes, a reminder sent twice means the earlier run was interrupted, the state file was lost since, or at least 100 others were recorded since |
| LineFolding.FoldLine | src/szs_hub/schedule/calendar.py:105-122 | splits a line between code points into chunks that fit and are as long as possible |
| LineFolding.LongLinesAreCut | src/szs_hub/schedule/calendar.py:105-122 | a line of at most 75 octets is unchanged, a longer one is cut before the first code point that exceeds them |
| LineFolding.Utf8ReadsBack | src/szs_hub/schedule/calendar.py:112-112 | the octets counted for a character are those UTF-8 decodes to it |
| LineFolding.FoldedTextIsUnique | src/szs_hub/schedule/calendar.py:105-122 | those rules leave only one folded text for a line |
| LineFolding.FeedReadsBack | src/szs_hub/schedule/calendar.py:46-46 | unfolding and splitting a feed gives back exactly its logical lines |
| LineFolding.PhysicalLinesFit | src/szs_hub/schedule/calendar.py:105-122 | every physical line of a feed has at most 75 UTF-8 octets and whole code points |
| TextEscape.EscapeIsOnePass | src/szs_hub/schedule/calendar.py:95-102 | the chain of replacements equals a one-pass TEXT encoder |
| TextEscape.EscapedTextReadsBack | src/szs_hub/schedule/calendar.py:95-102 | the TEXT decoder returns the text with LF for CRLF |
| TextEscape.EscapedHasNoLineFeed | src/szs_hub/schedule/calendar.py:95-102 | nothing escaped can end a line |
| Calendar.RenderCalendar | src/szs_hub/schedule/calendar.py:14-46 | the text is the folded feed of the calendar's lines, lessons in sorted order |
| Calendar.FeedRoundTrip | src/szs_hub/schedule/calendar.py:46-46 | any well-formed name and value lines are recovered from the feed |
| Calendar.CalendarReadsBack | src/szs_hub/schedule/calendar.py:14-83 | a client reads the header and one event for every lesson, and no line exceeds 75 octets |
| Calendar.FeedShowsEveryText | src/szs_hub/schedule/calendar.py:49-92 | every summary, place and description can be decoded from the feed |
| Calendar.FeedShowsEveryLesson | src/szs_hub/schedule/calendar.py:49-83 | every lesson is one run of lines with its identifier, the time of the fetch, its start, its end and its subject |
| Calendar.FeedShowsTheName | src/szs_hub/schedule/calendar.py:19-45 | the constant lines frame the feed and the calendar's name decodes to the group's |
| Calendar.EventsAreInOrder | src/szs_hub/schedule/calendar.py:40-43 | events stand by day, start, folded subject and source id |
| Calendar.PlaceOfALesson | src/szs_hub/schedule/calendar.py:86-92 | room, building or both around a middle dot |
| Calendar.NotesOfALesson | src/szs_hub/schedule/calendar.py:60-66 | a line each for type, teacher and subgroup, those and no others |
| Calendar.TextsOfALesson | src/szs_hub/schedule/calendar.py:60-92 | a lesson always has a summary line, and a place and a description exactly as far as there is one |
| Calendar.FeedUidsDistinct | src/szs_hub/schedule/calendar.py:50-57 | lessons with distinct source ids have distinct identifiers in the feed |
| Calendar.UnidentifiedShareUidIff | src/szs_hub/schedule/calendar.py:50-57 | lessons without source ids and without a bar in their texts share an identifier if and only if day, folded subject and folded subgroup agree |
| Inbox.FailureKeeps | src/szs_hub/telegram/runtime.py:129-148 | recording a failure keeps the inbox consistent and touches no other row |
| Inbox.DelayDoublesToItsEnd | src/szs_hub/telegram/runtime.py:147-148 | the wait doubles from two seconds up to 256 at the eighth failure and stays there |
| UpdatePump.DurableUpdatePump.InitialOffset | src/szs_hub/telegram/runtime.py:52-55 | one past the highest stored id, or none for an empty inbox |
| UpdatePump.DurableUpdatePump.Admit | src/szs_hub/telegram/runtime.py:70-81 | inserts exactly the unknown ids of a batch, all or nothing, and counts them |
| UpdatePump.DurableUpdatePump.PollOnce | src/szs_hub/telegram/runtime.py:57-68 | the offset moves past the highest id only with the batch stored |
| UpdatePump.DurableUpdatePump.RecordProcessedUpdate | src/szs_hub/storage/inbox.py:48-81 | the first outcome of an update is kept, a second one is refused |
| UpdatePump.DurableUpdatePump.RecordFailure | src/szs_hub/telegram/runtime.py:129-148 | counts the failure, postpones the update or gives it up at the last attempt |
| UpdatePump.DurableUpdatePump.ProcessOne | src/szs_hub/telegram/runtime.py:104-127 | one attempt on an open update, nothing on any other |
| UpdatePump.DurableUpdatePump.ProcessReady | src/szs_hub/telegram/runtime.py:83-102 | attempts the earliest ready updates in order, none skipped below the limit |
| UpdatePump.EarliestFirst | src/szs_hub/telegram/runtime.py:83-102 | picked updates wait and are due, stand by arrival and id, and one is passed over only when the pass is full of earlier ones |
| PollingProtocol.NoUpdateIsLost | src/szs_hub/telegram/runtime.py:52-81 | across crashes and restarts every issued update is on the server or in the inbox with its payload |
| PollingProtocol.NeverLostIff | src/szs_hub/telegram/runtime.py:52-81 | in any run an issued update survives every continuation if and only if it was issued above every id then stored or held |
| PollingProtocol.HeldBatchLosesLateId | src/szs_hub/telegram/runtime.py:57-68 | a run from the empty state in which an id issued below a held batch, with no offset in force, is lost |
| PollingProtocol.OutcomeIsFinal | src/szs_hub/storage/inbox.py:48-81 | an admitted update gets at most one terminal outcome |
| PollingProtocol.FailedAfterExactlyMaxAttempts | src/szs_hub/telegram/runtime.py:129-148 | failed means exactly max_attempts recorded failures, open means fewer |
| ImportPlanner.PlanImport | src/szs_hub/archive/telegram_desktop.py:120-188 | found = planned + duplicates + failures, keys distinct and new, counters and date range as in the report |
| ImportPlanner.PlannedIsFirst | src/szs_hub/archive/telegram_desktop.py:145-164 | every planned message is the first record with its key |
| ImportPlanner.NoKeyForgotten | src/szs_hub/archive/telegram_desktop.py:145-164 | every parsed record's key is planned or was known |
| Archive.LiveRowsKeepTheirFacts | src/szs_hub/archive/importer.py:422-481 | merging an export never changes a fact of a live message, and merging again changes nothing |
| Archive.PersistMessage | src/szs_hub/archive/importer.py:286-341 | upserts one message with its related rows and says which rows are new |
| Archive.ImportedRow | src/szs_hub/archive/importer.py:422-481 | every imported message that was absent or an export row ends with its own sender, name, times, type, reply and forward; its text is the row's text without a file and the caption with one |
| Archive.FilledRow | src/szs_hub/archive/importer.py:422-481 | a live row keeps what it has; an empty field is filled from the message, text and caption by whether there is a file |
| Archive.ImportedFile | src/szs_hub/archive/importer.py:484-518 | what the attachment of an imported message holds |
| Archive.ImportedUser | src/szs_hub/archive/importer.py:344-366 | every sender is a user afterwards, seen from the earliest to the latest of the messages, before and in the import |
| Archive.ImportedName | src/szs_hub/archive/importer.py:344-366 | a known name is never replaced; without one the first non-empty name of the user's messages is taken |
| Archive.ImportedTopic | src/szs_hub/archive/importer.py:369-392 | a topic of an imported message exists and dates from the earliest message in it |
| Archive.ImportedAlbum | src/szs_hub/archive/importer.py:395-419 | an album of an imported message exists and dates from its earliest message |
| Archive.PersistedAllEffect | src/szs_hub/archive/importer.py:286-341 | with distinct keys every message ends up merged into its initial row, indexed, with its file |
| BatchRun.OneMoreBatch | src/szs_hub/archive/importer.py:207-224 | one more batch from where the last one ended continues the fold over the items |
| BatchRun.AdvancedKeepsExact | src/szs_hub/archive/importer.py:206-224 | however many batches commit, the data stays what the items before the cursor make of the start |
| Importer.TelegramImporter.Run | src/szs_hub/archive/importer.py:165-245 | refusals and finished runs change nothing; else the batches up to the first transaction that does not commit, and the status that follows |
| Importer.FirstCallImportsAll | src/szs_hub/archive/importer.py:165-245 | a first call whose transactions all commit imports every message once, in as many batches as needed, none empty |
| Importer.OtherPlanIsRefused | src/szs_hub/archive/importer.py:247-284 | a stored run is refused if and only if it was stored for another chat or number of messages |
| Importer.ImportIsExactlyOnce | src/szs_hub/archive/importer.py:206-284 | after any failures, restarts and batch sizes the archive is the first next_index messages persisted once each; succeeded means all |
| Importer.InvocationsAreExactlyOnce | src/szs_hub/archive/importer.py:165-284 | any calls on one database, by importers of any batch size and with any failures, form such a history, so the archive is the first next_index messages persisted once each |
| Importer.SucceededRunsAgree | src/szs_hub/archive/importer.py:206-284 | two histories that succeeded agree on the archive and every counter |
| Importer.CountersCountNewRows | src/szs_hub/archive/importer.py:710-720 | created plus updated is next_index and each created counter is the number of keys absent before |
| Reconciliation.Reconcile | src/szs_hub/archive/importer.py:561-623 | the evidence counts, looked up in chunks of 400 |
| Reconciliation.CompleteIff | src/szs_hub/archive/importer.py:134-141 | the counts agree exactly when no planned message misses row, document, file or reply |
| Reconciliation.CompletedImportReconciles | src/szs_hub/archive/importer.py:561-623 | after a completed import the evidence is complete exactly when no planned key was a live row with another reply target |
| Membership.MembershipStore.ApplyChatMemberUpdate | src/szs_hub/telegram/membership_store.py:54-93 | the whole new state and the disposition of an explicit update |
| Membership.MembershipStore.ObserveMessageSender | src/szs_hub/telegram/membership_store.py:95-149 | the whole new state and the disposition of a message |
| Membership.ObservedIsSound | src/szs_hub/telegram/membership_store.py:243-258 | active means joined and not left, left or kicked means left_at is checked_at; updated means changed |
| Membership.ReportedStatus | src/szs_hub/telegram/membership_store.py:225-240 | every reported status, a restricted user by whether it is said to be a member |
| Membership.ReplaySettles | src/szs_hub/telegram/membership_store.py:54-149 | any delivery ends checked at the latest time, with the status of one of the explicit updates of that time, or in the group if only messages carry it |
| Membership.DeliveriesAgree | src/szs_hub/telegram/membership_store.py:54-149 | any two deliveries of the same observations are checked at the same time and agree on the active bit if the explicit updates of that time agree on it |
| Membership.ActiveIsSettledIff | src/szs_hub/telegram/membership_store.py:84-93 | the active bit is the same for every delivery if and only if the explicit updates of the latest time agree on it |
| Membership.JoinedAndRemovedInOneSecond | src/szs_hub/telegram/membership_store.py:88-93 | two explicit updates of one second whose two orders end in the group and out of it |
| Membership.StatusIsSettledIff | src/szs_hub/telegram/membership_store.py:84-147 | the full status is the same for every delivery if and only if the explicit updates of the latest time all give one status, and there is one or no update gives a role |
| Quota.DailyQuota.Reserve | src/szs_hub/ai/quota.py:57-101 | refuses in the order of the checks without a change, or books day, month and user |
| Quota.AcceptedIffItFits | src/szs_hub/ai/quota.py:57-91 | in any run a request is accepted if and only if its day, month and user have room for it, counted over the reservations made |
| Quota.DailyQuota.Reconcile | src/szs_hub/ai/quota.py:103-120 | replaces the reservation by the metered use in the day and the month |
| Quota.CountersAreTheLedger | src/szs_hub/ai/quota.py:57-120 | after any run every day, month and user counter is the sum of its reservations' charges |
| Quota.NothingIsClipped | src/szs_hub/ai/quota.py:115-118 | a reservation not yet settled is still in its counters, so the lower bound of zero never acts |
| Quota.LimitsHold | src/szs_hub/ai/quota.py:63-91 | requests stay within every limit, tokens exceed one at most by what requests cost beyond their reservations |
| Quota.MonthIsTheSumOfItsDays | src/szs_hub/ai/quota.py:93-120 | a month's counters are the sums of its days', also when settled after midnight |
| Quota.DayIsTheSumOfItsUsers | src/szs_hub/ai/quota.py:83-93 | with the per-user limit on, a day's requests are the sum of its users' |
| Quota.UndercountsIff | src/szs_hub/ai/quota.py:31-32 | a day or month counter minus the real cost is what unsettled requests reserved minus what they cost; it undercounts if and only if they cost more than they reserved |
| Quota.CrashesNeverUndercount | src/szs_hub/ai/quota.py:31-32 | if no unsettled request cost more than its reservation, no day or month counter is below the real cost |
| Quota.UnmeteredAnswerUndercounts | src/szs_hub/ai/quota.py:138-155 | an accepted request that costs more than its reservation and is never metered makes an exact day undercount |
| Quota.LimitedProvider.Chat | src/szs_hub/ai/quota.py:130-155 | reserve, ask, settle with the metered use: the refusal, or the state after both transactions, or after the first if the provider raises |
| Quota.ChatSettlesOnce | src/szs_hub/ai/quota.py:138-155 | the two transactions of a request are steps of a run in which its reservation is settled once |
| HtmlTree.ScheduleHtmlParser.HandleStartTag | src/szs_hub/schedule/spbgasu.py:121-129 | the new node becomes the last child of the stack's top and, unless void, the new top |
| HtmlTree.ScheduleHtmlParser.HandleEndTag | src/szs_hub/schedule/spbgasu.py:134-138 | cuts the stack below its highest entry with the tag, never the root |
| HtmlTree.StepKeepsValid | src/szs_hub/schedule/spbgasu.py:107-141 | for any event the stack stays a root-to-node path of last children that holds the root |
| HtmlTree.WhereTextGoes | src/szs_hub/schedule/spbgasu.py:107-141 | text after a start tag goes into the new element, or beside it for the six kinds that take no content |
| HtmlTree.SelfClosingIsStartThenEnd | src/szs_hub/schedule/spbgasu.py:125-132 | a self-closing tag is a start tag followed by its end tag |
| HtmlTree.WrittenDocumentReadsBack | src/szs_hub/schedule/spbgasu.py:107-141 | reading a written document gives it back, content of void elements moved behind them |
| HtmlTree.HoistedIsSameIff | src/szs_hub/schedule/spbgasu.py:108-129 | it comes back unchanged exactly when no void element has content |
| HtmlTree.HoistingKeepsText | src/szs_hub/schedule/spbgasu.py:637-646 | no text is lost or moved by that |
| HtmlTree.NodeText | src/szs_hub/schedule/spbgasu.py:637-646 | the explicit-stack text is the recursive left-to-right text, white space normalized, and the loop ends |
| HtmlTree.FirstIsFirstOfAll | src/szs_hub/schedule/spbgasu.py:614-634 | the search for one node finds the first of all nodes with the class |
| Whitespace.NormalizedTwice | src/szs_hub/schedule/spbgasu.py:646-646 | normalizing a text twice changes nothing more |
| Whitespace.NormalizedKeepsWords | src/szs_hub/schedule/spbgasu.py:646-646 | normalizing a text keeps its words |
| Whitespace.SpaceSeparates | src/szs_hub/schedule/spbgasu.py:646-646 | the words of two texts with white space between them are the words of both |
| Whitespace.StripCutsTheEnds | src/szs_hub/schedule/calendar.py:62-91 | trimming removes the white space at both ends and nothing else |

## Left out

- Transport, rendering of messages, settings, access checks, attendance, materials and document extraction: foreign calls or presentation.
- Storage engine: transactions are atomic and unique keys hold; locking, migrations and full-text search are not modelled.
- Float rounding: match scores and retry delays are exact numbers.
- Parsers: dates, JSON, base64 and the reading of lessons out of the HTML tree (`_parse_schedule_html`) are parameters or absent.
- Importer.TelegramImporter.Run: the files behind an export, two importers at work on one run at once, and live messages arriving between two batches are not modelled; raised exceptions and failed transactions are both a transaction that does not commit.
- ImportPlanner.PlanImport: the parsing of one record is not modelled.
- Archive.PersistMessage: rows are found by their natural keys instead of surrogate ids; document contents, topic names and ingestion times are not modelled.
- UpdatePump.DurableUpdatePump.ProcessReady: no second worker takes the same update between selection and attempt; the run theorems of PollingProtocol allow any interleaving of attempts.
- PollingProtocol.NoUpdateIsLost: the retention job, which clears the payload and the error texts of old processed updates and deletes no inbox row, is not modelled.
- JobQueue.Queue.Enqueue: identifiers, created_at and updated_at columns are not modelled; error codes are texts.
- ScheduleSync.Service.SyncWeek: the change rows kept for history (`store_changes`) are not modelled, and the fetch is given with its week already materialized.
- Calendar.CalendarReadsBack: the constant lines before and after the calendar's name are a parameter required to be single lines; hashes, dates and case folding are parameters.
- Publisher.Bridge.PublishDispatched: the group checks, the legacy text payload and the calendar file are not modelled; the message id of the card is what the request answers.
- Reminders.NoReminderTwice: assumes completed saves and one envelope; Publisher.ReminderTwiceMeansForgotten covers interruptions and changing envelopes.
- HtmlTree.ScheduleHtmlParser.HandleStartTag: nodes live in a sequence and refer to each other by position instead of object references.
- Membership.MembershipStore.ApplyChatMemberUpdate: user name, language and bot flag are one profile text.
- Quota.DailyQuota.Reserve: one transaction at a time, as the database serializes them.
