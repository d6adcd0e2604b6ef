# Verified model of a job-search backend

This project models the stateful core of a job-search backend (TypeScript, NestJS, Prisma on
PostgreSQL, Redis, BullMQ) and proves what its protocols promise. `dafny verify dfyconfig.toml`
checks everything.

| file | what it models |
|---|---|
| `Ordering.dfy` | strict orders, sorting, filtering; sorted listings are unique |
| `JobSearchKeyset.dfy` | the seven job orders and their cursor predicates under SQL's three-valued logic |
| `KeysetWalk.dfy` | following cursors over tables that change between pages, for any order |
| `JobListing.dfy` | the job listing endpoint; notifications and tracker list as further instances |
| `Sessions.dfy` | refresh-token families: login, rotation, replay, bulk revocation, the guard |
| `Outbox.dfy` | the job outbox: dispatcher, at-least-once queue, acknowledgements, reaper |
| `AlertWorker.dfy` | interleaved and failing deliveries of the alert evaluation worker |
| `Tracker.dfy` | the application tracker's optimistic concurrency and stage history |
| `MatchEvaluator.dfy`, `MatchBriefs.dfy` | the match evaluator and the revision-keyed cache in front of it |
| `Profile.dfy`, `Onboarding.dfy` | candidate saves, the skill sync, onboarding transitions |
| `Radar.dfy`, `RadarEnrichment.dfy` | radar ranking, snapshot paging, match briefs in chunks |
| `RateLimit.dfy` | the fixed-window limiter over time, with cache outages |
| `Ingestion.dfy`, `Recovery.dfy` | persisting provider jobs, the page loop, crash and restart equivalence |
| `Normalizer.dfy`, `BackfillScript.dfy` | location normalisation and the script that redoes it |

The pattern is the same throughout. What a database call does to the rows is a function; classes
with fields hold the rows and their methods do the writes step by step, each proved equal to that
function; runs of these functions, with every read outside a transaction as a step of its own, are
what the theorems are about.

Assumptions, stated once. Each `$transaction` and each single statement is atomic and serialised.
Hashes (SHA-256, HMAC) are injective and cursors decode to what was encoded. Unique indexes refuse
duplicates. Ids are compared byte by byte, which agrees with `localeCompare` on the lower-case
alphanumeric ids in use. Clocks, random tokens, ids, write failures and outages are parameters.

What the code does not do, found on the way and proved as exact conditions:

* A backfill restarted with `restart` and killed before its first checkpoint leaves the old
  checkpoint in place; a plain run resuming from there can end with rows of older records
  (`Recovery.CarelessRestartRevertsRows`, with concrete records `Recovery.RenamedCompanyIsReverted`).
  Every schedule ends right if and only if what the first page writes stands in the feed or is
  written again by the last page (`Recovery.EveryScheduleEndsRightIffFirstPageStands`). Outbox
  events are right even then.
* Completing onboarding with no record goes from "not started", as shown to the client, straight to
  completed, which the transition table does not allow (`Onboarding.ShownStatusFollowsTable`).
* The limiter admits up to 2 * limit - 1 requests in a window's length, and, failing open, any
  request whose TTL read fails (`RateLimit.TwiceTheLimitIsAttained`, `RateLimit.FailOpenAdmitsOverLimit`).
* A tracker update that changes stage and lifecycle together writes a second history entry from the
  old stage (`Tracker.UpdateKeepsChain`, as a run `Tracker.MoveAndArchiveBreaksChain`); a re-track
  restore can record a stage that is no longer current (`Tracker.RetrackKeepsChain`, as a run
  `Tracker.StaleRetrackBreaksChain`).
* A FAILED outbox event becomes PROCESSED if and only if a late worker finishes with it
  (`Outbox.FailedBecomesProcessedIffWorkerFinishes`, as a run `Outbox.LateWorkerRun`).
* Learning more about a job can lower its alignment, by the counts in
  `MatchEvaluator.UnknownCanHideALowerAlignment`; so can a raise that starts above the candidate's
  stated maximum (`MatchEvaluator.RaiseLowersAlignmentIff`).
* With a cursor, the job search sends its count query the cursor's parameters too, which the text
  of that query does not mention (`JobListing.SearchJobIds`).

## Model

| member | source | states |
|---|---|---|
| JobSearchKeyset.OrderByIsStrictTotal | backend/src/modules/jobs/jobs-search.repository.ts:430-515 | each of the seven ORDER BY clauses, mixed directions and NULLS LAST included, is a strict total order on rows with different ids |
| JobSearchKeyset.SortsMeanWhatTheySay | backend/src/modules/jobs/jobs-search.repository.ts:430-515 | each sort in terms of the job's own columns: by which column, in which direction and with missing values where it decides, and what it falls back to |
| JobSearchKeyset.CursorMeansStrictlyAfter | backend/src/modules/jobs/jobs-search.repository.ts:557-696 | for each sort, the predicate built from a page's last row is True under three-valued logic exactly on the rows strictly after that row in the ORDER BY |
| JobSearchKeyset.CursorDecidesEveryRow | backend/src/modules/jobs/jobs-search.repository.ts:557-696 | no null in a sort column ever makes the predicate Unknown: every row is kept or left out by a definite truth value |
| JobSearchKeyset.CursorLeavesOutRowsUpToLast | backend/src/modules/jobs/jobs-search.repository.ts:557-696 | of the other rows it leaves out exactly those before the last row |
| JobSearchKeyset.QueryParams.Push | backend/src/modules/jobs/jobs-search.repository.ts:562-564 | a pushed value gets the placeholder number that refers to it |
| JobSearchKeyset.QueryParams.BuildSecondaryTimestampCursor | backend/src/modules/jobs/jobs-search.repository.ts:532-555 | the generated fragment has the truth value of the shared publishedAt, discoveredAt, id tail on every row, with its placeholders in scope |
| JobSearchKeyset.QueryParams.BuildNullableHead | backend/src/modules/jobs/jobs-search.repository.ts:581-690 | the deadline and salary fragments, built tail first, have the intended truth value on every row, also when the last row had no leading value |
| JobSearchKeyset.QueryParams.BuildCursorCondition | backend/src/modules/jobs/jobs-search.repository.ts:557-696 | the condition built by pushing parameters evaluates, on every row, to the cursor's truth value; earlier parameters are left in place and at least one is added |
| KeysetWalk.WalkIsIncreasing | backend/src/modules/jobs/jobs.service.ts:22-57 | over tables that change arbitrarily between pages, what a walk shows is strictly increasing in the sort order, so nothing is shown twice |
| KeysetWalk.WalkShowsSurvivorOnce | backend/src/modules/jobs/jobs.service.ts:22-57 | for any order: a row that is in every table with an unchanged key is shown exactly once by a finished walk |
| KeysetWalk.FrozenWalkIsFullSort | backend/src/modules/jobs/jobs.service.ts:22-57 | for any order: on a frozen table the walk finishes and its pages concatenate to the full sort of what is left |
| JobListing.OrderByIsStrictWeak | backend/src/modules/jobs/jobs-search.repository.ts:430-515 | each job order is a strict weak order even across versions of the same row |
| JobListing.JobWalkShowsSurvivorOnce | backend/src/modules/jobs/jobs.service.ts:22-57 | for all seven sorts, any inserts, deletes and updates between pages and any page sizes: a job that stays with unchanged sort columns is shown exactly once |
| JobListing.FrozenJobWalkIsFullSort | backend/src/modules/jobs/jobs.service.ts:22-57 | for all seven sorts, on a frozen table the pages are the full sorted list and the walk ends |
| JobListing.JobListShowsSurvivorOnce | backend/src/modules/jobs/jobs.service.ts:22-77 | the same with the second fetch: a job with unchanged sort columns that is there at every fetch is shown exactly once by a finished walk, whatever happens to the others |
| JobListing.FrozenJobListIsFullSort | backend/src/modules/jobs/jobs.service.ts:22-77 | with the second fetch: on a frozen table the pages shown concatenate to the fully sorted list |
| JobListing.ClampLimit | backend/src/modules/jobs/jobs.service.ts:23-23 | the page size lies in 1..50, is 20 by default, and is the given limit when that is in range |
| JobListing.SelectAfter | backend/src/modules/jobs/jobs-search.repository.ts:46-52 | running the generated fragment keeps exactly the rows strictly after the row the cursor was made from, in their order |
| JobListing.SearchJobIds | backend/src/modules/jobs/jobs-search.repository.ts:35-90 | the ids found are the first limit + 1 rows, sorted, after the row the cursor was made from; both queries are sent the same parameters, more than the filters' own exactly if there is a cursor |
| JobListing.Hydrate | backend/src/modules/jobs/jobs.service.ts:59-71 | the data's ids are the page's ids in order without those that are gone, and each entry is the row stored under its id |
| JobListing.List | backend/src/modules/jobs/jobs.service.ts:22-77 | a page shows, in order, the rows now stored under the ids of the next `limit` rows, jobs deleted meanwhile left out, with a cursor for the last of them exactly when more exist; a cursor of another sort is refused |
| StampedFeed.BoundaryMeansAfter | backend/src/modules/notifications/notifications.service.ts:56-72 | the two-clause timestamp and id boundary leaves out exactly the cursor's row and the rows listed before it |
| StampedFeed.FeedWalkShowsSurvivorOnce | backend/src/modules/notifications/notifications.service.ts:56-99 | a notification whose timestamp and id stay put is shown exactly once by a finished walk; the tracker list uses the same boundary |
| StampedFeed.FeedWalkIsNewestFirst | backend/src/modules/notifications/notifications.service.ts:56-99 | over any changes between pages later times come first, and of equal times the larger id |
| Sessions.AtMostOneLiveSessionPerFamily | backend/src/auth/auth.service.ts:82-130 | over every interleaving of logins, refresh reads, refresh transactions, bulk revocations and guard touches, a token family has at most one unrevoked session |
| Sessions.DeadFamilyStaysDead | backend/src/auth/auth.service.ts:106-126 | a family without an unrevoked session never gets one again |
| Sessions.NewRowNeedsLiveFamily | backend/src/auth/auth.service.ts:106-126 | a step adds at most one row, and only to an unused family or to one with a live session |
| Sessions.ReplayKillsFamilyForGood | backend/src/auth/auth.service.ts:93-100 | once a replayed token has been read, then after its revocation step the whole family stays dead for the rest of the run, whatever ran in between |
| Sessions.ReplayIsNoticed | backend/src/auth/auth.service.ts:88-100 | presenting the refresh token of any revoked session is answered by revoking its family |
| Sessions.ReplacementLinksGoForward | backend/src/auth/auth.service.ts:121-124 | replacedBy links lead strictly forward in creation order within one family, so they are acyclic |
| Sessions.GuardNeverOutlivesLogin | backend/src/auth/auth.guard.ts:27-33 | the guard admits no session of a family later than its login time plus the refresh lifetime, however often it was rotated |
| Sessions.LogoutKillsFamilyForGood | backend/src/auth/auth.service.ts:132-164 | with any other requests between its lookup and its write, and after it, a logout leaves the family it read dead for good |
| Sessions.OnlyOwnFamilyIsSpared | backend/src/auth/auth.service.ts:243-276 | likewise a password change or a sign-out of the others: of the families live at the write exactly the caller's survives, other users keep theirs, and what was killed stays dead |
| Sessions.RevokedSessionStaysOut | backend/src/auth/auth.service.ts:333-371 | likewise the revocation of one session: whether or not its listing showed the family, it is not among the user's live ones afterwards nor ever after, and no other family is lost |
| Sessions.AuthService.CreateLoginSession | backend/src/auth/auth.service.ts:432-449 | a login adds one live session in a family of its own, or nothing when a token clashes; its refresh token will be rotated until the lifetime ends and its access token is let in until it runs out, while the user is active |
| Sessions.AuthService.BeginRefresh | backend/src/auth/auth.service.ts:88-103 | rotation is decided exactly if the token is that of an unrevoked, unexpired session of an active user, family revocation exactly if its session is revoked, refusal exactly otherwise |
| Sessions.AuthService.RevokeReusedFamily | backend/src/auth/auth.service.ts:93-100 | the replay branch leaves the family dead and touches nothing else |
| Sessions.AuthService.FinishRotation | backend/src/auth/auth.service.ts:106-126 | the rotation transaction rechecks; on success the predecessor was live, is revoked and linked to the one new row; the new refresh token will be rotated exactly until the predecessor's expiry, the new access token is let in exactly until it runs out or that expiry, the predecessor's refresh token is taken for a replay |
| Sessions.AuthService.FindFamily | backend/src/auth/auth.service.ts:136-150 | the family is that of the access token's session, or of the refresh token's when there is no access token or no session has it; none exactly if neither is known |
| Sessions.AuthService.HasLiveFamily | backend/src/auth/auth.service.ts:337-352 | the listing shows the family exactly if the user has a live session in it |
| Sessions.AuthService.RevokeWhere | backend/src/auth/auth.service.ts:361-364 | the one statement behind every bulk revocation: exactly the selected families leave the live ones, and the count is the number of rows changed |
| Sessions.AuthService.Logout | backend/src/auth/auth.service.ts:132-164 | undisturbed: a logout by access token, or by refresh token when there is none or no session has it, leaves that session's family dead; with neither known nothing changes |
| Sessions.AuthService.ChangePassword | backend/src/auth/auth.service.ts:243-276 | undisturbed: of the user's live families exactly the current one survives; other users are untouched |
| Sessions.AuthService.RevokeSession | backend/src/auth/auth.service.ts:333-371 | undisturbed: exactly the named family leaves the user's live families; the flag says whether it was the caller's own |
| Sessions.AuthService.RevokeOtherSessions | backend/src/auth/auth.service.ts:373-392 | undisturbed: exactly the caller's family survives, the count is the number of rows revoked, and a missing session row is an error that changes nothing |
| Sessions.AuthService.LogoutAll | backend/src/auth/auth.service.ts:394-401 | no live family of the user is left, other users are untouched |
| Sessions.AuthService.CanActivate | backend/src/auth/auth.guard.ts:12-58 | a request is let in exactly with an unrevoked, unexpired session of an active user whose access token has not run out; only the use stamp is written, when it is over 15 minutes old |
| Sessions.LiveAfterRevoke | backend/src/auth/auth.service.ts:361-364 | a bulk revocation removes exactly the selected rows' families from the live ones |
| Outbox.PendingBatch | backend/src/modules/alerts/job-outbox-dispatcher.service.ts:25-37 | the dispatch query returns at most n pending unlocked events, the oldest ones, and all of them when fewer than n |
| Outbox.StalledBatchFacts | backend/src/modules/alerts/job-outbox-dispatcher.service.ts:80-92 | the reaper query returns distinct stalled unlocked events, all of them when fewer than 100, otherwise those touched least recently |
| Outbox.NextOnEvent | backend/src/modules/alerts/job-outbox-dispatcher.service.ts:25-130 | what each step can do to a single event: dispatch, retry, fail or acknowledge, and nothing else |
| Outbox.ReachableEventsAreAccounted | backend/src/modules/alerts/job-outbox-dispatcher.service.ts:25-130 | in every reachable state attempts never exceed the maximum, FAILED means attempts are used up, and committed dispatches are at most attempts + 1 |
| Outbox.ProcessedIsForGood | backend/src/modules/alerts/alert-evaluation.processor.ts:308-313 | PROCESSED is never left, even with late workers, rollbacks and the reaper |
| Outbox.FailedBecomesProcessedIffWorkerFinishes | backend/src/modules/alerts/alert-evaluation.processor.ts:308-313 | in every reachable state a FAILED event becomes PROCESSED in a step if and only if the step is a worker finishing with it; every other step leaves it as it is |
| Outbox.LateWorkerRun | backend/src/modules/alerts/job-outbox-dispatcher.service.ts:100-125 | it happens, for every limit on attempts: an event that stalls until it is FAILED becomes PROCESSED when one of its workers finishes after all |
| Outbox.MovesAreBounded | backend/src/modules/alerts/job-outbox-dispatcher.service.ts:25-130 | over any run an event makes at most as many committed dispatch and reap moves as its remaining measure |
| Outbox.NewEventMovesBounded | backend/src/modules/alerts/job-outbox-dispatcher.service.ts:25-130 | a new event makes at most 2 * (maxAttempts + 1) committed dispatch and reap moves |
| Outbox.JobOutboxDispatcher.DispatchPendingEvents | backend/src/modules/alerts/job-outbox-dispatcher.service.ts:18-63 | event by event: those of the batch are queued, marked PROCESSING and dated now, or on a rollback only queued; all others stay; a running dispatch makes the call a no-op |
| Outbox.JobOutboxDispatcher.ReapStalledEvents | backend/src/modules/alerts/job-outbox-dispatcher.service.ts:76-135 | event by event: of those stalled and unlocked, the ones with attempts left go back to PENDING with one more attempt and the others fail with an error, dated now; all others stay, and the counts are theirs |
| Outbox.SplitByAttempts | backend/src/modules/alerts/job-outbox-dispatcher.service.ts:96-108 | the loop puts each id in exactly one of the two lists, by whether its attempts are used up |
| AlertWorker.CleanFinishSettlesJob | backend/src/modules/alerts/alert-evaluation.processor.ts:168-306 | over every interleaving of deliveries and write failures from the empty tables, a delivery that ends without a failed write leaves every candidate alert fully dealt with, and the job's rows stay the same in every continuation |
| AlertWorker.SettledJobNeverChanges | backend/src/modules/alerts/alert-evaluation.processor.ts:230-306 | once dealt with, no later or still running delivery changes any match, notification or e-mail row of the job |
| AlertWorker.CleanDeliveryGivesExactRows | backend/src/modules/alerts/alert-evaluation.processor.ts:230-306 | after a clean delivery there is a match exactly for the matching alerts, with the status evaluated for one of them, a notification exactly for those with an in-app channel, an e-mail exactly for those wanting one, each linked |
| AlertWorker.IdsAreAssignedOnce | backend/src/modules/alerts/alert-evaluation.processor.ts:232-272 | even before any clean delivery there is at most one match, notification and e-mail per alert and job, with its first id for good |
| AlertWorker.AlertEvaluationProcessor.CreateNotification | backend/src/modules/alerts/alert-evaluation.processor.ts:258-288 | the notification block is the corresponding steps of a delivery: a notification once per key unless its write fails, named by the match exactly if both writes succeed and the match is there; nothing else changes |
| AlertWorker.AlertEvaluationProcessor.QueueImmediateEmail | backend/src/modules/alerts/alert-evaluation.processor.ts:360-403 | the e-mail block is the corresponding steps of a delivery: an e-mail once per key, on the queue, named by the match, each exactly as far as the writes succeed; nothing else changes |
| AlertWorker.AlertEvaluationProcessor.EvaluateAlert | backend/src/modules/alerts/alert-evaluation.processor.ts:168-303 | one round of the loop is the corresponding steps of a delivery; for a match written it leaves the match with its status, notification, e-mail and time stamp exactly as wanted and as far as each write succeeds, one failure not keeping the next from being tried |
| AlertWorker.AlertEvaluationProcessor.Process | backend/src/modules/alerts/alert-evaluation.processor.ts:163-316 | a delivery run by itself keeps all rows, settles the job if nothing failed, changes nothing if it was settled, counts its matches, and acknowledges only its own event |
| Tracker.NoLostUpdate | backend/src/modules/tracker/tracker.service.ts:388-537 | with reads and conditional writes as separate steps, at most one update or delete per application and expected revision succeeds, it overwrites exactly the row it read, and the stage checked is the stage replaced |
| Tracker.WriteSucceedsIffRowUntouched | backend/src/modules/tracker/tracker.service.ts:435-450 | a pending update or delete goes through exactly when the row is still the one it read, field by field |
| Tracker.HistoriesFollowTheTable | backend/src/modules/tracker/tracker.service.ts:299-306 | every history starts with the creation entry; each later one is an identity or an allowed transition from a stage entered before |
| Tracker.TransitionsByTarget | backend/src/modules/tracker/tracker.service.ts:21-42 | from which stages each stage can be reached |
| Tracker.OfferComesAfterInterview | backend/src/modules/tracker/tracker.service.ts:21-42 | no history enters OFFER before INTERVIEWING unless the application was entered as an offer |
| Tracker.OneApplicationPerJob | backend/src/modules/tracker/tracker.service.ts:254-274 | over all interleavings a user has at most one application per job |
| Tracker.UpdateKeepsChain | backend/src/modules/tracker/tracker.service.ts:452-472 | an update continues the history chain exactly when stage and lifecycle do not both change; the last entry is the current stage either way |
| Tracker.MoveAndArchiveBreaksChain | backend/src/modules/tracker/tracker.service.ts:452-472 | from the empty table: a new application moved and archived in one update ends with two entries from the old stage, no chain |
| Tracker.RetrackKeepsChain | backend/src/modules/tracker/tracker.service.ts:277-306 | a re-tracking restore continues the chain exactly when the stage it read is still current |
| Tracker.StaleRetrackBreaksChain | backend/src/modules/tracker/tracker.service.ts:277-306 | from the empty table: a re-track that read the stage before another update moved it ends with an entry for a stage that is not current, no chain |
| Tracker.PlainRunsKeepChains | backend/src/modules/tracker/tracker.service.ts:277-472 | in runs whose writes meet those two conditions every history is a gapless path to the current stage |
| Tracker.TrackerService.BeginUpdate | backend/src/modules/tracker/tracker.service.ts:388-411 | not found exactly if the user does not own the row, conflict exactly if owned at another revision, refused exactly for a transition the table lacks; otherwise the write it prepares would go through at once |
| Tracker.TrackerService.FinishUpdate | backend/src/modules/tracker/tracker.service.ts:413-489 | exactly when owner and revision still match, each column sent has its new value and every other its old one, likewise stage and lifecycle, the revision is the next one, and the history gains one entry for a changed stage and one for a changed lifecycle; no other row changes |
| Tracker.TrackerService.BeginDelete | backend/src/modules/tracker/tracker.service.ts:508-522 | not found exactly if the user does not own the row, conflict exactly if owned at another revision; otherwise the delete it prepares would go through at once |
| Tracker.TrackerService.FinishDelete | backend/src/modules/tracker/tracker.service.ts:524-536 | the conditional delete removes the row exactly when owner and revision still match, and no other row changes |
| Tracker.TrackerService.BeginCreate | backend/src/modules/tracker/tracker.service.ts:218-335 | not found exactly for an unknown job; a tracked job leads to a restore if archived and to "already tracked" if not, exactly if some row tracks it; refused exactly without any title; otherwise a new row as requested, and what it prepares would go through at once |
| Tracker.TrackerService.FinishCreate | backend/src/modules/tracker/tracker.service.ts:277-379 | the restore makes whatever row is there now active, one revision on, with one more history entry and nothing else changed; the creation adds the row exactly if the user does not track the job yet |
| Tracker.TrackerService.SetLifecycle | backend/src/modules/tracker/tracker.service.ts:494-506 | archive and restore succeed exactly for the owner at the current revision and change only lifecycle, revision and history of that row |
| MatchEvaluator.EvaluationSeesOnlyVersionAndSlug | backend/src/modules/matching/job-match-version.ts:4-21 | two jobs with the same version payload and slug get the same brief, so the version covers all that evaluation looks at |
| MatchEvaluator.TitleVerdict | backend/src/modules/matching/match-brief-evaluator.service.ts:79-97 | when the title is a match, a partial match, a gap or unknown, by the target titles that are not blank |
| MatchEvaluator.SeniorityVerdict | backend/src/modules/matching/match-brief-evaluator.service.ts:99-109 | a level of the job on the candidate's rung is a match, one a rung away a partial match; a principal stands with the leads, a director with the managers |
| MatchEvaluator.EmploymentVerdict | backend/src/modules/matching/match-brief-evaluator.service.ts:111-118 | the employment type is a match exactly if it is listed, and unknown exactly if either side says nothing |
| MatchEvaluator.WorkModeVerdict | backend/src/modules/matching/match-brief-evaluator.service.ts:120-126 | which preferences accept which work mode, and that the verdict follows them |
| MatchEvaluator.CompensationVerdict | backend/src/modules/matching/match-brief-evaluator.service.ts:128-144 | pay in the same currency and period is a gap exactly if it ends below the minimum, a match exactly if it starts at or above the minimum and not above the maximum |
| MatchEvaluator.BriefMeans | backend/src/modules/matching/match-brief-evaluator.service.ts:21-72 | status, coverage and primary reason follow from how many of the five findings match, match partially or are gaps, and from which comes first |
| MatchEvaluator.BriefLists | backend/src/modules/matching/match-brief-evaluator.service.ts:21-72 | up to three strengths, gaps and unknowns are named, the first of each, with the revision and version they come from |
| MatchEvaluator.BetterDimensionNeverLowersAlignment | backend/src/modules/matching/match-brief-evaluator.service.ts:33-45 | doing better in a comparable dimension, or an unknown one turning out a match, never lowers the alignment status |
| MatchEvaluator.UnknownCanHideALowerAlignment | backend/src/modules/matching/match-brief-evaluator.service.ts:33-45 | for every list of findings and every unknown one in it, whether a partial match or a gap in its place lowers the status is decided exactly by the counts of matches, partial matches and gaps |
| MatchEvaluator.StatingTheWorkModeLowersIff | backend/src/modules/matching/match-brief-evaluator.service.ts:18-45 | for whole briefs: a job that states its work mode at last gets a lower status exactly if the candidate does not accept the mode and the other dimensions have those counts |
| MatchEvaluator.StrongAlignmentCanBeLost | backend/src/modules/matching/match-brief-evaluator.service.ts:33-45 | for concrete facts: learning of an excluded work mode, or of pay that only partly suffices, turns a strong alignment into a partial one |
| MatchEvaluator.HigherPayHurtsIffAboveMaximum | backend/src/modules/matching/match-brief-evaluator.service.ts:136-143 | raising a job's pay worsens its compensation verdict if and only if it was a match and the pay now starts above the candidate's maximum |
| MatchEvaluator.RaiseLowersAlignmentIff | backend/src/modules/matching/match-brief-evaluator.service.ts:21-45 | for whole briefs: a raise lowers the status if and only if, in addition, the counts of matches, partial matches and gaps cannot spare that match |
| MatchEvaluator.RaiseCanLoseStrongAlignment | backend/src/modules/matching/match-brief-evaluator.service.ts:33-45 | for concrete facts: a raise above the stated maximum turns a strong alignment into a partial one |
| MatchBriefs.EveryAnswerIsFresh | backend/src/modules/matching/match-briefs.service.ts:48-92 | over every run of profile saves, job changes, cache reads, partial writes, evictions, damage and outages, each answer equals, apart from calculatedAt and in request order, the fresh evaluations of all listed jobs of the requested slugs as they were at one moment of the run, against the profile version that was current at an earlier moment |
| MatchBriefs.AnswersAreFresh | backend/src/modules/matching/match-briefs.service.ts:62-76 | a coherent cache answers as recomputation would |
| MatchBriefs.StepKeepsInv | backend/src/modules/matching/match-briefs.service.ts:139-197 | every step keeps each readable cache entry equal to the evaluation its key names |
| MatchBriefs.FreshDistributes | backend/src/modules/radar/radar.service.ts:292-298 | evaluating in slices and joining is evaluating the whole list |
| MatchBriefs.MatchBriefsService.ReadSummaryCache | backend/src/modules/matching/match-briefs.service.ts:143-173 | hits are exactly the readable cached entries, misses exactly the other jobs in order; all jobs when the cache is down |
| MatchBriefs.MatchBriefsService.EvaluateMisses | backend/src/modules/matching/match-briefs.service.ts:66-72 | adds a fresh evaluation of every miss, leaves the hits, and collects one write per miss |
| MatchBriefs.MatchBriefsService.WriteCache | backend/src/modules/matching/match-briefs.service.ts:186-197 | stores exactly the collected entries, or nothing when the cache is down |
| MatchBriefs.MatchBriefsService.Respond | backend/src/modules/matching/match-briefs.service.ts:75-75 | brief by brief, the answers are those of the known slugs in the order of the request |
| MatchBriefs.MatchBriefsService.EvaluateBatch | backend/src/modules/matching/match-briefs.service.ts:48-76 | a repeated slug is refused; otherwise, slug by slug in the order of the request, the stored brief is answered if it can be read and an evaluation if not, and the cache gains an evaluation for every job missed and no other entry changes |
| Profile.SyncSkills | backend/src/modules/profile/profile.service.ts:181-234 | column by column, the first input of each name sets display name, mark and, if given, years, and the source stays; rows of other sources stay, other declared rows are gone, one row per name |
| Profile.Dedupe | backend/src/modules/profile/profile.service.ts:186-197 | the deduplicated list holds the first input of each non-empty normalised name, each name once |
| Profile.SyncIsIdempotent | backend/src/modules/profile/profile.service.ts:181-234 | sending the same skill list again changes nothing |
| Profile.SyncIsDetermined | backend/src/modules/profile/profile.service.ts:181-234 | rows and input determine the outcome |
| Profile.OtherSourcesSurvive | backend/src/modules/profile/profile.service.ts:201-208 | a parsed or inferred skill keeps its row and source under any list |
| Profile.OmittedYearsAreKept | backend/src/modules/profile/profile.service.ts:226-231 | years of experience that a request leaves out stay as stored, years it gives, null included, replace them |
| Profile.SaveCandidateData | backend/src/modules/profile/profile.service.ts:83-179 | a save goes through exactly for the current revision and adds one to it; each column and preference given has its new value and every other its old one; skills follow the list if there is one |
| Onboarding.AutosaveIsAtomic | backend/src/modules/onboarding/onboarding.service.ts:120-204 | an autosave succeeds exactly when both revisions are current and onboarding is not completed; then both rows move by one revision, otherwise neither changes |
| Onboarding.ExistingRecordFollowsTable | backend/src/modules/onboarding/onboarding.service.ts:11-32 | an existing record changes only along the transition table, one revision at a time |
| Onboarding.ShownStatusFollowsTable | backend/src/modules/onboarding/onboarding.service.ts:384-402 | the status shown to a client breaks the table in exactly one case: completing with no record, from not started straight to completed |
| Onboarding.CompletedIsForGood | backend/src/modules/onboarding/onboarding.service.ts:11-16 | completed onboarding stays completed over every run |
| Onboarding.RevisionIsSpentOnce | backend/src/modules/onboarding/onboarding.service.ts:289-468 | after a success with an expected revision no later operation with the same one succeeds |
| Onboarding.OnboardingService.AutosaveTransaction | backend/src/modules/onboarding/onboarding.service.ts:120-268 | accepted exactly if both revisions are current and onboarding is not completed; then step and completed steps are the draft's where given, the candidate's columns likewise; a refusal leaves both rows untouched |
| Onboarding.OnboardingService.FinishTransaction | backend/src/modules/onboarding/onboarding.service.ts:289-456 | accepted exactly at the current revision and from a status that allows it; then the record has the new status, date and revision, and after completing the review step with all steps done |
| RadarRanking.CompareRankIsTotal | backend/src/modules/radar/radar-ranking.service.ts:73-88 | in both modes the comparator is antisymmetric and ties only on equal ids |
| RadarRanking.CompareRankIsTransitive | backend/src/modules/radar/radar-ranking.service.ts:73-95 | the nine-key comparator is transitive, null deadlines last included |
| RadarRanking.RankOrderIsStrictTotal | backend/src/modules/radar/radar-ranking.service.ts:73-95 | in both modes it is a strict total order on items with different ids |
| RadarRanking.RankIsSorted | backend/src/modules/radar/radar-ranking.service.ts:25-70 | the ranked list has every candidate, in the order of the comparator, numbered 1..n |
| RadarRanking.RankPutsTheBetterFirst | backend/src/modules/radar/radar-ranking.service.ts:25-152 | of two items the earlier is the candidate that should come first, key by key from the candidates' own facts: open before closed, stronger alignment, more evidence, more surely eligible, fewer preferences missed, untracked, fresher, sooner deadline, smaller id; or just fresher, then smaller id |
| RadarRanking.RankListsEveryCandidate | backend/src/modules/radar/radar-ranking.service.ts:25-70 | apart from the rank, the listed items are exactly those of the candidates |
| RadarRanking.RankIgnoresArrivalOrder | backend/src/modules/radar/radar-ranking.service.ts:25-70 | permuting the candidates does not change the ranked list |
| RadarRanking.PreOrderKeepsTheFirst | backend/src/modules/radar/radar-ranking.service.ts:8-12 | the pre-order keeps min(max, n) candidates, and everything kept has a lower query rank than everything cut off, or is fresher, or has the larger id |
| RadarRanking.SnapshotIgnoresArrivalOrder | backend/src/modules/radar/radar.service.ts:138-196 | the whole snapshot does not depend on the order in which the database returned the candidates |
| RadarRanking.SnapshotShowsTheKept | backend/src/modules/radar/radar.service.ts:138-196 | the snapshot shows a candidate exactly if it is among the first of the pre-order and passes the filter |
| RadarRanking.SnapshotPutsTheBetterFirst | backend/src/modules/radar/radar.service.ts:138-196 | and in the order in which candidates should come |
| RadarFeed.LookupFindsLastIndex | backend/src/modules/radar/radar.service.ts:216-226 | the (id, rank) lookup lands on the previous page's last index |
| RadarFeed.PagesTileTheSnapshot | backend/src/modules/radar/radar.service.ts:35-63 | for any sequence of positive limits, following the cursors shows the remaining items once each in rank order and ends exactly when nothing is left |
| RadarFeed.FeedShowsTheWholeSnapshot | backend/src/modules/radar/radar.service.ts:35-63 | from the first page on, whatever the limits, the pages run through the ranked candidates from the best one without gap or repetition, and the feed ends exactly when all have been shown |
| RadarFeed.PageIsContinuationOrGone | backend/src/modules/radar/radar.service.ts:198-226 | a follow-up page exists exactly while the snapshot is cached and user and query match, and it continues that very snapshot |
| RadarFeed.RadarService.FirstPage | backend/src/modules/radar/radar.service.ts:35-63 | the first page is the head of the ranked snapshot, with a cursor exactly when it was cached and more is left |
| RadarFeed.RadarService.Continue | backend/src/modules/radar/radar.service.ts:198-226 | answered exactly if engine version, user and query match, the snapshot is cached and holds the item the cursor ends at; then with the items after that one, and a cursor exactly if more are left; else the 410 answer |
| RadarFeed.Chunked | backend/src/modules/radar/radar.service.ts:292-298 | for an evaluation that treats slugs one by one, the flattened chunks are the evaluation of the whole list, in ceil(n / 50) chunks |
| RadarEnrichment.Enrich | backend/src/modules/radar/radar.service.ts:147-152 | match briefs asked for in chunks of fifty and joined are the fresh briefs of the whole list, in ceil(n / 50) chunks |
| RateLimit.WindowAdmitsExactlyTheLimit | backend/src/common/rate-limit/rate-limit.service.ts:49-78 | between a window's first hit and its expiry exactly the first `limit` requests are admitted |
| RateLimit.AtMostTwiceTheLimit | backend/src/common/rate-limit/rate-limit.service.ts:49-78 | over any mixed trace no stretch of windowSeconds sees more than 2 * limit - 1 admissions of a key; with fail-closed also under outages |
| RateLimit.AtMostTwiceTheLimitAfterAnyRun | backend/src/common/rate-limit/rate-limit.service.ts:49-110 | the same from the empty store after any earlier requests under any outages |
| RateLimit.TwiceTheLimitIsAttained | backend/src/common/rate-limit/rate-limit.service.ts:49-56 | that bound is reached for every limit |
| RateLimit.RejectedRequestsHaveNoEffect | backend/src/common/rate-limit/rate-limit.service.ts:49-70 | leaving all rejected requests out of a run, the same requests are admitted: they never extend a window |
| RateLimit.FailOpenAdmitsOverLimit | backend/src/common/rate-limit/rate-limit.service.ts:79-109 | under outages: failing open admits exactly the in-limit requests and every failed call, an over-limit one whose TTL read fails included; failing closed admits only in-limit ones |
| RateLimit.RateLimitService.Consume | backend/src/common/rate-limit/rate-limit.service.ts:42-110 | counter and expiry after the call, and which reply it gives with which numbers, case by case from what was stored and from what the cache does |
| Ingestion.IngestionService.PersistJob | backend/src/providers/job-persistence.service.ts:12-170 | a repeated location keeps nothing; else an expired record is expired, a new one created and announced, one stored with the same content hash unchanged, one with another updated, each if and only if; the rows hold the record column by column and no other row changes |
| Ingestion.SavedAgainIsUnchanged | backend/src/providers/job-persistence.service.ts:37-52 | a record saved twice in a row is unchanged the second time, and updated if its content hash has changed |
| Ingestion.SaveJobRows | backend/src/providers/job-persistence.service.ts:16-145 | the upserts before the locations come to one overriding set of rows, leaving deadline metadata alone when the record has no date |
| Ingestion.LinkLocations | backend/src/providers/job-persistence.service.ts:147-155 | the location loop fails exactly when a location repeats, else writes each location |
| Ingestion.AnnouncedExactlyOnce | backend/src/providers/job-persistence.service.ts:37-52 | over any sequence of saves a new provider record is announced exactly once if its first save was unexpired and never otherwise; a known one never |
| Ingestion.TalliesBalance | backend/src/providers/ingestion-orchestrator.service.ts:66-112 | fetched = accepted + rejected and accepted = created + updated + unchanged + expired |
| Ingestion.IngestionService.IngestRecords | backend/src/providers/ingestion-orchestrator.service.ts:78-112 | the record loop saves the records in order, and counters and the trailing run of unchanged outcomes, across pages, are exactly those of the records so far |
| Ingestion.IngestionService.Ingest | backend/src/providers/ingestion-orchestrator.service.ts:23-199 | store, counters, checkpoint and stop reason are those of the pages along the cursors from the start; every completed page was fetched and was not one without records and with failures; each of the five stop reasons holds if and only if its condition does at that page and none did before |
| Ingestion.RunIsDetermined | backend/src/providers/ingestion-orchestrator.service.ts:66-132 | that contract leaves one result only: feed, options and what was stored before determine stop reason, counters, store and checkpoint |
| Ingestion.NothingNewStopsAtThreshold | backend/src/providers/ingestion-orchestrator.service.ts:66-132 | an incremental run over unexpired records all stored with the content they have stops at its threshold, at the latest after the page by which there are enough, unless a terminal or failing page comes first; it then has only unchanged records |
| Ingestion.NewsPostponesTheThreshold | backend/src/providers/ingestion-orchestrator.service.ts:91-130 | with a record last on a page that is new, changed or expired, the run does not stop at its threshold there |
| Recovery.BackfillSurvivesCrashes | backend/src/providers/ingestion-orchestrator.service.ts:32-132 | a backfill killed between any two steps, cut into runs, resumed or restarted, ends at the terminal cursor with all rows and events of one uninterrupted run, as long as a restart killed before its first checkpoint is restarted again |
| Recovery.EventsSurviveAnySchedule | backend/src/providers/job-persistence.service.ts:157-165 | under any schedule at all the outbox events are those of one uninterrupted run |
| Recovery.ConsistentBackfillSurvivesAnything | backend/src/providers/ingestion-orchestrator.service.ts:32-132 | when no two records disagree about a row, every schedule ends like one uninterrupted run |
| Recovery.StandingFeedSurvivesAnything | backend/src/providers/ingestion-orchestrator.service.ts:32-132 | if each row a record of the first page writes is either what the whole feed leaves there or written again by the last page, every schedule of crashes, resumptions and restarts that completes ends like one uninterrupted run |
| Recovery.EveryScheduleEndsRightIffFirstPageStands | backend/src/providers/ingestion-orchestrator.service.ts:31-132 | that condition on the first and the last page is exact: every schedule that completes ends right if and only if the feed meets it |
| Recovery.CarelessRestartRevertsRows | backend/src/providers/ingestion-orchestrator.service.ts:31-35 | wherever a record of the first page disagrees with the feed about a row the last page does not write, a restart killed right after that record and then resumed completes with that record's row; for every feed and setting |
| Recovery.RenamedCompanyIsReverted | backend/src/providers/ingestion-orchestrator.service.ts:31-35 | for three concrete records: a company renamed between pages ends with its old name, an uninterrupted run with the new one |
| Recovery.UninterruptedBackfill | backend/src/providers/ingestion-orchestrator.service.ts:66-132 | one backfill to the terminal cursor saves all records of the feed in order |
| Recovery.ResumedRunsCompose | backend/src/providers/ingestion-orchestrator.service.ts:32-35 | a run resuming from a checkpoint continues the earlier one: together they do what one longer run does, checkpoint included |
| Normalizer.NormalizeLocationRestrictions | backend/src/providers/himalayas/himalayas.normalizer.ts:136-239 | codes are those read off the restrictions, increasing; labels and unresolved labels are what each restriction gives, once each, in the order given first; countries are the first with each code or name |
| Normalizer.KeepFirstCountries | backend/src/providers/himalayas/himalayas.normalizer.ts:222-231 | the loop keeps the first country of each code or name |
| Normalizer.NormalizeTimezoneOffsetMinutes | backend/src/providers/himalayas/himalayas.normalizer.ts:95-104 | the offsets are exactly those of the zones that parse, strictly increasing |
| Normalizer.ScopeMeans | backend/src/providers/himalayas/himalayas.normalizer.ts:106-134 | the scope says exactly whether places and whether times are restricted |
| Normalizer.NormalizingTwiceIsNormalizingOnce | backend/src/providers/himalayas/himalayas.normalizer.ts:136-239 | given coherent country tables, normalising the labels that normalising produced gives the same codes, labels and unresolved labels |
| BackfillScript.Backfill.RunBackfill | backend/src/scripts/backfill-job-country-codes.ts:24-188 | the batched loop ends, and table and metrics are those of one pass over the selected rows, for every batch size from 1 on; a dry run measures the same and writes nothing |
| BackfillScript.ProcessBatch | backend/src/scripts/backfill-job-country-codes.ts:79-171 | one batch measures its rows in order and collects exactly the updates that take the table to the batch's end |
| BackfillScript.Backfill.ApplyUpdates | backend/src/scripts/backfill-job-country-codes.ts:173-175 | the updates of a batch are applied in order |
| BackfillScript.NextBatch | backend/src/scripts/backfill-job-country-codes.ts:58-73 | the query from the last id on a half-updated table finds the next selected rows of the original one |
| BackfillScript.EverySelectedRowIsProcessed | backend/src/scripts/backfill-job-country-codes.ts:81-135 | each selected row is processed once, and the counts by outcome and by scope add up to that, for any way of counting a row once |
| BackfillScript.ReportAccountsForEveryRow | backend/src/scripts/backfill-job-country-codes.ts:81-188 | the script's own counts: every selected row once, updated and unmodified adding up, the four scopes adding up |
| BackfillScript.ReportSaysWhatWasFound | backend/src/scripts/backfill-job-country-codes.ts:81-188 | how many selected rows changed and how many end in each scope, which labels stayed unresolved and which row came last |
| BackfillScript.RenormalizedColumns | backend/src/scripts/backfill-job-country-codes.ts:85-165 | each derived column is read off the payload, or off the stored columns where the payload lists nothing |
| BackfillScript.RenormalizingSettles | backend/src/scripts/backfill-job-country-codes.ts:85-150 | renormalising a renormalised job changes none of the compared columns |
| BackfillScript.SecondPassUpdatesNothing | backend/src/scripts/backfill-job-country-codes.ts:137-170 | a second pass over the whole table reports no update |
| BackfillScript.SecondPassChangesNothing | backend/src/scripts/backfill-job-country-codes.ts:137-170 | a second pass leaves the table as it is |
| Ordering.SortIgnoresArrivalOrder | backend/src/modules/radar/radar-ranking.service.ts:68-68 | sorting rows that the order tells apart gives the same list for every arrival order |
| Ordering.SortSorts | backend/src/modules/radar/radar-ranking.service.ts:68-68 | such a sort lists exactly the given rows, in increasing order |

## Left out

- Isolation below serialisable: the session rotation and the profile save check inside the transaction, not in the write's own condition; under weaker isolation their recheck could be stale.
- SQL text, full-text rank, trigram similarity, salary annualisation and facets: each row has an abstract rounded rank and annual salary, and filters other than the cursor are a given subset of rows.
- JobListing.SearchJobIds: whether the database driver accepts more parameters than a query's text mentions, as the count query (`jobs-search.repository.ts:76`) gets with a cursor, is not modelled; the count itself is left out.
- Query hashes in cursors, HMAC signatures, base64url and JSON encoding.
- The eligibility service and its cache, whose key lacks the time zone.
- Password checks, e-mail tokens, cookies, audit rows and login rate limits around the session protocol.
- The e-mail worker, suppression, digests and the queue's forgetting of finished job ids.
- AlertWorker.AlertEvaluationProcessor.Process: starts from the candidate alerts and their evaluation results; the SQL prefilter, the job lookup and the early return for an unknown job are not modelled.
- MatchBriefs.EveryAnswerIsFresh: a stored text that parses to something other than a brief, such as `null`, is not modelled; entries are either what was written or unparsable.
- MatchEvaluator: labels and explanations shown to the user are left out of the findings; text operations are parameters.
- Profile: upper-casing and trimming of single columns and the user's time zone; columns are a map overridden by the given ones.
- Tracker: job deletion setting an application's job to null, and column-wise trimming.
- RadarFeed: hydration of a page, which drops jobs deleted since the snapshot, saved and tracked flags, warnings and the summary.
- RadarEnrichment.Enrich: all chunks see the same candidate and jobs; that one failing chunk drops all briefs, with a warning, is left out.
- RateLimit.RateLimitService.Consume: the rounding of Redis' time-to-live to seconds is a parameter.
- Ingestion: watermarks, failure lists and run records; `lastSeenAt` and `observedState`, which a save treats differently on update; a transient failure of one save, which drops that record until the next backfill.
- Recovery.BackfillSurvivesCrashes: the feed answers the same page for the same cursor and the clock stands still between the runs compared; the terminal page has no next cursor, as in the adapter in use.
- Normalizer.NormalizingTwiceIsNormalizingOnce: the ISO tables are not part of this model; that they are coherent is its hypothesis.
- BackfillScript.Backfill.RunBackfill: other writers changing the table during the script.
- The resume pipeline, controllers, DTO validation, configuration, storage, virus scanning, the Python parser and the React frontend.
