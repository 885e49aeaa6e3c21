# Verification of the bulk-mail sender

A Dafny model of the parts of the application that decide who is mailed, how often and how fast, with proofs of what
they promise. `dafny verify dfyconfig.toml` checks everything.

The system sends campaigns. Materializing a campaign puts one row per contact on the recipient ledger; any number of
workers run `send_one` on the rows, each under a Redis lock, through a validation transaction (Phase 1), rate limiter
and daily caps (Phase 2), the call to Postal (Phase 3) and a recording transaction (Phase 4). Webhooks report
deliveries and bounces afterwards. A planner creates the runs of recurring campaigns, an importer fills the contact
table, and templates are rendered with merge tags.

| file | what it holds |
|---|---|
| `Text.dfy` | strings, white space, the normal form of an address |
| `Ledger.dfy` | rows, campaigns, counters, suppressions; the transactions as functions; the invariant they keep |
| `Webhook.dfy`, `EventEffects.dfy` | webhook events on the ledger; redelivery; what each event does in the payload's own terms |
| `Database.dfy` | the same transactions as methods that update tables in place, proved equal to the functions |
| `Protocol.dfy` | all of it as a state machine: workers, scheduler, operators and webhooks interleaving freely |
| `AtMostOnce.dfy`, `SendBounds.dfy`, `PoolPath.dfy`, `FrequencyRule.dfy`, `SkippedCounter.dfy` | theorems over every run of that machine |
| `Scenarios.dfy` | runs in which an assumption of those theorems does not hold, and what goes wrong |
| `SendOne.dfy` | `send_one` from lock to `finally`; each of its statements is a step of the machine |
| `TokenBucket.dfy`, `Watch.dfy`, `SendRates.dfy` | the rate limiter: one atomic take, WATCH/MULTI/EXEC with expiring keys, and the two limits on messages |
| `CsvImport.dfy`, `Merge.dfy`, `Planner.dfy` | the batched import, merge tags, calendar cells and run creation |

Every database transaction and every Redis command is one atomic step. What a step learns from outside, such as the
answer of an unordered query, Postal's reply, or a setting, is a parameter, so a theorem holds for every answer. In the
protocol time is counted in microseconds; in the rate limiter time and tokens are reals.

## What was found

* A Postal acceptance happens at most once per row as long as no worker on a row that is not settled outlives its
  180-second lock and none dies between acceptance and commit (`AtMostOnce.AcceptedAtMostOnce`). Both are needed: the
  lock has no owner and simply lapses (`Scenarios.LapsedLockAllowsTwo`), and a row whose worker died is still pending
  (`Scenarios.CrashAllowsTwo`). Either happens to a new installation with two workers and its first message
  (`Scenarios.AcceptedTwiceFromStart`).
* `skipped_count` exceeds the skipped rows by exactly the rows that were sent or failed when the campaign was last
  materialized; it is right if and only if there were none (`SkippedCounter.SkippedCountInRuns`,
  `RecipientLedger.RecountGoesWrong`).
* The frequency rule holds if no run is materialized for a contact that a sibling run has pending; two such rows can be
  sent and recorded at the same moment (`FrequencyRule.SendsAreSpaced`, `Scenarios.SiblingsDefeatTheRule`).
* Among webhooks alone, a redelivered event changes no row, counter, log entry or suppression
  (`Webhook.RedeliveryInvisible`). When sends go on in between, a copy acts if and only if it now finds a row and its
  event is not logged, that is, if the event first came before its own message was committed
  (`Protocol.CopyActsWhen`, `Webhook.EarlyEventIsNotAbsorbed`).
* A redelivered event changes the status of a contact if and only if it changes the reason its address was suppressed
  for last: for example a bounce and a complaint about a message that is not on the ledger, in either order, and then
  the first of them again (`Webhook.RedeliveryShowsInContact`, `Webhook.RedeliveryCanFlipContact`).
* The rate bound counts a send when its client reads the clock. Counted at the EXEC, exactly one more can fall into a
  window (`Watch.RateBoundByExec`, `Watch.OneMoreByExecHappens`).
* The import counts every row once exactly when no flush of a batch failed. A failed batch stays pending, so a contact
  the database refuses is never got rid of: the upload raises if and only if some row is the first of the file with a
  new address and its contact is refused, or the last flush meets an outage. What is committed then ends before the
  first refused row, and good rows after it are lost, although one row is never meant to fail an upload
  (app/services/csv_import.py:201; `CsvImport.Directory.ImportIntoList`, `CsvImport.GoodRowIsLost`).
* The planner task (app/tasks/planner.py:3-6) promises at most one run per calendar day. For a campaign that holds of
  every history of dispatched dates if and only if its runs land on all dates whose cells it is placed on, in the
  installation's time zone (`Planner.OneRunPerDay`). Dispatching one date any number of times makes exactly one run if
  and only if no run, of this or another date, is dated that day yet and the run lands on it, or it is tried only once
  (`Planner.ExactlyOneRun`). A run that lands on another day serves that day instead of its own
  (`Planner.AdjacentDaysShareARun`).
* From one month to the next a cell fires after 28 days, inside the default frequency interval of 30, or after 35. It is
  28, after a month of any length, for the cells whose day of the month four weeks on is still in their week of the
  new month, and for all cells after a month of 28 days (`Planner.ConsecutiveFirings`).
* DECISIONS.md says that soft and temporary bounces suppress an address too; the code defers them, and the model
  follows the code (`Webhook.DeferralIsNotBounce`).

## Model

| member | source | states |
|---|---|---|
| `Text.NormalFormIsStable` | app/services/normalize.py:17-24 | normalizing an address twice is normalizing it once |
| `Text.NormalFormOf` | app/services/normalize.py:17-24 | the normal form is the text without the white space around it, letter by letter in small letters, and exists iff there is an `@` in it |
| `Text.WordIsRead` | app/services/bounce.py:44 | trimming and lowering gives a word iff the text reads as it up to letter case and white space around it |
| `RecipientLedger.Suppress` | app/services/suppression.py:45-69 | the address is suppressed afterwards, every earlier suppression stands as it was, and nothing else is added |
| `RecipientLedger.IneligibleExactly` | app/services/frequency.py:21-33 | a contact is ineligible if and only if its last send of the recurring campaign is not older than the interval |
| `RecipientLedger.ProceedsWhen` | app/tasks/sending.py:227-278 | Phase 1 lets a row through iff it is pending, its campaign is sending and has a template, and its address is not suppressed; each part of the job comes from the row or the campaign, and the pool is the row's, else the campaign's, else `default` |
| `RecipientLedger.CountersConserved` | app/tasks/sending.py:186-200 | total = pending + sent + failed + skipped less what the last recount carried over, delivered and bounced differ by at most sent, and skipped is the skipped rows iff nothing was carried over; what is carried over is settled by `SkippedCounter.SkippedCountInRuns` |
| `RecipientLedger.RecountIsRightWhen` | app/tasks/sending.py:186-200 | after a materialization queued_count is the pending rows, the total is all rows, and skipped_count is the skipped rows iff no row was sent or failed before |
| `RecipientLedger.RecountGoesWrong` | app/tasks/sending.py:198-200 | with one row sent and one pending, materializing again reports a skipped row where there is none |
| `SkippedCounter.SkippedCountInRuns` | app/tasks/sending.py:186-200 | in every run skipped_count and the total are off by exactly the rows sent or failed at the last materialization, and right iff there were none |
| `SkippedCounter.CountersOfOrderlyCampaign` | app/tasks/sending.py:186-200 | if every materialization precedes sending, skipped_count = skipped rows and total = pending + sent + failed + skipped |
| `RecipientLedger.ResolveKeepsSound` | app/tasks/sending.py:243-248 | settling a pending row and bumping its one counter keeps all books, and completes a campaign only with nothing pending |
| `RecipientLedger.OutcomeBalances` | app/services/counters.py:15-19 | each counter increment matches exactly the row that moved |
| `RecipientLedger.AddRowsKeepsSound` | app/tasks/sending.py:160-200 | adding a snapshot and recounting keeps the books and one row per contact |
| `RecipientLedger.NothingLeftDue` | app/tasks/sending.py:136-165 | after a materialization every active pooled contact has a row |
| `RecipientLedger.MaterializeTwice` | app/tasks/sending.py:107-114 | a second materialization on the same contacts adds nothing |
| `RecipientLedger.MaterializedFor` | app/tasks/sending.py:136-181 | a contact gets a row iff it is active, on a list of the campaign and has none yet; the row is new, on the campaign's pool, without token or error |
| `RecipientLedger.MaterializePriorities` | app/tasks/sending.py:162-181 | each contact gets exactly one row: suppressed before frequency before pending |
| `Webhook.DeferralIsNotBounce` | app/services/bounce.py:38-58 | on failures and complaints deferral and bounce are exact opposites |
| `EventEffects.EventDoes` | app/services/bounce.py:70-146 | an event whose uuid is logged does nothing; else its row is delivered on the two delivery kinds, and bounced and its address suppressed on complaints, bounces and failures whose status reads hardfail, hard_fail or permanent, and otherwise status, counters, suppressions and contacts stay; without a row only the recipient's address is struck, in the same cases |
| `EventEffects.VerdictAnswers` | app/services/bounce.py:70-146 | which answer each kind and status of event gets |
| `EventEffects.BadEnds` | app/services/bounce.py:35-58 | the bounces acted on are exactly complaints, `MessageBounced`, and delivery failures and holds for good |
| `Webhook.MatchedRowEvolves` | app/services/bounce.py:116-133 | a matched row stays accepted, and becomes bounced only by an event that also suppresses |
| `Webhook.ReconcileKeepsSound` | app/services/bounce.py:70-146 | an event keeps the books: delivered and bounced counts, tokens, and bounced rows suppressed |
| `Webhook.OnlyAcceptedRowsMove` | app/services/bounce.py:79-100 | an event moves at most the matched row, and only one that has a token |
| `Webhook.AppliedIsAbsorbed` | app/services/bounce.py:61-67 | once delivered, an event with a uuid cannot act again, logged or not |
| `Webhook.AbsorbedForever` | app/services/bounce.py:61-100 | no later event revives it |
| `Protocol.LoggedForever` | app/services/bounce.py:61-67 | a logged event stays without effect on ledger and contacts whatever else happens: sends, materializations, suppressions, edits |
| `Protocol.CopyActsWhen` | app/services/bounce.py:61-100 | after anything that may happen since an event was first received, a copy leaves the ledger alone iff it finds no row or the event is logged; an event that found its row is logged |
| `Webhook.RedeliveryInvisible` | app/services/bounce.py:61-143 | copies of events, anywhere after their first delivery, leave rows, counters, log and suppressions as without them |
| `Webhook.StatusFollowsLastReason` | app/services/suppression.py:71-75 | a contact's status after any deliveries is that of the last one to suppress its address, or what it was |
| `Webhook.RedeliveryShowsInContact` | app/services/suppression.py:71-75 | with and without the copies a contact is the same iff its address was suppressed last for the same reason |
| `Webhook.RedeliveryInvisibleToContacts` | app/services/suppression.py:71-75 | in particular if no copy is a foreign failure that suppresses |
| `Webhook.RedeliveryCanFlipContact` | app/services/suppression.py:71-75 | of a foreign bounce and a foreign complaint, in either order, a copy of the first puts the contact back to its status |
| `Webhook.EarlyEventIsNotAbsorbed` | app/services/bounce.py:79-100 | an event that overtakes the commit of its message is dropped, and its copy is applied later |
| `Protocol.StepKeepsSound` | app/tasks/sending.py:219-378 | every step of worker, scheduler, operator or webhook keeps the books; rows never return to pending, tokens stay |
| `Protocol.RunKeepsSound` | app/tasks/sending.py:78-84 | in every reachable state counters balance and a completed campaign has no pending row |
| `Protocol.WriteCampaignKeepsSound` | app/models/campaign.py:54-60 | a new campaign with zero counters, and an edit that leaves the counters alone, keep the books |
| `Protocol.DispatchKeepsSound` | app/tasks/scheduler.py:37-49 | dispatching due campaigns keeps the books |
| `Protocol.SweepKeepsSound` | app/tasks/scheduler.py:70-77 | the sweep completes only campaigns with nothing pending |
| `Protocol.ScheduleKeepsSound` | app/services/campaigns.py:139-150 | rescheduling from any status, also a finished one, keeps the books |
| `Protocol.OperatorKeepsSound` | app/services/campaigns.py:153-178 | pausing, resuming and cancelling keep the books |
| `Protocol.MaterializeKeepsSound` | app/tasks/sending.py:115-200 | materializing, whatever the status and lists of the campaign, keeps the books and old rows |
| `AtMostOnce.StepKeepsExclusive` | app/tasks/sending.py:219-223 | while nobody on an unsettled row outlives its lock, no two workers hold the same unsettled row, although the lock has no owner |
| `AtMostOnce.StepKeepsAccounted` | app/tasks/sending.py:338-373 | a row's token is what Postal returned, or a single worker carries the answer and the row is pending |
| `AtMostOnce.AcceptedAtMostOnce` | app/tasks/sending.py:219-378 | at most one acceptance per row in every orderly run; with no answer in doubt, accepted once iff it has a token iff sent, delivered or bounced |
| `AtMostOnce.CommitNeverGuarded` | app/tasks/sending.py:357-373 | in orderly runs Phase 4 always finds the row pending and records the send |
| `Scenarios.LapsedLockAllowsTwo` | app/tasks/sending.py:222-223 | from two idle workers and a sendable row: the first is held up past its lock, the second takes the row, and both have it accepted |
| `Scenarios.CrashAllowsTwo` | app/tasks/sending.py:338-378 | from an idle worker and a sendable row: it dies between acceptance and commit, and the row is accepted again |
| `Scenarios.AcceptedTwiceFromStart` | app/tasks/sending.py:219-378 | either happens in a run from the start of an installation |
| `SendBounds.OvershootBounded` | app/services/rate_limit.py:131-180 | a day's counted sends stay within cap + workers - 1, for each pool and for the warming cap, across midnight |
| `SendBounds.StaleSendsBounded` | app/tasks/sending.py:226-248 | after an address is suppressed or a campaign stopped, later acceptances number at most the workers already past Phase 1 |
| `SendBounds.BouncedNeverSentAgain` | app/services/bounce.py:122-143 | the address of a bounced row is suppressed from then on, in every run, and Phase 1 lets no row of that address through in any campaign |
| `SendBounds.EverySendWasLetThrough` | app/tasks/sending.py:226-270 | every worker that may send was let through Phase 1 on a pending row of a sending campaign with a template and an unsuppressed address, with a job made of that row and campaign |
| `PoolPath.SendsThroughItsPool` | app/tasks/sending.py:162-181 | in every run, a row materialized for a campaign with pool x: each worker that sends it is checked against the cap of x and counted on x and no other pool, and once sent it is stored with x |
| `PoolPath.PhaseOneChoosesPool` | app/tasks/sending.py:257-309 | a row without a pool goes through the campaign's, and only without either through `default`: Phase 1 gives the worker that pool, whose count its cap check and its send use |
| `FrequencyRule.SendsAreSpaced` | app/tasks/sending.py:128-134 | any two recorded sends of a recurring campaign to a contact are more than the interval apart, if no sibling run has the contact pending |
| `FrequencyRule.RecordKeepsRule` | app/tasks/sending.py:369-372 | recording a send keeps the spacing |
| `Scenarios.SiblingsDefeatTheRule` | app/services/frequency.py:21-33 | from two pending sibling rows that nothing forbids to send, a run records both sends at the same moment |
| `Database.Tables.SuppressSync` | app/services/suppression.py:45-76 | commits exactly the suppression, and for the contact with the address the status that goes with each reason; reports whether it was new |
| `Database.Tables.Phase1` | app/tasks/sending.py:227-278 | decides as specified and commits the skip or failure with its counter |
| `Database.Tables.HardStop` | app/tasks/sending.py:298-304 | commits the skip of a row that is still pending, and nothing otherwise |
| `Database.Tables.PermanentFailure` | app/tasks/sending.py:349-356 | commits the failure of a row that is still pending, and nothing otherwise |
| `Database.Tables.PersistSuccess` | app/tasks/sending.py:359-373 | commits token, pool, counter and frequency record of a row that is still pending, and nothing otherwise |
| `Database.Tables.MaterializeCampaign` | app/tasks/sending.py:107-200 | the loop adds exactly a snapshot of the contacts owed a row, whatever order the query returns, and tallies it; a sending campaign without lists fails, and any other that is not sending is left alone |
| `Database.Tables.AddMissingRows` | app/tasks/sending.py:160-184 | one row per listed contact that has none, classified and tallied; other rows stay |
| `Database.Tables.DispatchDueCampaigns` | app/tasks/scheduler.py:37-49 | exactly the due campaigns become sending |
| `Database.Tables.FinalizeAndRepump` | app/tasks/scheduler.py:59-90 | exactly the sending campaigns with nothing pending are completed; exactly the stalled unmarked ones are enqueued, once per 15 minutes |
| `Database.Tables.Schedule` | app/services/campaigns.py:139-150 | campaign is scheduled for the time when valid, from any status, and nothing else changes |
| `Database.Tables.Pause` | app/services/campaigns.py:153-158 | the campaign becomes paused iff it is sending or scheduled, and reports that |
| `Database.Tables.Resume` | app/services/campaigns.py:161-168 | the campaign becomes sending iff it is paused, and reports that |
| `Database.Tables.Cancel` | app/services/campaigns.py:171-178 | the campaign becomes cancelled iff it is neither completed nor cancelled, and reports that |
| `Database.Tables.ApplyEvent` | app/services/bounce.py:70-146 | commits to rows, counters, log, suppressions and contacts what `EventEffects.Does` says of an event by its kind, status and uuid, with its answer; which is also the specification that the theorems on redelivery speak of |
| `SendOne.Mailer.SendOne` | app/tasks/sending.py:216-378 | outcome and ledger are fixed for every case: locked, stopped, rate-limited, capped, deferred, retried, rejected, sent; for the row's pool, its own, else its campaign's, else `default`: the row it leaves, held back by the cap iff that pool's count has reached it, and that pool's count moves by one, and no other, iff the message goes out; the lock is always given back; any property kept by the protocol is kept |
| `SendOne.GoesOutWhen` | app/tasks/sending.py:222-339 | a task goes out iff the lock is free, Phase 1 proceeds, limiter and caps allow and Postal accepts |
| `SendOne.TaskUsesPool` | app/tasks/sending.py:257-292 | a task that reaches the caps is held back by the daily cap iff the count of the row's pool has reached it |
| `SendOne.TaskLeavesRow` | app/tasks/sending.py:226-373 | the row a task leaves, case by case: untouched, skipped, failed with its reason, or sent with token and pool; other rows stay |
| `SendOne.TaskCompletes` | app/tasks/sending.py:243-248 | the task completes a campaign that was not, iff it was sending and the task settled its last pending row |
| `SendOne.SentIsStored` | app/tasks/sending.py:363-367 | a row that went out is sent and has Postal's token |
| `SendOne.PendingAfterTask` | app/tasks/sending.py:222-356 | exactly which outcomes leave a pending row pending |
| `SendOne.ReachableIsKept` | app/tasks/sending.py:216-378 | one property kept is to be reachable by steps of the protocol, so `send_one` is one of its runs |
| `SendOne.Mailer.CheckLimits` | app/tasks/sending.py:280-309 | rate limiter, pool cap and warming cap in turn, each with its countdown, and what each does to the row |
| `SendOne.Mailer.RecordDailySend` | app/services/rate_limit.py:150-156 | one more send on today's count of the pool, which the first one makes expire |
| `SendOne.Mailer.RecordGlobalSend` | app/services/rate_limit.py:174-180 | one more send on today's total, which the first one makes expire |
| `SendOne.CounterOutlivesItsDay` | app/services/rate_limit.py:104-107 | that expiry is an hour past midnight, less a second or plus a minute at most, so a counter lives through its day |
| `TokenBucket.RateLimiter.Acquire` | app/services/rate_limit.py:50-87 | the first pass that is not refused is one atomic take of what it found; refused passes write nothing; when all are refused the answer is one second |
| `TokenBucket.RateLimiter.Measure` | app/services/rate_limit.py:64-75 | levels, verdict and longest wait of one pass |
| `TokenBucket.WaitIsLongest` | app/services/rate_limit.py:70-75 | the hint covers every short bucket and is the wait of one of them |
| `TokenBucket.DenialCostsNothing` | app/services/rate_limit.py:77-81 | a refusal changes no later level of any bucket |
| `TokenBucket.RefillComposes` | app/services/rate_limit.py:66-68 | writing back a refilled level and refilling on is refilling once |
| `TokenBucket.RetryAfterExact` | app/services/rate_limit.py:62-81 | undisturbed, a retry after d is admitted iff d >= retry_after |
| `TokenBucket.CountdownSuffices` | app/tasks/sending.py:281-285 | for the send buckets retry_after is at most a minute, and the countdown is the least number of whole seconds, one or more, that covers it |
| `TokenBucket.SendBucketsFit` | app/services/rate_limit.py:90-101 | the two send buckets have different keys, refill in a minute and hold at least the token requested; whose rate is whose is `SendRates.SettingsBoundMessages` |
| `TokenBucket.TokensInRange` | app/services/rate_limit.py:64-79 | tokens stay between 0 and capacity |
| `TokenBucket.RateBound` | app/services/rate_limit.py:64-83 | sends admitted in any window number at most capacity + refill * length |
| `Watch.ExpiredIsFull` | app/services/rate_limit.py:80-81 | a key past its time to live would have refilled, so its absence reads the same |
| `Watch.CommitIsAtomicTake` | app/services/rate_limit.py:54-83 | with interleaved reads and expiring keys, a commit is one atomic take at its commit point; a refused EXEC changes nothing |
| `Watch.StampsNeverDecrease` | app/services/rate_limit.py:77-79 | the stored time of a key never goes back |
| `Watch.RunKeepsSound` | app/services/rate_limit.py:50-87 | what a client read of a watched key stays true until the key is visibly touched, in every run |
| `Watch.TokensStayInRange` | app/services/rate_limit.py:64-79 | every stored level is between 0 and capacity in every reachable state |
| `Watch.RateBoundOverRuns` | app/services/rate_limit.py:50-101 | the rate bound for every run of the contended protocol, expiry included, each send counted when its client read the clock |
| `Watch.RateBoundByExec` | app/services/rate_limit.py:50-101 | counted at the EXEC that admits it, capacity + refill * length and one more |
| `Watch.OneMoreByExecHappens` | app/services/rate_limit.py:59-83 | that one more does happen: a run with two sends at one instant from a bucket of one |
| `SendRates.SettingsBoundMessages` | app/services/rate_limit.py:90-101 | in every contended run, d seconds let out at most g + g*d/60 messages over all domains and r + r*d/60 to one domain, where g is the override if given and not zero, else the default, and r the domain rate, each at least 1 |
| `SendRates.LimitsAreReached` | app/services/rate_limit.py:90-101 | from an empty store, of the messages to one domain at one instant exactly the first min(g, r) are let out |
| `SendRates.VisitsCountMessages` | app/services/rate_limit.py:50-87 | a message counts on the global key and on that of its own domain, and on no other |
| `CsvImport.ImportIsExact` | app/services/csv_import.py:170-206 | row by row: the addresses afterwards are the old ones and the valid, unfiltered, unsuppressed ones of the file |
| `CsvImport.ImportAppends` | app/services/csv_import.py:116-136 | addresses stay unique, old rows untouched, nothing suppressed is added, every row is counted under one outcome |
| `CsvImport.ImportHoldsRows` | app/services/csv_import.py:170-206 | the table afterwards is the old one and then, in the order of the file, one contact for each row that is the first with its address, is not filtered, suppressed or known: with that row's names if not empty, its custom fields and the list imported into |
| `CsvImport.EveryRowIsTold` | app/services/csv_import.py:116-185 | each counter is the number of rows with that reason: no valid address, address seen before in the file, free provider, suppressed, known, imported, looked at in this order |
| `CsvImport.Directory.FlushBatch` | app/services/csv_import.py:104-136 | a batch met with two set look-ups gives what the live tables give entry by entry; a flush fails iff it meets an outage or a contact the database refuses, and then keeps the table and inflates the counts by the entries it handled |
| `CsvImport.Directory.ImportRow` | app/services/csv_import.py:170-204 | one pass of the loop stays behind the row-by-row import by exactly the pending batch and what failed flushes overcounted |
| `CsvImport.Directory.ImportIntoList` | app/services/csv_import.py:139-210 | for every batch size, also when flushes failed on the way, what is committed is the old table and one contact for each importable row up to some row, with the names, fields and list of its own row; all rows and their counts, each row under its one reason, iff no flush failed; it raises iff some row is refused or an outage meets the last flush, leaving the import of a prefix that ends before the first refused row |
| `CsvImport.FileIsRefused` | app/services/csv_import.py:170-206 | an import brings a refused contact iff some row is the first of the file with a new address that may be added and its contact is refused |
| `CsvImport.RefusedRowFailsUpload` | app/services/csv_import.py:198-206 | a refused first row meets that condition |
| `CsvImport.GoodRowIsLost` | app/services/csv_import.py:198-206 | a refused row followed by a good one, for every batch size and without outages: the upload raises and the table stays empty |
| `Merge.MatchIsExact` | app/services/merge.py:20 | a prefix is in the language of the tag expression iff the matcher finds it, so at most one end per position |
| `Merge.OneReading` | app/services/merge.py:20-28 | a body has exactly one leftmost reading as literals and tags, and printing it gives the body |
| `Merge.RenderFillsReading` | app/services/merge.py:45-61 | rendering puts the values into that reading once; tags inside values are not expanded |
| `Merge.TagsOfReading` | app/services/merge.py:26-28 | the tags found are those of the reading |
| `Merge.UnsubscribeLinkShows` | app/services/merge.py:31-85 | a template with the unsubscribe tag shows the (escaped) link whatever the custom fields are |
| `Merge.MarkupIsTheTemplates` | app/services/merge.py:6-10 | in HTML the angle brackets and quotes of the output are those of the template, in order, whatever the values are |
| `Merge.AmpersandsStartReferences` | app/services/merge.py:56-59 | an ampersand in an escaped value always begins one of the five character references |
| `Merge.EscapeRoundTrip` | app/services/merge.py:56-59 | unescaping an escaped value gives the value |
| `Merge.MessageShowsRecipient` | app/services/merge.py:45-85 | a message is its template piece by piece: literals as they are, and for each tag the recipient's address, names, link or custom field, or nothing, which in HTML reads as that value and adds no markup |
| `Planner.PositionCountsWeekdays` | app/services/planner_engine.py:32-40 | the week of a date is the number of days of its weekday so far; week-ends and fifth occurrences are idle |
| `Planner.CellFiresOnce` | app/services/planner_engine.py:32-40 | every cell fires on exactly one day of every month, in its own seven of the first 28 days |
| `Planner.GridIsCovered` | app/services/planner_engine.py:32-40 | exactly the working days up to the 28th are cells |
| `Planner.YearStarts` | app/services/planner_engine.py:32-40 | the calendar the cells are on is the Gregorian one, with its leap years |
| `Planner.ConsecutiveFirings` | app/services/planner_engine.py:32-40 | a cell fires again after 28 or 35 days, and which of them |
| `Planner.WindowLosesNothing` | app/services/planner_engine.py:68-82 | the window of -18h to +42h loses no run the date test accepts, if the zone's offset moves by at most 18 hours from midnight |
| `Planner.LandsWhen` | app/services/planner_engine.py:54-65 | a run is found again for its date iff its send time on the installation's clock is on the same day |
| `Planner.CallsCreate` | app/services/planner_engine.py:85-108 | how many runs any sequence of calls for a date makes, exactly |
| `Planner.CallsMakeRuns` | app/services/planner_engine.py:85-108 | whatever campaigns are called for, old ones stand and each new one is a run of a recurring campaign called for: scheduled, not itself recurring, with the parent's lists, content, send time and zone, and due at that time, or nine, on the date in that zone |
| `Planner.DispatchesCreate` | app/services/planner_engine.py:111-132 | how many runs n dispatches of a date make for a placed campaign, also when a run of another date is dated that day: none; else one if it lands, else n |
| `Planner.DispatchMakesRuns` | app/services/planner_engine.py:111-132 | a dispatch adds only such runs of recurring campaigns placed on the date's cell |
| `Planner.ExactlyOneRun` | app/services/planner_engine.py:111-132 | exactly one iff none is dated that day yet and the run lands, or it is tried once |
| `Planner.OneRunPerDay` | app/services/planner_engine.py:68-132 | no history of dispatched dates makes more runs than days dispatched for the campaign iff its runs land on all dates whose cells it is placed on; then each such day has exactly one |
| `Planner.LandingRunsServe` | app/services/planner_engine.py:68-132 | it is enough that they land on the dates dispatched |
| `Planner.RunServesAnotherDate` | app/services/planner_engine.py:68-92 | a run dated another day makes the call for that day create nothing |
| `Planner.AdjacentDaysShareARun` | app/services/planner_engine.py:54-92 | an hour west of the installation at half past eleven, the second of two days in a row gets no run |
| `Planner.HalfPastMidnightNeverLands` | app/services/planner_engine.py:54-82 | an hour east of the installation a run at half past midnight never lands |
| `Planner.PlannerTables.CreateRun` | app/services/planner_engine.py:85-108 | makes a run iff the campaign is recurring and has none dated that day; the run is scheduled, has the parent's lists, content, send time and zone, and is due at the parent's send time, or nine, on that date in its zone |
| `Planner.PlannerTables.DispatchPlanner` | app/services/planner_engine.py:111-132 | lists exactly the runs made, each the day's run of a recurring campaign placed on the date's cell as above; old campaigns stand |

## Left out

- HTTP to Postal, the MIME message and Postal's error codes: the call accepts with a token, fails for now, or fails for good.
- Celery and its broker: any worker may start on any row at any time, so queues, duplicates, countdowns, back-off and retries are all covered as starts; that a task is eventually started is not modelled.
- SQL isolation anomalies, the unique-constraint race in `suppress_sync`, and deletion of campaigns, lists, contacts or rows: transactions are atomic and rows stay.
- Redis failures, which the cap checks read as zero.
- Floating-point rounding in the buckets and clocks that differ between workers: reals and one monotone clock.
- Contact imports and edits during a run of the protocol are arbitrary changes of the contact table (the step `ChangeContacts`).
- The contents of messages (subject, headers, sender) and merge snapshots: rendering is modelled on its own in `Merge.dfy`, with context values as texts.
- Header detection and the splitting of CSV lines, the syntax validator and the free-provider list: the import starts from split lines and takes both checks as functions; what the database refuses is any fixed set of contacts; the samples of error texts are dropped.
- Text.NormalFormIsStable: lower-casing is that of ASCII letters, because the case rules of other alphabets are a library's.
- The time-zone database: a zone is any pair of offset functions; malformed send times are out.
- The warming ramp and the merging of planner settings: each worker reads some cap, policy and rate in Phase 1.
- Web pages, the API, authentication, tokens, statistics, preflight validation beyond the unsubscribe tag, and address verification.
- AtMostOnce.AcceptedAtMostOnce: assumes orderly runs (no lock on an unsettled row outlived, no death between acceptance and commit), because the code does not prevent either.
- SendOne.Mailer.SendOne: nothing else runs between its statements; that others may is what `Protocol.dfy` is for, which has the outcome of a row that vanished meanwhile as well.
- FrequencyRule.SendsAreSpaced: speaks of recorded sends with one fixed interval, because the interval is read once per materialization.
- Planner.DispatchesCreate: like the other theorems on runs, speaks of dispatches one after the other; two dispatches that overlap in time can both miss the other's run.
