# A verified model of the practice's jobs, billing and messaging core

The firm's back office runs on four connected mechanisms, and this project models each in Dafny and
proves what it promises for every input, every run and every reachable state.

- **The job queue.** A Postgres table that any number of workers claim from under a lease, report
  back to and crash on; the runner that drives it; the daily sweep that puts the next one on the
  queue; the sweeps that warn about expiring documents and chase stuck projects; and the outbox that
  delivers events at least once.
- **Billing.** Time entries become statement lines, an approved statement becomes an invoice under
  the next number of the firm's sequence, and the invoice is paid, chased or cancelled. Quotations
  are drafted, sent once, opened and answered through a client's link, or left to lapse. Every use
  case is one unit of work, so it is one atomic step here.
- **Money.** One rounding rule, an allocation that loses nothing, a text form, and the read side's
  own integer arithmetic, which must show what the aggregates charged.
- **Phone numbers.** One normal form for every way a number is written.

`dafny verify dfyconfig.toml` checks all of it.

## How the modules fit together

`Rounding`, `Text`, `Listing`, `Money` and `Wrappers` are shared. `Listing` is the query behind every
sweep: rows in some order, no more than a limit.

| part | modules |
|---|---|
| queue | `JobQueue` (table and statements), `QueueTimes` (when and in what order), `JobRunner`, `QueueRuns` (workers, crashes, clock), `LeaseDiscipline`, `DailySweep`, `SweepChain` (sweeps that enqueue each other), `QueueWitnesses` |
| work on the queue | `Alerts`, `Escalations`, `Outbox`, `OutboxRuns` (publishers that overlap and die), `OutboxProgress` (which events get through) |
| statements and invoices | `Statement`, `GenerateStatement`, `Invoice`, `BillingPipeline` (what each use case makes of the tables), `BillingTables` (the use cases as they run), `AttachedHours`, `BillingRuns`, `LinesOfWork` (what stands on a line), `BillingSays`, `RaisedInvoices`, `BillingWitnesses`, `SettleInvoice` |
| quotations | `Quotation`, `QuotationDesk`, `QuotationRuns`, `QuotationAnswers` (whose answer stands), `QuotationSays`, `QuotationEdges`, `QuotationWitnesses` |
| storage and screens | `ReadSide`, `InvoiceStore` (what the invoice tables let through), `Drift` |
| kernel values | `Allocation`, `MoneyText`, `PhoneNumber` |

An object that the program updates in place is a class here, and each of its methods is proved
against a function that says what the call makes of the old state (`AfterApprove`, `AfterRaise`,
`AfterSending`, ...). The theorems about runs are about those functions. What each of them leaves is
said once more in a caller's terms, field by field and in plain numbers, together with exactly when the
call goes through: `QueueTimes`, `LinesOfWork`, `BillingSays`, `RaisedInvoices`, `QuotationAnswers`,
`QuotationSays`, and the lemmas ending in `Iff`, `Is` and `Says` elsewhere.

## What turned out otherwise than described

Each comes with the exact condition, and with an input or a run in which it happens.

- `Money.allocate` calls itself the largest-remainder method, but gives the remainder to the earliest
  shares, so a share of weight zero can be charged: `ZeroWeightShare` says exactly when,
  `ZeroWeightIsCharged` shows one.
- A unit of work commits when a use case returns a refusal, so a quotation number drawn before the
  refusal is lost (`RefusedDraftTakesNumber`, `ClosedBranchCostsNumber`), and a number typed ahead of
  the sequence costs the next automatic draft its number (`TypedReferenceLeavesGap`). Invoices draw
  theirs after every check that can fail, and lose none.
- Sending a quotation asks before it mails, but reads the clock again after: an offer that lapses in
  between leaves the client with the mail and the office with a draft (`EmailedButStillDraft`,
  `MailedYetDraft`).
- The aggregate accepts an estimate of less than half a hundredth of an hour, and the line table
  refuses it (`RefusedByTheTable`, `SliverIsThrownOut`).
- `valid_until` is a date column, so the expiry query compares dates where `Quotation.expire` compares
  moments: all through its last day (of UTC) an offer may expire and is not listed
  (`QueryLeavesToday`, `StillOutOnItsLastDay`). The sweep therefore never meets a refusal, and
  once it has drained, what could still expire is exactly what is valid until today
  (`DrainedButForToday`).
- The client's page says a link to an answered quotation reads as not available; such a link still
  opens until it runs out, and answering it is refused in other words than a dead link's
  (`LiveLinkOpensWhateverTheState`, `AnsweredLinkStillOpens`).
- Answering a quotation looks at its state and not at its date, so a price that has lapsed is taken if no
  sweep has ended the offer: exactly if the link is live and `expire` would go through
  (`LapsedPriceIsTaken`, `LapsedPriceAccepted`), which right after a drained sweep means an offer valid
  until today (`LapsedTodayIsTaken`).
- A job can be tried more often than `max_attempts`, because claiming does not look at it: exactly if a
  worker died with the last try allowed and the job was claimed again (`TriedTooOftenIff`,
  `CrashExceedsMaxAttempts`), and then at most once more for every claim lost (`DisciplinedRuns`). A
  worker that outlasts its lease shares its job with another (`ReclaimableIffLapsed`, `TwoHoldOneJob`).
- Neither `complete` nor `fail` asks who holds the claim; the table's check that a job has not both
  outcomes is what stops a second report of the other kind. A completion it refuses is reported as a
  failure instead; a last failure it refuses throws, and the rest of the batch is left to its leases
  (`ThrowsIffCompletedMeanwhile`, `StopsAtFirstThrow`, `LastReportThrows`).
- A clock read before two o'clock and used after that day's sweep is done gives the day a second one
  (`StaleReadingDuplicates`, `TwoSweepsOneDay`).
- Each daily sweep enqueues the next as its last act, so one is live unless the latest has failed for
  good; after that none is until a worker boots (`ChainGoesOn`, `ChainEnds`).
- Events that fail stay in front: a healthy event is ever published exactly if fewer failing events than
  a batch holds are older (`PublishedIffFewOlderSick`, `OneFailingShutsOut`).
- A fixed fee is charged in full on every statement with any of the project's work
  (`FeeOncePerStatement`, `FeeChargedTwice`).
- `Invoice.cancel` cannot be saved: the repository never writes `cancelled_reason`, and the table
  refuses a cancelled row without one. A save is refused exactly if the invoice was cancelled
  (`RefusedIffCancelled`, `CancelledCannotBeSaved`), so what is stored is what it would be had nobody
  called it (`StoredRunIs`). No use case calls it yet.
- A notification that throws is not tried again: its alert is already raised (`ToldAtMostOnce`,
  `FailedToldNobody`).
- Marked invoices stay in the overdue query, so one with a batch or more of unsettled invoices due
  before it is never marked that morning (`MarkedIffEarlyEnough`, `YoungerNeverMarked`), nor until a sweep
  finds fewer (`MarkedIffSomeSweepReachesIt`).
- The reader's rounding is the kernel's except below zero where half a unit or more is cut off
  (`ReaderRoundIs`, `ReaderDropsHalf`); no amount the aggregates admit is below zero, so no screen shows it.

## Model

| member | source | states |
|---|---|---|
| JobQueue.PostgresJobQueue.Enqueue | packages/queue/src/queue.ts:63-83 | adds the row, unless a live job holds the key or a table check refuses it, and says which |
| JobQueue.PostgresJobQueue.Claim | packages/queue/src/queue.ts:92-128 | hands out the best runnable rows up to the limit, each once, and marks just those |
| JobQueue.PostgresJobQueue.Complete | packages/queue/src/queue.ts:130-136 | completes the row whoever asks, except that a failed row is refused |
| JobQueue.PostgresJobQueue.Fail | packages/queue/src/queue.ts:144-166 | another try after the backoff, or a final failure when tries are used up or it is permanent |
| JobQueue.PostgresJobQueue.ReleaseExpiredClaims | packages/queue/src/queue.ts:173-185 | clears the claim of each live job whose lease lapsed, touches no other row, and counts them |
| JobQueue.PostgresJobQueue.Counts | packages/queue/src/queue.ts:188-211 | pending and running together are exactly the live jobs |
| JobQueue.BackoffIsCapped | packages/queue/src/job.ts:37-40 | the wait doubles up to eight attempts, never shrinks, and stops at five minutes |
| JobQueue.ReleaseKeepsRunnable | packages/queue/src/queue.ts:168-185 | releasing lapsed claims never changes which jobs a claim could return, then or later |
| QueueTimes.RetryComesBack | packages/queue/src/queue.ts:144-166 | a job failed with tries left can be claimed again 2 s after its first try, 4 s after its second and so on to 256 s after its eighth, 300 s from the ninth, and not a millisecond before |
| QueueTimes.FailedForGoodIff | packages/queue/src/queue.ts:144-155 | failed for good exactly when told so or out of tries, at that moment and with the error, and never claimed again |
| QueueTimes.CompletedOnce | packages/queue/src/queue.ts:130-136 | a completed job is so from that moment, lets go of its claim and is never claimed again |
| QueueTimes.EnqueuedWaits | packages/queue/src/queue.ts:63-83 | a new job can be claimed from its moment on, or at once, and has five tries and no priority unless it says otherwise |
| QueueTimes.EnqueuedIff | packages/queue/src/queue.ts:63-83 | it is put on the queue exactly if it has a name and tries, and every job under its key is finished |
| QueueTimes.NotEnqueued | packages/queue/src/queue.ts:63-83 | what is not put on leaves the table as it was, and is refused exactly if it has no name or no tries |
| QueueTimes.ClaimedThroughLease | packages/queue/src/queue.ts:92-128 | nobody else gets a claimed job through its lease, and anybody from the millisecond after |
| QueueTimes.HighestFirst | packages/queue/src/queue.ts:104-110 | no runnable job left behind has a higher priority than one taken, nor an earlier moment at the same priority |
| QueueTimes.EligibleIff | packages/queue/src/queue.ts:101-104 | which jobs can be claimed: live, due, and unclaimed or lapsed |
| JobRunner.JobRunner.RunOne | packages/queue/src/runner.ts:66-97 | reports as the job's own handler decides, on the table as others have left it, and a completion refused as a failure |
| JobRunner.JobRunner.RunOnce | packages/queue/src/runner.ts:53-64 | claims the best batch past locked rows and reports job by job, others at work meanwhile; a report that throws ends the batch |
| JobRunner.ThrowsIffCompletedMeanwhile | packages/queue/src/runner.ts:78-96 | a report throws exactly when it is the last failure of a job that somebody else completed |
| JobRunner.StopsAtFirstThrow | packages/queue/src/runner.ts:60-63 | every report before the first that throws goes in, and none after it |
| JobRunner.UndisturbedBatch | packages/queue/src/runner.ts:53-97 | with no other worker every job of the batch is reported on whatever the others did, and no other row moves |
| JobRunner.UndisturbedRun | packages/queue/src/runner.ts:53-97 | so what RunOnce claims and runs undisturbed ends as its handlers decide, and the rest of the table stays |
| JobRunner.SettledIs | packages/queue/src/runner.ts:66-97 | done if its handler returned; failed for good without a handler, when told so, or at the last try; else to be tried again |
| JobRunner.ReportIs | packages/queue/src/runner.ts:66-97 | each report in terms of the handler: completed, to be tried again or failed for good, with which error, and what a refused completion becomes |
| QueueWitnesses.LastReportThrows | packages/queue/src/runner.ts:60-97 | a run in which another worker finishes a job, its first holder's last report throws, and the next job of the batch is left claimed |
| QueueRuns.StepIsStatement | packages/queue/src/queue.ts:63-185 | each step of a run does to the table what the queue's statement does |
| QueueRuns.EveryRunIsSound | packages/queue/src/queue.ts:92-166 | in every interleaving with crashes: claim columns all or none, attempts equals claims, never both outcomes, at most maxAttempts-1 retries |
| QueueRuns.FinishedStaysFinished | packages/queue/src/queue.ts:92-166 | a finished job keeps its outcome and is never handed out again |
| LeaseDiscipline.DisciplinedRuns | apps/worker/src/config.ts:23-27 | when each claim is closed within its lease: one holder at most, named by the row, and attempts within the limit plus lost claims |
| LeaseDiscipline.ReclaimableIffLapsed | packages/queue/src/queue.ts:92-128 | a held job can be claimed again exactly when its lease has passed, and then two workers hold it |
| LeaseDiscipline.ReportsAreAccepted | packages/queue/src/queue.ts:130-166 | under that discipline no report is refused by the table |
| LeaseDiscipline.FiniteQueueDrains | packages/queue/src/queue.ts:92-166 | the tries left over live jobs, and one for every claim lost on the way, bound the claims to come; when the tries are used up no job is live |
| LeaseDiscipline.LiveJobComesDue | packages/queue/src/queue.ts:101-104 | every live job becomes claimable at some moment |
| LeaseDiscipline.TriedTooOftenIff | packages/queue/src/queue.ts:92-166 | under that discipline a job is tried more often than maxAttempts exactly if a worker died with the last try allowed and the job was claimed after that |
| LeaseDiscipline.CrashExceedsMaxAttempts | packages/queue/src/queue.ts:92-128 | a run in which a job is tried more often than maxAttempts |
| LeaseDiscipline.TwoHoldOneJob | packages/queue/src/queue.ts:92-128 | a run in which a lease passes and two workers have one job |
| DailySweep.NextDailyRunIsLeast | apps/worker/src/handlers/daily.ts:28-37 | the next run is the first two o'clock UTC strictly after the given moment |
| DailySweep.SweepJobIs | apps/worker/src/handlers/daily.ts:115-124 | the job enqueued: its name, key, priority and the first moment 7 200 000 ms past midnight UTC still to come |
| DailySweep.ScheduleNextDailySweep | apps/worker/src/handlers/daily.ts:115-124 | enqueues the next run under the key of its day |
| DailySweep.OneSweepPerDay | apps/worker/src/handlers/daily.ts:115-124 | over any boots, sweeps and crashes no calendar day ever has two sweep jobs |
| DailySweep.StaleReadingDuplicates | apps/worker/src/handlers/daily.ts:115-124 | with a stale clock reading a second one is made exactly when that day's job is no longer live |
| DailySweep.TwoSweepsOneDay | apps/worker/src/handlers/daily.ts:115-124 | a run in which one day gets two sweep jobs |
| SweepChain.ChainGoesOn | apps/worker/src/handlers/daily.ts:40-113 | in every run after a worker booted the sweep of the latest day is live or has failed for good, so one is live unless the latest failed |
| SweepChain.ChainIsQueueRun | apps/worker/src/handlers/daily.ts:111-124 | such a run is a run of the queue |
| SweepChain.ChainEnds | apps/worker/src/handlers/daily.ts:40-50 | a run in which the latest sweep fails for good and none is live |
| Listing.List | packages/modules/billing/infrastructure/quotation.repository.ts:114-122 | the wanted rows in order, each once, as many as the limit, none left out that comes before one listed |
| Alerts.AlertLog.Raise | apps/worker/src/handlers/alerts.ts:26-41 | records the alert and says whether it was new |
| Alerts.SweepDocumentExpiry | apps/worker/src/handlers/document-expiry.ts:28-71 | the log gains what was asked, and the warnings are exactly what was new, each once |
| Alerts.AskedIs | apps/worker/src/handlers/document-expiry.ts:39-43 | a sweep asks about a document at a threshold just when its mark day is today or within the days looked back |
| Alerts.AskedInDays | apps/worker/src/handlers/document-expiry.ts:28-43 | the same in days since the epoch: 90, 60 and 30 days before a held, current document runs out |
| Alerts.WarnedAtMostOnce | apps/worker/src/handlers/document-expiry.ts:36-68 | over any sweeps and any changes to the documents nobody is warned of one thing twice |
| Alerts.WarnedExactlyOnce | apps/worker/src/handlers/document-expiry.ts:23-34 | with gaps of at most catchUpDays+1, an unchanged document is warned once per threshold it passes |
| Alerts.NoMarkMissedIffNoLongGap | apps/worker/src/handlers/document-expiry.ts:23-34 | the sweeps look at every day between them exactly if no gap is longer than that |
| Alerts.MissedAcrossGap | apps/worker/src/handlers/document-expiry.ts:36-43 | across a longer gap some document is never warned about |
| Escalations.LadderIs | packages/modules/deadlines/domain/deadline.ts:71-125 | the rungs in the order they fall due, each stage once, none before the request, the manager's only if there is time left |
| Escalations.RungsAre | packages/modules/deadlines/domain/deadline.ts:84-125 | the rungs in milliseconds: a week and two weeks after the request, five days before the deadline |
| Escalations.RungJob | apps/worker/src/handlers/escalations.ts:62-72 | the job of a rung, column by column |
| Escalations.NeededIff | apps/worker/src/handlers/escalations.ts:92-98 | a rung is still needed exactly while the project waits for papers or for the client |
| Escalations.ScheduleEscalations | apps/worker/src/handlers/escalations.ts:28-77 | enqueues a job for each rung still to come, counts the new ones, skips those whose moment passed |
| Escalations.OneJobPerRung | apps/worker/src/handlers/escalations.ts:57-73 | on a queue without them, exactly one job for every rung to come of every project, at its moment |
| Escalations.PayloadIsRead | apps/worker/src/handlers/escalations.ts:67-71 | a job's payload determines its project, client and stage |
| Escalations.SchedulingAgainAddsNothing | apps/worker/src/handlers/escalations.ts:20-27 | scheduling again while the jobs are on the queue adds nothing, now or later |
| Escalations.FireEscalation | apps/worker/src/handlers/escalations.ts:86-123 | raises the alert if the project is still stuck, and tells somebody only if the alert was new |
| Escalations.ToldAtMostOnce | apps/worker/src/handlers/escalations.ts:100-120 | told at most once per project and stage, and at all exactly if the first firing still needed managed to |
| Escalations.FailedToldNobody | apps/worker/src/handlers/escalations.ts:109-120 | two firings of which the first fails to tell and nobody is told |
| Outbox.OutboxPublisher.On | apps/worker/src/outbox-publisher.ts:28-33 | registers a subscriber under a name or prefix |
| Outbox.RegisteringAddsOne | apps/worker/src/outbox-publisher.ts:28-33 | a registration adds its subscriber to what the pattern matches and removes nobody |
| Outbox.HeardIff | apps/worker/src/outbox-publisher.ts:28-43 | a subscriber hears a name exactly if it registered that name, or a beginning of it that ends in a dot |
| Outbox.CalledIffListening | apps/worker/src/outbox-publisher.ts:35-43 | the subscribers called are exactly those with a matching name or prefix |
| Outbox.OutboxPublisher.Deliver | apps/worker/src/outbox-publisher.ts:53-64 | calls subscribers in turn and stops at the first that throws |
| Outbox.FirstErrorIs | apps/worker/src/outbox-publisher.ts:53-64 | the first subscriber that throws decides the error, and just those before it returned |
| Outbox.OutboxPublisher.Drain | apps/worker/src/outbox-publisher.ts:46-71 | one failure is recorded and holds up nobody; the events nobody refused are published together at the end |
| Outbox.AllReturnedIffNoError | apps/worker/src/outbox-publisher.ts:54-63 | an event counts as delivered exactly when every subscriber returned |
| OutboxRuns.PublishedMeansHadByAll | apps/worker/src/outbox-publisher.ts:46-71 | in every run with overlapping and dying publishers: published only once every subscriber returned, and nothing written is lost |
| OutboxRuns.CrashMeansAgain | apps/worker/src/outbox-publisher.ts:66-69 | a publisher that dies before marking leaves what it delivered pending |
| OutboxRuns.DrainIsRun | apps/worker/src/outbox-publisher.ts:46-71 | what a drain makes of the outbox is the run that takes a batch, tries each event and finishes |
| OutboxRuns.PassMakesRoom | packages/modules/audit/infrastructure/audit.repository.ts:71-98 | a pass that nothing comes between publishes as many healthy events as fit beside the failing ones, or all |
| OutboxRuns.PassSays | apps/worker/src/outbox-publisher.ts:46-71 | after a pass each event of its batch is published at that moment, or has one more failed try and the error noted; no other is touched |
| OutboxRuns.BatchSays | packages/modules/audit/infrastructure/audit.repository.ts:80-85 | a batch is of unlocked waiting events, and none that is left behind happened before one of it |
| OutboxProgress.FinishPublishesItsBatch | apps/worker/src/outbox-publisher.ts:46-71 | in every run, a pass that finishes publishes exactly the healthy events of the batch it took |
| OutboxProgress.HealthyEventIsPublished | apps/worker/src/outbox-publisher.ts:45-71 | over overlaps, crashes, others' locks and new events of any date: while fewer than batchSize failing events are in its way, a healthy event is out after a stated number of one publisher's completed passes |
| OutboxProgress.BehindFullBatch | packages/modules/audit/infrastructure/audit.repository.ts:80-85 | a healthy event with a batch of failing ones older than it is never published, in any run |
| OutboxProgress.PublishedIffFewOlderSick | packages/modules/audit/infrastructure/audit.repository.ts:80-85 | a healthy event is ever published exactly if fewer failing events than a batch holds are older |
| OutboxProgress.OneFailingShutsOut | packages/modules/audit/infrastructure/audit.repository.ts:80-85 | an outbox in which one failing event shuts a younger one out for good |
| Rounding.NearestIsUnique | packages/kernel/src/money.ts:16-30 | the division gives the one nearest integer, ties away from zero |
| Rounding.HalfAwayIsOdd | packages/kernel/src/money.ts:21-30 | negating either operand negates the result |
| Rounding.HalfAwayIsMonotone | packages/kernel/src/money.ts:21-30 | a larger amount never rounds to less |
| Money.PercentageIsPart | packages/kernel/src/money.ts:136-139 | a rate of at most the whole never charges more than the amount |
| Allocation.Allocate | packages/kernel/src/money.ts:146-170 | refuses no weights, negative weights and all-zero weights; otherwise the loops compute the shares |
| Allocation.SharesConserve | packages/kernel/src/money.ts:141-170 | the shares sum to the amount |
| Allocation.ShareIsFair | packages/kernel/src/money.ts:154-167 | each share is within one unit of its quota and on the amount's side of zero |
| Allocation.RemainderIsShort | packages/kernel/src/money.ts:162-167 | the remainder loop runs fewer turns than there are weights |
| Allocation.SharesAreOdd | packages/kernel/src/money.ts:146-170 | allocating the negated amount negates every share |
| Allocation.ZeroWeightShare | packages/kernel/src/money.ts:141-167 | a share of weight zero is charged exactly if the whole parts of all shares leave more units over than there are shares before it |
| Allocation.ZeroWeightIsCharged | packages/kernel/src/money.ts:141-167 | an allocation in which one is |
| MoneyText.TextRoundTrip | packages/kernel/src/money.ts:66-80 | reading what was printed gives the amount back, for every safe amount |
| MoneyText.PrintingIsInjective | packages/kernel/src/money.ts:195-204 | two amounts never print alike |
| MoneyText.NormalFormIsFixed | packages/kernel/src/money.ts:195-204 | printing any accepted text gives the normal form, which reads the same and prints to itself |
| MoneyText.WorthOf | packages/kernel/src/money.ts:66-80 | what accepted text is worth: one decimal stands for tenths, two for hundredths; more are refused |
| MoneyText.OnlyWrittenIsRead | packages/kernel/src/money.ts:66-80 | nothing is read but a sign, digits and perhaps a point with digits, white space around it aside |
| MoneyText.SpaceIsIgnored | packages/kernel/src/money.ts:66-80 | white space around an amount does not change it |
| PhoneNumber.NormalForm | packages/kernel/src/phone-number.ts:48-84 | the results are exactly the numbers in the normal form, and each is left as it is |
| PhoneNumber.SpellingsAgree | packages/kernel/src/phone-number.ts:59-81 | all spellings of a UAE number agree; the bare one unless it starts 971 |
| PhoneNumber.FormatRoundTrip | packages/kernel/src/phone-number.ts:119-127 | what a person is shown reads back |
| PhoneNumber.WhatsAppRoundTrip | packages/kernel/src/phone-number.ts:129-159 | the WhatsApp address reads back; read the ordinary way it does so exactly for UAE numbers |
| PhoneNumber.NationalIff | packages/kernel/src/phone-number.ts:33-93 | which digits are a number of the country: nine after 50, 52, 54, 55, 56, 58, or eight after 2, 3, 4, 6, 7, 9 |
| PhoneNumber.ZerosArePlus | packages/kernel/src/phone-number.ts:59-81 | two zeros read as the plus whatever country follows, and another country's number as it stands |
| PhoneNumber.BareIsDomestic | packages/kernel/src/phone-number.ts:59-81 | without either, digits are read as a number of this country or not at all |
| PhoneNumber.ArabicReadsAlike | packages/kernel/src/phone-number.ts:48-58 | Arabic-Indic digits of either block read as the digits they are |
| PhoneNumber.KindIs | packages/kernel/src/phone-number.ts:105-112 | mobile, landline or another country's, by prefix and length |
| PhoneNumber.ShownIn | packages/kernel/src/phone-number.ts:119-127 | the groups a person is shown |
| Statement.Statement.Exclude | packages/modules/billing/domain/statement.ts:217-223 | takes a line of a draft off, with a reason, and keeps it on the document |
| Statement.Statement.Adjust | packages/modules/billing/domain/statement.ts:251-264 | replaces a line's figure, in the statement's currency and not below zero |
| Statement.Statement.Restore | packages/modules/billing/domain/statement.ts:225-241 | puts an excluded line of a draft back |
| Statement.Statement.Approve | packages/modules/billing/domain/statement.ts:273-295 | approves a draft that has lines and something to bill |
| Statement.Statement.Reopen | packages/modules/billing/domain/statement.ts:298-305 | an approved statement becomes a draft again |
| Statement.Statement.MarkInvoiced | packages/modules/billing/domain/statement.ts:308-320 | only an approved statement is marked |
| Statement.Statement.Cancel | packages/modules/billing/domain/statement.ts:330-352 | anything not invoiced can be cancelled, with a reason |
| Statement.Statement.TotalOf | packages/modules/billing/domain/statement.ts:185-190 | the loop adds up what each line is worth |
| Statement.ApprovedIffSomethingToBill | packages/modules/billing/domain/statement.ts:266-282 | a draft is approved exactly when a line not excluded is worth more than nothing |
| Statement.ExcludedIff | packages/modules/billing/domain/statement.ts:217-223 | a line is excluded exactly on a draft that has it, with three characters of reason, and then counts for nothing |
| Statement.AdjustedIff | packages/modules/billing/domain/statement.ts:251-264 | it is adjusted exactly if, besides, the figure is in the currency and not below zero, and then counts for that |
| Statement.RestoredIff | packages/modules/billing/domain/statement.ts:225-241 | it is put back exactly if it was excluded on a draft |
| Statement.MovesIff | packages/modules/billing/domain/statement.ts:273-352 | which way a statement may go from each state, and what is noted |
| Statement.WhyRefused | packages/modules/billing/domain/statement.ts:217-352 | the refusals in order |
| Statement.Undone | packages/modules/billing/domain/statement.ts:225-241 | restoring undoes excluding, and reopening undoes approving |
| Statement.RevisionsMoveTotal | packages/modules/billing/domain/statement.ts:217-264 | excluding takes off what the line was worth, adjusting makes it the figure agreed, restoring puts it back; the hours stay |
| GenerateStatement.GroupBy | packages/modules/billing/application/generate-statement.ts:179-196 | the loop groups the rows by key in the order keys were first seen |
| GenerateStatement.EachEntryInOneGroup | packages/modules/billing/application/generate-statement.ts:163-196 | every entry is in exactly one group, its key's, and the groups hold all the seconds |
| LinesOfWork.OnOneLineIff | packages/modules/billing/application/generate-statement.ts:163-196 | two entries stand on one line exactly if both are retainer work of one subscription and month, fixed work of one project, or hourly work of one project, day and person |
| LinesOfWork.LineCharges | packages/modules/billing/application/generate-statement.ts:76-134 | an entry's line charges its own day's rate, or the fee agreed for the work it belongs with, and names whose it is |
| LinesOfWork.FirstRowNames | packages/modules/billing/application/generate-statement.ts:98-134 | a line has its project, service, day and person from the first row that stands on it |
| LinesOfWork.LinesInOrder | packages/modules/billing/application/generate-statement.ts:179-196 | lines stand in the order in which their first rows were listed |
| LinesOfWork.RetainerFeePerMonth | packages/modules/billing/application/generate-statement.ts:83-112 | a subscription's retainer has as many lines as months with work, each charging the whole fee |
| LinesOfWork.DraftIsFor | packages/modules/billing/application/generate-statement.ts:136-148 | client, period, currency and maker of the draft; no other statement and no invoice changes |
| GenerateStatement.PriceLines | packages/modules/billing/application/generate-statement.ts:76-134 | prices the groups in order, and the first that cannot be priced stops everything |
| GenerateStatement.GenerationKeepsTheHours | packages/modules/billing/application/generate-statement.ts:73-134 | the lines' hours are all the hours of the work |
| GenerateStatement.PricedAtItsOwnDay | packages/modules/billing/application/generate-statement.ts:115-134 | each hourly entry is on a line at the rate of its own day |
| GenerateStatement.FeeOncePerStatement | packages/modules/billing/application/generate-statement.ts:83-112 | a project's fee is charged once per statement, whatever the hours, and so again on the next |
| BillingWitnesses.FeeChargedTwice | packages/modules/billing/application/generate-statement.ts:83-112 | a run that charges one project's whole fee on two statements |
| GenerateStatement.OrderDoesNotMatter | packages/modules/billing/application/generate-statement.ts:76-196 | permuting the rows: pricing goes through for both or neither, with the same hourly lines, the same fees and hours, and the same total |
| BillingTables.Tables.UnbilledWork | apps/api/src/billing/adapters.ts:28-86 | lists exactly the client's chargeable unattached entries of the period, each once |
| BillingSays.WaitingIff | apps/api/src/billing/adapters.ts:54-66 | an entry is listed exactly if it is the client's, of the period, ended, approved, to be charged, and on no statement |
| BillingSays.HandedOver | apps/api/src/billing/adapters.ts:42-82 | what the reader hands over of each |
| BillingTables.Tables.Generate | packages/modules/billing/application/generate-statement.ts:48-161 | saves a draft of the listed work and attaches it, or is refused and changes nothing |
| BillingSays.GeneratedIff | packages/modules/billing/application/generate-statement.ts:48-147 | a statement is generated exactly if the period is one, something waits, and every piece has a fee or a rate in the currency |
| BillingTables.Tables.AttachLines | apps/api/src/billing/adapters.ts:140-150 | each group's entries point at their line, and only entries that pointed at none |
| BillingTables.Tables.Raise | packages/modules/billing/application/raise-invoice.ts:43-137 | the refusals in order, then number, invoice and mark |
| RaisedInvoices.RaisedIff | packages/modules/billing/application/raise-invoice.ts:43-79 | when a raise goes through, and what a refused one is told |
| RaisedInvoices.InvoiceIsFor | packages/modules/billing/application/raise-invoice.ts:103-121 | client, currency, branch and issuer of every raised invoice, and its due day exactly paymentTermsDays times 86 400 000 ms after it is issued |
| RaisedInvoices.InvoiceCharges | packages/modules/billing/application/raise-invoice.ts:107-121 | it charges the statement's total and, as VAT, the one nearest integer to the configured part of it |
| RaisedInvoices.InvoiceCarriesTheWork | packages/modules/billing/application/raise-invoice.ts:81-95 | a line for each line kept, in order, with its project, service, hours and amount |
| RaisedInvoices.QuantityIs | packages/modules/billing/application/raise-invoice.ts:163-184 | the quantity printed is the nearest hundredth of the hours at the rate, or one at the amount |
| BillingTables.Tables.Revise | packages/modules/billing/domain/statement.ts:217-305 | loads, revises and saves, or leaves the statement as it was |
| BillingSays.RevisionSays | packages/modules/billing/domain/statement.ts:217-305 | what each revision leaves in the tables, or that it leaves them alone |
| BillingTables.Tables.Release | packages/modules/billing/application/release-from-statement.ts:22-72 | cancels the statement and frees its entries, or is refused and changes nothing |
| BillingSays.ReleasedIff | packages/modules/billing/application/release-from-statement.ts:22-58 | work is released exactly if the asker may, says why, and the statement is there, not invoiced and has any; the refusals in order |
| BillingSays.ReleasedSays | packages/modules/billing/application/release-from-statement.ts:56-72 | the statement is cancelled, just its entries are freed and counted |
| AttachedHours.AttachMoves | apps/api/src/billing/adapters.ts:142-150 | attaching moves exactly the listed seconds from the waiting pool to the line |
| AttachedHours.DetachMoves | apps/api/src/billing/adapters.ts:152-159 | releasing puts back exactly what the statement's lines held |
| BillingRuns.NoHourLostOrBilledTwice | packages/modules/billing/application/generate-statement.ts:148-158 | in every reachable state, entries edited or approved at will until a statement has them: attached plus waiting seconds are all chargeable seconds, and each line of a statement not cancelled has the sum of its entries |
| BillingRuns.InvoicedTimeIsFrozen | packages/modules/billing/application/release-from-statement.ts:44-50 | an invoiced statement and the entries on it never change again |
| BillingRuns.NothingRefusesAfterTheNumber | packages/modules/billing/application/raise-invoice.ts:69-134 | once the first checks pass nothing refuses, the all-excluded refusal never fires, and net equals the statement's total |
| BillingRuns.RefusedRaiseTakesNoNumber | packages/modules/billing/application/raise-invoice.ts:69-79 | a refused raise changes nothing, an accepted one takes the next number |
| BillingRuns.NumbersAreGapless | packages/modules/billing/infrastructure/invoice.repository.ts:218-253 | the k-th invoice has the k-th number, none missing and none twice |
| BillingRuns.OneInvoicePerStatement | packages/modules/billing/application/raise-invoice.ts:52-67 | invoiced exactly when an invoice exists, never two, each billing its statement's total |
| BillingRuns.ApprovedHasSomethingToBill | packages/modules/billing/domain/statement.ts:273-282 | every reachable approved or invoiced statement has a line not excluded and worth more than nothing |
| Invoice.Invoice.RecordPayment | packages/modules/billing/domain/invoice.ts:270-323 | the refusals in order, then the payment, the settlement and the cleared mark |
| Invoice.Invoice.MarkOverdue | packages/modules/billing/domain/invoice.ts:333-353 | marks an unsettled late invoice once and keeps the day |
| Invoice.Invoice.Cancel | packages/modules/billing/domain/invoice.ts:363-383 | cancels only what has no payment, with a reason |
| Invoice.RaisedIsSound | packages/modules/billing/domain/invoice.ts:124-196 | a raised invoice owes its whole total, which is at least its net |
| Invoice.RaisedIff | packages/modules/billing/domain/invoice.ts:124-170 | what an invoice needs to be raised, and all it then says |
| Invoice.MarkedIff | packages/modules/billing/domain/invoice.ts:333-353 | marked exactly if something is owed and the day is past, the first mark staying |
| Invoice.CancelledIff | packages/modules/billing/domain/invoice.ts:363-383 | cancelled exactly if nothing was paid and a reason is given, or it was already |
| Invoice.ShownAs | packages/modules/billing/domain/invoice.ts:251-256 | the word shown, from payments, total and mark |
| Invoice.EveryRun | packages/modules/billing/domain/invoice.ts:203-383 | over every run: settlement is the function of payments against total, paid is for good, marks only while late and unsettled, balance never rises, document unchanged |
| Invoice.SurchargeReopens | packages/modules/billing/domain/invoice.ts:289-310 | with a negative discount: exactly when the balance rises or a paid invoice reopens |
| Invoice.OrderDoesNotMatter | packages/modules/billing/domain/invoice.ts:270-310 | payments in any order give the same settlement, balance and mark |
| InvoiceStore.InvoiceTables.Save | packages/modules/billing/infrastructure/invoice.repository.ts:161-215 | writes row, new lines and new payments, or meets a check and changes nothing |
| InvoiceStore.RaisedIsStored | packages/database/migrations/0027_invoices.sql:61-77 | every invoice raised in a reachable state meets every check, under a number no other has |
| InvoiceStore.SteppedIs | packages/database/migrations/0027_invoices.sql:61-73 | the save after a step is refused exactly for a cancellation or a payment the table does not take |
| InvoiceStore.StoredRunIs | packages/modules/billing/infrastructure/invoice.repository.ts:161-215 | once raised and stored, the tables hold just what the run without those steps makes: never cancelled, balance never rising |
| InvoiceStore.StoredPaidForGood | packages/modules/billing/domain/invoice.ts:270-323 | what is stored as paid stays paid |
| InvoiceStore.RefusedIffCancelled | packages/database/migrations/0027_invoices.sql:71-73 | however far a raised invoice got, saving it is refused exactly if it was cancelled |
| InvoiceStore.CancelledIsNotStored | packages/modules/billing/domain/invoice.ts:363-383 | any raised invoice is stored, its cancellation with a reason agreed to and not stored |
| InvoiceStore.RowHoldsIff | packages/database/migrations/0027_invoices.sql:61-73 | which invoice rows may stand |
| InvoiceStore.PaymentHoldsIff | packages/database/migrations/0037_payment_details.sql:20-27 | which payments may stand |
| InvoiceStore.LineHoldsIff | packages/database/migrations/0030_fixed_fee.sql:79-81 | which invoice lines may stand |
| BillingWitnesses.CancelledCannotBeSaved | packages/modules/billing/infrastructure/invoice.repository.ts:161-182 | a run from empty tables to an invoice whose cancellation cannot be saved |
| SettleInvoice.SettlementDesk.Record | packages/modules/billing/application/settle-invoice.ts:45-78 | records a payment by a live method and answers the balance, or is refused and changes nothing |
| SettleInvoice.RecordedIff | packages/modules/billing/application/settle-invoice.ts:45-76 | a payment is taken exactly if all of this holds, and told the first of it that fails |
| SettleInvoice.RecordedTakesOff | packages/modules/billing/application/settle-invoice.ts:55-77 | what came and what was dropped are both taken off; the balance answered, and paid exactly if nothing is owed |
| SettleInvoice.RecordedBears | packages/modules/billing/application/settle-invoice.ts:55-71 | the payment bears the command's id, day, method, sums, cheque and reason; received and forgiven money rise by just these |
| SettleInvoice.SettlementDesk.SweepOverdue | packages/modules/billing/application/settle-invoice.ts:91-112 | marks each listed late invoice that had no mark, and counts those and the rest |
| SettleInvoice.SweptSays | packages/modules/billing/application/settle-invoice.ts:91-112 | which invoices a sweep lists, and the mark of its moment on each unmarked one |
| SettleInvoice.OneBatchMarksAll | packages/modules/billing/application/settle-invoice.ts:80-112 | when those late fit one batch all are marked, and a second sweep changes nothing |
| SettleInvoice.MarkedOrNever | packages/modules/billing/infrastructure/invoice.repository.ts:83-92 | ties left open: marked at once if those due up to its day fit a batch, never that morning if a batch fell due before it |
| SettleInvoice.MarkedIffEarlyEnough | packages/modules/billing/infrastructure/invoice.repository.ts:83-92 | without ties an invoice is marked that morning exactly if fewer than a batch fell due before it |
| SettleInvoice.MarkedIffSomeSweepReachesIt | packages/modules/billing/application/settle-invoice.ts:45-112 | over payments, new invoices and sweeps of any day: marked exactly if at some sweep fewer than a batch of unsettled ones fell due before it |
| SettleInvoice.YoungerNeverMarked | packages/modules/billing/infrastructure/invoice.repository.ts:83-92 | two late invoices and batches of one, the younger never marked |
| Quotation.Quotation.AddLine | packages/modules/billing/domain/quotation.ts:282-319 | the refusals in order, then the line at the end |
| Quotation.Quotation.SetBranch | packages/modules/billing/domain/quotation.ts:322-338 | changes the letterhead of a draft only |
| Quotation.Quotation.RemoveLine | packages/modules/billing/domain/quotation.ts:340-350 | takes the named line off a draft, and refuses one that is not there |
| Quotation.Quotation.CanSend | packages/modules/billing/domain/quotation.ts:360-375 | a draft with lines that has not lapsed |
| Quotation.Quotation.Send | packages/modules/billing/domain/quotation.ts:384-407 | sends under the same guards, saying when and how |
| Quotation.Quotation.Accept | packages/modules/billing/domain/quotation.ts:409-411 | answers a quotation that is out, naming who |
| Quotation.Quotation.Decline | packages/modules/billing/domain/quotation.ts:413-415 | the same with the other answer |
| Quotation.Quotation.IssueLink | packages/modules/billing/domain/quotation.ts:428-445 | replaces the link of a quotation nobody answered |
| Quotation.Quotation.OpenedByClient | packages/modules/billing/domain/quotation.ts:454-463 | keeps the first opening |
| Quotation.Quotation.Expire | packages/modules/billing/domain/quotation.ts:479-495 | only an offer that is out and past its date |
| Quotation.CentiIsNearest | packages/modules/billing/domain/quotation.ts:136-145 | hours are charged to the nearest hundredth, whole hundredths exactly |
| Quotation.OfferAddsUp | packages/modules/billing/domain/quotation.ts:228-272 | total is subtotal less discount plus VAT, discount within the subtotal, VAT within the net |
| Quotation.RemovingUndoesAdding | packages/modules/billing/domain/quotation.ts:340-350 | removing the line just added gives the quotation back |
| QuotationDesk.Office.Draft | packages/modules/billing/application/manage-quotations.ts:79-128 | the number is drawn first and stays drawn when refused after |
| QuotationSays.DraftedIff | packages/modules/billing/application/manage-quotations.ts:79-128 | a draft goes through exactly if its reference is free and its branch live, and moves the sequence exactly if none was typed |
| QuotationSays.DraftSays | packages/modules/billing/application/manage-quotations.ts:79-128 | what the draft says, field by field |
| QuotationDesk.Office.AddLine | packages/modules/billing/application/manage-quotations.ts:130-158 | prices the line one way or the other, adds it and saves it |
| QuotationSays.AddedIff | packages/modules/billing/application/manage-quotations.ts:130-158 | a line is put on exactly if the quotation is a draft and nothing about the line is out of range |
| QuotationSays.UnpricedIsRefused | packages/modules/billing/application/manage-quotations.ts:130-150 | a line priced both ways or neither is refused |
| QuotationSays.LineSays | packages/modules/billing/application/manage-quotations.ts:130-158 | the line bears what was asked, and VAT at the configured rate exactly if standard-rated |
| QuotationSays.PriceOf | packages/modules/billing/domain/quotation.ts:136-145 | the one price a line is offered for: a sum, or the hours to the nearest hundredth at the rate |
| QuotationSays.LineFaultIs | packages/modules/billing/domain/quotation.ts:282-312 | the first thing wrong with a line, in order |
| QuotationSays.VatOfLine | packages/modules/billing/domain/quotation.ts:147-162 | a line's VAT is the nearest integer to that part of its net |
| QuotationDesk.Office.Apply | packages/modules/billing/application/manage-quotations.ts:332-344 | loads, changes and saves, or leaves the quotation as it was |
| QuotationAnswers.BearsTheAnswerGiven | packages/modules/billing/application/manage-quotations.ts:306-308 | in every run: accepted exactly if the first answer given while it was out was an acceptance, declined if a refusal; by whom and when |
| QuotationAnswers.AcceptedIff | packages/modules/billing/application/client-quotation.ts:45-65 | so of every run from an empty office, staff's answers and clients' |
| QuotationSays.BranchIff | packages/modules/billing/application/manage-quotations.ts:161-168 | a draft takes any live branch or none, and nothing else changes |
| QuotationSays.RemovedIff | packages/modules/billing/domain/quotation.ts:340-350 | a line is taken off exactly if the quotation is a draft and has it |
| QuotationDesk.Office.Send | packages/modules/billing/application/manage-quotations.ts:186-253 | asks, mails with a new link, then marks it sent |
| QuotationSays.SentIff | packages/modules/billing/application/manage-quotations.ts:186-253 | what sending asks for, by hand and by mail |
| QuotationDesk.Office.SendAgain | packages/modules/billing/application/manage-quotations.ts:268-300 | a new link for an offer that is out |
| QuotationSays.LinkRuns | packages/modules/billing/application/manage-quotations.ts:210-300 | links run for whole days of 86 400 000 ms; when one is sent again and what that changes |
| QuotationDesk.Office.SweepExpired | packages/modules/billing/application/manage-quotations.ts:318-330 | expires each offer listed by date, and counts them all |
| QuotationSays.ExpiredIff | packages/modules/billing/domain/quotation.ts:479-495 | an offer expires exactly if it is out and its last moment has come |
| QuotationSays.DateIs | packages/database/migrations/0025_quotations.sql:22 | the date kept is the midnight of the same UTC day |
| QuotationDesk.Office.Open | packages/modules/billing/application/client-quotation.ts:34-43 | opens what the live token stands on and keeps the first opening |
| QuotationSays.OpeningSays | packages/modules/billing/application/client-quotation.ts:34-77 | opening keeps the first moment and changes nothing else; a link lives until the moment it runs out |
| QuotationSays.ListedSays | packages/modules/billing/infrastructure/quotation.repository.ts:114-122 | the sweep lists offers that are out and whose last day is over, the longest over first, as many as its limit |
| QuotationSays.ChecksAre | packages/database/migrations/0025_quotations.sql:33-111 | the columns that go together and the ranges of a line, as conditions on the offer and the line |
| QuotationDesk.Office.Answer | packages/modules/billing/application/client-quotation.ts:45-65 | answers it as the client |
| QuotationRuns.EveryOfferAddsUp | packages/modules/billing/domain/quotation.ts:228-319 | in every run every offer adds up, meets the tables' checks and shares its reference with none |
| QuotationRuns.SentIsFrozen | packages/modules/billing/domain/quotation.ts:274-284 | once sent its lines, branch and terms never change, and an answer or lapse is final |
| QuotationRuns.AnsweredAtMostOnce | packages/modules/billing/domain/quotation.ts:497-522 | at most one answer is ever taken, and it stands exactly if one was |
| QuotationRuns.OnlyTheLatestTokenOpens | packages/modules/billing/application/client-quotation.ts:67-77 | a token opens a quotation exactly if it is the last one put on it and has not run out |
| QuotationRuns.RevokedForGood | packages/modules/billing/domain/quotation.ts:417-436 | a token replaced never opens anything again |
| QuotationEdges.RefusedDraftTakesNumber | packages/modules/billing/application/manage-quotations.ts:91-109 | exactly when a refused draft uses up a number |
| QuotationEdges.TypedReferenceLeavesGap | packages/modules/billing/application/manage-quotations.ts:84-104 | a reference typed ahead of the sequence costs the next draft its number |
| QuotationEdges.EmailedButStillDraft | packages/modules/billing/application/manage-quotations.ts:193-252 | exactly when the client has the mail and the quotation is still a draft |
| QuotationEdges.SentSaysHow | packages/modules/billing/application/manage-quotations.ts:174-253 | what the row says after sending: how, when, which link, and the same offer |
| QuotationEdges.LiveLinkOpensWhateverTheState | packages/modules/billing/application/client-quotation.ts:14-77 | a live link opens whatever the state; answering goes through exactly while the offer is out, and its refusal differs |
| QuotationEdges.QueryLeavesToday | packages/modules/billing/infrastructure/quotation.repository.ts:114-122 | what the expiry query lists always expires; what may expire and is not listed has its last day today |
| QuotationEdges.RefusedByTheTable | packages/database/migrations/0025_quotations.sql:95-111 | which lines the aggregate accepts and the table does not |
| QuotationEdges.SweepsDrain | packages/modules/billing/application/manage-quotations.ts:310-330 | each sweep at one moment takes out a whole batch of what the query lists, until it lists none |
| QuotationEdges.DrainedButForToday | packages/database/migrations/0025_quotations.sql:22 | once the sweeps have drained, what could still expire is exactly what is valid until today |
| QuotationEdges.LapsedPriceIsTaken | packages/modules/billing/domain/quotation.ts:497-522 | an answer takes a price that has lapsed exactly if the link is live and the offer one that expire would end |
| QuotationEdges.LapsedTodayIsTaken | packages/modules/billing/domain/quotation.ts:497-522 | right after the sweeps have drained, exactly if the offer was valid until today |
| QuotationWitnesses.LapsedPriceAccepted | packages/modules/billing/domain/quotation.ts:497-522 | a run after which an offer two days past its last day is accepted |
| QuotationWitnesses.MailedYetDraft | packages/modules/billing/application/manage-quotations.ts:193-252 | a run that leaves the client with the mail and the office with a draft |
| QuotationWitnesses.AnsweredLinkStillOpens | packages/modules/billing/application/client-quotation.ts:34-77 | a run after which an answered quotation's link opens, and answering again is refused in its own words |
| QuotationWitnesses.StillOutOnItsLastDay | packages/modules/billing/infrastructure/quotation.repository.ts:114-122 | a run with an offer that may expire at noon of its last day and is not listed before the next |
| QuotationWitnesses.SliverIsThrownOut | packages/database/migrations/0025_quotations.sql:95-111 | a run after which a line passes the aggregate and not the table |
| QuotationWitnesses.ClosedBranchCostsNumber | packages/modules/billing/application/manage-quotations.ts:91-109 | a draft refused for its branch uses up the first number |
| ReadSide.ReaderRoundIs | packages/modules/billing/infrastructure/billing.reader.ts:488-493 | exactly when the reader's rounding is the kernel's |
| ReadSide.ReaderDropsHalf | packages/modules/billing/infrastructure/billing.reader.ts:488-493 | half a unit below zero, on which they differ |
| ReadSide.StatementLineIsKept | packages/modules/billing/infrastructure/billing.reader.ts:55-72 | a saved and loaded line is what it was, and the screen's amount is the aggregate's |
| ReadSide.StatementTotalsAgree | packages/modules/billing/infrastructure/billing.reader.ts:266-270 | total and hours on the screen are the statement's |
| ReadSide.LinesFor | packages/modules/billing/infrastructure/billing.reader.ts:216-232 | each statement gets its own rows in order |
| ReadSide.StatementLineTable.Save | packages/modules/billing/infrastructure/statement.repository.ts:156-179 | the loop updates only what a review can change, and inserts what is new |
| ReadSide.InPlaceIsEnough | packages/modules/billing/infrastructure/statement.repository.ts:125-179 | after any review that leaves just the rows of the reviewed statement |
| ReadSide.QuotationLineIsKept | packages/modules/billing/infrastructure/quotation.repository.ts:61-72 | loading a saved line gives it back but for hours in whole hundredths |
| ReadSide.QuotationLineAgrees | packages/modules/billing/infrastructure/billing.reader.ts:504-537 | amount, discount, net, VAT and chargeable on the screen are the aggregate's, hours whole hundredths or not |
| ReadSide.QuotationTotalsAgree | packages/modules/billing/infrastructure/billing.reader.ts:119-139 | so are the five totals |
| ReadSide.InvoiceAgrees | packages/modules/billing/infrastructure/billing.reader.ts:326-385 | net, VAT, total, balance and status on the screen are the invoice's, payments in any order |
| ReadSide.ReloadingIsInvisible | packages/modules/billing/infrastructure/invoice.repository.ts:94-150 | an invoice whose payments came back in another order answers every call alike |
| ReadSide.PaymentTable.Save | packages/modules/billing/infrastructure/invoice.repository.ts:199-214 | the loop adds the payments not there yet |
| ReadSide.SavingAddsThePayment | packages/modules/billing/infrastructure/invoice.repository.ts:152-214 | saving after a payment leaves just the invoice's payments in the table |
| Drift.VatByLineOrOnTotal | packages/modules/billing/domain/quotation.ts:152-162 | VAT by line and on the total differ by at most (n+1)/2 |
| Drift.PiecesOrWhole | packages/kernel/src/rate.ts:25-28 | pricing n durations apart or together differs by at most (n+1)/2 |
| Drift.PrintedReachesAmount | packages/modules/billing/application/raise-invoice.ts:163-184 | quantity times rate reaches the amount: exactly for fees, adjustments and slivers, else within rate/200 + 1/2 |

## Left out

- JobRunner.JobRunner.RunOnce: what the other workers do to the table is a parameter, seen at each report. `start`, `stop` and the pause between batches are not modelled.
- LeaseDiscipline.DisciplinedRuns: assumes, as the worker's configuration does, that no lease passes while its claim is open; a claim lost to a crash counts as one extra try.
- DailySweep.OneSweepPerDay: assumes that no two o'clock passes between reading the clock and enqueuing; `StaleReadingDuplicates` is the other case.
- SweepChain.ChainGoesOn: the handler reads its clock after its job fell due, and enqueues the next sweep before its job is reported done; what else it does is in `Alerts` and `Escalations` or not part of the model.
- BillingRuns.NoHourLostOrBilledTwice: an entry on a statement is not edited at all, although its note could be.
- OutboxProgress.PublishedIffFewOlderSick: which events fail does not change, no failing event has the very moment of the one asked about, and what is written later happened later; `HealthyEventIsPublished` needs none of the last two. Which subscriber fails on which event is a parameter.
- OutboxRuns.PassMakesRoom: one pass with nothing in between; the other cases are in `OutboxProgress`.
- GenerateStatement.OrderDoesNotMatter: takes from the reader's joins that a project has one service and one subscription, and a subscription one fee; a fee line's day and person, and a retainer's project, are those of whichever row came first, and are not compared.
- InvoiceStore.StoredRunIs: one invoice at a time, loaded as it was saved (`ReadSide.ReloadingIsInvisible` has its payments in another order), and payment identifiers that are new; the classification columns a trigger fills in are not part of it.
- MoneyText.TextRoundTrip: text only; amounts given as JavaScript numbers go through `toFixed`, which is floating point.
- SettleInvoice.MarkedIffEarlyEnough: for distinct due dates, because the query leaves ties open (`MarkedOrNever` has both sides of a tie), and one morning; `MarkedIffSomeSweepReachesIt` has payments and other days, for an invoice not settled meanwhile.
- QuotationDesk.Office.Send: whether a client has an address, and which channel was used, is a parameter.
- ReadSide.InvoiceAgrees: exact arithmetic; `Math.round` on a floating-point quotient is taken as rounding halves up.
- Money is not bounded outside `MoneyText`: an amount beyond the safe integers throws and takes the unit of work back, which is no step.
- Identifiers are places in a table, and the natural keys of jobs and the group keys of statements are structured values rather than strings.
- Real calendars and time zones: a day is given as a calendar date, a moment is a number of milliseconds.
- Interleaved `generate` calls for one client: each use case is one atomic step here, and the guarded attach is modelled but not relied on.
- Descriptions, `Intl` formatting, notes in two languages on invoices, banks and references of payments, voucher numbers.
- Domain events and audit rows; permissions, but for the one that releasing asks for.
- `Duration`'s own operations, recurring work, and the daily sweep's remaining parts.
- Controllers, contracts, configuration, the web application, storage of files, mail and WhatsApp delivery, and SQL reports.
