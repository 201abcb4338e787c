# Rolling admission: a verified model

The backend admits students to activities by rank. Students are imported with a score, ranked, and from the start of
admission offers go out in rank order until the quota of the activity is used up; every refusal, every expiry and every
acceptance in another activity frees a seat for the next one waiting. About twenty transactions, three background jobs
and the candidates' own clicks write the same tables. This project models that engine and the smaller protocols around
it, and proves what they promise.

## How the project is organised

- `OrderBy.dfy`, `Tables.dfy`: ORDER BY over table rows; the rows of the admission tables and the queries over them. A
  row is named by its position in the order of insertion.
- `Transactions.dfy`: one function per database transaction: the tables and the arguments in, the committed tables and
  the reply out. A transaction that fails returns the tables it was given.
- `Store.dfy`: the services as they are written, as methods of a class that updates the tables in place, loops included.
  Each method is proved to commit exactly what its function says; what the functions promise is proved about them in the
  files below.
- `Invariant.dfy`: what every committed state satisfies. `RowWrites.dfy`, `Filling.dfy`, `Preparing.dfy`, `Batching.dfy`
  and `Safety.dfy` prove that row writes, the issuing loop, the preparation steps, batches and every transaction keep it,
  and that no transaction loses a seat. `Evolution.dfy` says what no transaction takes back, `Losses.dfy` when a seat is
  lost between transactions.
- `Admission.dfy`: the state machine with one step per transaction, post-commit refill, job execution and process death;
  a run is any sequence of steps. `Guarantees.dfy`, `Views.dfy` and `Serving.dfy` state what holds in every reachable
  state and over every continuation; `Jobs.dfy` shows that the loops around the transactions are runs of the machine.
- `Answers.dfy`, `Deadlines.dfy` and `Refills.dfy` say of every transaction, without its function's own terms, when it
  commits, what it writes then and why it refuses otherwise, on which terms offers are issued and how long they stand,
  and whom the refills, the expiry sweep and the intent executor serve. `Deliveries.dfy` says the same of the mail queue.
- `MailQueue.dfy`, `MailWorkers.dfy`: the leased mail queue and any number of workers on it. `Pacer.dfy`: the rest
  between two submissions to one mail host. `Migrations.dfy`: the migration runner killed at any write.
  `Invitations.dfy`: members and invitation tokens. `Export.dfy`: keyset windows and the current-offer pickers.

## Reading the model

- Each database transaction is one atomic step; the activity and candidate row locks are what makes it so. A refill after
  a commit is a step of its own and may come at any later moment.
- Time, random tokens, readiness of the mail configuration, the candidate and executor leases, the platform's default
  batch size and success or failure of a statement are parameters.
- `owed` is not a table. It remembers that a server process has committed an unpaused quota increase and has not yet run
  the refill it runs after the commit. The `Crash` step forgets it; so does a refill that fails together with its
  fallback intent.
- The linkage of an acceptance reaches other activities without asking for their row locks. The foreign key of
  `refill_intent` (rollin-backend/internal/db/migrations/v1.go:44,325) does it in its place: the intent the linkage
  writes for an AUTO activity waits until a transaction that holds that activity's row, an execution or a resumption
  for instance, has committed. So the two come one after the other, and `NoIntentIsSwallowed` holds of the code.
- SKIP LOCKED never skips a WAITING row of an activity whose row lock is held, because every writer of such rows holds
  that lock; the cursor is therefore the least rank.
- Lemmas about runs take `steps` and speak about `Reach(steps)`; `ReachSafe` gives them the invariant.

## Where the code and its own words differ

- The design notes and a comment say that a refusal past the deadline settles the offer in place. The transaction returns
  an error after the settlement (rollin-backend/internal/offer/service.go:768-772), so the settlement is rolled back;
  the model follows the code (`DeclineTx`).
- The comment on the worker's `cancel` says that a task whose lease was recovered stays with its new owner
  (rollin-backend/internal/mail/worker.go:523-524). The update does not look at the owner
  (rollin-backend/internal/mail/repository_gorm.go:139-144): `StaleCancelWins` says exactly when a stale worker cancels
  another worker's task, `StaleCancelExample` shows a run.
- The comment in `apply` says that re-executing an interrupted DDL step is safe
  (rollin-backend/internal/db/migrations/runner.go:312-314). V2 to V5 and V7 add columns without an existence check (for
  example rollin-backend/internal/db/migrations/v7_platform_refill_pause.go:5), and executing such a statement again
  fails. `UpgradeCompletes` says exactly which interrupted databases can still be upgraded, `ColumnBlocks` shows one
  that cannot.
- The DML branch does not look at its progress row at all: `RecordedBodyRuns`, `BodyRunsTwice`. None of the registered
  migrations V1 to V7 has a DML body today, so the branch gets no input yet.
- The repository's README names a single V1 migration and minimum version 1; the runner registers V1 to V7 and demands 7.
- An unpaused quota increase is promised a best-effort refill (rollin-backend/internal/activity/service.go:613-663) and,
  if that fails, an intent for the executor to retry. Nothing durable records the promise. `CrashLosesSeats` says exactly
  when a process death loses the new seats. The fallback returns silently when it cannot find the activity and drops the
  error of its insert (rollin-backend/internal/activity/service.go:678-688), and it runs under the same request context
  as the refill, so a client that goes away after the commit can make both fail: `FailureLosesSeats` says that this loses
  the seats in exactly the same situation, `FailureLosesASeat` shows it.

## Model

| member | source | states |
|---|---|---|
| Stores.Store.FillByRank | rollin-backend/internal/ranking/service.go:437-579 | Issues in place exactly what the ranked fill of the tables gives, and reports how many offers it added. |
| Stores.Store.IssueRanked | rollin-backend/internal/ranking/service.go:463-577 | The loop over cursor, occupation, issued and seen: it ends in the state of the specified loop, every row the cursor returns is new, so the stalled-cursor error cannot occur. |
| Filling.FillIsExact | rollin-backend/internal/ranking/service.go:437-579 | An activity that is not ACTIVE and started is untouched; otherwise exactly the first min(free seats, limit, eligible) deserving applications in rank order get one offer each, exactly the accepted candidates passed on the way become INELIGIBLE, nothing else changes. |
| Filling.RoomIsLeast | rollin-backend/internal/ranking/service.go:463 | The room of a filling is the least of the free seats and the limit, if there is one, and never negative. |
| Filling.FillLoopOffers | rollin-backend/internal/ranking/service.go:530-549 | The offers added are one per winner, in rank order, on the terms of the pass. |
| Filling.FillLoopStatuses | rollin-backend/internal/ranking/service.go:494-549 | Winners become OFFERED, accepted candidates ahead of the last winner INELIGIBLE, every other application is unchanged. |
| Filling.FillLoopStops | rollin-backend/internal/ranking/service.go:463-577 | The loop stops only when its room is used up or nobody waits; it only ever adds occupation and empties queues. |
| Filling.FillLoopKeeps | rollin-backend/internal/ranking/service.go:463-577 | Every turn of the loop keeps the whole invariant, whatever room within the quota it was given. |
| Batching.PaceDoesNotMatter | rollin-backend/internal/ranking/service.go:437-579 | For a, b > 0 filling with limit a and then b leaves the applications and the offered applications, in order, of one fill with limit a + b. |
| Batching.RefillIsIdempotent | rollin-backend/internal/ranking/service.go:407-409 | An unlimited fill leaves nothing for a second one to do. |
| Batching.PreviewIsHonest | rollin-backend/internal/activity/batch.go:232-306 | The unflagged preview list and the list a batch then reaches are prefix-comparable; a preview without a flagged row that fits the free seats is that list. |
| Tables.NextWaiting | rollin-backend/internal/application/repository_gorm.go:104-115 | The cursor is a WAITING application of the activity with the least rank, -1 exactly when nobody waits. |
| Filling.CursorIsAhead | rollin-backend/internal/application/repository_gorm.go:104-115 | With a complete ranking the cursor is strictly ahead of everybody else who waits. |
| Stores.Store.AcceptTx | rollin-backend/internal/offer/service.go:454-598 | The accepting transaction commits and answers as specified on every path, the committed settlement of a late offer included. |
| Stores.Store.TakeAndLink | rollin-backend/internal/offer/service.go:523-571 | The three conditional updates and the linkage loop; a lost application update rolls everything back. |
| Stores.Store.DeclineLinks | rollin-backend/internal/offer/service.go:561-571 | Declines every linked offer and returns the AUTO activities to refill, in order. |
| Stores.Store.Close | rollin-backend/internal/offer/service.go:899-932 | A PENDING offer is settled with its application and, for AUTO, an intent; any other offer is left alone. |
| Stores.Store.DeclineTx | rollin-backend/internal/offer/service.go:728-826 | The declining transaction; the settlement of a late offer is rolled back with the refusal. |
| Stores.Store.Accept | rollin-backend/internal/offer/service.go:372-435 | Early answer, candidate lease, transaction, and after its commit the refills of the listed activities. |
| Stores.Store.Decline | rollin-backend/internal/offer/service.go:708-839 | Early answer, transaction, and a refill when the activity was allowed to refill under the lock. |
| Stores.Store.RefillActivitiesPostCommit | rollin-backend/internal/offer/service.go:676-700 | Refills each listed activity once, and only while it is ACTIVE, started, AUTO and unpaused. |
| Refills.RefillEachIsExact | rollin-backend/internal/offer/service.go:676-700 | Every listed activity that is ACTIVE, started, AUTO and unpaused is full afterwards or has nobody waiting; every other activity keeps its offers and applications. |
| Guarantees.AcceptNeverConflicts | rollin-backend/internal/offer/service.go:500-546 | In every reachable state a PENDING offer finds an empty accepted-offer column and an OFFERED application: both branches for an accepted-offer column already set and every lost conditional update are dead. |
| Guarantees.DeclineNeverConflicts | rollin-backend/internal/offer/service.go:774-791 | In every reachable state the guarded application update of a refusal succeeds. |
| Guarantees.AcceptedOnce | rollin-backend/internal/offer/service.go:524-541 | A candidate who has accepted holds exactly that one active offer over all activities, and the accepted-offer column names it, after every continuation of every run. |
| Guarantees.PointerIsTrue | rollin-backend/internal/offer/service.go:531-541 | A set accepted-offer column names an ACCEPTED offer of that candidate. |
| Safety.LinkageIsExact | rollin-backend/internal/offer/service.go:548-571 | An acceptance changes exactly its own offer and the candidate's other PENDING offers, in activities of any status. |
| Safety.AcceptOutcome | rollin-backend/internal/offer/service.go:476-598 | The only ways an acceptance commits anything: the settlement of a late offer, or the acceptance with its linkage. |
| Safety.AcceptKeeps | rollin-backend/internal/offer/service.go:476-598 | An acceptance keeps the invariant and every covered seat. |
| Answers.AcceptAnswers | rollin-backend/internal/offer/service.go:454-598 | What an acceptance is answered in every case; it commits exactly for a PENDING offer of an ACTIVE activity before its deadline, and a late one is settled. |
| Answers.ClosingRecords | rollin-backend/internal/offer/service.go:899-932 | A closed offer takes its application along and writes one intent, naming reason and offer, exactly for an AUTO activity. |
| Refills.RefillsListed | rollin-backend/internal/offer/service.go:548-598 | The reply to a committed acceptance lists exactly the AUTO activities in which it took or freed a seat. |
| Refills.AcceptServes | rollin-backend/internal/offer/service.go:372-435 | After an acceptance with its refills every such activity that is ACTIVE, started and unpaused is full or has nobody waiting; the offers and applications of every other activity are those the transaction left. |
| Safety.DeclineOutcome | rollin-backend/internal/offer/service.go:752-826 | A refusal commits exactly the decline of a PENDING offer in time, and nothing otherwise. |
| Safety.DeclineKeeps | rollin-backend/internal/offer/service.go:752-826 | A refusal keeps the invariant and every covered seat. |
| Answers.DeclineAnswers | rollin-backend/internal/offer/service.go:728-826 | What a refusal is answered in every case; it commits exactly for a PENDING offer of an ACTIVE activity before its deadline. |
| Refills.DeclineServes | rollin-backend/internal/offer/service.go:708-839 | After a refusal with its refill the activity is full or has nobody waiting if it is ACTIVE, started, AUTO and unpaused; otherwise nothing is issued. |
| Safety.LinksClean | rollin-backend/internal/offer/repository_gorm.go:150-163 | After the linkage the accepted candidate holds no PENDING offer anywhere. |
| Views.ViewMatchesAction | rollin-backend/internal/offer/service.go:313-357 | In every reachable state the page is actionable exactly when an acceptance at that instant commits, and exactly when a refusal does. |
| Views.ViewExplainsAnswer | rollin-backend/internal/offer/service.go:313-357 | In every reachable state the page shows what an acceptance at that instant would answer, or refuses for the same reason. |
| Views.AcceptIsIdempotent | rollin-backend/internal/offer/service.go:480-485 | After an acceptance the page shows it, and repeating it changes nothing and answers the same. |
| Views.DeclineIsIdempotent | rollin-backend/internal/offer/service.go:759-763 | The same for a refusal. |
| Views.EarlyAnswerIsRight | rollin-backend/internal/offer/service.go:380-391 | The answer given from an unlocked read equals the transaction's answer however many steps later it runs, as long as the activity keeps its status. |
| Views.CurrentIsNewest | rollin-backend/internal/offer/repository_gorm.go:129-139 | In every reachable state the current offer of an application is its newest. |
| Views.PickersAgree | rollin-backend/internal/application/service.go:651-732 | What the list and the export show as current is what special issuing judges. |
| Views.MailMatchesView | rollin-backend/internal/mail/worker.go:619-642 | The send recheck passes exactly for an offer whose page is actionable. |
| Views.NoMailAfterSettlement | rollin-backend/internal/mail/worker.go:586-615 | Once an offer is settled no later recheck lets its mail out, over every continuation. |
| Stores.Store.SettleExpiredForActivity | rollin-backend/internal/offer/service.go:1355-1408 | Settles in place the due offers of one activity. |
| Stores.Store.SettleRows | rollin-backend/internal/offer/service.go:963-1008 | One sweep transaction: each row is looked at again, only an ACTIVE activity is settled. |
| Safety.SettleGroupKeeps | rollin-backend/internal/offer/service.go:963-1008 | A sweep transaction keeps the invariant and every covered seat. |
| Stores.Store.GroupRows | rollin-backend/internal/offer/service.go:951-958 | Every due row lands in the group of its activity, in order, activities in order of first appearance. |
| Refills.FirstSeenOnce | rollin-backend/internal/offer/service.go:951-958 | The sweep visits each activity of the due rows once. |
| Stores.Store.SettleDue | rollin-backend/internal/offer/service.go:939-1018 | The sweep over all groups with the refill after each commit. |
| Refills.SweepSettles | rollin-backend/internal/offer/service.go:939-1018 | Exactly the listed offers that are still due, in ACTIVE activities, are EXPIRED after the sweep. |
| Refills.SweepServes | rollin-backend/internal/offer/service.go:939-1018 | Every swept activity that may refill is full afterwards or has nobody waiting; the others are as before. |
| Jobs.SettleIsExact | rollin-backend/internal/offer/service.go:1355-1408 | Settling one activity expires exactly its due offers and leaves none due. |
| Jobs.SweepIsExact | rollin-backend/internal/offer/service.go:973-1005 | A sweep group expires exactly the listed offers still due under the lock, and nothing in an activity that is not ACTIVE. |
| Stores.Store.IssueManual | rollin-backend/internal/offer/service.go:1026-1143 | The eight preconditions in order, then one MANUAL offer. |
| Safety.ManualKeeps | rollin-backend/internal/offer/service.go:1026-1143 | Issuing by hand keeps the invariant and every covered seat. |
| Answers.ManualAnswers | rollin-backend/internal/offer/service.go:1026-1143 | Issuing by hand commits exactly for a waiting applicant of a started MANUAL activity who has accepted nothing, with a free seat and configured mail; then it is the one offer on its terms, otherwise the reason is told. |
| Stores.Store.IssueSpecial | rollin-backend/internal/offer/service.go:1148-1273 | The preconditions in order, then one SPECIAL offer for a declined or expired application. |
| Safety.SpecialKeeps | rollin-backend/internal/offer/service.go:1148-1273 | Special issuing keeps the invariant and every covered seat. |
| Answers.SpecialAnswers | rollin-backend/internal/offer/service.go:1148-1273 | Special issuing commits exactly for an applicant whose last offer was declined or expired and who has accepted nothing, with a reason, a free seat and configured mail. |
| Stores.Store.IssueBatch | rollin-backend/internal/activity/batch.go:99-227 | The gates in order and the batch transaction. |
| Stores.Store.RunBatch | rollin-backend/internal/activity/batch.go:149-196 | The batch row is created first, filled, and completed with its count or deleted when nobody was reached. |
| Safety.BatchOutcome | rollin-backend/internal/activity/batch.go:99-227 | The ways a batch commits: nothing, or the filled tables with one batch row that counts the offers. |
| Safety.BatchKeeps | rollin-backend/internal/activity/batch.go:99-227 | A batch keeps the invariant and every covered seat. |
| Answers.BatchAnswers | rollin-backend/internal/activity/batch.go:99-227 | Exactly when a batch is issued, with the given size, the activity's or the platform's, and why not. |
| Answers.BatchCommits | rollin-backend/internal/activity/batch.go:99-227 | A batch issues the least of its size, the free seats and the deserving applicants, and says so. |
| Views.PreviewMatchesIssue | rollin-backend/internal/activity/batch.go:232-306 | The next click is refused exactly when the preview shows no free seat; otherwise it reaches the first deserving applications within the announced size, seats and queue, and a batch that reaches somebody gets the announced number. |
| Answers.PreviewAnswers | rollin-backend/internal/activity/batch.go:232-306 | Exactly when a preview is shown and why not; it shows the size, the free seats, the length of the queue and the next number. |
| Stores.FillIgnoresBatches | rollin-backend/internal/activity/batch.go:155-172 | Whom a batch reaches does not depend on the batch rows. |
| Guarantees.OriginOfOffers | rollin-backend/internal/offer/service.go:1180-1228 | Every later offer of an application is SPECIAL. |
| Guarantees.FirstOffer | rollin-backend/internal/ranking/service.go:530-537 | An application's first offer comes from its activity's mode, and a batch link names a recorded batch of that activity. |
| Deadlines.FreshOffer | rollin-backend/internal/ranking/service.go:453-549 | Whatever the step: a new offer belongs to the step's activity, is PENDING, carries the step's source and batch, and expires as many hours of 3600 seconds after the step as the activity grants. |
| Deadlines.OfferStands | rollin-backend/internal/offer/service.go:486-497 | Over every continuation: while it is PENDING and its activity ACTIVE, an offer can be taken, and can be refused, exactly before that instant. |
| Guarantees.BatchesCount | rollin-backend/internal/activity/batch.go:149-196 | The batches of an activity are numbered 1, 2, 3, ... and each counts exactly its linked offers, at least one. |
| Stores.Store.StartAdmission | rollin-backend/internal/activity/service.go:801-893 | The start gates in order, the permanent freeze and the first issue. |
| Safety.StartKeeps | rollin-backend/internal/activity/service.go:801-893 | The start of admission keeps the invariant and every covered seat. |
| Answers.StartAnswers | rollin-backend/internal/activity/service.go:801-893 | Exactly when admission starts, when it had started already, and why it does not. |
| Answers.StartCommits | rollin-backend/internal/activity/service.go:801-893 | The start freezes the ranking, notes the time and, in AUTO, leaves the activity full or without anybody waiting; the reply counts the offers. |
| Stores.Store.UpdateQuota | rollin-backend/internal/activity/service.go:593-654 | The quota change with the intent of a paused increase or the refill owed by an unpaused one. |
| Safety.QuotaKeeps | rollin-backend/internal/activity/service.go:593-654 | A quota change keeps the invariant, and the seats it opens are covered by its intent or by the refill it owes. |
| Answers.QuotaAnswers | rollin-backend/internal/activity/service.go:593-654 | Exactly when a quota change commits and why not; what it writes, with the one intent or the one owed refill. |
| Stores.Store.RefillAfterQuota | rollin-backend/internal/activity/service.go:657-688 | The owed refill; an intent when it fails; nothing when that fails too, since its error is dropped. |
| Safety.QuotaRefillKeeps | rollin-backend/internal/activity/service.go:657-688 | The owed refill keeps the invariant, and it keeps every seat covered when it or its fallback works. |
| Refills.OwedRefillServes | rollin-backend/internal/activity/service.go:657-665 | The owed refill leaves the activity full or without anybody waiting and writes no intent. |
| Refills.OwedIntentStands | rollin-backend/internal/activity/service.go:678-688 | If it fails, its intent is all that is written, if that works. |
| Stores.Store.UpdateOfferMode | rollin-backend/internal/activity/service.go:705-743 | The mode changes only before the start of admission. |
| Safety.ModeKeeps | rollin-backend/internal/activity/service.go:705-743 | A mode change keeps the invariant and every covered seat. |
| Answers.ModeAnswers | rollin-backend/internal/activity/service.go:705-743 | Exactly when the mode changes, and why not. |
| Stores.Store.Disable | rollin-backend/internal/activity/service.go:421-462 | ACTIVE to DISABLED with refills paused. |
| Safety.DisableKeeps | rollin-backend/internal/activity/service.go:421-462 | Disabling keeps the invariant and every covered seat. |
| Answers.LifecycleAnswers | rollin-backend/internal/activity/service.go:421-543 | Exactly when an activity is disabled and archived, and what that writes. |
| Stores.Store.Activate | rollin-backend/internal/activity/service.go:467-509 | DISABLED to ACTIVE with the due offers settled and refills still paused. |
| Safety.ActivateKeeps | rollin-backend/internal/activity/service.go:467-509 | Re-activating keeps the invariant and every covered seat. |
| Answers.ActivateAnswers | rollin-backend/internal/activity/service.go:467-509 | Exactly a DISABLED activity is re-activated; its overdue offers expire, its refills stay paused. |
| Stores.Store.Archive | rollin-backend/internal/activity/service.go:514-559 | ACTIVE to ARCHIVED only without PENDING offers. |
| Safety.ArchiveKeeps | rollin-backend/internal/activity/service.go:514-559 | Archiving keeps the invariant and every covered seat. |
| Stores.Store.PauseRefill | rollin-backend/internal/activity/service.go:898-941 | Pauses a running AUTO activity, idempotently. |
| Safety.PauseKeeps | rollin-backend/internal/activity/service.go:898-941 | Pausing keeps the invariant and every covered seat. |
| Stores.Store.PauseAllAutoRefills | rollin-backend/internal/activity/service.go:949-997 | Pauses every running AUTO activity under platform control, skipping those already so paused. |
| Safety.PauseAllKeeps | rollin-backend/internal/activity/service.go:949-997 | The platform stop keeps the invariant and every covered seat. |
| Answers.PauseAnswers | rollin-backend/internal/activity/service.go:898-941 | Exactly when refills are paused by the owner, and which activities the platform stop pauses. |
| Stores.Store.ResumeRefill | rollin-backend/internal/activity/service.go:1003-1086 | Gates, settlement, unpausing, refill and close-out of the served intents, in that order. |
| Safety.ResumeKeeps | rollin-backend/internal/activity/service.go:1003-1086 | Resuming keeps the invariant and covers the seats it opens. |
| Answers.ResumeAnswers | rollin-backend/internal/activity/service.go:1003-1086 | Exactly when a resumption is accepted, and why not; where refills run already nothing happens. |
| Answers.ResumeCommits | rollin-backend/internal/activity/service.go:1003-1086 | A resumption unpauses, expires the overdue offers, closes all intents of the activity and counts the new offers. |
| Answers.ResumeSatisfies | rollin-backend/internal/activity/service.go:1003-1086 | It leaves a started activity full or without anybody waiting. |
| Stores.Store.ExecuteOne | rollin-backend/internal/admission/worker.go:164-217 | Refills under the row lock only an ACTIVE, started, unpaused AUTO activity with a PENDING intent, then closes its intents. |
| Safety.ExecuteKeeps | rollin-backend/internal/admission/worker.go:164-217 | An execution keeps the invariant and every covered seat, although it closes intents. |
| Refills.ExecuteIsExact | rollin-backend/internal/admission/worker.go:164-217 | The executor serves an activity exactly when it is ACTIVE, started, AUTO and unpaused and has a PENDING intent: then it has none afterwards, is full or has nobody waiting, and no other activity changes; otherwise nothing changes. |
| Stores.Store.ExecuteIntents | rollin-backend/internal/admission/worker.go:141-161 | One execution per listed activity whose lease was obtained. |
| Refills.ExecuteAllIsExact | rollin-backend/internal/admission/worker.go:141-161 | Every listed activity whose lease was obtained and that has such work is served; every other keeps its offers, applications and intents. |
| Safety.ActivateChanges | rollin-backend/internal/activity/service.go:467-509 | A disabled activity is always paused, so re-activating it opens no refill and its reply is right to say paused. |
| Stores.Store.CreateActivity | rollin-backend/internal/activity/service.go:200-293 | A new activity is ACTIVE, clean and not started; a missing mode, a missing deadline and the missing batch size of a BATCH activity come from the platform and are checked like given ones. |
| Safety.CreateKeeps | rollin-backend/internal/activity/service.go:200-293 | A creation keeps the invariant and every covered seat. |
| Answers.CreateAnswers | rollin-backend/internal/activity/service.go:200-293 | Exactly when a creation succeeds, and the one activity it adds. |
| Stores.Store.ImportOne | rollin-backend/internal/application/service.go:170-304 | First import, repeated import and every refusal. |
| Answers.ImportAnswers | rollin-backend/internal/application/service.go:170-304 | Exactly when an import commits, and why not. |
| Answers.ImportCommits | rollin-backend/internal/application/service.go:170-304 | It writes the one application of the student to the activity, a new one behind all others, and a row that changes makes the ranking dirty. |
| Stores.Store.Patch | rollin-backend/internal/application/service.go:476-581 | Writes the columns that differ and marks the ranking dirty; refused once frozen and when it would change the student id. |
| Preparing.PatchKeeps | rollin-backend/internal/application/service.go:476-581 | A correction keeps the invariant and every covered seat. |
| Answers.PatchAnswers | rollin-backend/internal/application/service.go:476-581 | Exactly when a correction commits, what it writes, and why not. |
| Stores.Store.Recalculate | rollin-backend/internal/ranking/service.go:150-222 | Nulls all ranks and writes 1..N in place; the duplicate check behind it never fires. |
| Answers.RecalculateAnswers | rollin-backend/internal/ranking/service.go:150-222 | Exactly when a recalculation commits, and why not. |
| Stores.Store.RewriteRanks | rollin-backend/internal/ranking/repository_gorm.go:51-65 | After the rewriting loop the listed rows hold the given ranks and nothing else changed. |
| Stores.Store.TieOrder | rollin-backend/internal/ranking/service.go:228-363 | The checks in order and the rewriting of one whole score group. |
| Answers.TieAnswers | rollin-backend/internal/ranking/service.go:228-363 | Why a tie order is refused before its group is looked at. |
| Answers.TieCommits | rollin-backend/internal/ranking/service.go:228-363 | It commits exactly for the whole group of ranked applications of one score. |
| Stores.Store.TradeRanks | rollin-backend/internal/ranking/service.go:293-330 | The group is nulled and rewritten in place; its verification passes: every member held and now holds one of the same ranks. |
| Preparing.RecalculateOrders | rollin-backend/internal/ranking/service.go:171-182 | After a recalculation rank order is score descending, then import order, and ranks differ. |
| Preparing.RecalculateFills | rollin-backend/internal/ranking/service.go:171-182 | After a recalculation every rank from 1 to N is taken. |
| Preparing.TieOrderRealised | rollin-backend/internal/ranking/service.go:305-310 | Every listed application ends up ahead of every later listed one. |
| Preparing.TieOrderPermutes | rollin-backend/internal/ranking/service.go:294-330 | Only ranks inside the one score group change, and the group hands out exactly the ranks it held. |
| Preparing.TieOrderKeeps | rollin-backend/internal/ranking/service.go:228-363 | A tie order keeps the invariant, the ranking included. |
| Preparing.ImportKeeps | rollin-backend/internal/application/service.go:170-304 | An import keeps the invariant and every covered seat. |
| Guarantees.RankingIsBijection | rollin-backend/internal/ranking/service.go:150-363 | Whenever the ranking is not dirty the ranks lie in 1..N, differ and linearise the scores. |
| Guarantees.NoRankIsMissing | rollin-backend/internal/ranking/service.go:367-392 | Whenever the ranking is not dirty every rank from 1 to N is held. |
| Guarantees.NoDuplicates | rollin-backend/internal/application/service.go:194-299 | One candidate per student and one application per candidate and activity, without relying on unique keys. |
| Guarantees.ImportOrdersCount | rollin-backend/internal/application/repository_gorm.go:84-91 | Import orders are exactly 1..N in the order of import. |
| Admission.StepKeeps | rollin-backend/internal/offer/service.go:456-598 | Every step of the machine keeps the invariant, and it keeps every seat covered exactly when it is not one of the two lossy steps in its losing situation. |
| Admission.RunLoses | rollin-backend/internal/activity/service.go:613-688 | From a safe, covered state every seat stays covered all along a run exactly when none of its steps is such a loss. |
| Admission.RunKeeps | rollin-backend/internal/offer/service.go:456-598 | The invariant holds over every sequence of steps. |
| Admission.RunEvolves | rollin-backend/internal/offer/service.go:454-598 | Over every run: settled offers, accepted-offer columns once set, frozen ranks and scores, modes, archived activities and batch records stay; nobody returns to the queue. |
| Admission.RunCoversSeats | rollin-backend/internal/activity/service.go:613-663 | Over every run without lossy steps every seat of a refilling activity stays covered. |
| Guarantees.ReachSafe | rollin-backend/internal/offer/service.go:456-598 | Every state reachable from the empty database satisfies the invariant. |
| Guarantees.NoJustifiedEnvy | rollin-backend/internal/ranking/service.go:463-577 | In AUTO and BATCH activities whoever waits ranks behind, and scores at most, everybody who ever got an offer. |
| Guarantees.QueueIsSuffix | rollin-backend/internal/ranking/service.go:463-577 | The waiting applications are a tail of the frozen ranking. |
| Guarantees.IneligibleMeansElsewhere | rollin-backend/internal/ranking/service.go:498-528 | An INELIGIBLE application's candidate holds an ACCEPTED offer in another activity. |
| Guarantees.BooksBalance | rollin-backend/internal/dashboard/service.go:70-122 | Occupation never exceeds the quota and equals OFFERED + ACCEPTED applications, the status counts sum to all applications, offers beyond the first are exactly the SPECIAL ones. |
| Guarantees.StatusIsHistory | rollin-backend/internal/offer/service.go:666-672 | An application has no offers exactly when it is WAITING or INELIGIBLE; otherwise it mirrors its newest, and an active offer is the newest, without relying on the unique key. |
| Guarantees.FinalStaysFinal | rollin-backend/internal/offer/repository_gorm.go:90-109 | A settled offer never changes again; after an offer, rank, score and mode are fixed. |
| Guarantees.ArchivedIsQuiet | rollin-backend/internal/activity/service.go:530-543 | An archived activity stays archived and never holds a PENDING offer. |
| Guarantees.NoSeatIsLost | rollin-backend/internal/admission/worker.go:164-217 | Without a death owing a refill and without a refill failing together with its fallback, every refilling activity is full, has nobody waiting, has a PENDING intent, or is owed a refill. |
| Guarantees.SeatsLostExactly | rollin-backend/internal/activity/service.go:613-688 | Of all runs from the empty database exactly those lose a seat on the way that take one of the two lossy steps in its losing situation. |
| Guarantees.CrashLosesSeats | rollin-backend/internal/activity/service.go:613-663 | If the process dies between an unpaused quota increase and its refill, seats are lost exactly when somebody waits and no older intent is pending. |
| Guarantees.FailureLosesSeats | rollin-backend/internal/activity/service.go:657-688 | If the refill and the fallback intent both fail, seats are lost in exactly the same situation, no process dying. |
| Guarantees.CrashLosesASeat | rollin-backend/internal/activity/service.go:657-663 | A concrete safe state in which that crash leaves a seat empty although somebody waits. |
| Guarantees.FailureLosesASeat | rollin-backend/internal/activity/service.go:678-688 | The same state, with the same seat left empty by the two failures. |
| Losses.AbandonLoses | rollin-backend/internal/activity/service.go:657-663 | At any later moment the death of the process loses seats exactly when the activity still has a free seat, somebody waiting and no intent. |
| Losses.AcceptElsewhere | rollin-backend/internal/offer/service.go:548-571 | An acceptance in another activity frees a seat of this one exactly when it commits and its candidate holds a PENDING offer here; the queue stays as it is. |
| Serving.ClosedOnlyServed | rollin-backend/internal/admission/worker.go:183-210 | In whatever step an intent is closed, it is an execution of an activity that may refill or a resumption of one that is ACTIVE and not stopped by the platform; the intent is one of that activity, and the activity is full or nobody waits for it afterwards. |
| Serving.NoIntentIsSwallowed | rollin-backend/internal/admission/worker.go:205-210 | Over every run from the empty database: each closed intent was closed by an execution or resumption of its activity that left the activity full or without anybody waiting. |
| Serving.OthersPromise | rollin-backend/internal/offer/service.go:652-660 | Every other step leaves the intents it finds as they are, and adds PENDING ones of started AUTO activities only. |
| Serving.ReachGrounded | rollin-backend/internal/activity/service.go:613-631 | In every reachable state intents and owed refills belong to started AUTO activities. |
| Jobs.RefillEachLeads | rollin-backend/internal/offer/service.go:676-700 | The refills after a commit are a lossless run of the machine. |
| Jobs.AcceptLeads | rollin-backend/internal/offer/service.go:372-435 | An accepted request with its refills is a lossless run of the machine. |
| Jobs.SweepAllLeads | rollin-backend/internal/offer/service.go:939-1018 | The expiry sweep is a lossless run of the machine. |
| Jobs.ExecuteAllLeads | rollin-backend/internal/admission/worker.go:141-161 | The intent executor is a lossless run of the machine. |
| MailQueue.Repository.ClaimNext | rollin-backend/internal/mail/repository_gorm.go:74-98 | Claims the first due PENDING task and returns the row as it stands after the claim; nothing when none is due. |
| Deliveries.ClaimIsExact | rollin-backend/internal/mail/repository_gorm.go:74-98 | A claim takes exactly a PENDING task that is due, and its lease starts then. |
| MailQueue.Repository.Complete | rollin-backend/internal/mail/repository_gorm.go:106-122 | Writes an outcome only under the lease; only SENT carries a time, only failures count. |
| Deliveries.SuccessIsExact | rollin-backend/internal/mail/worker.go:182-330 | A success under the lease makes the row SENT at that time and free, and an offer mail is to be stamped next. |
| Deliveries.FailureIsExact | rollin-backend/internal/mail/worker.go:534-557 | A failure under the lease counts once; the eighth is final, any other makes the task due after the capped exponential delay and not before. |
| MailQueue.Repository.Defer | rollin-backend/internal/mail/repository_gorm.go:127-137 | Returns a claimed task to PENDING only under the lease, without counting a retry. |
| Deliveries.PaceIsExact | rollin-backend/internal/mail/worker.go:473-530 | A paced task is due again at the given time with its retries; a task given up is CANCELLED. |
| MailQueue.Repository.Cancel | rollin-backend/internal/mail/repository_gorm.go:139-144 | Cancels a PENDING or SENDING task whoever holds it. |
| Deliveries.StopsAreExact | rollin-backend/internal/mail/repository_gorm.go:146-158 | A stopped activity or invitation cancels exactly its PENDING tasks. |
| MailQueue.Repository.Recover | rollin-backend/internal/mail/repository_gorm.go:100-104 | Returns exactly the SENDING tasks with a lapsed lease to PENDING. |
| Deliveries.RecoverIsExact | rollin-backend/internal/mail/repository_gorm.go:100-104 | A row changes exactly when it is SENDING and was locked more than the lease before now; it is PENDING and free then, its retries, send time and next attempt unchanged. |
| Deliveries.LeaseIsSafe | rollin-backend/internal/mail/repository_gorm.go:74-137 | A worker keeps its lease while it is at most one lease old, whatever other workers and recoveries do, unless somebody gives the task up. |
| MailWorkers.StepKeeps | rollin-backend/internal/mail/repository_gorm.go:74-178 | Every claim, recovery, requeue, cancellation, completion, deferral and stamp keeps the invariant of queue and workers. |
| MailQueue.Repository.Requeue | rollin-backend/internal/mail/repository_gorm.go:160-172 | Requeues one FAILED task of the activity with a cleared retry count. |
| Deliveries.RetryIsExact | rollin-backend/internal/mail/repository_gorm.go:160-172 | Exactly a FAILED task of the activity starts anew, due at once. |
| MailQueue.Repository.BackfillOfferSentAt | rollin-backend/internal/mail/repository_gorm.go:174-178 | The first stamp wins. |
| Deliveries.StampIsExact | rollin-backend/internal/mail/repository_gorm.go:174-178 | A stamp is the time of the first stamping step, and no other stamp changes. |
| MailQueue.BackoffIsCapped | rollin-backend/internal/mail/worker.go:560-570 | Without overflow the delay is min(base * 2^min(retry, 20), max). |
| MailQueue.BackoffIsBounded | rollin-backend/internal/mail/worker.go:560-570 | Overflow or not, the delay is positive and at most the maximum. |
| MailQueue.BackoffGrows | rollin-backend/internal/mail/worker.go:560-570 | Without overflow the delay never shrinks with the retry count. |
| MailQueue.BackoffCanWrap | rollin-backend/internal/mail/worker.go:565-567 | With a base for which the 64-bit product wraps, a later retry can wait less. |
| MailWorkers.RunKeeps | rollin-backend/internal/mail/worker.go:182-209 | Over every run of any number of workers: SENDING means owner and lock time, sent_at means SENT, PENDING and SENDING have fewer than 8 retries and FAILED exactly 8, the counter counts failed completions since the last requeue, a snapshot is the row whenever its lease guard passes, offers are stamped at most once and after a SENT task of theirs, SENT and CANCELLED never change. |
| MailWorkers.EveryTask | rollin-backend/internal/mail/repository_gorm.go:74-172 | In a system started empty, of every task and worker: the status says what lease, send time and retry count are, the counter is the history of failed completions, a held lease means a current snapshot, SENT and CANCELLED rows never change. |
| MailWorkers.EveryStamp | rollin-backend/internal/mail/repository_gorm.go:174-178 | A stamped offer has a SENT task of its own, and its stamp never changes. |
| MailWorkers.LostLeaseIsPowerless | rollin-backend/internal/mail/repository_gorm.go:106-137 | A worker without the lease changes no task by completing, failing or deferring. |
| MailWorkers.LostStaysLost | rollin-backend/internal/mail/worker.go:515-521 | A lost lease is never regained while the worker keeps the same snapshot. |
| MailWorkers.StaleCancelWins | rollin-backend/internal/mail/worker.go:525-530 | Giving up on a task one no longer holds leaves it alone exactly when it is no longer PENDING or SENDING: the lease is not asked for. |
| MailWorkers.StaleCancelExample | rollin-backend/internal/mail/worker.go:525-530 | A run in which a stale worker cancels the task another worker is delivering, whose completion is then refused. |
| Pacer.SendPacer.Ready | rollin-backend/internal/mail/pacer.go:37-53 | None when the host may start now, else its next allowed time. |
| Pacer.SendPacer.Record | rollin-backend/internal/mail/pacer.go:57-62 | Stamps exactly the one host. |
| Pacer.RegisterShows | rollin-backend/internal/mail/pacer.go:57-62 | After any sequence of submissions the register of a host shows the latest of its own, and none exactly when there was none. |
| Pacer.HostsAreIndependent | rollin-backend/internal/mail/pacer.go:37-62 | A host is ready exactly when it would be ready without the submissions to other hosts. |
| Pacer.ReadyExactly | rollin-backend/internal/mail/pacer.go:37-53 | A host is ready exactly when pacing is off, nothing was submitted to it, or its last submission finished at least the interval ago; otherwise it is told the end of the rest. |
| Pacer.HostRests | rollin-backend/internal/mail/worker.go:473-493 | Consecutive submissions to one host start at least the interval apart. |
| Pacer.WindowBound | rollin-backend/internal/mail/pacer.go:37-62 | Any window of length L holds at most ceil(L / interval) starts to one host; 5 in 60 seconds at 12. |
| Migrations.UpIsCorrect | rollin-backend/internal/db/migrations/runner.go:245-292 | From any interrupted state an upgrade leaves a resumable database, and one that succeeds leaves the schema of running every statement once in order and the full ledger. |
| Migrations.RunsAreCorrect | rollin-backend/internal/db/migrations/runner.go:245-342 | Over any sequence of upgrades killed at any write the ledger is a prefix of the registered versions and the next success gives the reference schema. |
| Migrations.UpgradesFromEmpty | rollin-backend/internal/db/migrations/runner.go:245-342 | The same for runs that start with an empty database. |
| Migrations.RecordedStepsRest | rollin-backend/internal/db/migrations/runner.go:281-334 | Over any sequence of upgrades killed anywhere progress rows stay, and no statement of a DDL migration is executed again once it is recorded. |
| Migrations.RecordedBodyRuns | rollin-backend/internal/db/migrations/runner.go:299-309 | A pending migration whose statements are all recorded executes one again exactly when it is of the DML kind. |
| Migrations.BodyRunsTwice | rollin-backend/internal/db/migrations/runner.go:299-309 | A one-body plan whose body takes effect twice after a kill before the ledger row. |
| Migrations.UpgradeCompletes | rollin-backend/internal/db/migrations/runner.go:311-341 | An interrupted database can be upgraded exactly when its next statement, DDL or DML, was not executed yet or succeeds when executed again. |
| Migrations.FreeCompletes | rollin-backend/internal/db/migrations/runner.go:245-342 | If it can, the next upgrade that is given its writes reports success. |
| Migrations.BlockedForGood | rollin-backend/internal/db/migrations/runner.go:299-334 | If it cannot, every later upgrade stops at that statement and changes nothing. |
| Migrations.EmptyCompletes | rollin-backend/internal/db/migrations/runner.go:245-342 | The same condition after any number of killed upgrades of an empty database. |
| Migrations.ColumnBlocks | rollin-backend/internal/db/migrations/v7_platform_refill_pause.go:3-8 | An upgrade killed between adding a column and recording it never completes. |
| Migrations.ColumnResumes | rollin-backend/internal/db/migrations/v7_platform_refill_pause.go:3-8 | Killed one write later, it does. |
| Migrations.CurrentIs | rollin-backend/internal/db/migrations/runner.go:191-203 | The versions above the maximum of a prefix ledger are exactly the missing ones. |
| Invitations.MemberService.Invite | rollin-backend/internal/member/service.go:156-253 | Find or create the account, resolve the slot, supersede, mint; an OWNER invitation without platform mail rolls everything back. |
| Invitations.InviteKeeps | rollin-backend/internal/member/service.go:156-253 | An invitation keeps the invariant of members and tokens. |
| Invitations.InviteAnswers | rollin-backend/internal/member/service.go:156-253 | Exactly when an invitation is sent, and why not. |
| Invitations.SlotAnswers | rollin-backend/internal/member/service.go:272-341 | When a membership is granted, and why not: an OWNER's place that is taken, or a membership already there. |
| Invitations.MemberService.ResendInvitation | rollin-backend/internal/member/service.go:443-521 | A fresh token for an account that is still invited. |
| Invitations.ResendKeeps | rollin-backend/internal/member/service.go:443-521 | A resend does. |
| Invitations.ResendAnswers | rollin-backend/internal/member/service.go:443-521 | Exactly when a resend is sent, what it writes, and why not. |
| Invitations.MemberService.DisableMember | rollin-backend/internal/member/service.go:525-585 | Deactivates one membership and revokes its open tokens, each caller within its rights. |
| Invitations.DisableKeeps | rollin-backend/internal/member/service.go:525-585 | A dismissal does. |
| Invitations.DismissAnswers | rollin-backend/internal/member/service.go:525-585 | Exactly when a dismissal succeeds; it takes the membership away and closes the open tokens of the account, once. |
| Invitations.MemberService.AcceptInvitation | rollin-backend/internal/member/service.go:696-797 | Consumes an open token in time for an invited account with an active membership; every other case is refused with its own error. |
| Invitations.RedeemKeeps | rollin-backend/internal/member/service.go:696-797 | A redeemed token does. |
| Invitations.RedeemAnswers | rollin-backend/internal/member/service.go:696-797 | An acceptance succeeds exactly for a legal password, an open token in time, an invited account and an active membership; then exactly that token is used up and that account activated, otherwise nothing changes and the reason is told. |
| Invitations.MemberService.SupersedePending | rollin-backend/internal/member/service.go:345-362 | Revokes exactly the open tokens of one user. |
| Invitations.SlotKeeps | rollin-backend/internal/member/service.go:272-341 | A granted slot is an active membership in the requested role, every other row is as before, and the activity still has at most one OWNER row. |
| Invitations.RunKeeps | rollin-backend/internal/member/service.go:156-797 | Over every sequence of invitations, resends, dismissals and acceptances: one OWNER row per activity and one membership per account without relying on unique keys, one open token per user and only the newest, open tokens with the role of the membership, nothing final undone. |
| Invitations.RoleIsTrue | rollin-backend/internal/member/service.go:789-796 | The role an acceptance returns is the role of the stored, active membership. |
| Invitations.ActivatesOnce | rollin-backend/internal/member/service.go:734-765 | After an acceptance no token ever activates that account again. |
| Invitations.FreshTokenRules | rollin-backend/internal/member/service.go:272-362 | An invitation or resend leaves its own token open and every other token of the user closed. |
| Invitations.MintedToken | rollin-backend/internal/member/service.go:156-253 | The announced token is the newest, open, for the named account, role and time. |
| Invitations.InvitationWorks | rollin-backend/internal/member/service.go:156-253 | An invitation just sent to an account without a password can be redeemed until it expires. |
| Invitations.InvitationStands | rollin-backend/internal/member/service.go:696-797 | Whatever happens afterwards: while it is open, its account invited and its membership active, it can be redeemed exactly until the time it was sent with. |
| Export.WriteRows | rollin-backend/internal/export/service.go:226-274 | Writes every row with a positive key once, in key order, for any window size; the ceiling error comes exactly when there are more rows than it allows. |
| Export.PositiveKeysAreAll | rollin-backend/internal/export/service.go:226-235 | With positive keys the export lists every row of the table. |
| Export.WindowsJoin | rollin-backend/internal/export/service.go:229-273 | Starting behind the last row of a window gives exactly the rows the window left out. |
| Export.WindowFits | rollin-backend/internal/export/service.go:229-241 | A window is the beginning of the remaining rows, as many as its size or all of them. |
| Export.PickCurrentOffer | rollin-backend/internal/application/service.go:707-732 | The active offer with the highest id, else the offer with the highest id, for a history in any order. |
| Export.PickCurrentOffers | rollin-backend/internal/export/service.go:337-362 | The same per application over a mixed history. |
| Export.LatestForApplication | rollin-backend/internal/offer/repository_gorm.go:129-139 | The repository query finds the current offer in the same sense. |
| Export.CurrentIsUnique | rollin-backend/internal/export/service.go:337-362 | A history has one current offer per application, so all three pickers agree. |
| OrderBy.SortedInOrder | rollin-backend/internal/ranking/repository_gorm.go:41-49 | ORDER BY lists the selected rows once each in key order. |
| OrderBy.PositionCountsSmaller | rollin-backend/internal/ranking/service.go:178-182 | With distinct keys the position of a row is the number of selected rows ahead of it. |

## Left out

- HTTP routing, sessions, cookies, CSRF, rate limits and the web front ends: no admission state.
- Audit rows, display texts, spreadsheet styling, time zones, e-mail masking, template rendering: no effect on the state.
- SQL isolation levels, deadlock retries and the candidate lease itself: each transaction is atomic, a refused lease is a
  parameter of `Accept`.
- Field validators and pagination: import and patch take a profile that has passed them; name, e-mail, QQ and class are
  one `profile` value.
- Resolving an offer token by its hash: an offer is named by its row. Import tokens and authorisation are left out too.
- The success message, the decline reason and the decline source of an offer: written, never read by the engine.
- Mail bodies, SMTP sessions, token minting and SMTP resolution: a send succeeds or fails; an error before it is a failure
  or a worker that quits. The mail tasks an admission step enqueues or cancels are modelled in the queue, not in the
  admission tables.
- Migrations.UpIsCorrect: assumes that executing a statement again right after it was executed changes nothing or fails
  without effect, which is what the runner asks of its steps; checksums, the advisory lock and the precheck are not modelled.
- Migrations.UpgradeCompletes: assumes besides that every statement succeeds where an uninterrupted upgrade executes it.
- Pacer.WindowBound: one worker process with a clock that never goes back; several processes each pace for themselves.
- Pacer.SendPacer.Ready: the trimming and lower-casing of host names is a parameter, `normal`.
- Stores.Store.CreateActivity: title, description and slug, their checks and the retry with a new slug are not modelled.
- MailQueue.BackoffIsCapped: for positive bases whose product with 2^20 fits into 64 bits, the default of one minute
  included; BackoffCanWrap shows why.
- Export.WriteRows: the row cells themselves, and rows inserted while the export runs.
- Stores.Store.SettleRows: its rows are offers of the activity, as the query that produces them guarantees.
- Stores.Store.Recalculate: relies on import orders that differ within an activity, which ImportOrdersCount proves for
  every reachable state.
- Two processes inviting into one activity at the same instant: invitations are serial steps here, the database's unique
  keys are the backstop there.
