# Verified model of the travel agency backend

A Dafny model of the hard core of a flight booking service: agents with a prepaid balance book
orders, issue them (which debits the balance), and protect both calls with an `Idempotency-Key`
header. `dafny verify dfyconfig.toml` checks everything.

## What is modelled

**Money and idempotency protocol.** `Store` holds the committed rows. `Protocol` is a step system
of any number of concurrent requests over them; one step is one SQL statement of
`IssuingService.issue`, `BookingService.create_order` or `IdempotencyRepository.claim`, `complete`
and `fail`. A session has a program counter, possibly stale copies of rows, uncommitted writes and
row locks, and at any point it can be made to wait, aborted by the database, or crash.

- `Locking`: the invariant of the row locks, and that a locked copy is never stale.
- `AtomicBooks`, `Refinement`: every run is a run of indivisible operations in commit order.
- `Ledger`: conservation of money, tickets and history, carried over to every run by refinement.
- `Constraints`: the constraints of the tables hold in every run.
- `Effects`: each request takes effect at most once, and not at all when it is refused.
- `Sequential`: the exact answer and the exact effect of a request that nobody interferes with,
  and of its immediate retry.
- `Idempotency`, `Guarantees`, `FailedKeys`, `Orphans`, `Answers`: the promises of the key over whole
  runs, the exact condition on which at-most-once rests, and how keys are orphaned.
- `Progress`, `Deadlocks`: deadlock exactly characterised, on states and on the requests that are
  sent; termination of every run.
- `Service`: the two services as a class whose fields are updated in place, with arbitrary
  interference before every statement. Which statement comes next is decided as in the source, by
  what the last one returned, by whether there is a key, and by the rows in the session; that it is
  the one `Protocol` has next is proved. Each call is a run of `Protocol`, so all of the above
  applies to it; undisturbed, it has exactly the outcome that `Sequential` states.

**Pricing** (`Pricing`) and **ticket numbers** (`Digits`): HALF_UP fares over exact reals;
padded decimal printing and its inverse, with the decimal digits of all scripts.

**Search sessions** (`SearchSessions`, `SearchStart`, `SearchFinality`, `SearchShapes`, `SearchService`): snapshot in
the cache, row in the database, one background worker, any number of pollers, cache loss, swallowed
writes. The row is loaded in one await and written in another, and only in the columns that differ
from what was loaded. Exactly when an outcome is final, and when a row can end with the columns of
two writers.

**Ticket files** (`PdfWorker`, `PdfOverlap`, `PdfConsumer`): at-least-once delivery, three attempts,
dead-letter queue, lost connections, crashes, the synchronous fallback, the shared `.tmp` name, and
the processes that jobs run in; and exactly which jobs are safe together.

**Mock provider** (`Text`, `Sorting`, `SeedKeys`, `Provider`, `Locations`): the seed key text, offer
ids, the bounded seed memory, the ranked airport lookup. **Cache** (`Cache`): the in-memory TTL cache.

## Assumptions

- READ COMMITTED: a statement that waited for a row lock reads the row after the wait. A statement
  that waits holds what it already has; a deadlock shows as an aborted statement.
- A flush and the COMMIT behind it are one step, whose outcome the process learns.
- Row ids of keys are fresh. An order id is an input of the booking step; a duplicate fails.
- Request hashes do not collide: an operation is its own hash.
- The provider, the clock, the digest, the random draws and the case mapping are inputs or arbitrary
  functions. A search draws five to twelve offers, the digest prints twelve hexadecimal digits, and
  lower-casing an ASCII text does not depend on what follows it.
- The clock that the cache reads is monotonic; the wall clock of search sessions does not go back.
- Airport codes in the dataset are three upper-case letters, each used once. Digits and white space
  are those of Unicode 15.0.
- Ticket jobs of different processes interleave between any two statements; those of one process do
  not move while one of them is inside `write_pdf_atomic`, which has no await. A process that dies
  takes all its jobs with it.
- An ORM flush updates the columns in which an object differs from the row it was loaded from.
- The field `bookedUnder` of an order is a history variable, which no step reads.

## Where the code and its documentation disagree

The model follows the code.

- `docs/ARCHITECTURE.md:158-161`, `docs/API.md:374` and `docs/API.md:397` say that a failed request
  marks its key FAILED. `fail` runs after the rollback that removed the row
  (`app/services/issuing.py:103-105`, `app/services/booking.py:76-79`), so it finds nothing, and
  no FAILED row is ever committed by the services (`Guarantees.AtMostOneOrder`). What the
  documentation wants, that the same key can be used again, holds all the same
  (`Guarantees.FailureLeavesKeyClaimable`).
- `docs/ARCHITECTURE.md:155` and `app/repositories/idempotency.py:52` describe IN_PROGRESS as the
  answer while the first request is processed. The claim commits together with the effect, so a
  LOCKED row is seen only after the effect is durable; before that, the second request waits
  (`Guarantees.InProgressMeansDone`).
- The fixed lock order is documented to exclude deadlocks (`app/services/issuing.py:58-62`). It does
  for requests without a key. Two keyed issues of one agent can deadlock: the foreign key of the
  claimed row takes a share lock on the agent row, which both then want to upgrade. A set of
  requests can deadlock if and only if it holds two such issues, under different keys that are
  both unused (`Deadlocks.RequestsDeadlockIff`).
- `app/services/ticket.py:118-120` promises that no half-written ticket is ever seen. That holds in
  every run if and only if no two jobs for one existing order can run in different processes, where
  a message counts as two jobs when connections can be lost (`PdfOverlap.SafeIffNoClash`). One
  consumer alone is safe (`PdfOverlap.OneConsumerIsSafe`). With two consumers, or with the fallback
  in the API process, it matters that asking for a ticket that is not there yet publishes again
  (`app/api/v1/orders.py:115-122`), and that the fallback may run although the message was queued.

## What does not hold, and exactly when it does

- The outcome of a search is not final. A late worker turns a session that a poll has failed into a
  done one (`SearchFinality.FailedCanBecomeDone`), and a slow poll turns a session whose offers were
  served into a failed one without offers (`SearchFinality.DoneCanBecomeFailed`). What is stored is
  final, and what polls are served is final, under exact conditions on the state
  (`SearchFinality.FailedIsFinalIff`, `DoneIsFinalIff`, `AnswersAreFinalIff`).
- The row of a search is not always well shaped. When the worker and a failing poll have both loaded
  the pending row, the second COMMIT leaves columns of the first: FAILED with a count
  (`SearchShapes.FailedWithCount`), or DONE with an error (`SearchShapes.DoneWithError`). The row
  stays well shaped, and polls are served well shaped sessions, under exact conditions on the state
  (`SearchShapes.RowStaysShapedIff`, `ServedStaysShapedIff`). Cached sessions always are.
- From a FAILED row one key could book two orders, because the row is read without a lock. One key
  books at most one order if and only if its row is not FAILED (`FailedKeys.AtMostOnceIffNotFailed`).
- The expression that offer ids are matched against (`app/providers/mock.py:37`) takes the decimal
  digits of any script, so that an offer is also found under texts that are not its id. The id asked
  for is that of the offer if and only if its last two digits are ASCII (`SeedKeys.PrintParse`,
  `Provider.MockProvider.GetOfferDetail`).
- Offer ids identify offers only as long as no two itineraries share a seed
  (`Provider.MockProvider.OneOfferPerIdIffCoherent`), which they do not when fields are free of the
  separators and key texts do not collide in the digest (`CleanSearchesAreCoherent`).
- A base price with a fraction of a cent puts adult fares off the exact product too
  (`Pricing.RoundingError`).

## Model

| member | source | states |
|---|---|---|
| Locking.LockInvStep | app/repositories/agent.py:22-35 | any statement, wait, abort or crash keeps: no two sessions hold conflicting locks, a locked copy equals the committed row, and the checks made on it still hold |
| Locking.LockInvRun | app/services/issuing.py:58-70 | the same over every run of any length |
| Locking.ReachableIsLocked | app/services/issuing.py:58-70 | hence in every reachable state of a service that started without sessions |
| Locking.AdvanceCompatible | app/repositories/order.py:31-39 | a statement that waits for nobody acquires no lock that conflicts with another session's |
| Locking.NobodyRefersToALockedAgent | app/models/order.py:40-42 | while an agent is locked for update, nobody inserts a key or an order that refers to it |
| Locking.LiveIsRunnable | app/services/issuing.py:50-163 | a live session always has what its next statement needs; only a lock can hold it up |
| Refinement.IssueCommitRefines | app/services/issuing.py:94-140 | the COMMIT of an issue, computed from the session's own copies, is exactly the atomic debit-and-issue on the committed rows, or changes nothing |
| Refinement.CreateCommitRefines | app/services/booking.py:94-133 | the COMMIT of a booking is exactly the atomic booking, or changes nothing |
| Refinement.StepRefines | app/services/issuing.py:58-140 | every step of every session is a stutter or exactly one possible atomic operation |
| Refinement.RunRefines | app/services/issuing.py:58-140 | every interleaving, with stale copies, aborts and crashes, is the atomic operations applied in commit order |
| Ledger.OpeningBooks | app/models/agent.py:30-33 | books without orders satisfy the invariant, with the balances as opening balances |
| Enums.OnlyBookedMoves | app/domain/enums.py:22-28 | the transition table: only BOOKED moves, to any other status |
| Ledger.ApplyKeepsBooks | app/services/issuing.py:115-140 | every atomic operation keeps balances, ledger, statuses, tickets and history consistent |
| Ledger.BooksInvRun | app/services/issuing.py:94-140 | consistent books stay consistent in every interleaving |
| Ledger.BalanceAccountsForIssuedOrders | app/models/agent.py:42-65 | in every run of a service that opens without orders: balance = opening - sum of DEBITs = opening - total of the agent's ISSUED orders; balance_after values chain and the last is the balance; never negative if it did not open so |
| Ledger.IssuedIff | app/services/issuing.py:115-140 | in every such run, an order is ISSUED iff it has exactly one DEBIT, iff exactly one BOOKED-to-ISSUED history row, iff a ticket, iff an issued_at; the DEBIT is its total and its agent's; the ticket in figures is 2320000000000 plus the id modulo 10^10; its history is, row by row, the booking and then the issue by its agent |
| Ledger.LedgerConstraintNeverFires | app/models/agent.py:47-51 | a session about to commit an issue never meets a DEBIT of the order: the locks alone keep the unique constraint from firing |
| Constraints.ConstraintsHold | app/models/agent.py:47-51 | rows that meet the table constraints (one row per order and kind, positive amounts, unique tickets, totals of 1 to 99999999999999 cents) do so in every run, whatever else they are |
| Ledger.TicketCollisionCommitsNothing | app/models/order.py:58 | the COMMIT of an issue passes iff no other order has the ticket number; if not, the whole store, key included, is as before |
| Ledger.IssuedTicketsDistinct | app/services/issuing.py:130-131 | in every such run, no two ISSUED orders share a ticket, so no two have ids that agree modulo 10^10 |
| Digits.TicketNumberParses | app/services/issuing.py:130-131 | a ticket number has 13 digits and its last ten parse back to the id modulo 10^10 |
| Digits.TicketCarriesId | app/services/issuing.py:29-30 | a ticket number is 13 ASCII digits with the value 2320000000000 plus the id modulo 10^10 |
| Digits.ValueConcat | app/services/issuing.py:131 | the value of digits written one behind the other |
| Digits.TicketsCollideExactly | app/services/issuing.py:130-131 | two ids give one ticket number iff they agree modulo 10^10 |
| Digits.ValueOfPadded | app/services/issuing.py:131 | parsing undoes zero-padded printing, digits and width included |
| Digits.PaddedOfValue | app/providers/mock.py:37 | zero-padded printing undoes the reading of a numeral iff all its digits are ASCII; a numeral may have decimal digits of any script |
| Effects.EffectOfARequest | app/services/issuing.py:38-163 | in any run a request commits at most one operation, the one it asked for; refused with anything but a database error, or replayed, none; a fresh success reports the operation, and only an issue can succeed without one |
| Effects.RunEffects | app/services/booking.py:69-84 | the per-session invariant behind it: at each statement, what the session has committed so far |
| Sequential.UndisturbedIssue | app/services/issuing.py:50-163 | alone, an issue happens iff the atomic issue is possible; an order already ISSUED answers as a success; otherwise it is refused with the first reason that applies and no row differs, the key's included; a success completes the key |
| Sequential.UndisturbedBooking | app/services/booking.py:60-150 | alone, a booking happens iff the provider has the offer, unexpired, and the total is 1 to 99999999999999 cents; otherwise it is refused with the reason and no row differs |
| Sequential.KeyAfterIssue | app/services/issuing.py:50-54 | an absent and an empty key leave the table of keys as it is; any other is completed by a success under that agent, scope and key, with hash and body, and no other key changes |
| Sequential.KeyAfterBooking | app/services/booking.py:62-65 | the same for a booking |
| Sequential.RetryOfIssue | app/services/issuing.py:72-78 | a successful issue sent again at once, with a key or without, gets the same body and changes nothing |
| Sequential.RetryOfBooking | app/services/booking.py:62-67 | a successful keyed booking sent again gets the same body and books nothing |
| Sequential.CompletionIsRun | app/db/session.py:41-49 | when nobody else holds a lock, the session's statements one after the other are a run of the protocol, and it ends |
| Idempotency.SlotInvStep | app/repositories/idempotency.py:56-115 | every step keeps: the row of a key is LOCKED or COMPLETED and its effect is durable, at most one order is booked under it, every claim is of its own row |
| Idempotency.SlotInvRun | app/repositories/idempotency.py:56-115 | the same over every run |
| Guarantees.UnusedSlotInv | app/models/order.py:115-121 | an unused key starts within the invariant |
| Guarantees.AtMostOneOrder | app/services/booking.py:60-92 | in every run at most one order is booked under a key, one is iff the key has a committed row, and that row is never FAILED |
| Guarantees.InProgressMeansDone | app/repositories/idempotency.py:91-92 | in every run from an unused key, IN_PROGRESS is raised only when the row is LOCKED and its effect is committed |
| Guarantees.FailureLeavesKeyClaimable | app/services/booking.py:69-80 | a request that fails or crashes after its claim and before its COMMIT leaves no row and no lock: the next claim, with any payload, inserts |
| Guarantees.CompletedForever | app/repositories/idempotency.py:84-90 | COMPLETED is absorbing, with hash and body unchanged, in every run |
| Guarantees.SuccessesAgree | app/services/issuing.py:50-56 | all successful answers ever given for a key, fresh or replayed, are the same body for the same request |
| Orphans.OrphanedExactlyBy | app/repositories/idempotency.py:99-107 | a key is orphaned by a step iff the step is a crash or a database error of the claimant that is about to complete it |
| Orphans.OrphanedForever | app/repositories/idempotency.py:91-92 | an orphaned key stays LOCKED in every run, and no request succeeds under it again |
| Orphans.OrphanAnswersWithoutKey | app/services/issuing.py:72-78 | the order of an orphaned issue still answers a request without the key: a success with its ticket and amount, and no row changes |
| FailedKeys.AtMostOnceIffNotFailed | app/repositories/idempotency.py:75-97 | one key books at most one order in every run iff its row is not FAILED at the start |
| FailedKeys.FailedKeyBooksTwice | app/repositories/idempotency.py:93-97 | from a FAILED row, the run in which two requests both take it over and both book |
| FailedKeys.TakeOverUpdatesColumns | app/repositories/idempotency.py:93-96 | taking a row over changes its status, and its hash unless it was that of the request; id, old response and all other keys stay |
| Answers.SuccessIsTrue | app/services/issuing.py:142-186 | a success that was not replayed tells of a committed order of the agent, ISSUED if that was asked, with its amount, currency, ticket and time |
| Progress.WaitsGoUp | app/services/issuing.py:58-66 | every wait goes up the lock order, except between sessions that upgrade one agent row |
| Progress.DeadlockIffMutualUpgrade | app/models/order.py:123-125 | the wait-for graph has a cycle iff two keyed issues of one agent both share its row and both want to lock it |
| Progress.StuckMeansMutualUpgrade | app/services/issuing.py:58-66 | if every live session waits, there are two such issues |
| Progress.KeylessNeverDeadlocks | app/services/issuing.py:58-66 | without keys there is no cycle, and some unfinished session can always run |
| Progress.RunsTerminate | app/services/issuing.py:38-163 | a finite set of requests sends a bounded number of statements under any schedule, aborts and crashes |
| Progress.KeylessRunsFinish | app/services/issuing.py:38-163 | a run of key-less requests that cannot go on has answered all of them |
| Progress.KeyedIssuesCanDeadlock | app/models/order.py:123-125 | two issues of one agent under two unused keys, whatever their orders, have a run into deadlock |
| Deadlocks.RequestsDeadlockIff | app/services/issuing.py:58-66 | from a service at rest, some run of requests out of a set has a wait cycle iff two of them are keyed issues of one active agent under different keys, both unused |
| Service.Connection.constructor | app/db/session.py:41-49 | a new session joins any reachable state, at its first statement |
| Service.Connection.Issue | app/services/issuing.py:38-163 | whatever others do between its statements, the call is a run of the protocol, its fresh success is true, and the ticket it answers carries the id of the order; undisturbed, it ends as `Sequential` states |
| Service.Connection.CreateOrder | app/services/booking.py:48-92 | the same for a booking, whose total is that of its passengers in cents at the price quoted |
| Service.Connection.ClaimKey | app/repositories/idempotency.py:37-97 | the claim is up to three protocol steps, ending claimed, unwinding or replayed |
| Service.Connection.LockRows | app/services/issuing.py:63-113 | agent row, then order row, then the decision on the locked copies |
| Service.Connection.Persist | app/services/booking.py:94-133 | offer, price, COMMIT |
| Service.Connection.Authenticate | app/api/deps.py:36-44 | the field updates are exactly the protocol's step: an unlocked copy, or an error |
| Service.Connection.InsertKey | app/repositories/idempotency.py:56-73 | INSERT ... ON CONFLICT DO NOTHING, with the locks it takes |
| Service.Connection.SelectKey | app/repositories/idempotency.py:75-92 | COMPLETED replays or conflicts by hash, LOCKED conflicts, FAILED is to be taken over |
| Service.Connection.UpdateKey | app/repositories/idempotency.py:93-97 | the take-over does not read the status again |
| Service.Connection.GetAgentForUpdate | app/repositories/agent.py:22-35 | the lock, with the copy overwritten |
| Service.Connection.GetOrderAndDebit | app/services/issuing.py:66-139 | every check in order, and the pending writes |
| Service.Connection.FlushIssue | app/services/issuing.py:117-140 | all of the issue's rows and the key row together, or none |
| Service.Connection.LoadOfferAndPrice | app/services/booking.py:94-98 | provider answer or error, and the total |
| Service.Connection.FlushBooking | app/services/booking.py:100-133 | order, history and key row together, or none |
| Service.Connection.CompleteRepeat | app/services/issuing.py:72-78 | an order that is ISSUED: only the key changes |
| Service.Connection.CompleteKey | app/repositories/idempotency.py:99-107 | the second transaction, whatever the row's status is |
| Service.Connection.RollBack | app/db/session.py:41-49 | locks and writes are gone; some handlers go on to `fail` |
| Service.Connection.FailKey | app/repositories/idempotency.py:109-115 | marks the row if the rollback left one |
| Pricing.TotalByCount | app/services/booking.py:97-98 | the total is the fares times the counts of each passenger type: order does not matter |
| Pricing.FaresInCents | app/services/booking.py:24-36 | an adult pays 100, a child 75, an infant 10 hundredths of the base, each rounded to the nearest cent, a tie away from zero |
| Pricing.TotalIsPriced | app/services/booking.py:97-98 | the total is the counts times those rounded fares |
| Pricing.TotalNearFigures | app/services/booking.py:26-36 | the total is within half a cent per passenger of the base times 100, 75 and 10 for every adult, child and infant |
| Pricing.TotalNeedsNoRounding | app/services/booking.py:98 | the final quantize never changes the sum |
| Pricing.RoundingError | app/services/booking.py:26-36 | for every base price the total is off the exact product sum by at most half a cent per passenger; by at most half a cent per child or infant, for all passenger lists, iff the base is in whole cents |
| Pricing.TotalMonotone | app/services/booking.py:34-36 | a higher base price never gives a lower total |
| Pricing.PositiveExactlyFromFiveCents | app/models/order.py:36 | every non-empty booking has a positive total iff the base is at least five cents |
| SearchSessions.StepInv | app/services/search.py:102-125 | every step keeps the shape of cached and in-flight sessions, and of every row what holds even with the columns of two writers; agent, params and expiry never change |
| SearchSessions.EverySessionIsGood | app/services/search.py:102-125 | in every run, cached and in-flight sessions are well shaped, and no poll serves another session, one past its expiry, another agent's, or one still pending when its age exceeds deadline and grace, whichever store served it; a served session is well shaped, or FAILED with a count, or DONE with an error |
| SearchSessions.PollFlush | app/services/search.py:237-245 | the column-wise COMMIT of a failing poll moves the row on: no count appears, and a failure stays one |
| SearchSessions.WorkerFlush | app/services/search.py:237-245 | the worker's COMMIT gives the row the worker's status, over whatever a poll has written |
| SearchShapes.RowStaysShapedIff | app/services/search.py:237-245 | the row stays well shaped in every run iff it is now and no two writers are ahead that mix columns: a worker that may store a result finds the row failed, does not hold the pending row, and no poll does if the result is not empty; otherwise no poll does if the row has a count |
| SearchShapes.ServedStaysShapedIff | app/services/search.py:102-125 | no poll yet to be answered is ever served a session that is not well shaped iff the session has expired, or row and polls are well shaped and no such clash is ahead in time |
| SearchShapes.FailedWithCount | app/services/search.py:229-247 | any search that can go stale in time and finds something has a run that ends, and is served, as FAILED with its count |
| SearchShapes.DoneWithError | app/services/search.py:229-247 | any search that can go stale in time has a run that ends, and is served, as DONE with an error |
| SearchSessions.StartedIsGood | app/services/search.py:55-100 | a started session is within the invariant, whether or not the cache took it |
| SearchStart.StartedServes | app/services/search.py:55-125 | over every run from start_search, a poll is served the session of that agent and those parameters, to nobody else, no later than created plus ttl, pending no longer than deadline and five seconds, and no offers but those the provider has answered with |
| SearchStart.StartedAnswers | app/services/search.py:121-124 | an answer is `expired` iff it comes later than created plus ttl, another agent's iff it comes in time and both are agents and differ, and otherwise the session |
| SearchStart.StartedIsCached | app/services/search.py:74-89 | a started session is in the cache for its whole ttl, as it was started |
| SearchStart.StoredUntilExpiry | app/services/search.py:217-227 | a stored snapshot is found until the last whole second of its session, and for one second at least |
| SearchStart.FinishedIsServed | app/services/search.py:262-290 | a search that finishes in time is served with its outcome: DONE with its offers and count, or FAILED with the error text of the timeout or the exception |
| SearchFinality.FailedIsFinalIff | app/services/search.py:279-290 | no run from here stores DONE iff nothing stored is done and the worker is gone or can only store a failure |
| SearchFinality.DoneIsFinalIff | app/services/search.py:112-119 | everything stored stays DONE in every run iff it is now, no poll holds a pending snapshot, and none is failing the session unless it loaded a row that was failed already |
| SearchFinality.AnswersAreFinalIff | app/services/search.py:102-125 | no poll yet to be answered is ever served DONE iff the session has expired or nothing holds a result to serve; likewise FAILED, where polls that write a failure and pending snapshots that go stale in time count |
| SearchFinality.FailedCanBecomeDone | app/services/search.py:279-290 | whatever search can go stale before it expires has a run in which a poll is told that it failed and a later one is served its offers |
| SearchFinality.DoneCanBecomeFailed | app/services/search.py:112-119 | and one in which a poll is served its offers, a slow poll overwrites cache and row, and a later poll is told that it failed |
| SearchService.Backend.constructor | app/services/search.py:64-92 | start_search leaves exactly the started state |
| SearchService.Backend.GetSearch | app/services/search.py:102-125 | whatever happens at its awaits, a run of the step system whose answer is this session's, in time and the asker's; undisturbed, its answer, cache and row are determined |
| SearchService.Backend.ReadCache | app/services/search.py:105-110 | a live cached snapshot, or the fallback |
| SearchService.Backend.LoadFromDb | app/services/search.py:199-215 | the row restored without offers |
| SearchService.Backend.Decide | app/services/search.py:112-125 | stale pending sessions are failed, others answered |
| SearchService.Backend.StoreFailure | app/services/search.py:217-227 | the cache write and its lifetime, or a swallowed error |
| SearchService.Backend.PersistFailure | app/services/search.py:229-247 | two awaits, the load and the COMMIT, either of which may fail and be swallowed; undisturbed, status, count and error are overwritten |
| SearchService.Backend.LoadForFailure | app/services/search.py:237-241 | the row as it is at this await, kept for the COMMIT |
| SearchService.Backend.FlushFailure | app/services/search.py:242-247 | the COMMIT is the step of the system: only columns that were changed, over the row as it is now |
| SearchService.Backend.UpdateColumns | app/services/search.py:242-245 | each column is written iff the snapshot differs from the loaded row in it |
| SearchService.Backend.AnswerFailure | app/services/search.py:121-125 | expiry, then ownership |
| SearchService.Backend.FinishSearch | app/services/search.py:279-290 | read or fall back, overwrite the result, store, load, commit; the process may die at any await; undisturbed, cache and row are determined |
| SearchService.Backend.PersistResult | app/services/search.py:229-247 | the worker's load and COMMIT, likewise |
| PdfWorker.MessagesConserved | app/workers/pdf_worker.py:51-101 | in every run, with crashes, faults and lost connections, each published message is in exactly one of queue, flight, acked, dead, and every exception of a delivery is counted |
| PdfWorker.DeadAfterThreeFaults | app/workers/pdf_worker.py:97-101 | a message goes to the dead letters only by the nack of a delivery with three exceptions |
| PdfWorker.TicketRun | app/workers/pdf_worker.py:72-89 | a run in which no two writers of one order overlap keeps: final files are complete, recorded tickets have one, an ack for an existing order follows the record |
| PdfWorker.OneWriterRun | app/services/ticket.py:122-131 | in every run, no two jobs of one process are inside write_pdf_atomic at the same time |
| PdfWorker.OneDeliveryRun | app/workers/pdf_worker.py:126 | in every run, a consumer has one delivery at a time |
| PdfWorker.CrashEndsProcess | app/workers/pdf_worker.py:112-146 | a crash ends every job of its process and no other, and queues its message again |
| PdfOverlap.SafeIffNoClash | app/services/ticket.py:115-131 | acks and served tickets are good in every run iff no two jobs for one existing order can run in different processes; when connections can be lost, a message counts as two jobs |
| PdfOverlap.OneConsumerIsSafe | app/workers/pdf_worker.py:112-146 | with one consumer and no fallback, every run is safe, whatever is published and whatever connections are lost |
| PdfOverlap.TwoJobsAreUnsafe | app/services/ticket.py:125-130 | two jobs for one existing order in different processes have a run that serves a half-written ticket |
| PdfOverlap.LostConnectionIsUnsafe | app/workers/pdf_worker.py:117-146 | with two consumers, any one message for an existing order has such a run, in which its handler goes on after losing its connection |
| PdfConsumer.UndisturbedDelivery | app/workers/pdf_worker.py:51-101 | for every placement of exceptions: a hopeless message is acked and leaves no trace; any other is acked iff some attempt gets through, and dead-lettered otherwise; file and record are exactly what the attempts got to |
| PdfConsumer.Handler.constructor | app/workers/pdf_worker.py:51-53 | a delivery joins any reachable state |
| PdfConsumer.Handler.HandleMessage | app/workers/pdf_worker.py:51-101 | whatever others do between its statements, a run of the system that settles its message if the connection lasts; undisturbed, the exact outcome |
| PdfConsumer.Handler.Attempt | app/workers/pdf_worker.py:73-96 | one attempt is a run that ends settled or failed once |
| PdfConsumer.Handler.WritePdfAtomic | app/services/ticket.py:115-131 | three statements of the system, ending at the record or failed once |
| PdfConsumer.Handler.ParseMessage | app/workers/pdf_worker.py:53-69 | exactly the delivery's step: attempts for an order id, the way out for anything else |
| PdfConsumer.Handler.LoadContext | app/workers/pdf_worker.py:74-78 | exactly the delivery's step: the file for an order that exists, the ack for one that does not |
| PdfConsumer.Handler.OpenTmp | app/services/ticket.py:126 | exactly the delivery's step: the .tmp file is truncated |
| PdfConsumer.Handler.WriteTmp | app/services/ticket.py:127-129 | exactly the delivery's step: the .tmp file is complete |
| PdfConsumer.Handler.ReplaceFinal | app/services/ticket.py:130 | exactly the delivery's step: what is in the .tmp file becomes the final one, or an exception |
| PdfConsumer.Handler.MarkGenerated | app/services/ticket.py:134-147 | exactly the delivery's step: the ticket is recorded |
| PdfConsumer.Handler.Ack | app/workers/pdf_worker.py:88-89 | exactly the delivery's step: acked, or failed once without a connection |
| PdfConsumer.Handler.Raise | app/workers/pdf_worker.py:90-98 | exactly the delivery's step: the next attempt, or the end after the third |
| PdfConsumer.Handler.Settle | app/workers/pdf_worker.py:100-101 | exactly the delivery's step: the ack of a hopeless message or the nack, which only end it without a connection |
| SeedKeys.SeedKeyInjective | app/providers/mock.py:87-99 | two searches hash one text iff route, dates, class and the multiset of passenger types agree |
| SeedKeys.SeedKeyText | app/providers/mock.py:89-98 | the key text spelled out: origin, destination, dates, ascending passenger types, class |
| SeedKeys.ParsePrint | app/providers/mock.py:248 | parsing undoes printing of an offer id |
| SeedKeys.PrintParse | app/providers/mock.py:153-160 | a text that the expression matches is the id of what it parses to iff its last two digits are ASCII |
| SeedKeys.SeedExactly | app/providers/mock.py:37 | a seed is twelve lower-case hexadecimal digits |
| SeedKeys.ForeignDigitsParse | app/providers/mock.py:37 | the id of a search's second offer, written in Arabic-Indic digits, parses to it and is not its id |
| Sorting.SortEqualIffSameElements | app/providers/mock.py:95 | sorting identifies two lists iff they have the same elements with the same counts |
| Text.LeqByFirstDifference | app/providers/mock.py:95 | the order sorted by: a prefix first, then the smaller character at the first difference |
| Text.StripSpec | app/providers/mock.py:114 | stripping takes white space off both ends, and nothing else |
| Text.SpacesExactly | app/providers/mock.py:114 | the 29 characters of white space, one by one |
| Provider.SortRanks | app/providers/mock.py:246 | offers ascend in price, none lost or made up, those at one price in the order drawn |
| Provider.MockProvider.constructor | app/providers/mock.py:107-110 | a provider remembers nothing at first |
| Provider.MockProvider.SearchOffers | app/providers/mock.py:137-149 | the offers go from the stripped upper-case origin to the destination, on the dates and in the class asked for; they are those drawn under the digest of the key text, ascending in price, in the order drawn where prices are equal, numbered in their ids, without a bag below 250 |
| Provider.MockProvider.RememberSeed | app/providers/mock.py:167-170 | at most 1024 seeds, the new one among them, and it alone when the memory was full |
| Provider.MockProvider.GetOfferDetail | app/providers/mock.py:151-163 | nothing, exactly when the id does not match, is forgotten or is out of range; otherwise an offer that some search returned, under its id the only one if searches are coherent, enriched, with an expiry counted from now; its id is the one asked for iff the digits are ASCII |
| Provider.MockProvider.EnrichedGoesUp | app/providers/mock.py:252-306 | fare families start at the offer's price, each costs more and allows no less baggage, all have seats; nothing but the expiry depends on the time |
| Provider.MockProvider.EnrichedFamilies | app/providers/mock.py:252-306 | the three fare families one by one: names, prices, flags, baggage, seats, rules |
| Provider.MockProvider.OneOfferPerIdIffCoherent | app/providers/mock.py:209-250 | no two offers ever returned share an id iff no two itineraries searched for share a seed |
| Provider.MockProvider.CleanSearchesAreCoherent | app/providers/mock.py:87-99 | they do not when fields are free of separators and key texts do not collide in the digest |
| Locations.RankedIsFilter | app/providers/mock.py:128-134 | the ranking has exactly the elements of the plain substring filter, with their counts |
| Locations.RankedLookup | app/providers/mock.py:119-135 | and puts the exact code first, then code prefixes, then the rest |
| Locations.RankedHasNoDuplicates | app/providers/mock.py:128-131 | and repeats nothing |
| Locations.SearchLocations | app/providers/mock.py:112-135 | the loops compute the ranking, truncated; with a limit that does not truncate, a location is found iff the query occurs in its code, name, city and country in lower case; the exact code is first and code prefixes come before the rest |
| Locations.RankedInFigures | app/providers/mock.py:119-134 | the same of the ranking itself |
| Locations.OfRankInOrder | app/providers/mock.py:123-134 | within each group, locations come in the order of the dataset |
| Locations.CountryIsFound | app/providers/mock.py:132-133 | a query for a country finds its airports, if case mapping goes letter by letter |
| Locations.ExactCode | app/providers/mock.py:120-122 | the location with that very code |
| Locations.CodePrefixes | app/providers/mock.py:123-127 | the proper code prefixes in dataset order |
| Locations.Unlisted | app/providers/mock.py:128-134 | the scan that skips what is listed leaves exactly the matches of the last rank |
| Locations.AcceptsExactlyTheDataset | app/services/search.py:184-188 | an airport code is accepted iff the dataset has it |
| Cache.AnswerIsLastWrite | app/cache.py:60-74 | the answer is the last value set, unless deleted since or past its lifetime |
| Cache.EvictionIsInvisible | app/cache.py:65-67 | dropping an expired entry changes no later answer |
| Cache.InMemoryCache.constructor | app/cache.py:57-58 | an empty log |
| Cache.InMemoryCache.Get | app/cache.py:60-68 | the answer of the log of writes; reading is not visible in it |
| Cache.InMemoryCache.Set | app/cache.py:70-71 | one more write in the log |
| Cache.InMemoryCache.Delete | app/cache.py:73-74 | one more deletion in the log |

## Left out

- Effects.EffectOfARequest: a database error after the first commit (the one that completes the key
  fails) leaves the effect in place, so that error alone says nothing about the effect.
- Progress.KeylessNeverDeadlocks: for keyed requests it is false; they are covered by the exact
  condition for a deadlock, and a deadlock ends in an aborted statement.
- Service.Connection.Issue: the exact outcome is stated for a call during which nobody else moves or
  holds a lock; under interference it is a run of the protocol, constrained by the invariants. A
  statement is aborted only when its locks stay taken; other database failures are in `Protocol` only.
- Provider.MockProvider.EnrichedGoesUp: the cabin allowance, the same for every fare, is not modelled.
- SearchSessions.EverySessionIsGood: the deadline passed to the provider call is not tied to the
  clock; a provider may answer or time out at any moment.
- PdfWorker.MessagesConserved: starts from published messages; whether a publish that timed out was
  queued is not known.
- Locations.AcceptsExactlyTheDataset: the other checks of `_validated_params` (dates, equal ends) are
  single comparisons.
- Provider details: the segments of an offer and the individual random draws; they are one arbitrary
  function of seed and itinerary.
- The offer detail cache of `app/services/search.py:127-170` and the one of the locations service,
  whose key is lower-cased while the ranking depends on case.
- Which requests publish a message or call `generate_sync`: the messages and calls are given, and the
  conditions are stated on them. Neither changes money, status or keys.
- Order status and balances are not in the state of the ticket jobs, which write only the ticket
  columns (`app/services/ticket.py:145-147`).
- Passenger rows, contact and offer snapshot of an order: one opaque field of the payload, except the
  passenger types, which set the price.
- Changes to agents, orders or keys from outside the two services: seed scripts, migrations, manual
  clean-up of keys.
- Redis beyond an entry that can vanish and calls that can fail; RabbitMQ beyond a set of messages.
- Routers, schemas, health probes, logging, audit records, tokens, password hashing, PDF rendering.
