# Ticket reservations: two stores, one lock, one cache

This project models the parts of the ticketing service that keep several stores in step, and proves
what they keep.

* **Reservations.** PostgreSQL holds ticket types (`tickets_quantity`, `tickets_sold`, CHECK
  constraints) and tickets (RESERVED, SOLD, CANCELED). Redis holds an inventory counter per type, the
  active-reservations hash and the set of processed tickets. `create`, `delete`, `pay_for_ticket`,
  `release_unpaid_ticket`, `reconcile_hung_tickets`, `reconcile_redis_orphans` and the ticket-type
  operations write to both.
* **Idempotency.** A record per key is absent, IN_PROGRESS or COMPLETED, and expires.
* **Event cache.** List pages live under a version that is bumped after the commit; detail entries are
  deleted after the commit.

The reservation protocol is stated twice. A *small-step machine* has a program counter for every request and job in
flight: one Redis command or Lua script is one step, one SQL statement is one step, row locks last from
the statement that takes them to the end of the transaction, a process may die or a transaction may
abort between steps, ids come from a sequence and are never reused, and a clock drives the grace
period. *Complete operations* give the effect of one call by itself, with the place at which it fails,
or ends for good, as a parameter. The two are connected in both directions: every run in which one
process moves undisturbed ends as the complete operation does for some such place, and as the operation
without a fault if none of its steps is one (`Endings`, `JobEndings`, `AdminEndings`); and each of these
ends can be reached (`Alone`, `JobsAlone`). The service classes, written statement by statement, are
proved against the complete operations. Runs of the machine may begin in any state that a history of
complete operations ends in (`Quiescence`). What each complete operation does is said once more in rows,
counters, hash entries and cached values alone (`Effects`), so that no result rests on the definitions only. The idempotency lock and the event cache have machines of
their own.

| file | contents |
|---|---|
| `Stores` | rows, tables, the Redis values; each command and Lua script as a function |
| `RedisKeys` | decimal text, the reservation codec, reading the hash, the key families |
| `Protocol` | the small-step machine of the reservation protocol |
| `Invariants` | its base invariant, by rely and guarantee: locks, what each process knows, where an id occurs |
| `Families` | whose step a step is: it moves one process, and leaves it in its operation |
| `TicketLife`, `Ledger` | the life of a ticket id; `tickets_sold` against live tickets |
| `Conservation`, `ConservationRuns` | counter, slots, sold and refunds: one balance, moved only by named faults |
| `SellOut` | concurrent creates on one type, from a warm or a missing counter |
| `Collector`, `Refunds` | the orphan collector, at-most-once credits, paid tickets; the refund script over any calls |
| `RefundRuns` | the refund calls of whole runs: one type per id, order-freedom, the one credit of a create that died |
| `HungRuns` | the batch job in whole runs: it cancels only what is overdue, and leaves nothing that is |
| `Admission` | the unit behind each ticket, and the moment its transaction began |
| `Waiting` | who waits for whose row lock, and which operations can deadlock |
| `Operations` | the complete operations on database, Redis and cache |
| `Effects` | what each of them leaves in the stores, value by value, and how one answers another |
| `Alone`, `JobsAlone` | an undisturbed process can get to each end of the complete operation |
| `Endings`, `JobEndings`, `AdminEndings` | and it can get to no other end |
| `Batching` | the batch job against single releases |
| `Consistency`, `Coherence` | exactly which operations, ended where, break the agreement of the stores, or of the cache |
| `Recovery` | what the collector mends after such ends, what it credits twice, what it never gives back |
| `Quiescence` | the states that complete operations reach are states from which the machine's results apply |
| `Freshness` | readers and mutators of the event cache, step by step, from the first GET of the version on |
| `Idempotency`, `IdempotencyRuns` | the service and decorator; concurrent callers with expiry |
| `Clients`, `TicketServices`, `Worker`, `Catalog` | the stores as objects, and the services that change them |

## Where the code and its documentation differ

The model follows the code.

* `delete` is documented as an atomic, safe restore (src/services/ticket.py:193-196). It takes no lock
  before reading the ticket and does not test its status, so a delete of a ticket that is no longer live
  subtracts from `tickets_sold` again. `Ledger` counts these deletes as drift.
* The refund helper speaks of one business-logic database (src/core/redis_keys.py:116), but the worker
  connects to database 1 (src/worker.py:234-236) and the API to database 0 (src/core/config.py:55).
  `Config.shared` is a parameter: results say which setting they need, and `SplitNeverOverAdmits`
  holds for the code as deployed.
* `get_all_active_reservations` documents two fields per lock (src/core/redis_keys.py:154); it returns
  three, and the collector needs the third.
* `EventService.delete` reports existing tickets (src/services/event.py:107-113); the database refuses
  as soon as a ticket type exists, with or without tickets.
* A commit that fails after the hash write is compensated by a plain INCR (src/services/ticket.py:123-139)
  and again by the collector: `FailedCommitIsCreditedTwice` shows it for every such state.
* The credit and the removal of the entry after a delete are two commands
  (src/services/ticket.py:226-237), not one atomic restore: a delete of a RESERVED ticket that ends
  between them is credited again (`DeadDeleteIsCreditedTwice`), and one of a SOLD ticket that ends before
  them never is (`DeadDeleteOfSoldStaysLost`).
* The versioned lists are documented as an O(1) invalidation (src/core/redis_keys.py:45-80). The first
  version is set by a GET and a SET, so a bump between the two is undone: `BumpIsLost` gives the run and
  `ListsFreshExactly` the exact condition.
* `delete` takes the row of the type before that of the ticket (src/services/ticket.py:215-223), the
  workers take the ticket first (src/worker.py:74-95): `DeleteMeetsRelease` brings the two to a deadlock,
  which only an abort or a death ends.

## Model

| member | source | states |
|---|---|---|
| SellOut.ExactSellOut | src/services/ticket.py:60-139 | For any number N of concurrent creates on one type, in any interleaving, counter warm or missing and no failure but the sold limit: exactly min(N, quantity - sold) end with a ticket, all others with sold out, and tickets_sold grows by that number |
| SellOut.SaleStep | src/services/ticket.py:75-112 | Every step of such a sale keeps counter + holders + sold at or above the quantity while sold stays at or below it |
| SellOut.SaleNeverBlocks | src/services/ticket.py:62-121 | While a request of the sale is unfinished some request has a step it can take |
| SellOut.SaleEnds | src/services/ticket.py:62-121 | A sale of N requests takes at most a fixed multiple of N steps, so it ends in every interleaving |
| Invariants.StepKeepsInv | src/worker.py:56-228 | Every step of every operation, aborts and deaths included, keeps lock exclusion, the CHECK and foreign-key constraints, what each process knows while it holds its locks, and where an id can occur |
| Invariants.RunKeepsInv | src/services/ticket.py:41-243 | The base invariant holds in every state of every run, with shared or split Redis |
| Conservation.StepBalance | src/services/ticket.py:62-139 | Counter + slots held + sold - quantity - refunded live tickets changes in a step by exactly the value of the fault that the step is, and by nothing for every other step |
| ConservationRuns.BalanceOverRuns | src/worker.py:74-115 | Over a whole run without admin operations on the type the balance moves by the sum of the faults in it |
| ConservationRuns.Conserved | src/services/ticket.py:62-139 | Create, pay, delete, release and batch interleaved, aborts before a refund or commit allowed: inventory + holders + pending delete credits + sold = quantity + refunds not yet committed, and at rest the counter is quantity - sold |
| ConservationRuns.GateAdmitsOnlyRoom | src/worker.py:93-104 | In those runs a create that won the Lua decrement never fails the sold-limit CHECK |
| ConservationRuns.SplitNeverOverAdmits | src/worker.py:234-236 | With the worker on its own Redis database, and no create failing after its commit: inventory + holders + pending delete credits + sold never exceeds the quantity, whatever the worker and the collector do |
| Admission.TicketsTookAUnit | src/services/ticket.py:75-112 | In every run, ticket types created, updated and deleted meanwhile, a create that commits a ticket took a unit at the gate, although a second missing counter lets a create through without one |
| Alone.WithoutUnit | src/services/ticket.py:75-139 | Such a create fails at the foreign key and gives back a unit it never had: the counter of a type that is gone is left at one |
| Admission.CreatedAtFirstStatement | src/services/ticket.py:79-98 | In every run the created_at of a ticket is the moment of the first SQL statement that the service runs for its create, the row read of a cold one or the UPDATE of a warm one, however long the rest takes |
| Ledger.StepGap | src/services/ticket.py:215-224 | The difference between live tickets and tickets_sold changes only at the commit of a delete whose ticket is not live, by one; a new type starts with none |
| Ledger.LedgerOverRuns | src/worker.py:138-168 | In every interleaving sold + drift = number of RESERVED or SOLD tickets, drift being the number of such deletes |
| Ledger.NoOverselling | src/models/ticket_type.py:41-48 | Live tickets never exceed quantity + drift, whatever Redis contains |
| TicketLife.StepPhase | src/services/payment.py:70-73 | A committed ticket becomes SOLD only by the commit of a payment and CANCELED only by the commit of a release or a batch, and only from RESERVED |
| TicketLife.OneWinner | src/worker.py:76-104 | Between any two points of any run a ticket id follows unborn, RESERVED, at most one of SOLD or CANCELED, gone; never back, never from one to the other |
| Waiting.MovesOrWaits | src/worker.py:74-168 | In every reachable state a process that has not ended can take its next step, or waits for a row lock that another one holds |
| Waiting.StuckNeedsDelete | src/services/ticket.py:215-223 | A state in which work is left and nothing can go on without a failure has a delete between its UPDATE and its DELETE, or two overlapping batch jobs; no other operations block one another for good |
| Waiting.DeleteMeetsRelease | src/services/ticket.py:206-223 | From any state with both about to begin and the locks free, a delete and the release of the same ticket come to a deadlock in three steps |
| Waiting.DeadlockStays | src/worker.py:74-104 | The deadlock lasts through every step of anybody, and ends exactly with an abort or the death of one of the two |
| Waiting.BatchesMeet | src/worker.py:153-161 | Two batch jobs with tickets of the same two types can take the types in opposite order, after which neither can go on |
| Collector.AtMostOneCredit | src/core/redis_keys.py:126-134 | In every run an id is credited by the refund script at most once, over all jobs and all repetitions |
| Collector.CreditedBySomeone | src/core/redis_keys.py:126-134 | A processed id was credited at some step of the run, or processed from the start |
| Collector.ProcessedHasNoEntry | src/core/redis_keys.py:126-134 | In every run a processed id has no hash entry, so the branch of the script that deletes nothing loses nothing |
| Collector.CollectorIsSound | src/worker.py:183-226 | If every create ends within 60 seconds of the timestamp it stores, an id that a collector pass refunds is cancelled or absent at the refund and in every later state |
| JobsAlone.LateCommitIsRefunded | src/worker.py:188-226 | That deadline is needed: from any state with a create whose entry is over-age, a pass refunds its id and the create then commits it as RESERVED |
| Collector.PassCollects | src/worker.py:183-226 | When a pass ends, every id that was dead and over-age in the hash at its snapshot is processed and out of the hash, in any interleaving |
| Collector.PaidIsNeverRefunded | src/services/payment.py:51-73 | If no worker fails between its refund and its commit, a ticket whose payment committed is refunded by a release or a batch neither before nor after |
| Collector.NoRefundAfterPayment | src/worker.py:83-88 | Even without that hypothesis no release or batch refunds a ticket after its payment |
| HungRuns.OnlyOverdueIsCanceled | src/worker.py:133-146 | In every run the commit of a batch job changes only tickets that are RESERVED and at least the reservation time old, and makes them CANCELED |
| HungRuns.NoOverdueIsLeft | src/worker.py:133-168 | When a batch job has finished, in any interleaving, no ticket is RESERVED that was RESERVED and overdue when the job read the clock |
| Refunds.RefundsAreASet | src/core/redis_keys.py:120-147 | Any sequence of refund calls, with retries and repeats, leaves the state of its set of calls: each existing counter grows by the number of distinct ids of its type not processed before |
| Refunds.RefundsAreOrderFree | src/worker.py:163-166 | Two sequences with the same calls, in any order and multiplicity, leave the same state |
| Refunds.RefundFirst | src/core/redis_keys.py:126-134 | Any one call of a set can be made first |
| RefundRuns.RefundsNameOneType | src/core/redis_keys.py:104-107 | In every run, any two refunds of one id, by whichever jobs and however far apart, name one type |
| RefundRuns.RunCallsHaveOneType | src/worker.py:83-88 | So the refund calls of every run meet the premise under which their order and repetition do not matter |
| RefundRuns.InterleavedRefundsAreASet | src/worker.py:163-166 | The three jobs in any interleaving between two Redis commands of the API, dying and failing anywhere, leave the Redis of the set of calls they made |
| RefundRuns.DeadCreateIsCreditedOnce | src/worker.py:183-226 | A create that dies between its hash write and its commit, followed in any interleaving by a pass that takes its snapshot when the entry is over-age and ends: exactly one step of the run gives the unit back through the refund script |
| Alone.CreateAlone | src/services/ticket.py:60-141 | Each end of the complete create, warm or cold, for every place where it fails or ends for good, can be reached by the steps of an undisturbed process |
| Alone.DeleteAlone | src/services/ticket.py:206-243 | Each end of the complete delete, for every place where it fails or ends for good, can be reached by the steps of an undisturbed process |
| Alone.PayAlone | src/services/payment.py:51-85 | Each end of the complete payment, for every place where it fails or ends for good, can be reached by the steps of an undisturbed process |
| Alone.ReleaseAlone | src/worker.py:74-115 | Each end of the complete release job, for every place where it fails or ends for good, can be reached by the steps of an undisturbed process |
| JobsAlone.HungAlone | src/worker.py:130-168 | The same for the batch job, stopped after the refunds of any part of its ids or not at all |
| JobsAlone.CollectAlone | src/worker.py:180-228 | The same for a collector pass, stopped after any part of its refunds or not at all |
| Endings.CreateEnds | src/services/ticket.py:60-141 | Every run in which a create moves by itself from its start to its end leaves the stores and the reply of the complete create for some fault, and for no fault if it neither dies nor fails on the way |
| Endings.DeleteEnds | src/services/ticket.py:206-243 | The same for delete, dying after its commit or between INCR and HDEL included |
| Endings.PayEnds | src/services/payment.py:51-85 | The same for a payment |
| Endings.ReleaseEnds | src/worker.py:74-115 | The same for the release job |
| JobEndings.HungEnds | src/worker.py:130-168 | Every undisturbed batch job, whatever order its row locks, type updates and refunds take, ends as the complete job stopped after some refunds, and as the whole job if it neither dies nor fails |
| JobEndings.CollectEnds | src/worker.py:180-228 | The same for a collector pass, whatever order its refunds take |
| AdminEndings.NewTypeEnds | src/services/ticket_type.py:34-71 | Every undisturbed creation of a ticket type ends with the tables, counter and outcome of the complete one for some fault, and for none if it neither dies nor fails |
| AdminEndings.UpdateEnds | src/services/ticket_type.py:159-217 | The same for an update, with and without a quantity |
| AdminEndings.DropEnds | src/services/ticket_type.py:117-157 | The same for a deletion |
| AdminEndings.NewTypeAlone | src/services/ticket_type.py:34-71 | An undisturbed creation can get to the end of the complete one |
| AdminEndings.UpdateAlone | src/services/ticket_type.py:159-217 | An undisturbed update can get to the end of the complete one |
| AdminEndings.DropAlone | src/services/ticket_type.py:117-157 | An undisturbed deletion can get to the end of the complete one |
| JobsAlone.CompensationRevivesCounter | src/services/ticket.py:123-139 | A create that fails while its type is deleted compensates after the counter is gone, and writes the counter of a type that no longer exists |
| Effects.CreateTakes | src/services/ticket.py:60-141 | A failure-free create gets a ticket if and only if the counter, or without one the row, shows a unit and the row has room; then sold, counter, ticket row and hash entry are as stated, else tables and hash are as before and a unit that was taken is back; which refusal is given when |
| Effects.CreateStopped | src/services/ticket.py:75-139 | A create that would have got a ticket and fails or dies past the gate: for each place, whether the unit is back in the counter, the entry in the hash, the ticket in the table, and the reply |
| Effects.DeleteRemoves | src/services/ticket.py:206-243 | A delete removes the row, one from sold, adds one to an existing counter and removes the entry, each exactly as far as it gets; not found if and only if the ticket is absent or not the caller's |
| Effects.PaySells | src/services/payment.py:51-85 | A payment sells exactly a RESERVED ticket of the caller; SOLD answers already paid, CANCELED answers expired, absent or foreign answers not found, and nothing else changes |
| Effects.ReleaseCancels | src/worker.py:74-115 | A release cancels exactly a RESERVED ticket whose type has sold one; the counter, hash and processed set change only for an id not processed before, as far as it gets |
| Effects.DeleteUndoesCreate | src/services/ticket.py:192-243 | Deleting a ticket right after its create restores both stores, but for the id that was drawn and a counter that is warm now |
| Effects.ReleaseUndoesCreate | src/worker.py:74-104 | Releasing it restores sold, counter and hash and leaves a CANCELED row and a processed id |
| Effects.PaidOrReleased | src/services/payment.py:58-73 | A paid ticket is already paid for a second payment and untouched by a release; a released one is expired for a payment and untouched by a second release |
| Effects.HungCancelsOverdue | src/worker.py:133-168 | Under an exact ledger the batch job cancels exactly the tickets that are RESERVED and created at or before now - seconds, takes their number off each type's sold, refunds those not processed before, and changes nothing else |
| Effects.HungStopped | src/worker.py:153-168 | A batch job that stops among its refunds has refunded those overdue tickets it got to and left every table as it was |
| Effects.ReservationDeadline | src/worker.py:133-146 | A ticket created at one moment is cancelled by the batch job of another if and only if at least the reservation time lies between them |
| Effects.CollectorTakesOrphans | src/worker.py:183-226 | A pass refunds exactly the entries older than 60 seconds whose ticket is absent or CANCELED, or those of them it gets to, and changes no table |
| Effects.GracePeriod | src/worker.py:188-226 | The unit of a create that died after its hash write is given back by a pass if and only if more than 60 seconds have passed |
| Effects.CreateTypeStores | src/services/ticket_type.py:34-71 | A ticket type is created if and only if the event exists, the price is not negative, the quantity is positive and the commit stands; the row has the given fields and sold 0, the counter is the quantity, and cache and reply are as far as it gets |
| Effects.UpdateTypeStores | src/services/ticket_type.py:159-217 | An update is accepted if and only if the merged price is not negative, the merged quantity is positive and not below sold; the row has the merged fields, the counter is quantity - sold when a quantity was named and untouched otherwise |
| Effects.DeleteTypeRemoves | src/services/ticket_type.py:117-157 | A deletion is refused if and only if a ticket refers to the type; otherwise row, counter and cached detail go and the version grows, as far as it gets |
| Effects.NewTypeSells | src/services/ticket_type.py:34-71 | The first create on a new type gets a ticket, and leaves sold 1 and the counter at quantity - 1 |
| Effects.CreateEventStores | src/services/event.py:29-51 | A created event has an id that was in no row, a row with exactly the given attributes, every other row as before, and the next read answers these attributes |
| Effects.UpdateEventStores | src/services/event.py:118-154 | An update sets the attributes it names and keeps the others, leaves other rows alone, and the next read answers the row |
| Effects.DeleteEventRemoves | src/services/event.py:85-116 | A deletion is refused if and only if a ticket type refers to the event; otherwise the row and its cached detail go, the version grows and the next read finds nothing |
| Batching.BatchIsReleases | src/worker.py:138-168 | A batch that the CHECK allows leaves exactly the database and Redis of releasing its tickets one by one, in any order, with repeats, with other ids thrown in |
| Batching.BatchIsReleasesExactly | src/worker.py:155-161 | The two agree if and only if the CHECK allows the whole batch or refuses every single release |
| Batching.HungBatchIsReleases | src/worker.py:133-168 | Under an exact ledger the batch job leaves what releasing, in any order and with repeats, the tickets that are RESERVED and created at or before now - seconds leaves; these are CANCELED and no other ticket changes |
| Batching.CompletedCancels | src/worker.py:138-168 | A batch job that completes, ledger exact or not, has made exactly the tickets that were RESERVED and created at or before now - seconds CANCELED, and changed no other |
| Batching.DriftStopsTheBatch | src/worker.py:155-161 | Without an exact ledger there is a state where the batch is refused as a whole and single releases still cancel a ticket |
| Consistency.SoundExactly | src/services/ticket.py:60-243 | Ledger, counters less orphans, hash and processed set against the database: an operation that runs through, fails, or ends for good at any of its places keeps their agreement if and only if a guard on the state before it holds |
| Consistency.ConsistentExactly | src/services/ticket.py:90-237 | Full agreement is kept if and only if, besides, no create dies after its hash write and no delete of a RESERVED ticket dies right after its commit |
| Consistency.ConsistentMeans | src/worker.py:191-214 | In agreement every existing counter is quantity - sold, sold is the number of live tickets, the hash holds exactly the RESERVED ids, the processed set no live one, and a collector pass changes nothing |
| Consistency.SequentialInvariant | src/services/ticket_type.py:34-217 | Over any sequence of complete, failure-free operations that deletes no CANCELED ticket the stores agree after every operation |
| Consistency.HistorySound | src/services/ticket.py:102-139 | Over any sequence of operations with harmless ends, dying creates and deletes among them, the only disagreement is the orphans those left |
| Recovery.RecoveryConverges | src/worker.py:183-226 | After any such history one collector pass past the grace period restores agreement, crediting each orphan once; later passes, stopped anywhere or not, change nothing |
| Recovery.FailedCommitIsCreditedTwice | src/services/ticket.py:123-139 | A create that took a unit and failed at its commit is credited twice: after the next pass the counter is one above quantity - sold |
| Recovery.DeadDeleteIsCreditedTwice | src/services/ticket.py:226-237 | So is a delete of a RESERVED ticket that ends between its INCR and its HDEL |
| Recovery.LostUnitStaysLost | src/services/ticket.py:75-110 | A create that ends between the gate and its hash write leaves the counter one short, and no pass at any time changes anything |
| Recovery.DeadDeleteOfSoldStaysLost | src/services/ticket.py:224-237 | So does a delete of a SOLD ticket that ends right after its commit |
| Quiescence.SoundWorldStarts | src/services/ticket.py:60-139 | Any state in which the stores are sound and requests and jobs have ended or not begun satisfies the base invariant of the machine and the premises of the results on collector, batch job, refunds, units and ledger |
| Quiescence.ConsistentWorldIsExact | src/services/ticket.py:62-88 | If the stores agree and everybody is done, every warm type satisfies the premise of the conservation and split-keyspace results |
| Quiescence.ConsistentWorldOpensSale | src/services/ticket.py:62-88 | If the stores agree and only creates on one type are about to begin, warm or cold, the premise of the exact sell-out holds |
| Coherence.CoherentExactly | src/services/ticket_type.py:198-215 | An operation that runs through, fails, or ends for good at any of its places keeps every cached detail and every page of the current version equal to a fresh read, with no page ahead of the version, if and only if it is not a change that ends between its commit and its invalidation and shows in a detail or page still cached |
| Coherence.HistoryCoherent | src/services/event.py:41-49 | The cache agrees with the database over any history without such an end, entries expiring at any time |
| Coherence.ReadsAreFresh | src/repositories/event.py:139-185 | After any such history a read of an event answers its row's attributes and exactly its types, each with the name, price and quantity of its row, and not found exactly for absent events; a page is computed from the table as it is |
| Coherence.ReadsSayRows | src/repositories/event.py:139-185 | The same for one read while the cache is coherent; a read changes neither table nor inventory, and a page is stored under the version found, or 1 without one |
| Freshness.ListsAreFresh | src/repositories/event.py:157-185 | In every run, once the version is set, a get_all that starts after a mutator's bump answers from a snapshot at or after that mutator's commit, whatever slow readers store and whenever pages expire |
| Freshness.SinceBump | src/core/redis_keys.py:70-80 | From a bump on, every page stored or about to be stored under that version or a later one is computed from a snapshot that includes the commit |
| Freshness.ListsFreshExactly | src/core/redis_keys.py:59-68 | From any state at all, every later get_all in every continuation includes commit n if and only if every page stored or held at the floor or a later version does; the floor is the version, or 1 while some reader is between its GET and its SET of it |
| Freshness.BumpIsLost | src/core/redis_keys.py:59-80 | From a start without a version: two readers and a mutator reach a state, the mutator done, from which a later get_all still answers the page from before its commit |
| Freshness.DetailsFreshExactly | src/repositories/event.py:124-155 | Right after a mutator has deleted a detail entry, all later gets are fresh, attributes and types alike, if and only if no reader in flight holds older attributes or an older detail of the event |
| Freshness.GetAlone | src/repositories/event.py:139-155 | A get that moves by itself, its two statements included, leaves the cache and the answer of the complete one |
| Freshness.ListAlone | src/repositories/event.py:157-185 | So does a get_all, with or without a version to begin with |
| Freshness.MutatorAlone | src/repositories/event.py:187-197 | So does an invalidation that runs through, or ends between its two commands |
| IdempotencyRuns.ExclusionHolds | src/services/idempotency.py:63-97 | If every execution saves or unlocks before its lock expires, then per key at most one is active and it owns an IN_PROGRESS record with its own payload hash |
| IdempotencyRuns.NoRerunAfterSave | src/services/idempotency.py:119-140 | After a save an execution of the same key is active again only after the saved record's time to live has passed |
| IdempotencyRuns.LateExecutionIsJoined | src/api/decorators.py:80-107 | The deadline is needed: an execution that outlives its lock can be joined by a second one in two steps |
| IdempotencyRuns.CallAlone | src/api/decorators.py:80-107 | An undisturbed caller gets, command by command, to the records and the answer of the decorated call |
| IdempotencyRuns.ReplayedWasSaved | src/services/idempotency.py:76-97 | In every run, without any deadline, a response given without running the endpoint was saved by an earlier execution under the same record name and hash |
| IdempotencyRuns.ReplayIsFaithful | src/services/idempotency.py:24-32 | With an injective hash that execution had the same user, action, key and payload |
| IdempotencyRuns.ReplayHasSameArguments | src/api/decorators.py:14-42 | Whatever arguments the calls of a run were made with, a saved response is given only to a call that agrees with the saving one in every body and plain value |
| Idempotency.ExtractBusinessPayload | src/api/decorators.py:14-42 | A field is in the payload with a text if and only if it is not the key and the argument is a body or plain value with that text; None if and only if there is no such argument |
| Idempotency.ArgumentsTell | src/api/decorators.py:14-42 | With an injective hash, two calls that differ in one body or plain value have different payload hashes |
| Idempotency.Service.CheckAndLock | src/services/idempotency.py:34-97 | Takes the lock if and only if the key is absent or expired at SET; otherwise changes nothing and answers from the record found at the later GET |
| Idempotency.Service.SaveResponse | src/services/idempotency.py:99-126 | Overwrites the record with COMPLETED, the response and the payload hash, with a fresh time to live, and touches no other key |
| Idempotency.Service.Unlock | src/services/idempotency.py:128-140 | Removes the record of this key and no other |
| Idempotency.Idempotent | src/api/decorators.py:67-107 | Runs the endpoint unless the lock refuses or a non-null response is saved under the hash of all bodies and plain values; saves a success, unlocks after an exception, and without a key only calls the endpoint |
| Idempotency.RetryAfterSuccess | src/api/decorators.py:80-102 | While the record lives, a retry with the same payload gets the saved response and changes nothing, whatever the endpoint would do; another payload is refused |
| Idempotency.RetryAfterFailure | src/api/decorators.py:103-107 | After an exception the key is free and a retry runs the endpoint, with any payload |
| Idempotency.OtherArgumentsAreRefused | src/services/idempotency.py:89-92 | While the record lives, a retry that differs in one body or plain value gets no saved response and does not run: it is refused |
| Idempotency.WhileRunning | src/services/idempotency.py:89-97 | While an execution holds the lock the same payload is refused as busy and any other as a different payload, which is tested first |
| Idempotency.AfterExpiry | src/services/idempotency.py:66-73 | A record answers nobody once its time to live has passed since its last write: the endpoint runs and its answer is saved anew |
| Idempotency.NullIsNotReplayed | src/api/decorators.py:80-88 | A saved null response does not stop a retry: the endpoint runs again |
| RedisKeys.ParseDecOfDec | src/core/redis_keys.py:166-172 | Parsing the decimal text of a natural number gives the number back |
| RedisKeys.ParseOfPrint | src/services/ticket.py:102-110 | Parsing "type:timestamp" as the worker does gives back the reservation that create printed |
| RedisKeys.ParseExactly | src/core/redis_keys.py:162-172 | A text is read as a reservation if and only if it is digits, one colon and digits, and then as the values of the two |
| RedisKeys.PrintedHset | src/services/ticket.py:103-110 | HSET of printed text into the hash of a map gives the hash of the updated map, for any injective field names |
| RedisKeys.PrintedHdel | src/services/ticket.py:234-237 | HDEL likewise removes exactly the one entry |
| RedisKeys.GetAllActiveReservations | src/core/redis_keys.py:149-174 | Fails if and only if some field cannot be parsed, else has one lock per field, as it parses; a hash written by the service is listed entry by entry, each once |
| RedisKeys.ListKeyInjective | src/core/redis_keys.py:68 | Different version, offset or limit give different page keys |
| RedisKeys.IdempotencyKeyInjective | src/services/idempotency.py:24-25 | Different users, actions without a colon, or client keys give different record names |
| RedisKeys.KeysNeverCollide | src/core/redis_keys.py:20-102 | No two keys of all families print alike |
| RedisKeys.KeyTexts | src/core/redis_keys.py:20-102 | The texts of sample keys and of a stored reservation, character by character, as another client of the same Redis would write them |
| Clients.RedisClient.EvalReserve | src/services/ticket.py:62-75 | The reserve script: -1 for a missing counter, 0 for an empty one, else 1 and one unit less |
| Clients.RedisClient.EvalSafeIncr | src/services/ticket.py:226-232 | Credits an existing counter and leaves a missing one missing |
| Clients.RedisClient.Hset | src/services/ticket.py:103-110 | The text hash keeps meaning the map of reservations, now with this entry |
| Clients.RedisClient.Hdel | src/services/payment.py:76-79 | The text hash keeps meaning the map of reservations, now without this entry |
| Clients.RedisClient.RefundInventoryIdempotent | src/core/redis_keys.py:104-147 | The refund script: nothing for a processed id, else processed, credited if the counter exists, and out of the hash |
| Clients.RedisClient.EventList | src/core/redis_keys.py:45-68 | The page key under the current version, which is set to 1 when missing |
| Clients.RedisClient.BumpEventListVersion | src/core/redis_keys.py:70-80 | The version grows by one and pages are untouched |
| Clients.Database.UpdateSold | src/models/ticket_type.py:41-48 | Changes tickets_sold of one type unless a CHECK refuses, and says which |
| Clients.Database.CancelHung | src/worker.py:138-146 | Makes exactly the rows that are RESERVED with created_at at or before the threshold CANCELED, leaves every other row, and returns each of them with its type, once |
| Clients.Database.DeleteType | src/models/ticket.py:37-39 | Refused, unless the statement itself fails, if and only if a ticket refers to the type |
| Clients.Database.DeleteEvent | src/models/ticket_type.py:35-37 | Refused, unless the statement itself fails, if and only if a ticket type refers to the event |
| TicketServices.TicketService.Create | src/services/ticket.py:41-141 | Leaves both stores and answers as the complete create does, for every fault |
| TicketServices.TicketService.Reserve | src/services/ticket.py:75-88 | The gate takes a unit of what the counter shows, warming a missing one from the row, or refuses with not found or sold out |
| TicketServices.TicketService.Write | src/services/ticket.py:90-139 | Past the gate: a ticket, or the unit given back with the reason |
| TicketServices.TicketService.Delete | src/services/ticket.py:192-243 | Leaves both stores and answers as the complete delete does, for every fault |
| TicketServices.TicketService.Restore | src/services/ticket.py:226-237 | After the commit of a delete: the credit, then the removal of the entry, as far as it gets |
| TicketServices.PaymentService.PayForTicket | src/services/payment.py:29-87 | Leaves both stores and answers as the complete payment does, for every fault |
| Worker.Jobs.ReleaseUnpaidTicket | src/worker.py:57-115 | Leaves both stores as the complete release does for every fault, a refund before a failed commit included |
| Worker.Jobs.ReconcileHungTickets | src/worker.py:119-168 | Leaves both stores as the complete batch does, through the UPDATE, the Counter and both loops, or as the batch stopped after so many refunds as the job got to; which tickets these are is CancelHung's contract and HungCancelsOverdue |
| Worker.Jobs.CancelAll | src/worker.py:148-168 | What follows the UPDATE: counts, subtractions, refunds and commit leave both stores as the complete batch does |
| Worker.Jobs.SubtractRows | src/worker.py:153-161 | Subtracts from each type the number of its rows, or is refused exactly when some type has sold fewer |
| Worker.Jobs.RefundRows | src/worker.py:163-166 | Refunds every row, in the order of the list |
| Worker.CountTypes | src/worker.py:153 | The count of each type among the rows, and no other type |
| Worker.CountIsOfType | src/worker.py:153 | Rows that list a batch count its ids by type |
| Worker.Jobs.ReconcileRedisOrphans | src/worker.py:175-228 | Reads the text hash, filters, queries and refunds: leaves Redis as the complete pass does, or as the pass stopped after some of its refunds |
| Worker.Jobs.Suspicious | src/worker.py:191-195 | Exactly the locks older than the grace period |
| Worker.Jobs.Orphaned | src/worker.py:200-214 | Exactly the locks of absent or CANCELED tickets |
| Worker.OrphanCalls | src/worker.py:207-226 | Late locks of orphans call for exactly the credits of the orphaned entries of the hash |
| Catalog.SetAllIsMerge | src/services/ticket_type.py:184-196 | Setting the attributes of an update one by one changes the fields that were set and no others |
| Catalog.SetFields | src/services/ticket_type.py:195-196 | The setattr loop applies every setting in order |
| Catalog.TicketTypeService.Create | src/services/ticket_type.py:34-71 | Leaves stores and cache as the complete creation does for every fault; which creations are accepted, and what row and counter they leave, is CreateTypeStores |
| Catalog.TicketTypeService.Update | src/services/ticket_type.py:159-217 | Leaves stores and cache as the complete update does for every fault; which updates are accepted, and what they leave, is UpdateTypeStores |
| Catalog.TicketTypeService.Delete | src/services/ticket_type.py:117-157 | Leaves stores and cache as the complete deletion does for every fault, refused while tickets exist |
| Catalog.CachedEventRepository.Get | src/repositories/event.py:124-155 | A hit answers from the cache; a miss answers the row's attributes and each of its types with name, price and quantity of that row, and fills the entry; an absent event fills nothing |
| Catalog.CachedEventRepository.GetAll | src/repositories/event.py:157-185 | The same for pages, under the versioned key |
| Catalog.CachedEventRepository.InvalidateEvent | src/repositories/event.py:187-197 | Deletes one detail entry and bumps the version, as far as it gets |
| Catalog.EventService.Create | src/services/event.py:29-51 | Leaves database and cache as the complete creation does for every fault, and a success stores a new row with exactly the given attributes |
| Catalog.EventService.Update | src/services/event.py:118-154 | Leaves database and cache as the complete update does for every fault; an empty update invalidates nothing |
| Catalog.EventService.Delete | src/services/event.py:85-116 | Leaves database and cache as the complete deletion does, for every fault |
| Catalog.SetAttrs | src/repositories/event.py:96-110 | The setattr loop over a dictionary, in any order, overrides exactly the given attributes |

## Left out

- Routing, dependency injection, HTTP status codes, schema validation, authentication, metrics, logging, deployment: no state that these properties are about.
- Read-only ticket queries and ticket-type queries: they change nothing.
- The order of a page: the query has no ORDER BY, so a page is an uninterpreted function of the event table, offset and limit.
- SHA-256 and JSON text: the payload hash is an injective function, responses are opaque text.
- Idempotency.Idempotent: an endpoint without a user or a service among its arguments is called directly, like one without a key; finding those arguments is dependency injection.
- The job queue: a release job may start at any moment for any id, any number of times; a failing enqueue after the commit is not a step.
- A failing Redis command that no handler catches: it ends the process at that point, like a death, with the open transaction rolled back; its HTTP answer is not told apart from that of a death.
- A cached read that ends before it has stored its answer: among the complete operations there is none; `Freshness` has it at every step.
- A commit whose outcome the client does not learn: a commit either stands or fails.
- Redis data loss, eviction of the version key and clock skew between hosts: the results assume none.
- The two statements of a cached read, and the GET and SET of the first version: `Operations` takes each read in one step; `Freshness` takes them apart.
- Updates with an explicit null for a field: the database refuses them like any other broken constraint.
- Keys of Redis values as text: the stores are keyed by numbers, which `RedisKeys.KeysNeverCollide` justifies; the reservations hash alone is kept as text.
- Sequences at the start of a run: ids known to Redis are assumed to have been drawn, as they are after any history of the service.
- RedisKeys.ParseDec: reads ASCII digits only, because the service writes nothing else; Python's int also accepts signs, spaces and underscores.
- Collector.CollectorIsSound: assumes that no collector pass is past its filter at the start of the run, because such a pass could hold entries that no run has checked.
- Freshness.DetailsFreshExactly: is about the gets that find the event; a get that misses an event deleted meanwhile raises not found.
- Admission.CreatedAtFirstStatement: is about the statements of the service; the lookup of the user that authentication makes before, in the same session, begins the transaction earlier and is not part of this model.
- AdminEndings.NewTypeEnds: is about tables and counters, as are UpdateEnds and DropEnds; the small-step machine has no event cache, so the places after the counter command are told apart by `Coherence` only.
- AdminEndings.NewTypeAlone: is stated for the end without a fault, as are UpdateAlone and DropAlone.
- Endings.ReleaseEnds: is for a worker that shares the API's Redis database, as are the results of `Alone`, `JobsAlone` and `JobEndings` on jobs: the complete operations have one Redis.
- Worker.Jobs.ReconcileRedisOrphans: does not say how many refunds a stopped pass has made, only that they are among those of the complete pass.
