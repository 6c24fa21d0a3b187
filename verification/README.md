# Card payment service: the concurrent payment protocol

This project models the payment core of the card payment service and proves what it guarantees when any number of
Authorize, Charge, Capture, Void and Refund requests run at once. A request is broken at every external call: cache
lookup, card tokenization, insert, lock, read, gateway call, conditional update, refund insert, unlock, background
cache save. Between any two of them every other request may move and time may pass. A database write may fail, or
succeed without its acknowledgement arriving; so may the lock's SET; a request may die anywhere.

`Protocol.Step` is that system as a function of a state and an event, and `Protocol.Run` folds it over an arbitrary
sequence of events, so a theorem about `Run(config, es)` is a theorem about every run. `Service.PaymentService` is the
imperative form: the five operations over mutable repositories and a mutable locker, each external call a method proved
to take exactly one step of the protocol, with `Interfere` letting everybody else run in between.

Safety here comes from three mechanisms, and the theorems say which carries what.

- The status-guarded update alone (every run): `Safety`, `Lifecycle`, `Ledger`, `Refunds`, `Caching`, `Answers`,
  `Isolation`.
- The UNIQUE raw idempotency key alone (every run): `Keys`.
- The lease lock, under the hypothesis that no critical section on the transaction in question outlives its five-second
  lease (`Leases.LeasedRunOn`): `Leases`, `Lifelines`, `Refinement`. `Witness.LeasesNeeded` and
  `Witness.RefundsNeedLeases` are runs that break the conclusions without it, `Leases.ShortRunLeased` and
  `Witness.Capturing` runs that meet it. `Locking` proves what the lock itself guarantees with no hypothesis.

`Promises` writes out, on rows, columns and errors alone, what each external call is to do. `Outcomes` proves that every
call of every run does it, and follows it from a request's first insert to the replay of its answer; the methods of
`Service` promise the same. Each client there records the commands it was sent, so a command that is not sent, or sent
with other arguments, breaks the contract of the method that should have sent it.

The main result is `Refinement.RunsAtomically`: every run is a run of `AtomicMachine`, where each operation on a
transaction is one indivisible step, but for the Captures, Voids and Refunds of those transactions whose leases were
outlived, and what goes astray there stays there. Successes and every refusal that depends on the row or the gateway
come from such a step and are computed from the stored row; a duplicate key is told only when the key is taken, a panic
only by a Charge that left its pending row, and a replay only repeats what an earlier request of the same merchant under
the same key was told. The other one is `Ledger.Conservation`: in every run and for every weight, the accepted gateway
calls are exactly those the rows testify to, plus those in flight, plus those whose status write failed, plus those whose
status write matched no row.

Assumptions: a new UUID was never used before; a single database or Redis command is atomic; a gateway error or nil
response means the gateway did nothing; `uuid.MustParse` is an arbitrary function from strings, neither total nor
injective; card tokenization succeeds or fails arbitrarily. Time is in whole seconds. The Redis client is not part of
this model, and whether it hands the nil reply of a refused `SET NX` back as an error is left open: `Config.nilIsError`
says so. GORM is not part of it either, and whether an update that matches no row still fills the struct it returns with
the written columns is left open as `Config.fillsOnMiss`; the id is zero in any case. All theorems hold for all values of
both.

Where the code and its own documentation disagree, the model follows the code.

- Charge reads `*tx.GatewayRef` of a row that has none (`internal/service/payment_gateway.go:38`). `Config.chargePatched`
  says whether that dereference is taken out. `ChargeNeverCompletes` is about the code as written, `Witness.Charging`
  shows a direct charge completing once it is patched, and everything else holds for both.
- Charge never sets captured_at, although `readme.md:499` shows it doing so; `FieldsAgree` proves it never does.
- Void's answer for an already voided transaction (`readme.md:538`) is unreachable: `NeverAlreadyVoided`.
- A rejected authorization is cached too, and its replay reports no error (`internal/service/payment_service.go:96-100`,
  `internal/service/payment_service.go:53-55`). `ReplayDropsError` says exactly when: if and only if the cached status is
  failed. `Witness.ErrorDropped` is a run that does it.
- Refund replays whatever is cached under its key without looking at the transaction
  (`internal/service/payment_service.go:289-293`). `RefundReplays` says exactly when the replayed refund is another
  transaction's; `Witness.RefundReplayedElsewhere` is a run that does it.
- The cache is keyed by the parsed UUID and shared with refunds, the UNIQUE column by the raw string. `ReplayOfRefund`,
  `RefundReplays` and `ParsedKeyIff` say exactly what follows.
- If the Redis client reports a held key as an error, the branch that answers a duplicate request
  (`internal/infra/redis/lock.go:36-39`, `internal/service/payment_service.go:373-376`) is never taken:
  `DuplicateRequestOnlyIf`.
- A Capture or Void whose status write matches no row answers with a zero id, and as a success if the gateway accepted.
  `AnswersAlways` says those are the only answers that are not true.
- A Refund writes the status and inserts its row in two database transactions
  (`internal/service/payment_transaction.go:38-48`). `RefundRowsCounted` says how many rows a transaction may have more
  than it should, `RefundedExplained` when a refunded one has none; `Witness.RefundsNeedLeases` and
  `Witness.RefundUnrecorded` are runs that do either.

## Model

| member | source | states |
|---|---|---|
| TransactionTable.TransactionRepository.Create | internal/repository/transaction_repository.go:27-37 | inserts the row unless its raw key is taken, which is its own error; a failed write may or may not have been applied |
| TransactionTable.TransactionRepository.FindByIDAndMerchantID | internal/repository/transaction_repository.go:39-49 | finds a row only under its own merchant |
| TransactionTable.TransactionRepository.UpdateByQueryAndReturn | internal/repository/transaction_repository.go:51-61 | compare-and-set on the status; a miss is no error and hands back a struct with a zero id, its status the written one or none |
| RefundTable.RefundRepository.Create | internal/repository/refund_repository.go:22-24 | appends one row, or fails, or both |
| IdempotencyTable.IdempotencyKeyRepository.Create | internal/repository/idempotency_key_repository.go:24-26 | never replaces a stored key; a taken one is an error, like a failed or unacknowledged write |
| IdempotencyTable.IdempotencyKeyRepository.FindByKeyAndMerchantID | internal/repository/idempotency_key_repository.go:28-40 | finds only unexpired rows of the asking merchant |
| LeaseLock.RedisLock.Acquire | internal/infra/redis/lock.go:24-41 | takes a free key with a time to live; a held key is not touched and yields no value, or the client's nil error; a failing store is an error of its own |
| LeaseLock.RedisLock.Release | internal/infra/redis/lock.go:43-58 | deletes the key only while it still carries the caller's token |
| Service.PaymentService.CachedIdempotency | internal/service/payment_idempotency.go:13-27 | sends one lookup of the request's own key and replays the decoded hit, panics on a malformed key without sending any, and treats a failed lookup as a miss |
| Service.PaymentService.SaveIdempotency | internal/service/payment_idempotency.go:29-47 | sends one insert of the answered output under its key with a day's expiry, and touches nothing of the request but what it had left to save |
| Service.PaymentService.SaveTransaction | internal/service/payment_transaction.go:53-79 | sends one insert of a pending row with exactly the merchant, key, type, amount and currency asked for; a taken key, a failed and an unacknowledged insert have their own errors and effects |
| Service.PaymentService.AcquireLock | internal/service/payment_service.go:365-380 | sends one SET with a fresh token and five seconds; the token comes back exactly if the key was free and Redis acknowledged, a store error exactly if the command failed, and a held key is the client's nil error or a duplicate request |
| Service.PaymentService.ReadTransaction | internal/service/payment_transaction.go:12-28 | sends one query; which error is answered, or that the stored row is worked on, is decided by owner, reference and status as listed, both ways |
| Service.PaymentService.CallGateway | internal/service/payment_gateway.go:11-87 | sends the gateway one request with the row's amount, currency, order id and reference unless it panics, which only Charge as written does; each outcome becomes its columns, its refund row or its error |
| Service.PaymentService.UpdateStatus | internal/service/payment_service.go:134-157 | sends one conditional update; exactly a row in the demanded status is changed, in exactly the columns written; the answer is read off the returned struct, and that of a payment is left to be saved |
| Service.PaymentService.CreateRefund | internal/service/payment_transaction.go:44-50 | sends one insert of the refund row, whether or not the status update matched; its id is answered and left to be saved, unless the insert failed |
| Service.PaymentService.ReleaseLock | internal/service/payment_service.go:119-123 | sends one compare-and-delete of the key with its own token; unless that failed the key no longer carries the token and the lease is given back; the answer stays |
| Service.PaymentService.Interfere | internal/service/payment_service.go:16-23 | any number of steps of other requests leave the caller's own request alone |
| Service.PaymentService.Authorize | internal/service/payment_service.go:42-103 | under any interference and whatever leases do, its answer is true of the stored rows; a success or rejection names a row with this merchant, key, amount and currency that the gateway was asked to authorize for that amount, and has been sent to the cache under the parsed key; a duplicate-key error means a taken key |
| Service.PaymentService.Charge | internal/service/payment_service.go:160-225 | the same of a captured row; as written it never answers a success or a gateway rejection of its own, and its panic leaves the row it inserted |
| Service.PaymentService.Capture | internal/service/payment_service.go:105-158 | its answer is true of the stored rows unless it is blank, which it never is while this transaction's leases are respected; a success names the merchant's row, which was captured and is now captured or refunded; a lock once taken is given back with the same token |
| Service.PaymentService.Void | internal/service/payment_service.go:227-279 | the same, and a success names the merchant's row, which is voided |
| Service.PaymentService.Refund | internal/service/payment_service.go:281-346 | whatever leases do, its answer is true of the stored rows; a success names a stored refund row of that transaction and merchant and has been sent to the cache under its key, an already-refunded error means a refunded row; a lock once taken is given back |
| Outcomes.InsertKept | internal/service/payment_transaction.go:59-79 | in every run an insert under a free key stores the request's own columns, pending, and changes nothing else; every way it can fail has its error |
| Outcomes.ReadKept | internal/service/payment_transaction.go:12-28 | in every run the read of a Capture, Void or Refund goes on or is refused with each error if and only if owner, reference and status of the stored row say so |
| Outcomes.CallKept | internal/service/payment_gateway.go:11-87 | in every run each outcome of a gateway call becomes the status, reference, reason, time or refund row it is to write, or the error it is to answer, and the call is logged with the amount asked |
| Outcomes.WriteKept | internal/repository/transaction_repository.go:51-61 | in every run a status write changes exactly the row it asks for in exactly the columns written, and answers and leaves to be saved what that yields |
| Outcomes.RecordKept | internal/service/payment_transaction.go:44-50 | in every run a refund's row is inserted as made and its id answered |
| Outcomes.LookupKept | internal/service/payment_idempotency.go:13-27 | in every run a lookup replays the merchant's unexpired response under the request's own key and goes on otherwise |
| Outcomes.SaveKept | internal/service/payment_idempotency.go:29-47 | in every run a save stores the answered output for a day under an unused key |
| Outcomes.AcquireKept | internal/infra/redis/lock.go:24-41 | in every run only a free key is taken, for five seconds, and each refusal is told by its cause |
| Outcomes.ReleaseKept | internal/infra/redis/lock.go:43-58 | in every run a release that reaches Redis removes the caller's own live lease and nothing else |
| Outcomes.RefusedWhileHeld | internal/service/payment_service.go:369-376 | in every run a request that asks while another holds an unexpired lease is told a duplicate request, or the client's nil error |
| Outcomes.StoreErrorOnlyIf | internal/service/payment_service.go:369-372 | a lock store error is answered only if the command for the lock failed or was not acknowledged |
| Outcomes.ExitsToRelease | internal/service/payment_service.go:119-123 | whoever leaves its critical section, with whatever answer, has the lock to release, unless it died |
| Outcomes.ReleasingUntil | internal/service/payment_service.go:119-123 | only a release, or death, ends that, and the answer stands |
| Outcomes.CompletionSaved | internal/service/payment_service.go:94-96 | in every run the step that completes a payment or refund hands its output to be saved under the request's own key |
| Outcomes.SavingWaits | internal/service/payment_service.go:94-96 | what was handed to be saved waits for its save through any step of anybody else |
| Outcomes.AnswerReplayed | internal/service/payment_service.go:50-55 | in every run an answer saved under an unused key is replayed to every later lookup of the merchant under that key for a day |
| Outcomes.PaymentAsAsked | internal/service/payment_service.go:66-96 | in every run a payment told a success or rejection names a row with the columns it asked for, opened at the gateway for that amount, accepted if and only if told a success |
| Outcomes.RowsAsked | internal/service/payment_transaction.go:59-71 | in every run every row carries the columns of a request that asked for it |
| Outcomes.CallLands | internal/service/payment_service.go:131-146 | whatever happens between call and write, a declined call's row carries the gateway's own message, and a captured one the time of its call |
| Lifecycle.HistoryIsPath | internal/domain/transaction.go:17-24 | every row's status history in every run is a path of the lifecycle from pending with at most three changes |
| Lifecycle.RowOverTime | internal/repository/transaction_repository.go:51-61 | in any continuation of any run a row stays, keeps its identity, its gateway reference and its captured_at, never goes back in rank, and changes no more once failed, voided or refunded |
| Lifecycle.FieldsAgree | internal/service/payment_service.go:77-82 | failure reason exactly when failed; captured_at exactly on captured or refunded authorize_capture rows; reference wherever needed; inserted columns never change |
| Lifecycle.NoNilReference | internal/service/payment_gateway.go:57-74 | no reachable Capture, Void or Refund dereferences an absent gateway reference |
| Lifecycle.ChargeDereferencesNil | internal/service/payment_gateway.go:36-39 | a payment's gateway call panics without any effect if and only if it is an unpatched Charge |
| Lifecycle.ChargeNeverCompletes | internal/service/payment_service.go:194-209 | as written, no direct charge leaves pending in any run |
| Lifecycle.RefundRowsImplyRefunded | internal/service/payment_transaction.go:30-51 | a refund row's transaction is refunded and agrees in merchant and amount, even after missed updates and expired leases |
| Keys.AtMostOnceByKey | migrations/0002_create_transaction.up.sql:28 | in every run one raw key has at most one row and at most one opening gateway call, accepted or not, across both endpoints |
| Witness.ParsedKeyIff | internal/service/payment_service.go:51 | one payment per parsed key in every run holds if and only if no UUID that parses has two spellings |
| Locking.OneHolder | internal/infra/redis/lock.go:24-41 | at every moment at most one request holds an unexpired lease on a transaction, and Redis carries its token |
| Locking.HolderKept | internal/infra/redis/lock.go:43-58 | no step of anybody, late releases included, takes an unexpired lease from its holder |
| Locking.LeaseLasts | internal/service/payment_service.go:368 | in every run, whatever anybody else does after an acquire, the lease is held and Redis carries its token until the clock moved by five seconds, and no longer |
| Locking.AcquireIffFree | internal/service/payment_service.go:373-376 | in every run a request gets the lock if and only if no request holds an unexpired lease on that transaction |
| Ledger.Conservation | internal/service/payment_service.go:131-146 | in every run, for every weight, the accepted calls balance the rows, the flights, the failed and the missed writes |
| Ledger.MoneyConserved | internal/service/payment_service.go:319-336 | in every run captured minus refunded amounts equal the captured rows plus exact terms for flights, failed and missed writes |
| Caching.CacheAgrees | internal/service/payment_service.go:84-96 | in every run a cached output is what a request of that merchant under that key answered, with an error beside it exactly if it says failed; it names that request's row and first status, or a refund row of the transaction that request asked for |
| Caching.CacheKept | internal/repository/idempotency_key_repository.go:24-26 | a cached response never changes |
| Caching.ReplayAgrees | internal/service/payment_service.go:50-55 | for a key no Refund used, every replay names the merchant's row and its first status |
| Caching.ReplayOfRefund | internal/service/payment_idempotency.go:20-26 | a payment replays a zero id in status processing if and only if a refund is cached under its key |
| Caching.RefundReplays | internal/service/payment_service.go:289-293 | a Refund replays the refund stored under its key, which is of the transaction asked for if and only if the request first answered under that key asked for the same; a payment cached there is replayed as a refund with a zero id |
| Caching.SavedForADay | internal/service/payment_idempotency.go:39-44 | whatever happens after a save, the response is found for exactly twenty-four hours, by its merchant only |
| Leases.UpdatesNeverMiss | internal/service/payment_service.go:142-151 | with the transaction's leases respected every conditional update finds its row exactly as read and answers the stored id and status |
| Leases.OwnUpdatesNeverMiss | internal/service/payment_service.go:76-93 | for Authorize and Charge the same in every run |
| Leases.LeasedMoney | internal/service/payment_service.go:131-146 | with leases respected the money balances with no missed writes at all |
| Leases.MutualExclusion | internal/service/payment_service.go:113-123 | while a transaction's leases are respected no two critical sections on it overlap |
| Leases.ShortRunLeased | internal/service/payment_service.go:368 | whatever happens in its first five seconds, the system respects all leases |
| Refunds.RefundRowsCounted | internal/service/payment_transaction.go:30-51 | in every run a transaction has at most one refund row, and none unless refunded, plus one for each accepted refund whose status write missed |
| Refunds.SecondRefundMissed | internal/service/payment_transaction.go:38-48 | in every run a second refund row means that the status write of a refund of that transaction missed |
| Refunds.OneRefundPerTransaction | internal/service/payment_service.go:289-336 | with the transaction's leases respected it has at most one refund row, whatever keys its racing refunds carry |
| Refunds.RefundedExplained | internal/service/payment_transaction.go:38-48 | in every run a transaction with a refund row is refunded, and a refunded one has a refund row or a Refund still to insert it, told of a database error, or dead |
| AtomicMachine.RunTold | internal/service/payment_service.go:105-346 | every run of the atomic specification accounts for each accepted call on a transaction that is not exempt by its row or a lost write, in order if none was lost |
| Refinement.StepRefines | internal/service/payment_service.go:105-346 | every step of the system is a step the atomic machine allows, with the same effect on what it sees; row-dependent refusals are steps that look at the row; only exempt transactions stray |
| Refinement.RunsAtomically | internal/service/payment_service.go:105-346 | every run is a run of the atomic machine that exempts only transactions whose leases were outlived, answers included; with all respected it exempts none |
| Refinement.ToldAlways | internal/service/payment_service.go:105-346 | what the atomic machine promises of a transaction holds of every run that respects its leases, whatever happens to the others |
| Lifelines.GatewayOrder | internal/service/payment_service.go:126-132 | with the transaction's leases respected and no write lost, its accepted calls are a prefix of authorize-capture-refund, authorize-void or capture-refund |
| Lifelines.BoundedDuplicates | internal/service/payment_service.go:132-146 | with the transaction's leases respected, its accepted calls of a kind exceed one only by the failed writes after such calls |
| Lifelines.CallsCounted | internal/service/payment_service.go:131-146 | in every run the accepted calls of a kind on a transaction are those its row testifies to plus those in flight, failed and missed |
| Answers.AnswersAlways | internal/service/payment_service.go:148-157 | in every run every success, rejection, refusal and replay is true of the stored rows, for good, if and only if it is not the blank answer of a Capture or Void whose write missed |
| Answers.AnswersLeased | internal/service/payment_service.go:142-157 | with the transaction's leases respected no Capture or Void answers blank |
| Answers.CaptureTrue | internal/service/payment_service.go:148-151 | a Capture told captured, and not blank, did capture the merchant's row |
| Answers.ReplayDropsError | internal/service/payment_service.go:50-55 | a replay answers the cached output without an error, and drops one that was given with it if and only if the cached status is failed |
| Answers.DuplicateRequestOnlyIf | internal/infra/redis/lock.go:26-39 | no run answers a duplicate request if the Redis client reports a held key as an error, nor that error if it does not |
| Answers.NeverAlreadyVoided | internal/service/payment_service.go:252-254 | no run ever gives the already-voided answer |
| Isolation.StrangersChangeNothing | internal/repository/transaction_repository.go:39-49 | erasing wrong-merchant requests from any run changes no row, refund, cached response, gateway call or answer but through lock contention |
| MockGateway.OwnReferenceAccepted | internal/gateway/mock_gateway.go:41-108 | the mock captures, voids and refunds whatever carries its own reference and a positive amount |
| ClosedSystem.AuthorizedNeverFails | internal/gateway/mock_gateway.go:19-39 | with the mock an authorized row carries its reference and a positive amount and never fails later |
| ClosedSystem.NeverRejected | internal/router/router.go:55 | with the mock no Capture, Void or Refund of an authorize_capture row is rejected in any run |
| Witness.LeasesNeeded | internal/service/payment_service.go:368 | one expired lease lets a transaction be voided and captured, the update miss, and the capture answer success with a zero id, under either behaviour of the ORM |
| Witness.RefundsNeedLeases | internal/service/payment_transaction.go:38-48 | one expired lease lets two refunds of one captured authorization both succeed and leave two refund rows |
| Witness.RefundUnrecorded | internal/service/payment_transaction.go:44-48 | a refund whose row is not inserted leaves its transaction refunded without one |
| Witness.Capturing | internal/service/payment_service.go:105-158 | a run that respects all leases authorizes, captures and answers captured |
| Witness.ErrorDropped | internal/service/payment_service.go:94-100 | a declined authorization asked for again is replayed without its error |
| Witness.RefundReplayedElsewhere | internal/service/payment_service.go:289-293 | a Refund of a transaction that does not exist replays another transaction's refund as its own |
| Witness.Charging | internal/service/payment_service.go:197-215 | with the dereference patched a direct charge reaches captured |

## Left out

- HTTP handlers, DTOs, mappers, middleware, router and response formatting: the model starts at the service layer with an authenticated merchant id.
- Service.PaymentService.CallGateway: the direct charge's call under `chargePatched` sends the row's reference, which is none, since the source does not say which one was meant; card data is not sent.
- Service.PaymentService.Interfere: other requests are moved by the protocol's own step function, not by calling their methods, so their local variables are kept in a field; a request's own methods compute theirs themselves and are proved to agree with the step.
- Service.PaymentService.SaveIdempotency: JSON encoding is not modelled; a cached response is a tagged value, and reading it into the other struct leaves the id zero.
- Refinement.RunsAtomically: the lock and the clock are not part of the atomic machine, so it may refuse any Capture, Void or Refund as a duplicate; when that happens is `AcquireIffFree`.
- ClosedSystem.NeverRejected: says nothing of refunds of direct charges, whose amount and reference the mock never checked.
- Card columns, description, created_at and updated_at: written once or by the database, read by nothing here.
- Card tokenization, test cards and card validation: library code and lookup tables; tokenizing succeeds or fails arbitrarily.
- Merchants, API keys, activation and authentication: short and mostly single-branch.
- Webhooks, rate limiting, retries and refund completion: described in the repository's documentation but not implemented in the service.
- Configuration, logging, database and Redis connections, start and shutdown: input and output only.
- Progress: nothing says a request ever finishes, since any of them may be starved or die.
