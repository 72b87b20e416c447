# Orders, payments, webhooks and uploads: what survives interleaving and faults

The service takes a payment in two writes that no transaction joins: `payment.Service.Create` inserts the
payment and then marks the order `pending_payment`; `payment.Service.ApplyProviderCallback` writes the
verdict to the payment and then to the order. Requests run concurrently, any repository call may fail with
or without having taken effect, and a request may die between two calls. This project models that protocol
over the Postgres rows and proves what holds in every such run, what holds only under a stated condition,
and which of the service's promises fail, each failure with the exact condition and, where it takes
interleaving or faults, a concrete run. Three subsystems that feed the same rows have their own proofs:
gateway numbering and money arithmetic, the webhook signature gate, and the upload pipeline with its paths.

## How the model is built

- **Rows** (`Domain`, `Database`, `Money`, `Numbering`): every query is one atomic effect on the tables,
  under the declared constraints. Quantities, prices and amounts are integers in units of 10^-8, products
  in units of 10^-16, and storage rounds half away from zero as `numeric(24,8)` does.
- **Protocol** (`Protocol`, `Steps`, `History`): requests are threads with a program counter, one repository
  call or file operation per step. A label carries what the environment decides: the generated identifier,
  the row a lookup returns, how many bytes a copy moves, and a fault (`LostCall`: the call never took effect,
  `LostReply`: it did, but the caller sees an error). `Crash` ends a thread anywhere. `Apply` is total and
  leaves the state alone when a label is not enabled, so `Exec` over any label sequence is a run and a
  statement about all sequences is a statement about all interleavings with all faults.
- **Safety of all runs** (`Safety`, `Lead`, `Drawing`, `Integrity`, `Pricing`, `Provenance`, `Isolation`,
  `Fidelity`), **agreement of order and payment** (`Agreement` on when runs keep it, `Disagreement` on which
  steps break and mend it), **reachable status pairs and counterexamples** (`Pairs`, `Witnesses`).
- **Serial operations** (`Serial`): `Pay`, `Callback`, `GetPayment` and `Receive` (an upload) as whole
  operations, each call with its own fault. `Composition` and `UploadComposition` prove them to be exactly
  what the threads do when nothing interleaves. `Refinement`, `Verdicts`, `Healing` and `Duplicates` state
  the serial guarantees; `Histories` carries the refinement to runs of the protocol.
- **Promises** (`Promises`, `Requests`, `Webhook.AnswersDelivery`): what each service call leaves in the rows and
  answers, written out field by field without the functions above, under every fault; and, over whole runs,
  whose request a stored order shows.
- **Objects updated in place** (`Store.Tables`, `Gateway.MockGateway`, `Services.OrderService`,
  `Services.PaymentService`, `Webhook.Service`, `Uploading.Service`): classes whose service methods are proved
  to have the effect and the answer of those functions. The upload methods work on real paths, where the
  protocol names files by day and generated name; `UploadComposition.ReceiveMirrors` and
  `Paths.LocatedInjective` connect the two.

Assumptions: generated identifiers are new and never reused; the tables start empty, the gateway counter
starts at 0 and lives as long as the run; results that need references to be unique say how many gateway
calls they allow (up to 2^64, where the `uint64` counter wraps). Upper-casing, content sniffing, the MAC,
JSON parsing and UUID printing are uninterpreted functions that the theorems quantify over.

## Where the code and its documentation differ

The model follows the code.

- `README.md:243` promises `DUPLICATE_PAYMENT` for a second attempt. The code gives that answer exactly when
  the order has a payment but still reads as payable (`Duplicates.DuplicateIff`, `Duplicates.StepDuplicateIff`).
  Among requests that do not overlap this takes an order split by an interrupted Create
  (`Duplicates.SerialDuplicateIff`); without faults it never happens (`Duplicates.HistoriesNeverDuplicate`) and
  the second attempt is refused as not payable (`Refinement.SecondCreateNotPayable`).
- `README.md:237` shows Create calling `AdvanceStatus`; the code calls `UpdateStatus` with the owner's id.
- `README.md:260` promises that `paid` and `failed` never change into each other. That holds serially
  (`Verdicts.FirstVerdictWins`). Interleaved, two callbacks may both read `pending`:
  `Witnesses.VerdictOverwritten` is such a run and `Agreement.TerminalChangesIff` the exact condition.
- The "split-brain" of `README.md:299` also arises without any failure: `Witnesses.LateMarkDisagrees`. The
  steps that cause it are those of `Disagreement.BreaksIff`.

Two more things a reader might expect and does not get. A payment's amount is not always its order's current
product, because orders may be updated in every status: `Witnesses.AmountGoesStale` is a run,
`Pricing.CurrentIff` the exact condition. And a Get does not always answer for another user's payment as for
a missing one: `Witnesses.ForeignPaymentShows` is a run, `Isolation.HiddenStepShowsIffLeaky` the exact
condition.

## Model

| member | source | states |
|---|---|---|
| `Lead.ChargedAtMostOnce` | internal/payment/service.go:40-66 | Over a whole faulty interleaved run, counting deleted rows too, at most one payment is inserted per order and at most one thread ever reaches the `pending_payment` write for it |
| `Lead.NeverAhead` | internal/payment/service.go:62-97 | In every reachable state an order that left `pending` has a payment and an order `paid` or `payment_failed` has a settled one |
| `Lead.NeverBack` | internal/payment/service.go:66-97 | Between any two points of any run neither status returns to `pending`, and deleted orders and payments never reappear |
| `Lead.NoSecondCharge` | migrations/000004_create_payments.up.sql:3 | The unique index lets an insertion through only for an order that was never charged before in the run |
| `Agreement.ConditionalAgreement` | internal/payment/service.go:54-99 | If callbacks start after their Create is over, carry one verdict per reference, and no fault or crash separates a request's two writes (other faults are allowed), then whenever no order write is owed every order's status is the image of its payment's status |
| `Agreement.RankNeverDecreases` | internal/payment/service.go:66-97 | Under the same conditions no order's status rank ever decreases between any two points of the run |
| `Agreement.TerminalChangesIff` | internal/payment/service.go:76-88 | A step changes a terminal payment status if and only if it is the status write of a callback for that payment that carries the other verdict |
| `Disagreement.BreaksIff` | internal/payment/service.go:62-97 | In every interleaved faulty run an order in agreement with its payment stops being so if and only if the step inserts its payment, writes to the payment a verdict other than the stored status, marks the order after a verdict, or closes the order with a verdict other than the stored one |
| `Disagreement.MendsIff` | internal/payment/service.go:62-97 | An order out of agreement comes back if and only if the step marks it while the payment is pending, writes to the payment the verdict the order shows, closes it with the stored verdict, or deletes the order |
| `Witnesses.VerdictOverwritten` | internal/payment/service.go:76-88 | A fault-free run in which one callback's terminal verdict is stored and the next step replaces it by the other |
| `Witnesses.LateMarkDisagrees` | internal/payment/service.go:62-68 | A fault-free run with one callback, everything finished, that ends with a settled payment and the order back at `pending_payment` |
| `Witnesses.ForeignPaymentShows` | internal/payment/service.go:101-111 | A run in which a Get of another user's payment whose second read fails is answered differently from a Get of a missing payment |
| `Witnesses.AmountGoesStale` | internal/order/repository.go:79-84 | A run in which an order is updated after it was charged, so the payment's amount is not the order's current product |
| `Pairs.SerialPairs` | internal/payment/service.go:62-97 | Runs in which requests do not overlap, with any faults and crashes, stay within nine (payment, order) status pairs, also between the calls of a request |
| `Pairs.InterleavedPairs` | internal/payment/service.go:62-97 | Arbitrary interleaving adds at most the two crossed pairs |
| `Pairs.NineAreBehind` | internal/payment/service.go:31-99 | The nine pairs are exactly those where the order is at most as far as its payment's verdict allows |
| `Witnesses.NineReached` | internal/payment/service.go:62-97 | Each of the nine pairs is the end of a serial run, so serial runs reach exactly the nine |
| `Witnesses.CrossedReached` | internal/payment/service.go:76-97 | Both crossed pairs, paid with `payment_failed` and failed with `paid`, are ends of fault-free runs |
| `Witnesses.ElevenReached` | internal/payment/service.go:62-97 | Arbitrary runs reach exactly the nine and the two crossed pairs |
| `Isolation.Noninterference` | internal/payment/service.go:101-113 | Two whole interleaved runs that agree on the steps a user can see end with the same orders, payments, uploads, pending requests and answers for that user, provided no leaky step occurs. Seen are the user's own requests, with the number the gateway gave the user's own Creates, and callbacks from the lookup that finds the user's payment on. Other users' Creates, uploads and callbacks may differ freely, and so may the gateway counter |
| `Isolation.HiddenStretch` | internal/payment/service.go:31-113 | Whatever hidden steps do, the user's view stays as it was and threads they do not belong to do not move |
| `Isolation.HiddenStepsInsertable` | internal/payment/service.go:31-113 | Any hidden steps, other users' Creates, uploads and callbacks included, with threads and identifiers of their own, can be put into a run before steps of the user, or taken out: the user's steps stay possible and look the same and the user ends with the same rows and answers. The put-in steps may move the gateway counter unless one of the user's steps draws a number |
| `Isolation.ForeignRequest` | internal/payment/service.go:31-70 | Every whole request of another user, with any inputs and faults, consists of hidden steps |
| `Isolation.ForeignCallbacksInvisible` | internal/payment/service.go:72-99 | Any callbacks, with any faults, that find no payment of the user leave the user's view, the gateway counter and the used identifiers as they were |
| `Isolation.ForeignCallbacksInsertable` | internal/payment/service.go:72-99 | Such callbacks can be put in before any steps of the user, Creates included |
| `Isolation.ForeignCall` | internal/payment/service.go:72-99 | A whole callback with any inputs and faults whose lookup finds no payment of the user consists of hidden steps |
| `Isolation.HiddenStepShowsIffLeaky` | internal/payment/service.go:101-113 | A step outside the user's view changes what the user sees if and only if it is a fault or crash at the ownership read of the user's own Get of someone else's payment |
| `Isolation.VisibleStep` | internal/order/repository.go:47-118 | A step in the user's view keeps two systems the user cannot tell apart indistinguishable, answers included |
| `Isolation.ForeignLikeMissing` | internal/payment/service.go:101-113 | Update, delete, read, pay, payment and upload lookup answer another user's row exactly like an identifier that never existed |
| `Composition.PayComposes` | internal/payment/service.go:31-70 | A Create thread run alone, with any fault at each call, ends in the rows, counter and answer of `Serial.Pay` and touches nothing else |
| `Composition.GetComposes` | internal/payment/service.go:101-113 | A payment lookup run alone, with any faults, answers what `Serial.GetPayment` says and changes nothing else |
| `UploadComposition.UploadComposes` | internal/upload/service.go:37-85 | An upload thread run alone, cutting its copy in any chunks and failing anywhere, ends in the rows, files and answer of `Serial.Receive` |
| `UploadComposition.ReceiveMirrors` | internal/upload/service.go:67-84 | The upload on real paths and the upload in the protocol have the same rows and answer, and the disk keeps holding the protocol's files if the new place is nobody else's |
| `Composition.CallComposes` | internal/payment/service.go:72-99 | The same for a callback thread and `Serial.Callback`, for whichever row the lookup returns |
| `Refinement.HistoryRefines` | internal/payment/service.go:31-99 | Every serial fault-free history of order, payment and callback operations moves a machine with one phase per order (none, awaiting, closed with a verdict), with the same success or error for every request; both status columns stay images of the phase |
| `Refinement.HistoryFromEmpty` | internal/payment/service.go:31-99 | In particular every such history from empty tables, against the empty machine |
| `Histories.HistoryRuns` | internal/payment/service.go:31-99 | The protocol run that does the operations of a history one after the other, from any state, ends in the rows, counter and answers of the history and leaves other requests and files alone |
| `Histories.RunsRefine` | internal/payment/service.go:31-99 | So the protocol runs of serial fault-free histories from the initial state refine the one-phase-per-order machine, answer by answer |
| `Refinement.ServeRefines` | internal/payment/service.go:31-99 | One operation is one abstract step or a stutter, with the same answer, and keeps the coupling |
| `Refinement.StartsCoherent` | migrations/000004_create_payments.up.sql:1-11 | Empty tables with counter 0 are coupled to the empty machine |
| `Refinement.SecondCreateNotPayable` | internal/payment/service.go:40-42 | In a serial fault-free history a second Create for a charged order changes nothing and is answered "not payable" |
| `Duplicates.DuplicateIff` | internal/payment/service.go:40-64 | On any tables and under any faults a serial Create is answered "duplicate payment" if and only if its read and insert are fault-free, the user owns the order, the order is `pending` with a payment, and its amount is storable |
| `Duplicates.StepDuplicateIff` | internal/payment/repository.go:35-46 | In any interleaved run a step is answered "duplicate payment" if and only if it is a fault-free payment insert with a storable amount for an order that has a payment |
| `Duplicates.DuplicateMeansAnother` | internal/payment/repository.go:40-42 | The payment in the way was inserted by another request |
| `Duplicates.SerialDuplicateIff` | internal/payment/service.go:40-64 | In runs whose requests do not overlap, with any faults and crashes, the answer needs an order left `pending` with a payment |
| `Duplicates.HistoriesNeverDuplicate` | internal/payment/service.go:40-64 | No request of a serial fault-free history is answered "duplicate payment" |
| `Verdicts.FirstVerdictWins` | internal/payment/service.go:72-99 | Over any serial fault-free sequence of callbacks the first valid verdict for a reference decides payment and order; exactly the equal verdicts succeed, everything else gets an invalid transition, and nothing changes once a verdict stands |
| `Verdicts.DeliverIsFinal` | internal/payment/service.go:72-99 | The tables after any such sequence equal a closed form in which each row depends only on the callbacks for its own reference |
| `Verdicts.OrderAcrossReferencesIrrelevant` | internal/payment/repository.go:65-80 | Two callback sequences with the same subsequence for every reference end in the same tables |
| `Verdicts.CallbacksCommute` | internal/payment/repository.go:65-80 | Two callbacks for different references commute |
| `Healing.CreateSplitsIff` | internal/payment/service.go:62-68 | Create leaves a payment on a `pending` order if and only if its insert took effect and either the insert's answer or the order write was lost |
| `Healing.RetriesInert` | internal/payment/service.go:40-66 | Once an order has a payment, any number of retried Creates, with any faults, change no row |
| `Healing.FirstCallbackHeals` | internal/payment/service.go:72-98 | After such a split and any retries, the first fault-free valid callback succeeds and brings both rows to its verdict |
| `Healing.CallbackSplitsIff` | internal/payment/service.go:76-98 | A callback on a pending payment settles it and leaves its order out of step if and only if its read is clean, its payment write took effect, that write's answer or the order write was lost, and the order does not have the verdict's status already |
| `Healing.CallbackAgreesIff` | internal/payment/service.go:80-98 | A fault-free valid callback leaves the pair in agreement if and only if the payment was still pending or the pair already agreed |
| `Healing.NeverRepaired` | internal/payment/service.go:80-82 | An order that missed its update after its payment was settled keeps its status under every later callback sequence |
| `Healing.NothingRepairs` | internal/payment/service.go:40-98 | Once a payment is settled, no serial sequence of faulty callbacks, Creates, order creations, updates and deletions of other orders moves its order's status or the payment |
| `Integrity.DataValid` | migrations/000003_create_orders.up.sql:1-11 | Every reachable state satisfies the symbol, side, quantity and price rules at storage scale, the column constraints of all three tables, the foreign keys and the unique index |
| `Integrity.DeletionExact` | internal/order/repository.go:141-159 | Deletion succeeds exactly for the owner and removes the order, its payment and its uploads and nothing else |
| `Pricing.PriceProvenance` | internal/payment/service.go:44-62 | Every stored amount is the rounded product of quantity and price of one earlier payable version of the same order, the one that the request which inserted the payment had read |
| `Pricing.CurrentIff` | internal/order/repository.go:79-84 | At the end of any run an amount is its order's current rounded product if and only if the latest update that reached the order since that read, if any, rounds to the version read |
| `Pricing.BecomesStaleIff` | internal/order/repository.go:79-97 | A step makes a current amount stale if and only if it is an accepted update of that order to a product that rounds differently |
| `Pricing.InsertIsCurrentIff` | internal/payment/service.go:44-62 | A payment insert stores a current amount if and only if the order then rounds to the version that was read |
| `Provenance.SettledWasCalled` | internal/payment/service.go:72-88 | In every faulty interleaved run a settled payment was sent its verdict by an earlier callback with its reference |
| `Provenance.ClosedWasCalled` | internal/payment/service.go:91-97 | A `paid` or `payment_failed` order has a payment whose reference was sent that verdict |
| `Provenance.NoVerdictUnsigned` | internal/webhook/service.go:57-75 | In runs whose callbacks enter through the webhook gate, every settled payment and every closed order has a message with a valid hex MAC of its bytes that says so |
| `Pricing.PaymentImmutable` | internal/payment/repository.go:82-86 | No later order update, callback or failure changes a payment's order, reference or amount |
| `Safety.RunGrows` | internal/order/repository.go:79-159 | Along any run rows keep their owner and identity fields, and removed rows stay removed |
| `Drawing.ReferencesDistinct` | internal/payment/gateway.go:32-41 | In every run with at most 2^64 gateway calls the stored references are pairwise distinct, although no constraint says so |
| `Drawing.NthInjective` | internal/payment/gateway.go:34-39 | Two gateway calls get the same reference if and only if their numbers agree modulo 2^64 |
| `Numbering.ReferenceInjective` | internal/payment/gateway.go:39 | `PAY-%06d` is injective on all numbers, past six digits too |
| `Numbering.ValueOfPadded` | internal/payment/gateway.go:39 | A padded number of any width reads back as the number printed |
| `Numbering.ReferencePrints` | internal/payment/gateway.go:39 | A reference is "PAY-" and at least six decimal digits of the number, more only when six do not do |
| `Numbering.FirstReference` | internal/payment/gateway.go:32-41 | The first reference is PAY-000001 |
| `Gateway.NumbersIssuedOnce` | internal/payment/gateway.go:32-41 | Under every schedule of lock, load, store, read and unlock no two callers hold the same number, and when the lock is free the numbers handed out are exactly 1 to the counter |
| `Gateway.CallIsAtomicDraw` | internal/payment/gateway.go:33-36 | The shared counter moves only by whole draws and the caller that moved it reads exactly that number, which justifies the protocol's single draw step |
| `Gateway.MockGateway.CreatePayment` | internal/payment/gateway.go:32-41 | One call moves the counter by one modulo 2^64 and returns the reference of the new value |
| `Money.AmountWindow` | migrations/000004_create_payments.up.sql:6 | A product is storable as an amount if and only if 5*10^7 <= q*p < 10^32 - 5*10^7 in units of 10^-16 |
| `Money.RoundingError` | migrations/000004_create_payments.up.sql:6 | Storing an amount moves it by at most 5*10^-9 |
| `Money.TotalRoundingError` | migrations/000004_create_payments.up.sql:6 | The total of n stored amounts is within n*5*10^-9 of the exact total |
| `Money.QuantityWindow` | migrations/000003_create_orders.up.sql:6 | Exactly which exact decimals are stored as a valid positive quantity |
| `Money.StorageError` | migrations/000003_create_orders.up.sql:6-7 | Storage moves no decimal by more than half a unit and never turns its sign around |
| `Promises.PlacePromise` | internal/order/service.go:21-47 | A create is refused with the first rule it breaks, or fails on storage, or stores the order field by field as asked and changes no other row, under every fault |
| `Promises.ChangePromise` | internal/order/service.go:57-83 | The same for an update, which keeps user and status |
| `Promises.PayPromise` | internal/payment/service.go:31-70 | Every refusal of Create with its condition on the rows, the next gateway number, the stored payment's order, reference, status and amount within half a unit, the order's status and the answer, for every combination of faults |
| `Promises.CallbackPromise` | internal/payment/service.go:72-99 | Every answer of a callback with its condition on status text and row, and exactly which of the two rows are written, for every combination of faults |
| `Promises.GetPromise` | internal/payment/service.go:101-113 | Every answer of Get; a success shows the row's order, reference, status and amount |
| `Promises.CreateThenGet` | internal/payment/service.go:54-112 | What a fault-free Create answers, a fault-free Get by the owner shows, with the amount within half a unit of 10^-8 |
| `Promises.UploadPromise` | internal/upload/service.go:37-85 | Every answer of an upload with its condition, the file as far as it got, and a row with exactly the sent order, size, type, extension and day only beside the whole file |
| `Promises.StoredFrom` | migrations/000003_create_orders.up.sql:4-8 | Exactly which requests the orders table takes, with side, quantity and price windows as decimals, and what the row then holds |
| `Promises.DeleteAnswers` | internal/order/repository.go:146-158 | A deletion fails only as "not found", and only for a missing or foreign order |
| `Promises.ReadsShow` | internal/payment/repository.go:48-63 | Reads by identifier show the stored fields, orders and uploads to their owner only |
| `Requests.OrderIsLatest` | internal/order/repository.go:79-84 | At every point of every run each stored order has the user, symbol and side of the latest create or update that reached it, and its quantity and price within half a unit |
| `Requests.CreateArrives` | internal/order/service.go:21-47 | In the interleaved protocol a create leaves and answers what was promised and echoes the request |
| `Requests.UpdateArrives` | internal/order/service.go:57-83 | The same for an update, with the order's status |
| `Requests.OthersArrive` | internal/order/repository.go:47-62 | Reads of orders and uploads change nothing and show the row to its owner only; a deletion answers by ownership |
| `Store.Tables.CreateOrder` | internal/order/repository.go:31-45 | Under each fault: an insert the columns take leaves a pending row with the user, symbol and side asked for and quantity and price within half a unit, and no other row changed; any other leaves everything and is a driver error |
| `Store.Tables.UpdateOrder` | internal/order/repository.go:79-97 | Under each fault: the owner's row gets the symbol and side asked for and quantity and price within half a unit, keeps user and status, and no other row changes; the status is returned |
| `Store.Tables.MarkPendingPayment` | internal/order/repository.go:99-118 | The owner's order becomes `pending_payment` whatever its status; no row is "not found" |
| `Store.Tables.AdvanceStatus` | internal/order/repository.go:120-139 | The order gets the verdict's status whatever its status and owner; no row is "not found" |
| `Store.Tables.DeleteOrder` | internal/order/repository.go:141-159 | The owner's order goes with its payments and uploads; no row is "not found" |
| `Store.Tables.ProbeOrderIndex` | migrations/000004_create_payments.up.sql:3 | The probe of the unique index finds a payment of the order if and only if there is one |
| `Store.Tables.CreatePayment` | internal/payment/repository.go:29-46 | The insert's new tables and answer; a unique violation becomes "duplicate payment", any other refusal a driver error |
| `Store.Tables.GetByProviderReference` | internal/payment/repository.go:65-80 | Returns some row that carries the reference with its order, status and amount as stored, or "not found" if and only if none does |
| `Store.Tables.UpdatePaymentStatus` | internal/payment/repository.go:82-101 | The payment gets the verdict whatever its status; no row is "not found" |
| `Store.Tables.CreateUpload` | internal/upload/repository.go:26-40 | The insert's new tables and answer under the size and foreign key constraints |
| `Store.Tables.GetUploadByID` | internal/upload/repository.go:42-58 | Finds an upload if and only if its order belongs to the user |
| `Services.OrderService.Create` | internal/order/service.go:21-47 | A request is refused with the first rule it breaks and no change; else the order is stored pending, field by field as asked, or the columns refuse it |
| `Services.OrderService.Update` | internal/order/service.go:57-83 | The same rules; then the owner's order becomes as asked, field by field, in any status, with user and status kept |
| `Services.PaymentService.Create` | internal/payment/service.go:31-70 | The new tables, counter and answer are those of `Serial.Pay`, for every combination of faults, and as written out in `Promises.ChargesOrder`: each refusal, the stored payment's fields, the order's status, and the answer |
| `Services.PaymentService.ApplyProviderCallback` | internal/payment/service.go:72-99 | The new tables and answer are those of `Serial.Callback` for the row the lookup returned, and as written out in `Promises.AppliesVerdict` |
| `Services.PaymentService.Get` | internal/payment/service.go:101-113 | The owner is shown the payment's order, reference, status and amount as stored; a missing payment and a foreign order are "not found", a failing read is a driver error |
| `Webhook.CleanDelivery` | internal/webhook/service.go:57-75 | Without faults a delivery is answered "invalid signature" iff the signature is no case variant of the hex MAC, then "invalid request" iff the parse fails or the reference is empty, "invalid status" iff the status is neither "paid" nor "failed", "payment not found" iff no row carries the reference, "invalid transition" iff the row holds the other verdict, and success otherwise |
| `Webhook.OkMeansApplied` | internal/webhook/service.go:57-75 | Under any faults a success means that the payment found holds the sent verdict, and that a pending one had its own row and its order's row written and nothing else |
| `Webhook.DeliveryPromise` | internal/webhook/service.go:57-75 | The answer and the rows of every delivery, from signature, message and rows alone, under every fault |
| `Webhook.NibbleTable` | internal/webhook/service.go:29-32 | The hex digits are 0-9, a-f and A-F with their values |
| `Webhook.Gate` | internal/webhook/service.go:57-75 | A delivery changes a row only if its signature is a case variant of the hex MAC of exactly the received bytes, they parse to a verdict and the payment found is pending; without faults such a delivery does change it |
| `Webhook.AcceptedSignatures` | internal/webhook/service.go:25-40 | The signatures accepted for a payload are exactly the upper/lower-case variants of its hex MAC, all 64 characters long |
| `Webhook.SignedIsAccepted` | internal/webhook/service.go:25-40 | The hex encoding of the MAC itself is accepted |
| `Webhook.DecodeEncode` | internal/webhook/service.go:29-32 | Hex decoding inverts hex encoding for all byte strings |
| `Webhook.DecodesToIff` | internal/webhook/service.go:29-32 | A string decodes to given bytes if and only if it is a case variant of their encoding |
| `Webhook.Service.Process` | internal/webhook/service.go:57-75 | The rows and the answer of the delivery, written out in `Webhook.AnswersDelivery`: a bad signature, shape or status has its own error and changes nothing, else the callback's error or success is passed on |
| `Fidelity.UploadFidelity` | internal/upload/service.go:19-84 | In every run with faults each upload row points to a file that holds the complete bytes of the very request that stored the row, for that request's order and size; its type is the sniff of their first 512 bytes, type and extension are application/pdf with pdf, image/png with png or image/jpeg with jpg, and its size is within the limit |
| `Fidelity.FileNeverAltered` | internal/upload/storage.go:51-69 | Once a row refers to a file, no later step changes or removes the file, even when the row goes |
| `Uploading.ReadFull` | internal/upload/service.go:52-56 | Over a reader that returns any number of bytes at a time, fills the buffer with the next bytes or everything left |
| `Uploading.CopyRest` | internal/upload/storage.go:59 | The disk file is extended by a known number of bytes from the cursor on, by all of them on success; no other file changes |
| `Uploading.LocalStorage.Save` | internal/upload/storage.go:26-70 | Unsafe names and guarded paths are refused before anything is touched; else only the resolved file changes: complete on success, and otherwise absent, empty, partial or removed; it succeeds if reader and disk are healthy |
| `Uploading.Service.Sniff` | internal/upload/service.go:52-65 | Wherever the cursor stands: sniffs the next 512 bytes, answers one of the three types with its extension or rejects any other, and leaves the cursor at the start of the file |
| `Uploading.Service.Create` | internal/upload/service.go:37-85 | Wherever the cursor stands: the rows, files and answer are those of `Serial.Receive`, which `Promises.UploadPromise` writes out, with file faults only if reader or disk are unhealthy; a name storage refuses leaves everything untouched |
| `Uploading.ReceiveKeepsFaith` | internal/upload/service.go:37-85 | An upload's row appears only beside a complete file of the original bytes typed by the sniffed head, an error leaves a row only when the insert's answer was lost, and no other file or row changes |
| `Uploading.ReceiveAnswers` | internal/upload/service.go:19-85 | Without faults the answer is the first check failed in the source's order, "unsupported" exactly for a type other than the three, or the new row with the extension pdf, png or jpg of its type |
| `Paths.Containment` | internal/upload/storage.go:26-49 | For every accepted name other than ".", the guard passes if and only if the base is not the root, and the path is base/YYYY/MM/DD/name |
| `Paths.DayDirectory` | internal/upload/storage.go:31-37 | The relative path is the year in at least four digits, the month and the day in two, and the name, in that order |
| `Paths.CleanRules` | internal/upload/storage.go:39-46 | Lexical cleaning of absolute paths, rule by rule: empty and "." components stay, ".." goes up and stops at the root, any other goes down |
| `Paths.SafeFilenameIff` | internal/upload/storage.go:72-86 | The accepted names are exactly the non-empty ones without slash, backslash or ".."; the final cleaning check refuses nothing more, and only "." is accepted without being a proper component |
| `Paths.DotIsTheDayDirectory` | internal/upload/storage.go:32-37 | The accepted name "." would resolve to the day directory itself |
| `Paths.ResolveInjective` | internal/upload/storage.go:31-46 | Under one base two accepted (date, name) pairs resolve to the same path if and only if they are equal |
| `Paths.CleanIdempotent` | internal/upload/storage.go:39-46 | Lexical cleaning of an absolute path is idempotent and stays absolute |
| `Paths.AbsCleaned` | internal/upload/storage.go:39-46 | `Abs` always yields a rooted join of proper components |
| `Paths.GeneratedNameSafe` | internal/upload/service.go:67-69 | A generated name, UUID dot extension, is always accepted and never "." |
| `Paths.LocatedInjective` | internal/upload/service.go:67-69 | Distinct generated names or days give distinct real paths, so the protocol's file keys stand for real files |

## Left out

- HTTP routing, JSON envelopes, status codes, configuration, logging, Redis, authentication: plumbing around the service results; the user id is an input.
- Order listing, timestamps, and the constant provider and currency columns: they add no difficulty.
- SQL and drivers: each query is one atomic row effect; text the database itself refuses (NUL bytes, invalid UTF-8) is not separated from a driver fault.
- SHA-256, JSON parsing, content sniffing tables, upper-casing and UUID printing: uninterpreted functions; constant-time comparison is not modelled.
- Process restarts (the gateway counter would start again at 0), Windows path rules, symbolic links.
- Users are a fixed set; removing a user, which would cascade to orders, is not a step.
- The gateway never fails: it is the mock gateway, whose call always returns.
- Error wrapping: a wrapped error is its cause, and every database or file-system failure is one driver or storage error.
- Directory creation in `Save` is part of creating the file; its failure is a failed creation.
- In the interleaved protocol a path refused by the prefix guard shows as a storage fault, and an upload's cursor starts at its first byte; the guard itself is `Paths.Containment`, and `Uploading.Service.Create` takes any cursor.
- The declared upload size is checked against the limits as the code does, but is not tied to the number of bytes sent, because the code does not tie it either.
- A crash inside a serial operation appears there as a lost call or a lost reply on the rows; crashes as such are in the interleaved protocol.
- Isolation.Noninterference: excludes the leaky steps, because a fault or crash at the second read of a Get of a foreign payment does show that the payment exists; `Isolation.HiddenStepShowsIffLeaky` proves these to be the only such steps.
- Isolation.HiddenStepsInsertable: is stated for a rest of the run that the user sees. If a step of the user draws a number, the put-in steps must leave the counter as it was, because the user is told that number; runs in which the user draws different numbers end with different references and are not compared.
- Refinement.HistoryRefines: requires new identifiers and a gateway counter that does not wrap within the history.
