# Payment simulator: a verified model

The payment simulator turns booking messages from a RabbitMQ queue into invoices and payment
requests, takes card payments over gRPC/HTTP, and reissues payment requests. Its difficulty lies in
steps that interleave over one MongoDB store with no unique index, under a broker that redelivers.
This project models that behaviour in Dafny and proves what holds of it.

## What is modelled

- **Card payment** (`PaymentProtocol`). Any number of `PayWithCard` calls, each a thread that
  advances one operation at a time: validate, read the clock, load, decide, write `paid`, respond,
  and then in the background store the receipt, load again, publish the confirmation. What the
  environment answers (clock, random draws, faults, death of the thread) is a parameter of each
  step, and deliveries keep inserting invoices meanwhile. `PaymentSafety`, `PaymentRuns`,
  `PaymentOverlap`, `PaymentLedger`, `PaymentCompletion`, `PaymentAnswers` and `PaymentArrival` prove invariants and
  theorems about whole runs; `PaymentWitnesses` gives concrete runs, on the messages of
  `SampleMessages`, in which a promise without its condition fails; `PaymentService` is the service object, whose methods are shown to be exactly the protocol's steps.
- **The invoice consumer** (`InvoiceConsumer`, `Settlements`, `BrokerProtocol`, `BrokerDrain`,
  `BrokerOutcomes`, `PoisonRun`, `PaymentLinks`). The service object
  with its loop over deliveries, and the same attempts cut into single effects against a broker
  that puts requeued, lost and crashed attempts back anywhere in its queue.
- **Both over one store** (`EndToEnd`): calls and consumer interleave on one invoices collection, and
  each side is shown to be a run of its own protocol.
- **Reissue** (`Reissue`), which reads the store that payments and deliveries write.
- **Stores** (`InvoiceStore`, `ReceiptStore`). A collection is a sequence of documents; finds and
  updates take the first match in insertion order; storing cuts instants to milliseconds (UTC
  datetime element of the BSON specification, version 1.1).
- **Messages and documents** (`Documents`), the **validator** (`Validation`), **error trees**
  (`Errors`), **time** (`GoTime`), **strings** (`GoText`: sequences of bytes, one `char` a byte, with
  `strings.TrimSpace` over UTF-8 and `strings.EqualFold`), and **human-friendly numbers and the
  payment link** (`HumanFriendlyId`).
- **The broker connection** (`ConnectionProtocol`, `RabbitMq`). The mutex-protected reconnect as a
  state machine over any users and connection deaths, and the two Go objects, whose methods are
  shown to be runs of it.

Numbers are unbounded integers; instants are nanoseconds since the zero instant
0001-01-01T00:00:00Z. What the source takes from outside (decoders, clock, random bytes, UUIDs,
object ids, the outcome of each driver call) are parameters.

## What the proofs found

- "One successful payment per invoice" is false: `OneInvoicePaidTwice` is a run, from an empty
  store, in which two calls pay one invoice, and `UnpaidInvoiceCanBePaidTwice` continues any run
  whatever to two payments of any stored unpaid invoice. What holds is `SuccessfulPayersOverlap`:
  everyone who ever pays an invoice was between load and write at the moment of the first payment.
  `SecondPaymentIffOverlap` is the exact condition: after a payment another call can still pay the
  invoice if and only if at that moment it was between load and write, on a clock reading other than
  the zero instant.
- An accepted request whose `issuedAt` or `dueAt` is the zero instant makes an invoice the store
  refuses, always with an error that is requeued. `AcceptedRequestsPassLaterChecks` shows that these
  are the only accepted requests that any later check refuses, and `PoisonNeverSettles` that, while
  clock and random source answer, such a message is neither acked nor dropped, however long the
  consumer runs. `PoisonRunsForEver` is a fault-free run of any length in which one goes round.
  Without such messages the consumer drains (`ConsumerDrains`).
- A request passes validation with a card number shorter than four bytes, with blank last four bytes
  or with a blank brand, yet then its invoice is paid and neither receipt nor confirmation follow:
  `CompletesIffConfirmable` gives the exact condition, `ArrivalComesOut` the outcome of every payment
  from its arrival, and `ShortCardIsPaidWithoutReceipt` a run with a three-byte card number.
- A reissued payment request equals the one built from the invoice when it was handed to the store
  exactly when the invoice's two dates are whole milliseconds (`ReissueAgreesWithOriginal`);
  `FineDateIsCutInReissue` is a run in which it differs.
- The repository's README names invalid payloads as the deliveries that are dropped. The code drops
  more: `ValidMessageDroppedWhenSourceFails` is a valid message dropped because the clock or the UUID
  source failed. `SettlementIsExact` tells for every delivery and every attempt whether it is acked,
  dropped or requeued. Over whole runs a message that holds a complete request is never dropped as
  long as those sources answer and no fault reads as already-exists or as a violation
  (`AcceptableIsNeverDropped`); then a drained queue has acked exactly the complete requests and
  dropped exactly the rest (`DrainedAcksExactlyTheAcceptable`).
- That README expects protobuf bodies only; the code also accepts JSON, and bodies of an undeclared
  format (`DeclaredFormatDecodes`), and the model follows the code.

## Model

| member | source | states |
|---|---|---|
| `PaymentRuns.SuccessfulPayersOverlap` | internal/app/payment_making_service.go:91-117 | In any run, just before any successful write of `paid` on an invoice, that payer and every later successful payer of it have loaded it unpaid and not yet written, and they are different calls |
| `PaymentRuns.AtMostOnePaymentWithoutOverlap` | internal/app/payment_making_service.go:91-117 | If no two calls are ever between load and write on an invoice at once, at most one write of `paid` on it succeeds in the whole run (`SecondPaymentIffOverlap` is the other half) |
| `PaymentOverlap.SecondPaymentIffOverlap` | internal/app/payment_making_service.go:91-117 | After call c has paid an invoice, call d pays it later in some continuation of that run if and only if d is another call that, just before c's write, had loaded the invoice unpaid and not yet written, on a clock reading other than the zero instant |
| `PaymentOverlap.UnpaidInvoiceCanBePaidTwice` | internal/app/payment_making_service.go:91-117 | Any run whose store holds an unpaid invoice can be continued so that two calls of any acceptable request for it both write `paid` on it |
| `PaymentWitnesses.OneInvoicePaidTwice` | internal/app/payment_making_service.go:91-117 | A run from an empty store with one invoice and two successful payments of it |
| `PaymentRuns.PaymentTakesEffect` | internal/app/payment_making_service.go:107-117 | After a successful write the invoice of that number is paid, it was not paid when the run began, and the writer had loaded it unpaid |
| `PaymentRuns.LoadAfterPaymentIsRefused` | internal/app/payment_making_service.go:91-100 | A call whose load follows a successful write on the invoice changes no collection from its load on; its next step ends it, and unless its thread is killed it is answered FailedPrecondition |
| `PaymentRuns.TurnedAwayForGood` | internal/app/payment_making_service.go:97-100 | From the moment a call sees a paid invoice, all its further steps leave invoices, receipts and confirmations alone, the next one ends it, and it is answered FailedPrecondition unless its thread is killed first |
| `PaymentSafety.NextGrows` | internal/infra/db/invoice_repository.go:87-130 | No step of any call or delivery removes or reorders a document, changes a field other than status and update time, or turns paid back; statuses stay within pending and paid |
| `PaymentSafety.RunGrows` | internal/infra/db/invoice_repository.go:87-130 | The same between any two states of any run |
| `PaymentSafety.EveryStateGood` | internal/app/payment_making_service.go:107-146 | In every reachable state every call that wrote has its invoice stored and paid, every response, SUCCEEDED or FAILED, names the requested invoice and the card's brand and last four bytes, FAILED ones come only from calls that never wrote and SUCCEEDED ones only from calls that did, stored receipts match responses, and every confirmation is backed |
| `PaymentSafety.ConfirmationsStayBacked` | internal/app/payment_making_service.go:230-272 | Every confirmation ever sent has, in that and all later states, a receipt of the same receipt and invoice numbers, a paid invoice, and the booking, payer and routing key that invoice was created with |
| `PaymentSafety.PublishEffect` | internal/app/payment_making_service.go:253-270 | A publish that fails sends nothing; one that succeeds sends exactly the confirmation with the drawn id, the invoice's booking, payer and number, the response's receipt number and the clock reading, under `booking.<id>.confirmation` |
| `PaymentSafety.BackedStable` | internal/app/payment_making_service.go:253-264 | A backed confirmation stays backed under any growth of the collections |
| `PaymentProtocol.NotFoundIffInvoiceMissing` | internal/app/payment_making_service.go:151-163 | A store error is answered NotFound exactly when a missing-invoice error is anywhere in its tree, else Internal |
| `PaymentAnswers.ResponsesCarryTheirDraw` | internal/app/payment_making_service.go:165-192 | In every reachable state every response, SUCCEEDED or FAILED, was given in one of the call's own steps and carries what was drawn in that step: receipt number RCPT, that date and those six digits, and the processing time read then |
| `PaymentAnswers.ValidationAnswer` | internal/app/payment_making_service.go:69-79 | A call goes on exactly when validation passes, else it is answered InvalidArgument |
| `PaymentAnswers.ClockAnswer` | internal/app/payment_making_service.go:81-86 | A call goes on with the clock's reading, or is answered Internal |
| `PaymentAnswers.LoadAnswer` | internal/app/payment_making_service.go:88-96 | A call goes on with the first document of its number; a missing one, or a store fault with a missing invoice in its tree, is answered NotFound, any other fault Internal |
| `PaymentAnswers.DrawAnswer` | internal/app/payment_making_service.go:97-105 | FailedPrecondition for a paid invoice; on with a draw not below the fail chance; else a FAILED response on this step's draw, Unknown if it cannot be drawn, no answer for a card number under four bytes |
| `PaymentAnswers.WriteAnswer` | internal/app/payment_making_service.go:107-117 | The write takes effect, or is answered Internal for a zero-instant clock reading, NotFound for a missing invoice, and NotFound or Internal for a fault by what its tree contains |
| `PaymentAnswers.ResponseAnswer` | internal/app/payment_making_service.go:119-124 | After the write: a SUCCEEDED response on this step's draw, Internal if it cannot be drawn, no answer for a card number under four bytes |
| `PaymentLedger.CallLedger` | internal/app/payment_making_service.go:107-146 | In any run, what the steps of one call have written (writes of `paid`, receipts, confirmations) is at most one of each, and where the call stands says which |
| `PaymentLedger.PaymentsAreConserved` | internal/app/payment_making_service.go:111-146 | Per invoice number and in every reachable state: successful writes = calls before their receipt + calls ended without one + receipts the service stored; those receipts = calls before their confirmation + calls ended without one + confirmations sent |
| `PaymentLedger.UnwrittenCallChangedNothing` | internal/app/payment_making_service.go:69-117 | A call that has not written `paid` has changed nothing with any of its steps |
| `PaymentLedger.FailedResponseChangedNothing` | internal/app/payment_making_service.go:102-105 | A call answered with status FAILED has left invoices, receipts and confirmations alone throughout |
| `PaymentCompletion.CompletesIffConfirmable` | internal/app/payment_making_service.go:111-146 | An admitted call with five fault-free steps, under any interleaving, ends confirmed if and only if the card number has four bytes, last four and brand not blank; then one of its own steps has appended the receipt of its response (numbers, card, time) and a later one the confirmation (same numbers, the clock reading); else it stays paid without receipt |
| `PaymentCompletion.CompletionAddsOneOfEach` | internal/app/payment_making_service.go:111-146 | Such a call has written `paid` once and has added exactly one receipt and one confirmation, or neither |
| `PaymentArrival.ArrivalComesOut` | internal/app/payment_making_service.go:61-146 | A call that arrives and takes nine steps without a fault, under any interleaving: InvalidArgument for a request that fails validation; else the invoice it loads decides: NotFound, FailedPrecondition, or the draw: an unlucky one is answered FAILED about the requested invoice and card (not at all for a number under four bytes), after a lucky one the invoice is paid and the call confirmed if and only if confirmable. A call that does not pay has changed nothing |
| `PaymentWitnesses.ShortCardIsPaidWithoutReceipt` | internal/app/payment_making_service.go:165-194 | From an empty store and with no fault, a three-byte card number passes validation and its call pays without receipt or confirmation; with a four-byte one it leaves one of each |
| `Documents.PayRequestPassesIff` | internal/app/payment_making_service.go:69-79 | Validation of a payment passes exactly when the card is present and six of its and the request's fields are filled; brand and length of the number do not matter |
| `Documents.ReceiptMadeIff` | internal/domain/document/receipt.go:24-46 | A receipt is made exactly of responses with numbers, brand, last four and time, and repeats them |
| `Documents.ReceiptPassesIff` | internal/infra/db/receipt_repository.go:49-57 | What the store asks of a receipt, and all of it |
| `PaymentCompletion.HealthyReceipt` | internal/domain/document/receipt.go:24-46 | With no fault, the receipt constructor and the receipt store together accept exactly the confirmable requests |
| `PaymentCompletion.WriteRecordsClockTime` | internal/infra/db/invoice_repository.go:122-130 | A successful write leaves the clock reading, cut to milliseconds, as the invoice's update time, and the call keeps that reading for its confirmation |
| `PaymentService.PaymentMakingService.PayWithCard` | internal/app/payment_making_service.go:61-149 | The method's reply and its effect on both collections and the exchange are those of `Pay`, on every path; every response names the requested invoice and card and carries the receipt number and time drawn in the step that gave it |
| `PaymentService.PaymentMakingService.SaveReceipt` | internal/app/payment_making_service.go:196-228 | The method has the effect of the protocol's receipt step, returns no error exactly when that step goes on, and otherwise the constructor's error or the store's, wrapped by what its tree contains |
| `PaymentService.PaymentMakingService.SendConfirmationMessage` | internal/app/payment_making_service.go:230-272 | Reload and publish with the effect of the protocol's steps, no error exactly when the confirmation is sent, and otherwise the load's or the publisher's error, wrapped by what its tree contains |
| `PaymentService.PaymentMakingService.PostPaymentWork` | internal/app/payment_making_service.go:126-146 | The background work confirms only after the receipt is stored; its effect is that of `FollowUp` |
| `PaymentService.BackgroundErrorsAreClassified` | internal/app/payment_making_service.go:209-250 | Each error of the background work wraps its cause as the kind that the cause's whole tree decides |
| `PaymentService.PayIsSixSteps` | internal/app/payment_making_service.go:61-124 | `Pay` is the first six steps of a call of the protocol that nothing interrupts, so the run theorems speak about the method |
| `PaymentService.FollowUpIsThreeSteps` | internal/app/payment_making_service.go:126-146 | The background work is the remaining three steps |
| `Reissue.ReissueOutcomes` | internal/app/payment_reissue_service.go:40-78 | Reissue answers from the first document of that booking and payer document, and which of InvalidArgument, NotFound, Internal, FailedPrecondition or a request it gives is told for every input |
| `Reissue.ReissueAgreesWithOriginal` | internal/app/payment_reissue_service.go:55-77 | Whatever payments and deliveries happened, a reissued request is field for field the one of the invoice as created, if and only if its dates are whole milliseconds |
| `Reissue.StoredRequestAgrees` | internal/app/payment_request_mapper.go:11-38 | A payment request built from the stored document equals the one built before storing exactly when both dates are whole milliseconds, whatever status and update time have become |
| `Reissue.ReissueAfterPaymentIsRefused` | internal/app/payment_reissue_service.go:70-73 | Once the invoice a reissue would answer from is paid, every reissue whose load does not fail is refused with FailedPrecondition in all later states |
| `PaymentWitnesses.FineDateIsCutInReissue` | internal/app/payment_reissue_service.go:55-77 | A run from an empty store in which an invoice issued a nanosecond past the epoch is reissued with another date |
| `InvoiceConsumer.UnmarshalRequest` | internal/app/invoice_service.go:127-157 | Succeeds exactly when the delivery decodes, with that request; every failure is a corrupted-data error |
| `InvoiceConsumer.DeclaredFormatDecodes` | internal/app/invoice_service.go:127-157 | A body whose trimmed, lower-cased type is application/protobuf is read by the protobuf decoder alone, application/json by the JSON decoder alone, any other by protobuf if that succeeds and else by JSON |
| `Settlements.DeclaredProtobufAcks` | internal/app/invoice_service.go:131-143 | A fault-free attempt on a delivery declared protobuf, whose protobuf reading is complete and storable, acks whatever the JSON decoder says |
| `InvoiceConsumer.GenerationOutcome` | internal/app/invoice_service.go:159-185 | Generating succeeds exactly for a complete request with answering sources, fails as unexpected with a source, as corrupted data with the request |
| `InvoiceConsumer.SaveDropsIffAlreadyExists` | internal/app/invoice_service.go:98-109 | A failed save is dropped exactly when the repository's error tree, of any depth, holds an already-exists error; otherwise it is requeued |
| `InvoiceConsumer.PublishDropsIffViolation` | internal/app/invoice_service.go:112-122 | A failed publish is dropped exactly when its error tree holds a validation error; wrapping as a publish error keeps that |
| `InvoiceConsumer.InsertionSettlement` | internal/infra/db/invoice_repository.go:66-106 | Of all the repository's insertion can report, exactly a duplicate key, or a driver error whose tree holds an already-exists error, leads to a drop; a document refused by its checks is requeued |
| `InvoiceConsumer.InvoiceService.ValidatePaymentRequest` | internal/app/invoice_service.go:238-277 | The validator grown in the loop over options gives the verdict of the specified check list |
| `InvoiceConsumer.InvoiceService.GenerateInvoiceDoc` | internal/app/invoice_service.go:159-185 | Clock, number generator and document constructor in order, each failure with its own wrapped error |
| `InvoiceConsumer.InvoiceService.SaveInvoice` | internal/app/invoice_service.go:187-205 | The collection after the insertion, and the service's classification of its error |
| `InvoiceConsumer.InvoiceService.PublishPaymentRequest` | internal/app/invoice_service.go:207-230 | Publishes the request built from the invoice exactly when it passes its checks and the broker takes it |
| `InvoiceConsumer.InvoiceService.ProcessInvoiceDelivery` | internal/app/invoice_service.go:77-125 | Store, published requests and settlement after an attempt; exactly one settlement call on every path |
| `InvoiceConsumer.InvoiceService.StartInvoiceProcessing` | internal/app/invoice_service.go:60-75 | The loop is the attempts one after the other, whatever errors they return |
| `Settlements.SettlementIsExact` | internal/app/invoice_service.go:77-125 | For every delivery, attempt and store, the whole outcome. Dropped if it does not decode, is not complete, or clock or random source fails; else requeued if it has a zero-instant date; else an insertion fault drops it if it says already-exists and requeues it otherwise; else a publish fault drops it if it holds a violation and requeues it otherwise; else acked. An acked attempt publishes exactly the one payment request of its message, under `guest.` and the payer id, with the link at the host under the number drawn; no other publishes. The document stored, if one is, is told field for field from the message |
| `Settlements.LoopIsExact` | internal/app/invoice_service.go:60-75 | The consume loop's settlement calls, publications and stored documents are those of the first delivery, then of the second, and so on, each delivery once |
| `Settlements.EachDeliveryIsSettled` | internal/app/invoice_service.go:67-74 | The i-th settlement call of the loop is the exact one of the i-th delivery and attempt |
| `Settlements.ValidMessageDroppedWhenSourceFails` | internal/app/invoice_service.go:91-96 | A concrete complete and storable message that a fault-free attempt acks, and that is dropped when the clock or the UUID source fails |
| `BrokerOutcomes.AcceptableIsNeverDropped` | internal/app/invoice_service.go:84-122 | In every run in which clock and random sources answer and no fault says already-exists or holds a violation, whatever else fails, crashes or is redelivered, a complete request is never dropped |
| `BrokerOutcomes.AckedIsAcceptable` | internal/app/invoice_service.go:84-124 | In every run only messages that decode to a complete request are acked |
| `BrokerOutcomes.DrainedAcksExactlyTheAcceptable` | internal/app/invoice_service.go:67-125 | When the consumer has drained in such a run, each complete request is acked once and each other message is dropped once |
| `EndToEnd.SidesAreRuns` | internal/infra/db/invoice_repository.go:66-140 | Calls and consumer interleaved on one collection: the payments side is a run of the payment protocol, the consumer side a run of the consumer's, and both see the same store in every state |
| `EndToEnd.ConfirmationNamesItsMessage` | internal/app/payment_making_service.go:253-264 | In every reachable state of the whole, a confirmation names a paid stored invoice, and if that was not there to begin with, the confirmation's booking, payer and routing key are those of the request in the message it was stored for |
| `InvoiceConsumer.PreparedIffAcceptable` | internal/app/invoice_service.go:84-96 | An attempt gets as far as saving exactly when the delivery decodes to a complete request and clock and random sources answer |
| `InvoiceConsumer.OneSettlementPerDelivery` | internal/app/invoice_service.go:67-74 | A list of deliveries adds exactly as many settlement calls as it has deliveries, and withdraws none |
| `BrokerProtocol.EveryMessageAccounted` | internal/app/invoice_service.go:60-125 | In every reachable state each message is in exactly one of ready, in work, acked, dropped; its published requests are its acks, lost acks and the ack under way; its stored invoices are its published requests, its attempts that failed after saving and the one under way |
| `BrokerProtocol.AtMostOneRequestPerMessage` | internal/app/invoice_service.go:112-124 | While no ack of it is lost, a message yields at most one payment request, and one exactly if it is acked or its ack is under way |
| `BrokerProtocol.AttemptIsThreeEffects` | internal/app/invoice_service.go:77-125 | Three uninterrupted effects of the broker model are one attempt of the service: same invoices, same published request, same settlement |
| `BrokerDrain.EveryStateSound` | internal/app/invoice_service.go:84-124 | In every reachable state the invoice in work and every published request were made from their own message |
| `BrokerDrain.PublishedRepeatsItsMessage` | internal/app/payment_request_mapper.go:11-38 | In every run, every publication repeats the amount, dates, booking and payer of its own message, goes out under `guest.` and that message's payer id, and links to the pay path under the host and its own number, provided that the message's timestamps have nanoseconds in range |
| `PaymentLinks.PublishedLinkLeadsToStoredInvoice` | internal/app/payment_request_mapper.go:29-35 | In every reachable state each published payment request has one link, which matches the pay route and captures the request's number, and that number denotes a stored invoice |
| `BrokerDrain.PreparedInvoiceChecks` | internal/infra/db/invoice_repository.go:66-85 | The store accepts an invoice made from a message unless the message is poison (a zero-instant date), and its payment request always passes validation |
| `BrokerDrain.StepsAreBounded` | internal/app/invoice_service.go:67-125 | The termination measure: without poison, in every run the potential left plus the steps taken is at most five per message plus five per fault |
| `BrokerDrain.ConsumerDrains` | internal/app/invoice_service.go:67-125 | Without poison the consumer takes at most five steps per message and five per fault; until it has drained some step is possible, and when it has, each message was acked or dropped exactly once |
| `BrokerDrain.PoisonNeverSettles` | internal/app/invoice_service.go:98-110 | While clock and random source answer, a poison message is never acked or dropped, so the consumer never drains |
| `PoisonRun.PoisonRunsForEver` | internal/app/invoice_service.go:98-110 | For a message issued at the zero instant, runs of any length without a fault in which the consumer takes, refuses and requeues it round after round |
| `PoisonRun.PoisonStaysUnsettled` | internal/app/invoice_service.go:98-110 | In every run in which clock and random source answer, a poison message is in neither the acked nor the dropped ones |
| `PoisonRun.ZeroDatedNeverSettles` | internal/infra/db/invoice_repository.go:76-77 | A concrete message, issued at the zero instant, is neither acked nor dropped in any run in which clock and random source answer, and the queue never drains |
| `BrokerDrain.PoisonIsRequeued` | internal/infra/db/invoice_repository.go:76-78 | Every attempt to save the invoice of a poison message leaves the store alone and ends in a requeue |
| `Documents.AcceptedIffComplete` | internal/domain/document/invoice.go:67-110 | A request is accepted if and only if it is present and complete: texts not blank, sub-messages present, amounts and counts positive, dates in order |
| `Documents.InvoiceKeepsWholeRequest` | internal/domain/document/invoice.go:112-149 | The whole request can be read back from its invoice exactly when its timestamps are normalized; the invoice starts pending with both times the clock's |
| `Documents.PaymentRequestSaysWhatWasRequested` | internal/app/payment_request_mapper.go:11-38 | For timestamps with nanoseconds in range, the payment request repeats the original message's total, dates, booking and payer under the invoice's number, with one card option whose link is that of the number |
| `Documents.AcceptedRequestsPassLaterChecks` | internal/app/invoice_service.go:238-277 | The three validators agree: of accepted requests the store refuses exactly those with a zero-instant date, and the payment request is never refused |
| `Documents.InvoicePassesIff` | internal/infra/db/invoice_repository.go:66-79 | What the store asks of an invoice, and all of it |
| `Documents.PaymentRequestPassesIff` | internal/app/invoice_service.go:238-277 | What must hold of a payment request, with any number of options, for it to be published, and all of it |
| `InvoiceStore.FirstMatch` | internal/infra/db/invoice_repository.go:142-154 | The index found satisfies the filter and no earlier document does |
| `InvoiceStore.LoadYieldsThatInvoice` | internal/infra/db/invoice_repository.go:30-43 | A load by number succeeds exactly for a non-blank stored number without fault, and yields the first document of that number |
| `InvoiceStore.FailedLoadSaysWhy` | internal/infra/db/invoice_repository.go:30-43 | A failed load is a violation for a blank number, corrupted data for a fault of the driver, and else invoice-not-found, with its cause |
| `InvoiceStore.InvoiceRepository.Add` | internal/infra/db/invoice_repository.go:66-106 | The collection and the error after an insertion, for every outcome of checks and driver |
| `InvoiceStore.InvoiceRepository.UpdateStatus` | internal/infra/db/invoice_repository.go:108-140 | The collection and the error after a status update, for every outcome |
| `InvoiceStore.InsertEvolves` | internal/infra/db/invoice_repository.go:87-105 | An insertion keeps all documents in place and keeps statuses in range |
| `InvoiceStore.StoredFieldForField` | internal/infra/db/invoice_repository.go:87-88 | A stored document is the invoice field for field, its four instants cut to milliseconds |
| `InvoiceStore.StatusUpdateOutcome` | internal/infra/db/invoice_repository.go:108-140 | For every status, number, time and fault: what the update changes, and of which kind its error is |
| `InvoiceStore.PayingEvolves` | internal/infra/db/invoice_repository.go:122-130 | A write of `paid` changes no document but in status and update time and never unpays one |
| `InvoiceStore.PayingMarksThatInvoice` | internal/infra/db/invoice_repository.go:108-140 | A write of `paid` takes effect exactly when it reports no error, and then on the first document of that number alone |
| `InvoiceStore.NumberIsStable` | internal/infra/db/invoice_repository.go:35-37 | A number that denotes an invoice denotes that same document for ever, and once paid stays paid |
| `ReceiptStore.ReceiptRepository.Add` | internal/infra/db/receipt_repository.go:49-78 | The collection and the error after inserting a receipt, for every outcome |
| `ReceiptStore.ReceiptInsertionOutcome` | internal/infra/db/receipt_repository.go:49-78 | For every receipt and fault: the document added field for field or none, and the kind and cause of the error |
| `Validation.Checks.Verdict` | internal/app/validation/validator.go:15-22 | No error exactly when every step passes |
| `Validation.Validator.Validate` | internal/app/validation/validator.go:15-22 | The loop returns the verdict of the steps |
| `Validation.ValidateJoinsFailuresInOrder` | internal/app/validation/validator.go:15-22 | No error exactly when nothing fails; otherwise a left-nested join tree over exactly the failing steps' errors in order, which a depth-first search meets in that order |
| `Validation.AsFindsFirstViolation` | internal/domain/errors/validationErrors/validation_errors.go:5-12 | What `errors.As` extracts from a failed validation is the violation of the first failing step |
| `Validation.FailingCheckNamesItsField` | internal/app/validation/basic_validation.go:10-81 | A check that fails adds exactly one violation, of its own field and with its own message, after those before it |
| `Validation.Checks.NotBlank` | internal/app/validation/basic_validation.go:10-18 | With this check appended, a list passes exactly when it passed before and the text is not blank |
| `Validation.Checks.NotZeroValue` | internal/app/validation/basic_validation.go:20-28 | Likewise for values other than the zero value of their kind |
| `Validation.Checks.PositiveValue` | internal/app/validation/basic_validation.go:30-58 | Likewise for positive numbers of any numeric kind; other kinds never pass |
| `Validation.Checks.NotNil` | internal/app/validation/basic_validation.go:60-81 | Likewise for values other than nil |
| `Validation.Checks.ValidPrecedence` | internal/app/validation/app_validation.go:9-18 | Likewise for a start strictly before its end |
| `Validation.Validator.NotBlank` | internal/app/validation/basic_validation.go:10-18 | The object's list of steps grows by that check |
| `Validation.Validator.NotZeroValue` | internal/app/validation/basic_validation.go:20-28 | The object's list of steps grows by that check |
| `Validation.Validator.PositiveValue` | internal/app/validation/basic_validation.go:30-58 | The object's list of steps grows by that check |
| `Validation.Validator.NotNil` | internal/app/validation/basic_validation.go:60-81 | The object's list of steps grows by that check |
| `Validation.Validator.ValidPrecedence` | internal/app/validation/app_validation.go:9-18 | The object's list of steps grows by that check |
| `Errors.AsFindsIffPresent` | internal/domain/errors/appErrors/app_errors.go:7-80 | A search succeeds exactly when some node of the tree, however deep, has the wanted type, and it returns such a node |
| `Errors.ClassificationSurvivesWrapping` | internal/domain/errors/dbErrors/db_errors.go:7-66 | Any number of wrapping layers of other types leaves what the search finds unchanged |
| `GoTime.TimestampRoundTrip` | internal/app/payment_request_mapper.go:18-19 | An instant survives the way through a timestamp; a timestamp survives the way through an instant exactly when its nanoseconds are in range |
| `GoTime.TimestampOrigins` | internal/domain/document/invoice.go:106-106 | A nil timestamp reads as the epoch, which lies 62135596800 seconds after the zero instant |
| `GoText.TrimmedEmptyIffBlank` | internal/app/validation/basic_validation.go:12-12 | Trimming leaves nothing of a string exactly when it is white space from beginning to end |
| `GoText.TrimSpaceParts` | internal/app/validation/basic_validation.go:12-12 | Trimming takes white space off both ends, all of it and nothing else |
| `GoText.IsSpaceIffWhiteSpace` | internal/app/validation/basic_validation.go:12-12 | The white space recognised is exactly the UTF-8 encodings of the 25 characters with Unicode's White_Space property |
| `GoText.EqualFoldIffSameLetters` | internal/app/payment_making_service.go:97-97 | Texts are equal up to case exactly when they are letter by letter |
| `GoText.ToLowerOfAscii` | internal/app/invoice_service.go:129-129 | Lower-casing folds ASCII text byte by byte, and turns a dotted capital I after it into an ASCII i |
| `GoTime.StoredKeepsExactlyWholeMillis` | internal/infra/db/invoice_repository.go:87-88 | Storing is idempotent, keeps an instant exactly when it is a whole number of milliseconds, and otherwise gives the last whole millisecond before it |
| `HumanFriendlyId.GenerateHumanFriendlyId` | internal/app/util/util.go:15-34 | The buffer filled index by index gives the specified suffix; each random source's failure is reported |
| `HumanFriendlyId.DashesLeaveThirtyTwoDigits` | internal/app/util/util.go:21-21 | Every UUID without its dashes is its five groups in order, 32 lower-case hexadecimal digits, so indexing modulo their number is defined |
| `HumanFriendlyId.GeneratedIdShape` | internal/app/util/util.go:28-33 | Every generated number is prefix, date and six lower-case hexadecimal digits, joined by dashes |
| `HumanFriendlyId.GeneratedNumberCarriesDraw` | internal/app/util/util.go:15-34 | The generator fails only with its sources; its number is prefix, the draw's date and six digits, at each place the digit of the UUID that this place's random byte selects; no other number carries the draw |
| `HumanFriendlyId.PaymentLinkRoundTrip` | api/proto/paymentSimulator/payment/service/paymentMakingService.proto:9-16 | The path of the link built for any generated number, on any host without a path, matches the pay route and not the reissue route, and captures that very number |
| `ConnectionProtocol.ConnectionSafety` | internal/infra/mq/rabbitmq_connection.go:59-119 | Under any interleaving of users and connection deaths: at most one dialled connection is open, none once closed, and no opening dials more than five times |
| `ConnectionProtocol.ClosedForGood` | internal/infra/mq/rabbitmq_connection.go:59-77 | After `Close` no dial ever happens again and no connection is open |
| `ConnectionProtocol.OpenConnectionIsReused` | internal/infra/mq/rabbitmq_connection.go:79-81 | Opening while a connection is open returns that one without dialling |
| `ConnectionProtocol.OpenedIsProtocolRun` | internal/infra/mq/rabbitmq_connection.go:71-119 | The specification of the methods is a run of the state machine: one opening by one user and its dials |
| `ConnectionProtocol.OpeningInNumbers` | internal/infra/mq/rabbitmq_connection.go:71-119 | Refused when closed, reuse when live, else dials up to the first success of five, which is returned and open; five failures fail the opening and change nothing but the count |
| `RabbitMq.RabbitMqConnection.ReconnectLocked` | internal/infra/mq/rabbitmq_connection.go:90-119 | At most five dials, stopping at the first success, which becomes the connection; else the last error; none when closed |
| `RabbitMq.RabbitMqConnection.OpenConnection` | internal/infra/mq/rabbitmq_connection.go:71-88 | Effect and result for every state: refused when closed, reuse when open, else reconnect; after five failed dials the wrapped error of the last |
| `RabbitMq.OpeningFailsWith` | internal/infra/mq/rabbitmq_connection.go:71-119 | Opening fails exactly when closed or when no connection is live and all five dials fail; with the refusal, or the wrapped error of the fifth |
| `RabbitMq.RabbitMqConnection.Close` | internal/infra/mq/rabbitmq_connection.go:59-69 | Sets the flag for good, leaves no connection open, and reports what closing an open connection reports |
| `RabbitMq.RunsAreMeanwhile` | internal/infra/mq/rabbitmq_connection.go:59-119 | What the rest of the process can do to the connection between a user's two operations covers every stretch of every run |
| `RabbitMq.RabbitMqChannel.OpenChannel` | internal/infra/mq/rabbitmq_channel.go:27-53 | Returned error, connection state, attempts and dials for every course of events, including other users between its operations; failure leaves the channel field as it was |
| `RabbitMq.RabbitMqChannel.ReopenChannel` | internal/infra/mq/rabbitmq_channel.go:55-64 | The same connection state, attempts, dials and channel field, with the error wrapped as an unexpected one |
| `RabbitMq.OpenChannelBounds` | internal/infra/mq/rabbitmq_channel.go:27-53 | At most two channel attempts and ten dials; a second attempt only after the first connection was found closed; success gives a channel of the last connection obtained, which is open; once closed nothing is tried |
| `RabbitMq.DeadConnectionIsRetried` | internal/infra/mq/rabbitmq_channel.go:27-53 | For every course of events, when a second opening and attempt are made and what the result is: exactly when the first connection was obtained, failed its attempt and is found dead |
| `RabbitMq.RetrySucceeds` | internal/infra/mq/rabbitmq_channel.go:35-52 | After a dead first connection, with the manager open, a second-round dial getting through, its connection alive and no refusal, the channel is opened on that connection |

## Left out

- Protobuf and JSON decoding: each decoder is an arbitrary partial function of the body.
- MongoDB and RabbitMQ drivers: an operation that fails has no effect, except an insertion that reports an unexpected id type; an update applied by the server but reported as failed is not modelled.
- Undecodable stored documents: they can only surface as the corrupted-data error, which is one of the faults a load may report.
- Object ids of invoices and receipts beyond an arbitrary number; `GetById` of the receipt repository and `NotNilObjectID`, which only it uses.
- Integer widths: amounts, counts and instants are unbounded; overflow of timestamps and BSON datetimes some hundred million years away is not modelled.
- The calendar: the date in a number is a given text of digits with an optional sign.
- Uniqueness of numbers, deduplication by idempotency key, one payment per invoice under concurrent calls, and total = nights times price: the code enforces none of them.
- Error message texts beyond those that the classification needs.
- Sleeping between dials, exchange and queue declaration, prefetch, `IsConnectionOpen`, `CloseChannel`, and the publisher's unsynchronised use of its channel: a publish is one step that may fail.
- Constructors' nil checks and the check that the fail chance is not negative, start-up, configuration, telemetry, logging, HTTP server and probes.
- Cancellation: a timeout or a cancelled context is a fault of the operation or the death of the thread.
- PaymentService.PaymentMakingService.PayWithCard: states one call running alone; calls that interleave are the subject of the protocol, whose single steps it is shown to take. The part from the write on is a method of its own (`Charge`).
- InvoiceConsumer.InvoiceService.ProcessInvoiceDelivery: states one attempt running alone; crashes between its effects are the subject of `BrokerProtocol`. Its second half is a method of its own (`SettleInvoice`), as are the two halves of the payment request's validation.
- BrokerDrain.ConsumerDrains: assumes that after a crash or a lost connection something starts the consumer again; in the code the loop ends when the delivery channel closes and nothing in the process restarts it. Runs without such steps need no restart.
- Validation.Checks.NotZeroValue: lets a nil interface pass, on which the code's reflection panics; no caller passes one.
- BrokerProtocol.AtMostOneRequestPerMessage: does not cover a message with a lost ack, for which the broker redelivers and the service publishes again; `EveryMessageAccounted` counts those requests.
- RabbitMq.RabbitMqConnection.Meanwhile: stands for the rest of the process and is no method of the source.
