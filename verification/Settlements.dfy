/** Exactly when a delivery is acked, dropped or requeued, and what the attempt leaves behind. */
module Settlements {
  import opened Wrappers
  import opened Errors
  import opened GoText
  import opened GoTime
  import opened Documents
  import opened InvoiceStore
  import opened HumanFriendlyId
  import opened InvoiceConsumer
  import opened BrokerDrain
  import opened SampleMessages

  /** The settlement call told from the message, the faults and the sources alone. */
  ghost function ExactSettlement(cfg: Config, d: Delivery, a: Attempt): Settlement {
    if !Acceptable(cfg, d) || !Answering(a) then Drop
    else if !Storable(Decode(cfg, d).value) then Requeue
    else if !a.insertFault.NoFault? then if SaysAlreadyExists(a.insertFault) then Drop else Requeue
    else
      match a.publishFault
      case None => Ack
      case Some(e) => if Contains(e, ViolationTarget) then Drop else Requeue
  }

  /** The attempt stores an invoice, whatever becomes of it after. */
  predicate Stores(cfg: Config, d: Delivery, a: Attempt) {
    && Acceptable(cfg, d) && Answering(a) && Storable(Decode(cfg, d).value)
    && (a.insertFault.NoFault? || a.insertFault.UnexpectedId?)
  }

  lemma PublishErrorIsFault(cfg: Config, d: Delivery, a: Attempt, invoice: Invoice)
    requires Prepare(cfg, d, a) == Some(invoice)
    ensures PublishError(cfg, invoice, a.publishFault) ==
            match a.publishFault
            case None => None
            case Some(e) => Some(Wrap(AppPublish, "failed to publish paymentRequest", e))
  {
    hide Prepare, PaymentRequestChecks, BuildPaymentRequest;
    PreparedInvoiceChecks(cfg, d, a, invoice);
  }

  lemma PublishSettlement(cfg: Config, d: Delivery, a: Attempt, invoice: Invoice)
    requires Prepare(cfg, d, a) == Some(invoice) && a.publishFault.Some?
    ensures PublishError(cfg, invoice, a.publishFault).Some?
    ensures SettleFailedPublish(PublishError(cfg, invoice, a.publishFault).value)
            == if Contains(a.publishFault.value, ViolationTarget) then Drop else Requeue
  {
    hide Prepare, PublishError;
    PublishErrorIsFault(cfg, d, a, invoice);
    PublishDropsIffViolation(PublishError(cfg, invoice, a.publishFault).value, a.publishFault.value);
  }

  lemma InsertionOutcome(docs: seq<Invoice>, invoice: Invoice, fault: InsertFault)
    requires invoice.status == PENDING
    ensures var r := Insert(docs, invoice, fault);
            && (r.err.None? <==> InvoiceChecks(invoice).Pass() && fault.NoFault?)
            && r.docs == docs +
                 if InvoiceChecks(invoice).Pass() && (fault.NoFault? || fault.UnexpectedId?)
                 then [StoredInvoice(invoice)] else []
  {
    hide InvoiceChecks;
  }

  // ---------- What is stored and what goes out, told from the message ----------

  /** The document of a request: its fields, the number drawn, pending, the clock's time, instants cut. */
  function ExactDocument(r: CreateInvoiceRequest, number: string, now: Instant): Invoice
    requires Complete(r)
  {
    var b := r.booking.value;
    Invoice(
      number, "pending", Stored(AsTime(r.issuedAt)), Stored(AsTime(r.dueAt)),
      r.idempotencyKey, r.bookingId, r.payerId, r.payer.value,
      BookingSnapshot(b.cottageName, b.nights, b.numberOfGuests, b.valuePerNight.value),
      r.total.value, r.taxTotal.value, r.discountTotal.value, Stored(now), Stored(now))
  }

  /** The publication of a request: one way to pay, at the host, under the number drawn, to its payer. */
  function ExactPublication(host: string, r: CreateInvoiceRequest, number: string): Published
    requires Complete(r)
  {
    var b, payer := r.booking.value, r.payer.value;
    Published(
      PaymentRequest(
        number, Some(r.total.value),
        Some(NewTimestamp(AsTime(r.issuedAt))), Some(NewTimestamp(AsTime(r.dueAt))),
        Some(BookingSummary(b.cottageName, b.nights, b.numberOfGuests)), Some(PayerSummary(payer.name, payer.email)),
        [Some(PaymentOption(CreditCard, host + "/v1/payments/invoice/" + number,
                            "Please use the following url to pay for your booking"))]),
      "guest." + r.payerId)
  }

  lemma PreparedFromMessage(cfg: Config, d: Delivery, a: Attempt, invoice: Invoice)
    requires Prepare(cfg, d, a) == Some(invoice) && Acceptable(cfg, d) && Answering(a)
    ensures Generate("INV", a.id) == Success(invoice.invoiceNumber) && invoice.status == PENDING
    ensures StoredInvoice(invoice) == ExactDocument(Decode(cfg, d).value, invoice.invoiceNumber, a.clock.value)
  {
    hide RequestChecks, Generate;
  }

  lemma PublicationFromMessage(cfg: Config, d: Delivery, a: Attempt, invoice: Invoice)
    requires Prepare(cfg, d, a) == Some(invoice) && Acceptable(cfg, d) && Answering(a)
    ensures PublicationOf(cfg, invoice) == ExactPublication(cfg.host, Decode(cfg, d).value, invoice.invoiceNumber)
  {
    hide RequestChecks, Generate;
  }

  /** One attempt on one delivery is told in full. */
  ghost predicate IsExact(cfg: Config, docs: seq<Invoice>, d: Delivery, a: Attempt, r: Processed) {
    && r.settlement == ExactSettlement(cfg, d, a)
    && r.published == ExactlyPublished(cfg, d, a)
    && r.docs == docs + ExactlyStored(cfg, d, a)
  }

  /** The publication of an attempt that acks, none of any other. */
  ghost function ExactlyPublished(cfg: Config, d: Delivery, a: Attempt): seq<Published> {
    if ExactSettlement(cfg, d, a) != Ack then []
    else [ExactPublication(cfg.host, Decode(cfg, d).value, DrawnNumber(a))]
  }

  /** The document of an attempt that stores, none of any other. */
  function ExactlyStored(cfg: Config, d: Delivery, a: Attempt): seq<Invoice> {
    if !Stores(cfg, d, a) then [] else [ExactDocument(Decode(cfg, d).value, DrawnNumber(a), a.clock.value)]
  }

  /** The number of an attempt whose random sources answer, which `GeneratedNumberCarriesDraw` tells. */
  function DrawnNumber(a: Attempt): string {
    match Generate("INV", a.id)
    case Success(number) => number
    case Failure(_) => ""
  }

  lemma SaveAndPublishIsExact(cfg: Config, docs: seq<Invoice>, d: Delivery, a: Attempt, invoice: Invoice)
    requires Prepare(cfg, d, a) == Some(invoice) && Acceptable(cfg, d) && Answering(a)
    ensures IsExact(cfg, docs, d, a, SaveAndPublish(cfg, docs, invoice, a))
  {
    hide Prepare, Insert, InvoiceChecks, PaymentRequestChecks, PublicationOf, PublishError, Storable, Complete,
      Generate, ExactDocument, ExactPublication, StoredInvoice;
    PreparedInvoiceChecks(cfg, d, a, invoice);
    PreparedFromMessage(cfg, d, a, invoice);
    PublicationFromMessage(cfg, d, a, invoice);
    InsertionOutcome(docs, invoice, a.insertFault);
    PublishErrorIsFault(cfg, d, a, invoice);
    if Insert(docs, invoice, a.insertFault).err.Some? {
      InsertionSettlement(docs, invoice, a.insertFault);
    } else if a.publishFault.Some? {
      PublishSettlement(cfg, d, a, invoice);
    }
  }

  /**
   For every delivery and every attempt, the whole outcome: the settlement is the one told above; an
   attempt that acks publishes the one payment request of its message and no other attempt publishes
   anything; and the document of the message is stored exactly when the insertion is reached and the
   server takes it. In particular a fault-free attempt on an acceptable, storable message always acks,
   and an attempt whose clock or random source fails always drops it.
   */
  lemma SettlementIsExact(cfg: Config, docs: seq<Invoice>, d: Delivery, a: Attempt)
    ensures IsExact(cfg, docs, d, a, Process(cfg, docs, d, a))
  {
    hide Prepare, SaveAndPublish, ExactDocument, ExactPublication, Generate;
    PreparedIffAcceptable(cfg, d, a);
    if Prepare(cfg, d, a).Some? {
      SaveAndPublishIsExact(cfg, docs, d, a, Prepare(cfg, d, a).value);
    }
  }

  // ---------- The consume loop ----------

  /** The settlement calls of a list of attempts, each on its own delivery. */
  ghost function SettlementsOf(cfg: Config, ds: seq<Delivery>, atts: seq<Attempt>): seq<Settlement>
    requires |ds| == |atts|
  {
    if ds == [] then [] else [ExactSettlement(cfg, ds[0], atts[0])] + SettlementsOf(cfg, ds[1..], atts[1..])
  }

  ghost function PublishedBy(cfg: Config, ds: seq<Delivery>, atts: seq<Attempt>): seq<Published>
    requires |ds| == |atts|
  {
    if ds == [] then [] else ExactlyPublished(cfg, ds[0], atts[0]) + PublishedBy(cfg, ds[1..], atts[1..])
  }

  function StoredBy(cfg: Config, ds: seq<Delivery>, atts: seq<Attempt>): seq<Invoice>
    requires |ds| == |atts|
  {
    if ds == [] then [] else ExactlyStored(cfg, ds[0], atts[0]) + StoredBy(cfg, ds[1..], atts[1..])
  }

  /** Handling a list is handling its first delivery and then the others. */
  lemma {:induction false} LoopStartsWithFirst(
    cfg: Config, l: Ledger, ds: seq<Delivery>, atts: seq<Attempt>)
    requires |ds| == |atts| > 0
    ensures var r := Process(cfg, l.docs, ds[0], atts[0]);
            ProcessAll(cfg, l, ds, atts)
            == ProcessAll(cfg, Ledger(r.docs, l.published + r.published, l.settlements + [r.settlement]),
                          ds[1..], atts[1..])
    decreases |ds|
  {
    hide Process;
    var last := |ds| - 1;
    if last == 0 {
      assert ds[..last] == [] && ds[1..] == [];
    } else {
      LoopStartsWithFirst(cfg, l, ds[..last], atts[..last]);
      assert ds[..last][1..] == ds[1..][..last - 1] && atts[..last][1..] == atts[1..][..last - 1];
    }
  }

  /**
   The consume loop handles each delivery once, in order: the settlement calls, the publications and
   the stored documents are those of the first delivery, then of the second, and so on.
   */
  lemma {:induction false} LoopIsExact(cfg: Config, l: Ledger, ds: seq<Delivery>, atts: seq<Attempt>)
    requires |ds| == |atts|
    ensures ProcessAll(cfg, l, ds, atts)
            == Ledger(l.docs + StoredBy(cfg, ds, atts), l.published + PublishedBy(cfg, ds, atts),
                      l.settlements + SettlementsOf(cfg, ds, atts))
    decreases |ds|
  {
    hide Process, ExactSettlement, ExactlyPublished, ExactlyStored;
    if ds != [] {
      LoopStartsWithFirst(cfg, l, ds, atts);
      SettlementIsExact(cfg, l.docs, ds[0], atts[0]);
      var r := Process(cfg, l.docs, ds[0], atts[0]);
      LoopIsExact(cfg, Ledger(r.docs, l.published + r.published, l.settlements + [r.settlement]), ds[1..], atts[1..]);
    }
  }

  /** So the i-th settlement call is about the i-th delivery. */
  lemma {:induction false} EachDeliveryIsSettled(cfg: Config, ds: seq<Delivery>, atts: seq<Attempt>, i: nat)
    requires i < |ds| == |atts|
    ensures |SettlementsOf(cfg, ds, atts)| == |ds|
    ensures SettlementsOf(cfg, ds, atts)[i] == ExactSettlement(cfg, ds[i], atts[i])
    decreases |ds|
  {
    if |ds| > 1 {
      EachDeliveryIsSettled(cfg, ds[1..], atts[1..], if i == 0 then 0 else i - 1);
    }
  }

  // ---------- A message dropped although it is valid ----------

  /** Both decoders read every body as this request. */
  function Reading(r: CreateInvoiceRequest): Config {
    Config("http://host", _ => Success(r), _ => Success(r))
  }

  const SOME_DELIVERY := Delivery("", "")

  /** An attempt in which everything answers and nothing fails. */
  const GOOD_ATTEMPT := Attempt(
    Success(UNIX_EPOCH), Draw(Success(SOME_UUID), Success(SOME_BYTES), ""), NoFault, None)

  const ORDINARY := RequestDated(Timestamp(0, 0), Timestamp(1, 0))

  lemma ReadingDecodes(r: CreateInvoiceRequest)
    ensures Decode(Reading(r), SOME_DELIVERY) == Some(r)
  {
    assert NormalizedType("") == "";
  }

  /** The message is valid and would be acked, yet the attempt drops it when its clock or a random source fails. */
  lemma ValidMessageDroppedWhenSourceFails(docs: seq<Invoice>, e: Error)
    ensures Acceptable(Reading(ORDINARY), SOME_DELIVERY) && Storable(ORDINARY)
    ensures Process(Reading(ORDINARY), docs, SOME_DELIVERY, GOOD_ATTEMPT).settlement == Ack
    ensures Process(Reading(ORDINARY), docs, SOME_DELIVERY, GOOD_ATTEMPT.(clock := Failure(e))).settlement == Drop
    ensures var noUuid := GOOD_ATTEMPT.(id := GOOD_ATTEMPT.id.(uuid := Failure(e)));
            Process(Reading(ORDINARY), docs, SOME_DELIVERY, noUuid).settlement == Drop
  {
    hide Process;
    var cfg, d, a := Reading(ORDINARY), SOME_DELIVERY, GOOD_ATTEMPT;
    ReadingDecodes(ORDINARY);
    DatedRequestIsComplete(Timestamp(0, 0), Timestamp(1, 0));
    SettlementIsExact(cfg, docs, d, a);
    SettlementIsExact(cfg, docs, d, a.(clock := Failure(e)));
    SettlementIsExact(cfg, docs, d, a.(id := a.id.(uuid := Failure(e))));
  }

  // ---------- A declared format ----------

  /** A delivery declared protobuf and readable as such is acked whatever the JSON decoder makes of it. */
  lemma DeclaredProtobufAcks(cfg: Config, docs: seq<Invoice>, d: Delivery, a: Attempt, r: CreateInvoiceRequest)
    requires ToLower(TrimSpace(d.contentType)) == "application/protobuf" && cfg.protobuf(d.body) == Success(r)
    requires Complete(r) && Storable(r) && Answering(a) && a.insertFault.NoFault? && a.publishFault.None?
    ensures Process(cfg, docs, d, a).settlement == Ack
  {
    hide Process, Complete, Storable;
    DeclaredFormatDecodes(cfg, d);
    SettlementIsExact(cfg, docs, d, a);
  }

  /** The usual spelling of a type, in small letters with one slash or more, is such a declaration as it stands. */
  lemma SmallLettersDeclareThemselves(s: string)
    requires s != "" && forall c :: c in s ==> 'a' <= c <= 'z' || c == '/'
    ensures ToLower(TrimSpace(s)) == s
  {
    assert forall i :: 0 <= i < |s| ==> s[i] in s;
    AsciiTypeIsFolded(s);
  }

  lemma ProtobufDeclaresItself()
    ensures ToLower(TrimSpace("application/protobuf")) == "application/protobuf"
  {
    SmallLettersDeclareThemselves("application/protobuf");
  }
}
