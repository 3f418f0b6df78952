/**
 The messages the service receives and sends and the documents it stores, with the functions that
 turn one into another. A message field holding a sub-message may be nil; a getter on a nil message
 reads the field's zero value.
 */
module Documents {
  import opened Wrappers
  import opened Errors
  import opened GoText
  import opened GoTime
  import V = Validation

  // ---------- Values shared by messages and documents ----------

  datatype Money = Money(amount: int, currency: string)

  datatype Payer = Payer(name: string, email: string, documentNumber: string, billingAddress: string)

  const NO_MONEY := Money(0, "")
  const NO_PAYER := Payer("", "", "", "")

  // ---------- Creating an invoice ----------

  datatype BookingMessage = BookingMessage(
    cottageName: string, nights: int, numberOfGuests: int, valuePerNight: Option<Money>)

  const NO_BOOKING := BookingMessage("", 0, 0, None)

  datatype CreateInvoiceRequest = CreateInvoiceRequest(
    idempotencyKey: string, bookingId: string, payerId: string,
    issuedAt: Option<Timestamp>, dueAt: Option<Timestamp>,
    payer: Option<Payer>, booking: Option<BookingMessage>,
    total: Option<Money>, taxTotal: Option<Money>, discountTotal: Option<Money>)

  datatype BookingSnapshot = BookingSnapshot(
    cottageName: string, nights: int, numberOfGuests: int, valuePerNight: Money)

  datatype Invoice = Invoice(
    invoiceNumber: string, status: string,
    issuedAt: Instant, dueAt: Instant,
    idempotencyId: string, bookingId: string, payerId: string,
    payer: Payer, booking: BookingSnapshot,
    total: Money, taxTotal: Money, discountTotal: Money,
    createdAt: Instant, updatedAt: Instant)

  const PENDING := "pending"
  const PAID := "paid"

  predicate IsValidInvoiceStatus(status: string) {
    status == PENDING || status == PAID
  }

  function RequestChecks(r: CreateInvoiceRequest): V.Checks {
    var payer := r.payer.GetOr(NO_PAYER);
    var booking := r.booking.GetOr(NO_BOOKING);
    var valuePerNight := booking.valuePerNight;
    V.New()
      .NotBlank("invoiceProto.idempotency_key", r.idempotencyKey)
      .NotBlank("invoiceProto.booking_id", r.bookingId)
      .NotBlank("invoiceProto.payer_id", r.payerId)
      .NotNil("invoiceProto.issuedAt", V.Ref(r.issuedAt))
      .NotNil("invoiceProto.dueAt", V.Ref(r.dueAt))
      .NotNil("invoiceProto.payer", V.Ref(r.payer))
      .NotNil("invoiceProto.booking", V.Ref(r.booking))
      .NotNil("invoiceProto.total", V.Ref(r.total))
      .NotNil("invoiceProto.tax_total", V.Ref(r.taxTotal))
      .NotNil("invoiceProto.discount_total", V.Ref(r.discountTotal))
      .NotNil("invoiceProto.booking.value_per_night", V.Ref(valuePerNight))
      .NotBlank("invoiceProto.payer.name", payer.name)
      .NotBlank("invoiceProto.payer.email", payer.email)
      .NotBlank("invoiceProto.payer.document_number", payer.documentNumber)
      .NotBlank("invoiceProto.payer.billing_address", payer.billingAddress)
      .NotBlank("invoiceProto.booking.cottage_name", booking.cottageName)
      .PositiveValue("invoiceProto.booking.nights", V.Signed(booking.nights))
      .PositiveValue("invoiceProto.booking.number_of_guests", V.Signed(booking.numberOfGuests))
      .PositiveValue("invoiceProto.booking.value_per_night.amount", V.Signed(valuePerNight.GetOr(NO_MONEY).amount))
      .NotBlank("invoiceProto.booking.value_per_night.currency", valuePerNight.GetOr(NO_MONEY).currency)
      .PositiveValue("invoiceProto.total.amount", V.Signed(r.total.GetOr(NO_MONEY).amount))
      .NotBlank("invoiceProto.total.currency", r.total.GetOr(NO_MONEY).currency)
      .NotBlank("invoiceProto.tax_total.currency", r.taxTotal.GetOr(NO_MONEY).currency)
      .NotBlank("invoiceProto.discount_total.currency", r.discountTotal.GetOr(NO_MONEY).currency)
      .ValidPrecedence(AsTime(r.issuedAt), AsTime(r.dueAt))
  }

  function NewInvoiceFromProtoMessage(
    proto: Option<CreateInvoiceRequest>, invoiceNumber: string, now: Instant): Result<Invoice, Error>
  {
    var nilCheck := V.New().NotNil("invoiceProto", V.Ref(proto)).Verdict();
    if nilCheck.Some? then Failure(nilCheck.value)
    else
      var r := proto.value;
      var verdict := RequestChecks(r).Verdict();
      if verdict.Some? then Failure(verdict.value)
      else
        var payer := r.payer.GetOr(NO_PAYER);
        var booking := r.booking.GetOr(NO_BOOKING);
        var valuePerNight := booking.valuePerNight.GetOr(NO_MONEY);
        var total := r.total.GetOr(NO_MONEY);
        var taxTotal := r.taxTotal.GetOr(NO_MONEY);
        var discountTotal := r.discountTotal.GetOr(NO_MONEY);
        Success(Invoice(
          invoiceNumber, PENDING,
          AsTime(r.issuedAt), AsTime(r.dueAt),
          r.idempotencyKey, r.bookingId, r.payerId,
          Payer(payer.name, payer.email, payer.documentNumber, payer.billingAddress),
          BookingSnapshot(booking.cottageName, booking.nights, booking.numberOfGuests,
                          Money(valuePerNight.amount, valuePerNight.currency)),
          Money(total.amount, total.currency),
          Money(taxTotal.amount, taxTotal.currency),
          Money(discountTotal.amount, discountTotal.currency),
          now, now))
  }

  /** The checks an invoice must pass to be inserted. */
  function InvoiceChecks(i: Invoice): V.Checks {
    V.New()
      .NotBlank("invoice.invoice_number", i.invoiceNumber)
      .NotBlank("invoice.status", i.status)
      .NotBlank("invoice.idempotency_id", i.idempotencyId)
      .NotBlank("invoice.booking_id", i.bookingId)
      .NotBlank("invoice.payer_id", i.payerId)
      .NotBlank("invoice.payer.document_number", i.payer.documentNumber)
      .PositiveValue("invoice.total.amount", V.Signed(i.total.amount))
      .NotBlank("invoice.total.currency", i.total.currency)
      .NotZeroValue("invoice.issued_at", V.Instant(i.issuedAt))
      .NotZeroValue("invoice.due_at", V.Instant(i.dueAt))
  }

  /** What the store asks of an invoice, and all that it asks. */
  lemma InvoicePassesIff(i: Invoice)
    ensures InvoiceChecks(i).Pass() <==>
              && !IsBlank(i.invoiceNumber) && !IsBlank(i.status) && !IsBlank(i.idempotencyId)
              && !IsBlank(i.bookingId) && !IsBlank(i.payerId) && !IsBlank(i.payer.documentNumber)
              && i.total.amount > 0 && !IsBlank(i.total.currency)
              && i.issuedAt != ZERO_INSTANT && i.dueAt != ZERO_INSTANT
  {
  }

  // ---------- Asking for payment ----------

  datatype PaymentMethod = Unspecified | CreditCard {
    function Number(): int { if Unspecified? then 0 else 1 }
  }

  datatype PaymentOption = PaymentOption(method_: PaymentMethod, paymentUrl: string, instructions: string)

  datatype BookingSummary = BookingSummary(cottageName: string, nights: int, numberOfGuests: int)

  datatype PayerSummary = PayerSummary(name: string, email: string)

  datatype PaymentRequest = PaymentRequest(
    invoiceNumber: string, total: Option<Money>,
    issuedAt: Option<Timestamp>, expiresAt: Option<Timestamp>,
    booking: Option<BookingSummary>, payer: Option<PayerSummary>,
    options: seq<Option<PaymentOption>>)

  const NO_OPTION := PaymentOption(Unspecified, "", "")

  const INSTRUCTIONS := "Please use the following url to pay for your booking"

  const PAY_PATH := "/v1/payments/invoice/"

  function PaymentUrl(host: string, invoiceNumber: string): string {
    host + PAY_PATH + invoiceNumber
  }

  function BuildPaymentRequest(invoice: Invoice, host: string): PaymentRequest {
    PaymentRequest(
      invoice.invoiceNumber,
      Some(Money(invoice.total.amount, invoice.total.currency)),
      Some(NewTimestamp(invoice.issuedAt)),
      Some(NewTimestamp(invoice.dueAt)),
      Some(BookingSummary(invoice.booking.cottageName, invoice.booking.nights, invoice.booking.numberOfGuests)),
      Some(PayerSummary(invoice.payer.name, invoice.payer.email)),
      [Some(PaymentOption(CreditCard, PaymentUrl(host, invoice.invoiceNumber),
                          INSTRUCTIONS))])
  }

  function OptionChecks(base: V.Checks, options: seq<Option<PaymentOption>>): V.Checks {
    if options == [] then base
    else
      var last := |options| - 1;
      var option := options[last].GetOr(NO_OPTION);
      var field := OptionField(last);
      OptionChecks(base, options[..last])
        .NotNil(field, V.Ref(options[last]))
        .PositiveValue(field + ".method", V.Signed(option.method_.Number()))
        .NotBlank(field + ".payment_url", option.paymentUrl)
        .NotBlank(field + ".instructions", option.instructions)
  }

  function Decimal(n: nat): string {
    if n < 10 then [n as char + '0'] else Decimal(n / 10) + [(n % 10) as char + '0']
  }

  function OptionField(idx: nat): string {
    "options[" + Decimal(idx) + "]"
  }

  function PaymentRequestBaseChecks(p: PaymentRequest): V.Checks {
    var total := p.total.GetOr(NO_MONEY);
    var booking := p.booking.GetOr(BookingSummary("", 0, 0));
    var payer := p.payer.GetOr(PayerSummary("", ""));
    V.New()
      .NotNil("paymentRequest", V.Reference(false))
      .NotBlank("invoice_number", p.invoiceNumber)
      .NotNil("total", V.Ref(p.total))
      .PositiveValue("total.amount", V.Signed(total.amount))
      .NotBlank("total.currency", total.currency)
      .NotNil("issued_at", V.Ref(p.issuedAt))
      .NotNil("expires_at", V.Ref(p.expiresAt))
      .NotNil("booking", V.Ref(p.booking))
      .NotBlank("booking.cottage_name", booking.cottageName)
      .PositiveValue("booking.nights", V.Signed(booking.nights))
      .PositiveValue("booking.number_of_guests", V.Signed(booking.numberOfGuests))
      .NotNil("payer", V.Ref(p.payer))
      .NotBlank("payer.name", payer.name)
      .NotBlank("payer.email", payer.email)
      .PositiveValue("options", V.Signed(|p.options|))
  }

  function PaymentRequestChecks(p: PaymentRequest): V.Checks {
    var withOptions := OptionChecks(PaymentRequestBaseChecks(p), p.options);
    if p.issuedAt.Some? && p.expiresAt.Some?
    then withOptions.ValidPrecedence(AsTime(p.issuedAt), AsTime(p.expiresAt))
    else withOptions
  }

  /** An option that the guest can follow. */
  predicate UsableOption(o: Option<PaymentOption>) {
    o.Some? && o.value.method_ == CreditCard && !IsBlank(o.value.paymentUrl) && !IsBlank(o.value.instructions)
  }

  lemma {:induction false} OptionsPassIff(base: V.Checks, options: seq<Option<PaymentOption>>)
    ensures OptionChecks(base, options).Pass()
            <==> base.Pass() && forall k :: 0 <= k < |options| ==> UsableOption(options[k])
  {
    if options != [] {
      var last := |options| - 1;
      OptionsPassIff(base, options[..last]);
      assert forall k :: 0 <= k < last ==> options[..last][k] == options[k];
    }
  }

  lemma BasePassesIff(p: PaymentRequest)
    ensures PaymentRequestBaseChecks(p).Pass() <==>
              && !IsBlank(p.invoiceNumber)
              && p.total.Some? && p.total.value.amount > 0 && !IsBlank(p.total.value.currency)
              && p.issuedAt.Some? && p.expiresAt.Some?
              && p.booking.Some? && !IsBlank(p.booking.value.cottageName)
              && p.booking.value.nights > 0 && p.booking.value.numberOfGuests > 0
              && p.payer.Some? && !IsBlank(p.payer.value.name) && !IsBlank(p.payer.value.email)
              && p.options != []
  {
  }

  /** What must hold of a payment request, of however many options, before it is published, and all of it. */
  lemma PaymentRequestPassesIff(p: PaymentRequest)
    ensures PaymentRequestChecks(p).Pass() <==>
              && !IsBlank(p.invoiceNumber)
              && p.total.Some? && p.total.value.amount > 0 && !IsBlank(p.total.value.currency)
              && p.issuedAt.Some? && p.expiresAt.Some? && AsTime(p.issuedAt) < AsTime(p.expiresAt)
              && p.booking.Some? && !IsBlank(p.booking.value.cottageName)
              && p.booking.value.nights > 0 && p.booking.value.numberOfGuests > 0
              && p.payer.Some? && !IsBlank(p.payer.value.name) && !IsBlank(p.payer.value.email)
              && p.options != [] && forall k :: 0 <= k < |p.options| ==> UsableOption(p.options[k])
  {
    hide PaymentRequestBaseChecks, OptionChecks;
    BasePassesIff(p);
    OptionsPassIff(PaymentRequestBaseChecks(p), p.options);
  }

  // ---------- Paying ----------

  datatype Card = Card(brand: string, number: string, expMonth: nat, expYear: nat, cvv: string, holderName: string)

  const NO_CARD := Card("", "", 0, 0, "", "")

  datatype PayWithCardRequest = PayWithCardRequest(card: Option<Card>, invoiceNumber: string)

  datatype PaymentStatus = Succeeded | Failed

  datatype CardSummary = CardSummary(brand: string, last4: string)

  datatype PayWithCardResponse = PayWithCardResponse(
    receiptNumber: string, invoiceNumber: string, status: PaymentStatus,
    card: Option<CardSummary>, processedAt: Option<Timestamp>)

  datatype Receipt = Receipt(
    id: nat, receiptNumber: string, invoiceNumber: string, card: CardSummary, processedAt: Instant)

  datatype PaymentConfirmation = PaymentConfirmation(
    id: string, bookingId: string, payerId: string,
    invoiceNumber: string, receiptNumber: string, confirmedAt: Option<Timestamp>)

  function PayRequestChecks(req: PayWithCardRequest): V.Checks {
    var card := req.card.GetOr(NO_CARD);
    V.New()
      .NotBlank("invoice_number", req.invoiceNumber)
      .NotBlank("card.number", card.number)
      .NotZeroValue("card.exp_month", V.Unsigned(card.expMonth))
      .NotZeroValue("card.exp_year", V.Unsigned(card.expYear))
      .NotBlank("card.cvv", card.cvv)
      .NotBlank("card.holder_name", card.holderName)
  }

  /** What validation asks of a payment, and all that it asks: nothing of the brand, nothing of the number's length. */
  lemma PayRequestPassesIff(req: PayWithCardRequest)
    ensures PayRequestChecks(req).Pass() <==>
              && !IsBlank(req.invoiceNumber) && req.card.Some?
              && !IsBlank(req.card.value.number) && !IsBlank(req.card.value.cvv) && !IsBlank(req.card.value.holderName)
              && req.card.value.expMonth != 0 && req.card.value.expYear != 0
  {
  }

  /** The receipt of a response; `id` is the object id drawn for it. */
  function NewReceiptFromProtMessage(resp: PayWithCardResponse, id: nat): Result<Receipt, Error> {
    var card := resp.card.GetOr(CardSummary("", ""));
    var verdict :=
      V.New()
      .NotBlank("receiptNumber", resp.receiptNumber)
      .NotBlank("invoiceNumber", resp.invoiceNumber)
      .NotNil("cardSummary", V.Ref(resp.card))
      .NotBlank("cardSummary.brand", card.brand)
      .NotBlank("cardSummary.last4", card.last4)
      .NotNil("processedAt", V.Ref(resp.processedAt))
      .Verdict();
    if verdict.Some? then Failure(verdict.value)
    else Success(Receipt(id, resp.receiptNumber, resp.invoiceNumber, CardSummary(card.brand, card.last4),
                         AsTime(resp.processedAt)))
  }

  /** The checks a receipt must pass to be inserted. */
  function ReceiptChecks(r: Receipt): V.Checks {
    V.New()
      .NotBlank("receipt.receipt_number", r.receiptNumber)
      .NotBlank("receipt.invoice_number", r.invoiceNumber)
      .NotBlank("receipt.card.brand", r.card.brand)
      .NotBlank("receipt.card.last4", r.card.last4)
      .NotZeroValue("receipt.processed_at", V.Instant(r.processedAt))
  }

  /** A receipt is made of exactly the responses that say everything, and repeats them. */
  lemma ReceiptMadeIff(resp: PayWithCardResponse, id: nat)
    ensures NewReceiptFromProtMessage(resp, id).Success? <==>
              && !IsBlank(resp.receiptNumber) && !IsBlank(resp.invoiceNumber)
              && resp.card.Some? && !IsBlank(resp.card.value.brand) && !IsBlank(resp.card.value.last4)
              && resp.processedAt.Some?
    ensures NewReceiptFromProtMessage(resp, id).Success? ==>
              NewReceiptFromProtMessage(resp, id).value
              == Receipt(id, resp.receiptNumber, resp.invoiceNumber, resp.card.value, AsTime(resp.processedAt))
  {
  }

  /** What the store asks of a receipt, and all that it asks. */
  lemma ReceiptPassesIff(r: Receipt)
    ensures ReceiptChecks(r).Pass() <==>
              && !IsBlank(r.receiptNumber) && !IsBlank(r.invoiceNumber)
              && !IsBlank(r.card.brand) && !IsBlank(r.card.last4) && r.processedAt != ZERO_INSTANT
  {
  }

  // ---------- What the conversions keep ----------

  /** The request an invoice answers, read back from the invoice. */
  function RequestOf(i: Invoice): CreateInvoiceRequest {
    CreateInvoiceRequest(
      i.idempotencyId, i.bookingId, i.payerId,
      Some(NewTimestamp(i.issuedAt)), Some(NewTimestamp(i.dueAt)),
      Some(i.payer),
      Some(BookingMessage(i.booking.cottageName, i.booking.nights, i.booking.numberOfGuests,
                          Some(i.booking.valuePerNight))),
      Some(i.total), Some(i.taxTotal), Some(i.discountTotal))
  }

  /** A request whose timestamps, where present, have nanoseconds in range. */
  predicate NormalizedRequest(r: CreateInvoiceRequest) {
    && (r.issuedAt.Some? ==> Normalized(r.issuedAt.value))
    && (r.dueAt.Some? ==> Normalized(r.dueAt.value))
  }

  /** What an acceptable request amounts to. */
  predicate Complete(r: CreateInvoiceRequest) {
    && !IsBlank(r.idempotencyKey) && !IsBlank(r.bookingId) && !IsBlank(r.payerId)
    && r.issuedAt.Some? && r.dueAt.Some? && AsTime(r.issuedAt) < AsTime(r.dueAt)
    && r.payer.Some? && r.booking.Some? && r.booking.value.valuePerNight.Some?
    && r.total.Some? && r.taxTotal.Some? && r.discountTotal.Some?
    && !IsBlank(r.payer.value.name) && !IsBlank(r.payer.value.email)
    && !IsBlank(r.payer.value.documentNumber) && !IsBlank(r.payer.value.billingAddress)
    && !IsBlank(r.booking.value.cottageName)
    && r.booking.value.nights > 0 && r.booking.value.numberOfGuests > 0
    && r.booking.value.valuePerNight.value.amount > 0 && !IsBlank(r.booking.value.valuePerNight.value.currency)
    && r.total.value.amount > 0 && !IsBlank(r.total.value.currency)
    && !IsBlank(r.taxTotal.value.currency) && !IsBlank(r.discountTotal.value.currency)
  }

  lemma AcceptedIffComplete(proto: Option<CreateInvoiceRequest>, number: string, now: Instant)
    ensures NewInvoiceFromProtoMessage(proto, number, now).Success? <==> proto.Some? && Complete(proto.value)
  {
    if proto.Some? {
      assert RequestChecks(proto.value).Pass() <==> Complete(proto.value);
    }
  }

  /**
   An accepted request is complete and in order, and nothing of it is lost in the invoice: the
   whole request can be read back. The invoice starts out pending and unmodified.
   */
  lemma InvoiceKeepsWholeRequest(r: CreateInvoiceRequest, number: string, now: Instant)
    requires NewInvoiceFromProtoMessage(Some(r), number, now).Success?
    ensures var i := NewInvoiceFromProtoMessage(Some(r), number, now).value;
            && (RequestOf(i) == r <==> NormalizedRequest(r))
            && i.invoiceNumber == number && i.status == PENDING
            && i.createdAt == i.updatedAt == now && i.issuedAt < i.dueAt
  {
    hide RequestChecks;
    AcceptedIffComplete(Some(r), number, now);
    TimestampRoundTrip(0, r.issuedAt.value);
    TimestampRoundTrip(0, r.dueAt.value);
  }

  /**
   The payment request says of the booking what the original request said: amounts, dates,
   guests, payer, under the invoice's number and with a link that names it.
   */
  lemma PaymentRequestSaysWhatWasRequested(r: CreateInvoiceRequest, number: string, now: Instant, host: string)
    requires NewInvoiceFromProtoMessage(Some(r), number, now).Success? && NormalizedRequest(r)
    ensures var p := BuildPaymentRequest(NewInvoiceFromProtoMessage(Some(r), number, now).value, host);
            && p.invoiceNumber == number
            && p.total == r.total
            && p.issuedAt == r.issuedAt && p.expiresAt == r.dueAt
            && p.booking.Some? && r.booking.Some?
            && p.booking.value.cottageName == r.booking.value.cottageName
            && p.booking.value.nights == r.booking.value.nights
            && p.booking.value.numberOfGuests == r.booking.value.numberOfGuests
            && p.payer.Some? && r.payer.Some?
            && p.payer.value.name == r.payer.value.name
            && p.payer.value.email == r.payer.value.email
            && |p.options| == 1 && p.options[0].Some? && p.options[0].value.method_ == CreditCard
            && p.options[0].value.paymentUrl == host + "/v1/payments/invoice/" + number
            && p.options[0].value.instructions == "Please use the following url to pay for your booking"
  {
    AcceptedIffComplete(Some(r), number, now);
    InvoiceKeepsWholeRequest(r, number, now);
  }

  /** No instant the store would take for a missing one. */
  predicate Storable(r: CreateInvoiceRequest) {
    AsTime(r.issuedAt) != ZERO_INSTANT && AsTime(r.dueAt) != ZERO_INSTANT
  }

  /**
   The three validators agree: an invoice made from an accepted request is refused by the store
   exactly when one of its two dates is the zero instant, and its payment request is never refused.
   */
  lemma AcceptedRequestsPassLaterChecks(
    r: CreateInvoiceRequest, number: string, now: Instant, host: string)
    requires NewInvoiceFromProtoMessage(Some(r), number, now).Success?
    requires !IsBlank(number) && !IsBlank(PaymentUrl(host, number))
    ensures var i := NewInvoiceFromProtoMessage(Some(r), number, now).value;
            && (InvoiceChecks(i).Pass() <==> Storable(r))
            && PaymentRequestChecks(BuildPaymentRequest(i, host)).Pass()
  {
    hide RequestChecks, InvoiceChecks, PaymentRequestChecks;
    AcceptedIffComplete(Some(r), number, now);
    var i := NewInvoiceFromProtoMessage(Some(r), number, now).value;
    OpensWithTextNotBlank(PENDING);
    InvoicePasses(i);
    BuiltRequestPasses(i, host);
  }

  lemma InvoicePasses(i: Invoice)
    requires !IsBlank(i.invoiceNumber) && !IsBlank(i.status)
    requires !IsBlank(i.idempotencyId) && !IsBlank(i.bookingId) && !IsBlank(i.payerId)
    requires !IsBlank(i.payer.documentNumber) && i.total.amount > 0 && !IsBlank(i.total.currency)
    ensures InvoiceChecks(i).Pass() <==> i.issuedAt != ZERO_INSTANT && i.dueAt != ZERO_INSTANT
  {
  }

  lemma InstructionsAreText()
    ensures !IsBlank(INSTRUCTIONS)
  {
    assert INSTRUCTIONS[|INSTRUCTIONS| - 1] == 'g';
    TextIsNotBlank(INSTRUCTIONS, 'g');
  }

  lemma BuiltRequestPasses(i: Invoice, host: string)
    requires !IsBlank(i.invoiceNumber) && !IsBlank(PaymentUrl(host, i.invoiceNumber))
    requires i.total.amount > 0 && !IsBlank(i.total.currency)
    requires !IsBlank(i.booking.cottageName) && i.booking.nights > 0 && i.booking.numberOfGuests > 0
    requires !IsBlank(i.payer.name) && !IsBlank(i.payer.email) && i.issuedAt < i.dueAt
    ensures PaymentRequestChecks(BuildPaymentRequest(i, host)).Pass()
  {
    var p := BuildPaymentRequest(i, host);
    var base := PaymentRequestBaseChecks(p);
    assert base.Pass();
    InstructionsAreText();
    assert p.options[..0] == [];
    assert OptionChecks(base, p.options).Pass();
    TimestampRoundTrip(i.issuedAt, Timestamp(0, 0));
    TimestampRoundTrip(i.dueAt, Timestamp(0, 0));
  }
}
