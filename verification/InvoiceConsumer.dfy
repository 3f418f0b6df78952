/**
 The consumer of invoice requests: one delivery is decoded, turned into an invoice, saved, answered
 with a payment request, and settled. Decoders are arbitrary partial functions of the body; clock,
 random draws and faults are inputs of the attempt.
 */
module InvoiceConsumer {
  import opened Wrappers
  import opened Errors
  import opened GoText
  import opened GoTime
  import opened Documents
  import opened InvoiceStore
  import opened HumanFriendlyId
  import V = Validation

  datatype Delivery = Delivery(contentType: string, body: string)

  type Decoder = string -> Result<CreateInvoiceRequest, Error>

  datatype Config = Config(host: string, protobuf: Decoder, json: Decoder)

  datatype Settlement = Ack | Drop | Requeue

  /** What the environment contributes to one attempt. */
  datatype Attempt = Attempt(
    clock: Result<Instant, Error>, id: Draw, insertFault: InsertFault, publishFault: Option<Error>)

  datatype Published = Published(request: PaymentRequest, routingKey: string)

  // ---------- Decoding ----------

  function NormalizedType(contentType: string): string {
    ToLower(TrimSpace(contentType))
  }

  const PROTOBUF := "application/protobuf"
  const JSON := "application/json"

  /** A declared format is binding; otherwise protobuf is preferred to JSON. */
  function Decode(cfg: Config, d: Delivery): Option<CreateInvoiceRequest> {
    var t := NormalizedType(d.contentType);
    var p, j := cfg.protobuf(d.body), cfg.json(d.body);
    if t != JSON && p.Success? then Some(p.value)
    else if t != PROTOBUF && j.Success? then Some(j.value)
    else None
  }

  /** What a decoder makes of a body, without its error. */
  function ReadBy(decoder: Decoder, body: string): Option<CreateInvoiceRequest> {
    var r := decoder(body);
    if r.Success? then Some(r.value) else None
  }

  /** A body declared protobuf is read by the protobuf decoder alone, one declared JSON by the JSON decoder alone. */
  lemma DeclaredFormatDecodes(cfg: Config, d: Delivery)
    ensures var t := ToLower(TrimSpace(d.contentType));
            Decode(cfg, d) ==
            if t == "application/protobuf" then ReadBy(cfg.protobuf, d.body)
            else if t == "application/json" then ReadBy(cfg.json, d.body)
            else if ReadBy(cfg.protobuf, d.body).Some? then ReadBy(cfg.protobuf, d.body)
            else ReadBy(cfg.json, d.body)
  {
    assert PROTOBUF[12] != JSON[12];
  }

  /** An ASCII content type without white space at its ends is compared letter by letter, whatever its case. */
  lemma AsciiTypeIsFolded(s: string)
    requires s != "" && forall i :: 0 <= i < |s| ==> s[i] as int < 0x80
    requires !AsciiSpace(s[0]) && !AsciiSpace(s[|s| - 1])
    ensures NormalizedType(s) == FoldAscii(s)
  {
    assert LeadingSpace(s) == 0 && TrailingSpace(s) == 0;
    ToLowerOfAscii(s, [0xC4 as char, 0xB0 as char], "");
  }

  method UnmarshalRequest(cfg: Config, d: Delivery) returns (r: Result<CreateInvoiceRequest, Error>)
    ensures r.Success? <==> Decode(cfg, d).Some?
    ensures r.Success? ==> r.value == Decode(cfg, d).value
    ensures r.Failure? ==> As(r.error, KindTarget(AppCorruptedData)).Some?
  {
    var contentType := NormalizedType(d.contentType);
    if contentType == "" || contentType == PROTOBUF {
      r := cfg.protobuf(d.body);
      if r.Success? {
        return;
      } else if contentType == PROTOBUF {
        assert PROTOBUF[12] != JSON[12];
        return Failure(Wrap(AppCorruptedData, "could not unmarshal protobuf message", r.error));
      }
    } else if contentType == JSON {
      r := cfg.json(d.body);
      if r.Success? {
        return;
      } else {
        return Failure(Wrap(AppCorruptedData, "could not unmarshal json message", r.error));
      }
    }
    r := cfg.protobuf(d.body);
    if r.Success? {
      return;
    }
    r := cfg.json(d.body);
    if r.Success? {
      return;
    }
    return Failure(Wrap(AppCorruptedData, "could not unmarshal message",
                        External("message body is neither valid protobuf nor valid protobuf json", [])));
  }

  // ---------- The stages of an attempt ----------

  function GenerateInvoice(request: CreateInvoiceRequest, a: Attempt): Result<Invoice, Error> {
    if a.clock.Failure? then Failure(Wrap(AppUnexpected, "failed to get current time", a.clock.error))
    else
      match Generate("INV", a.id)
      case Failure(e) => Failure(Wrap(AppUnexpected, "failed to generate invoice number", e))
      case Success(number) =>
        match NewInvoiceFromProtoMessage(Some(request), number, a.clock.value)
        case Failure(e) => Failure(Wrap(AppCorruptedData, "could not create invoice document from request", e))
        case Success(invoice) => Success(invoice)
  }

  /** The invoice an attempt would save; `None` when the delivery is unusable or the clock or an id fails. */
  function Prepare(cfg: Config, d: Delivery, a: Attempt): Option<Invoice> {
    match Decode(cfg, d)
    case None => None
    case Some(request) =>
      match GenerateInvoice(request, a)
      case Failure(_) => None
      case Success(invoice) => Some(invoice)
  }

  /** Generating fails with its sources, as an unexpected error, or on an incomplete request, as corrupted data. */
  lemma GenerationOutcome(request: CreateInvoiceRequest, a: Attempt)
    ensures var r := GenerateInvoice(request, a);
            && (r.Success? <==> Answering(a) && Complete(request))
            && (r.Failure? ==>
                  r.error.Wrap? && r.error.kind == if Answering(a) then AppCorruptedData else AppUnexpected)
            && (a.clock.Failure? ==> r.error.cause == a.clock.error)
  {
    hide RequestChecks;
    if Answering(a) {
      AcceptedIffComplete(Some(request), Generate("INV", a.id).value, a.clock.value);
    }
  }

  /** The delivery decodes to a complete request. */
  predicate Acceptable(cfg: Config, d: Delivery) {
    Decode(cfg, d).Some? && Complete(Decode(cfg, d).value)
  }

  /** The clock and both random sources answer. */
  predicate Answering(a: Attempt) {
    a.clock.Success? && a.id.uuid.Success? && a.id.random.Success?
  }

  /** An attempt gets as far as saving exactly for an acceptable delivery, when clock and random sources answer. */
  lemma PreparedIffAcceptable(cfg: Config, d: Delivery, a: Attempt)
    ensures Prepare(cfg, d, a).Some? <==> Acceptable(cfg, d) && Answering(a)
  {
    hide RequestChecks;
    if Decode(cfg, d).Some? && Answering(a) {
      AcceptedIffComplete(Some(Decode(cfg, d).value), Generate("INV", a.id).value, a.clock.value);
    }
  }

  /** The service's own error for a failed insertion. */
  function SaveError(e: Error): Error {
    if As(e, KindTarget(DbAlreadyExists)).Some? then Wrap(AppAlreadyExists, "", e)
    else Wrap(AppUnexpected, "failed to add invoice", e)
  }

  function SettleFailedSave(e: Error): Settlement {
    if As(e, KindTarget(AppAlreadyExists)).Some? then Drop else Requeue
  }

  function RequestRoutingKey(payerId: string): string {
    "guest." + payerId
  }

  /** What goes out for an invoice. */
  function PublicationOf(cfg: Config, invoice: Invoice): Published {
    Published(BuildPaymentRequest(invoice, cfg.host), RequestRoutingKey(invoice.payerId))
  }

  /** The error of publishing an invoice's payment request, if any. */
  function PublishError(cfg: Config, invoice: Invoice, fault: Option<Error>): Option<Error> {
    var verdict := PaymentRequestChecks(BuildPaymentRequest(invoice, cfg.host)).Verdict();
    if verdict.Some? then verdict
    else if fault.Some? then Some(Wrap(AppPublish, "failed to publish paymentRequest", fault.value))
    else None
  }

  function SettleFailedPublish(e: Error): Settlement {
    if As(e, ViolationTarget).Some? then Drop else Requeue
  }

  // ---------- Drop or requeue ----------

  ghost predicate HasAlreadyExists(e: Error) {
    Contains(e, KindTarget(DbAlreadyExists)) || Contains(e, KindTarget(AppAlreadyExists))
  }

  /** A failed save is dropped exactly when the repository's error tree holds an already-exists error. */
  lemma SaveDropsIffAlreadyExists(e: Error)
    ensures SettleFailedSave(SaveError(e)) == if HasAlreadyExists(e) then Drop else Requeue
  {
    AsFindsIffPresent(e, KindTarget(DbAlreadyExists));
    AsFindsIffPresent(e, KindTarget(AppAlreadyExists));
  }

  /** What an insertion reports when its checks pass. */
  function InsertError(fault: InsertFault): Option<Error> {
    match fault
    case NoFault => None
    case DuplicateKey(e) => Some(Wrap(DbAlreadyExists, "", e))
    case InsertFailed(e) => Some(Wrap(DbUnexpected, "failed to insert invoice", e))
    case UnexpectedId =>
      Some(Wrap(DbUnexpected, "unexpected inserted id type", External("unexpected inserted id type", [])))
  }

  /** The server saw a duplicate key, or the driver's own error tree holds an already-exists error. */
  ghost predicate SaysAlreadyExists(fault: InsertFault) {
    fault.DuplicateKey? || (fault.InsertFailed? && HasAlreadyExists(fault.cause))
  }

  lemma InsertErrorSettlement(fault: InsertFault)
    requires !fault.NoFault?
    ensures SettleFailedSave(SaveError(InsertError(fault).value))
            == if SaysAlreadyExists(fault) then Drop else Requeue
  {
    if fault.DuplicateKey? {
      return;
    }
    var e := InsertError(fault).value;
    var db, app := KindTarget(DbAlreadyExists), KindTarget(AppAlreadyExists);
    AsFindsIffPresent(e.cause, db);
    AsFindsIffPresent(e.cause, app);
    if fault.UnexpectedId? {
      assert As(e.cause, db).None? && As(e.cause, app).None?;
    }
    assert As(e, db) == As(e.cause, db) && As(e, app) == As(e.cause, app);
  }

  lemma InsertionReports(docs: seq<Invoice>, invoice: Invoice, fault: InsertFault)
    ensures Insert(docs, invoice, fault).err ==
            if !InvoiceChecks(invoice).Pass() then InvoiceChecks(invoice).Verdict()
            else if !IsValidInvoiceStatus(invoice.status) then
              Some(Violation("invoice.status", "must be one of pending, paid"))
            else InsertError(fault)
  {
  }

  /**
   What the repository's insertion can report is requeued unless its checks passed and the server or
   the driver says already-exists; an invoice that fails the store's validation is requeued.
   */
  lemma InsertionSettlement(docs: seq<Invoice>, invoice: Invoice, fault: InsertFault)
    requires Insert(docs, invoice, fault).err.Some?
    ensures SettleFailedSave(SaveError(Insert(docs, invoice, fault).err.value))
            == if InvoiceChecks(invoice).Pass() && IsValidInvoiceStatus(invoice.status) && SaysAlreadyExists(fault)
               then Drop else Requeue
  {
    hide Insert, InvoiceChecks;
    InsertionReports(docs, invoice, fault);
    if !InvoiceChecks(invoice).Pass() {
      RefusalIsNotAlreadyExists(invoice);
    } else if IsValidInvoiceStatus(invoice.status) {
      InsertErrorSettlement(fault);
    }
  }

  lemma InvoiceChecksOnlyViolate(i: Invoice)
    ensures InvoiceChecks(i).OnlyViolations()
  {
    var c := V.New();
    c := AlsoNotBlank(c, "invoice.invoice_number", i.invoiceNumber);
    c := AlsoNotBlank(c, "invoice.status", i.status);
    c := AlsoNotBlank(c, "invoice.idempotency_id", i.idempotencyId);
    c := AlsoNotBlank(c, "invoice.booking_id", i.bookingId);
    c := AlsoNotBlank(c, "invoice.payer_id", i.payerId);
    c := AlsoNotBlank(c, "invoice.payer.document_number", i.payer.documentNumber);
    V.WithViolation(c, V.PositiveValueStep("invoice.total.amount", V.Signed(i.total.amount)));
    c := c.PositiveValue("invoice.total.amount", V.Signed(i.total.amount));
    c := AlsoNotBlank(c, "invoice.total.currency", i.total.currency);
    V.WithViolation(c, V.NotZeroValueStep("invoice.issued_at", V.Instant(i.issuedAt)));
    c := c.NotZeroValue("invoice.issued_at", V.Instant(i.issuedAt));
    V.WithViolation(c, V.NotZeroValueStep("invoice.due_at", V.Instant(i.dueAt)));
  }

  lemma AlsoNotBlank(c: V.Checks, field: string, value: string) returns (r: V.Checks)
    requires c.OnlyViolations()
    ensures r == c.NotBlank(field, value) && r.OnlyViolations()
  {
    V.WithViolation(c, V.NotBlankStep(field, value));
    r := c.NotBlank(field, value);
  }

  lemma RefusalIsNotAlreadyExists(invoice: Invoice)
    requires !InvoiceChecks(invoice).Pass()
    ensures var e := InvoiceChecks(invoice).Verdict().value;
            && As(e, KindTarget(DbAlreadyExists)).None? && As(e, KindTarget(AppAlreadyExists)).None?
            && As(e, ViolationTarget).Some?
  {
    InvoiceChecksOnlyViolate(invoice);
    ViolationsOnly(InvoiceChecks(invoice), KindTarget(DbAlreadyExists));
    ViolationsOnly(InvoiceChecks(invoice), KindTarget(AppAlreadyExists));
  }

  /** A failed validation is a tree of violations and nothing else. */
  lemma ViolationsOnly(c: V.Checks, t: Target)
    requires c.OnlyViolations() && !c.Pass() && t.KindTarget?
    ensures As(c.Verdict().value, t).None? && As(c.Verdict().value, ViolationTarget).Some?
  {
    V.ValidateJoinsFailuresInOrder(c, t);
    V.FailuresAreViolations(c.steps);
    V.AsFindsFirstViolation(c);
    NoneInViolations(V.Failures(c.steps), t);
  }

  lemma {:induction false} NoneInViolations(es: seq<Error>, t: Target)
    requires t.KindTarget? && forall i :: 0 <= i < |es| ==> es[i].Violation?
    ensures V.FirstAs(es, t).None?
  {
    if es != [] {
      NoneInViolations(es[1..], t);
    }
  }

  /** A failed publish is dropped exactly when its error tree holds a validation error. */
  lemma PublishDropsIffViolation(e: Error, fault: Error)
    ensures SettleFailedPublish(e) == if Contains(e, ViolationTarget) then Drop else Requeue
    ensures Contains(Wrap(AppPublish, "failed to publish paymentRequest", fault), ViolationTarget)
            <==> Contains(fault, ViolationTarget)
  {
    AsFindsIffPresent(e, ViolationTarget);
    AsFindsIffPresent(fault, ViolationTarget);
    AsFindsIffPresent(Wrap(AppPublish, "failed to publish paymentRequest", fault), ViolationTarget);
  }

  // ---------- A whole attempt ----------

  /** The collection after an attempt, what it published, and its settlement call. */
  datatype Processed = Processed(docs: seq<Invoice>, published: seq<Published>, settlement: Settlement)

  function SaveAndPublish(cfg: Config, docs: seq<Invoice>, invoice: Invoice, a: Attempt): Processed {
    var saved := Insert(docs, invoice, a.insertFault);
    if saved.err.Some? then Processed(saved.docs, [], SettleFailedSave(SaveError(saved.err.value)))
    else
      match PublishError(cfg, invoice, a.publishFault)
      case Some(e) => Processed(saved.docs, [], SettleFailedPublish(e))
      case None =>
        Processed(saved.docs, [PublicationOf(cfg, invoice)], Ack)
  }

  function Process(cfg: Config, docs: seq<Invoice>, d: Delivery, a: Attempt): Processed {
    match Prepare(cfg, d, a)
    case None => Processed(docs, [], Drop)
    case Some(invoice) => SaveAndPublish(cfg, docs, invoice, a)
  }

  /** A list of deliveries, one attempt each. */
  datatype Ledger = Ledger(docs: seq<Invoice>, published: seq<Published>, settlements: seq<Settlement>)

  function ProcessAll(cfg: Config, l: Ledger, deliveries: seq<Delivery>, attempts: seq<Attempt>): Ledger
    requires |deliveries| == |attempts|
  {
    if deliveries == [] then l
    else
      var last := |deliveries| - 1;
      var before := ProcessAll(cfg, l, deliveries[..last], attempts[..last]);
      var r := Process(cfg, before.docs, deliveries[last], attempts[last]);
      Ledger(r.docs, before.published + r.published, before.settlements + [r.settlement])
  }

  // ---------- The object ----------

  class InvoiceService {
    const cfg: Config
    const repo: InvoiceRepository
    var published: seq<Published> // the guest communication exchange
    var settlements: seq<Settlement> // the calls made on deliveries, in order

    constructor (cfg: Config, repo: InvoiceRepository)
      requires !IsBlank(cfg.host)
      ensures this.cfg == cfg && this.repo == repo && published == [] && settlements == []
    {
      this.cfg := cfg;
      this.repo := repo;
      published := [];
      settlements := [];
    }

    method BaseValidator(p: PaymentRequest) returns (validator: V.Validator)
      ensures fresh(validator) && V.Checks(validator.steps) == PaymentRequestBaseChecks(p)
    {
      var total := p.total.GetOr(NO_MONEY);
      var booking := p.booking.GetOr(BookingSummary("", 0, 0));
      var payer := p.payer.GetOr(PayerSummary("", ""));
      validator := new V.Validator();
      validator.NotNil("paymentRequest", V.Reference(false));
      validator.NotBlank("invoice_number", p.invoiceNumber);
      validator.NotNil("total", V.Ref(p.total));
      validator.PositiveValue("total.amount", V.Signed(total.amount));
      validator.NotBlank("total.currency", total.currency);
      validator.NotNil("issued_at", V.Ref(p.issuedAt));
      validator.NotNil("expires_at", V.Ref(p.expiresAt));
      validator.NotNil("booking", V.Ref(p.booking));
      validator.NotBlank("booking.cottage_name", booking.cottageName);
      validator.PositiveValue("booking.nights", V.Signed(booking.nights));
      validator.PositiveValue("booking.number_of_guests", V.Signed(booking.numberOfGuests));
      validator.NotNil("payer", V.Ref(p.payer));
      validator.NotBlank("payer.name", payer.name);
      validator.NotBlank("payer.email", payer.email);
      validator.PositiveValue("options", V.Signed(|p.options|));
    }

    method AddOptionChecks(validator: V.Validator, options: seq<Option<PaymentOption>>)
      modifies validator
      ensures V.Checks(validator.steps) == OptionChecks(V.Checks(old(validator.steps)), options)
    {
      ghost var base := V.Checks(validator.steps);
      for idx := 0 to |options|
        invariant V.Checks(validator.steps) == OptionChecks(base, options[..idx])
      {
        var option := options[idx].GetOr(NO_OPTION);
        var field := OptionField(idx);
        assert options[..idx + 1][..idx] == options[..idx];
        validator.NotNil(field, V.Ref(options[idx]));
        validator.PositiveValue(field + ".method", V.Signed(option.method_.Number()));
        validator.NotBlank(field + ".payment_url", option.paymentUrl);
        validator.NotBlank(field + ".instructions", option.instructions);
      }
      assert options[..|options|] == options;
    }

    method ValidatePaymentRequest(p: PaymentRequest) returns (err: Option<Error>)
      ensures err == PaymentRequestChecks(p).Verdict()
    {
      var validator := BaseValidator(p);
      AddOptionChecks(validator, p.options);
      if p.issuedAt.Some? && p.expiresAt.Some? {
        validator.ValidPrecedence(AsTime(p.issuedAt), AsTime(p.expiresAt));
      }
      err := validator.Validate();
    }

    method GenerateInvoiceDoc(request: CreateInvoiceRequest, a: Attempt) returns (r: Result<Invoice, Error>)
      ensures r == GenerateInvoice(request, a)
    {
      if a.clock.Failure? {
        return Failure(Wrap(AppUnexpected, "failed to get current time", a.clock.error));
      }
      var number := GenerateHumanFriendlyId("INV", a.id);
      if number.Failure? {
        return Failure(Wrap(AppUnexpected, "failed to generate invoice number", number.error));
      }
      r := NewInvoiceFromProtoMessage(Some(request), number.value, a.clock.value);
      if r.Failure? {
        return Failure(Wrap(AppCorruptedData, "could not create invoice document from request", r.error));
      }
    }

    method SaveInvoice(invoice: Invoice, fault: InsertFault) returns (err: Option<Error>)
      modifies repo
      ensures var saved := Insert(old(repo.docs), invoice, fault);
              && repo.docs == saved.docs
              && err == if saved.err.Some? then Some(SaveError(saved.err.value)) else None
    {
      var addErr := repo.Add(invoice, fault);
      if addErr.Some? {
        if As(addErr.value, KindTarget(DbAlreadyExists)).Some? {
          return Some(Wrap(AppAlreadyExists, "", addErr.value));
        }
        return Some(Wrap(AppUnexpected, "failed to add invoice", addErr.value));
      }
      return None;
    }

    method PublishPaymentRequest(invoice: Invoice, fault: Option<Error>) returns (err: Option<Error>)
      modifies this`published
      ensures err == PublishError(cfg, invoice, fault)
      ensures published == old(published) +
              if err.Some? then []
              else [PublicationOf(cfg, invoice)]
    {
      var paymentRequest := BuildPaymentRequest(invoice, cfg.host);
      err := ValidatePaymentRequest(paymentRequest);
      if err.Some? {
        return;
      }
      var routingKey := "guest." + invoice.payerId;
      if fault.Some? {
        return Some(Wrap(AppPublish, "failed to publish paymentRequest", fault.value));
      }
      published := published + [Published(paymentRequest, routingKey)];
    }

    /** On every path the delivery is settled by exactly one call. */
    method ProcessInvoiceDelivery(d: Delivery, a: Attempt, ackFault: Option<Error>) returns (err: Option<Error>)
      modifies this, repo
      ensures var r := Process(cfg, old(repo.docs), d, a);
              && repo.docs == r.docs
              && published == old(published) + r.published
              && settlements == old(settlements) + [r.settlement]
              && (err.None? <==> r.settlement == Ack && ackFault.None?)
    {
      var request := UnmarshalRequest(cfg, d);
      if request.Failure? {
        settlements := settlements + [Drop];
        return Some(request.error);
      }
      var invoice := GenerateInvoiceDoc(request.value, a);
      if invoice.Failure? {
        settlements := settlements + [Drop];
        return Some(invoice.error);
      }
      err := SettleInvoice(invoice.value, a, ackFault);
    }

    /** The second half of an attempt: save, publish, settle. */
    method SettleInvoice(invoice: Invoice, a: Attempt, ackFault: Option<Error>) returns (err: Option<Error>)
      modifies this, repo
      ensures var r := SaveAndPublish(cfg, old(repo.docs), invoice, a);
              && repo.docs == r.docs
              && published == old(published) + r.published
              && settlements == old(settlements) + [r.settlement]
              && (err.None? <==> r.settlement == Ack && ackFault.None?)
    {
      hide Insert, PaymentRequestChecks;
      err := SaveInvoice(invoice, a.insertFault);
      if err.Some? {
        if As(err.value, KindTarget(AppAlreadyExists)).Some? {
          settlements := settlements + [Drop];
          return;
        }
        settlements := settlements + [Requeue];
        return;
      }
      err := PublishPaymentRequest(invoice, a.publishFault);
      if err.Some? {
        if As(err.value, ViolationTarget).Some? {
          settlements := settlements + [Drop];
          return;
        }
        settlements := settlements + [Requeue];
        return;
      }
      settlements := settlements + [Ack];
      err := ackFault;
    }

    /** The consume loop: as many settlement calls as deliveries, in their order. */
    method StartInvoiceProcessing(
      consumeError: Option<Error>, deliveries: seq<Delivery>, attempts: seq<Attempt>, ackFaults: seq<Option<Error>>)
      requires |deliveries| == |attempts| == |ackFaults|
      modifies this, repo
      ensures Ledger(repo.docs, published, settlements) ==
              if consumeError.Some? then Ledger(old(repo.docs), old(published), old(settlements))
              else ProcessAll(cfg, Ledger(old(repo.docs), old(published), old(settlements)), deliveries, attempts)
    {
      if consumeError.Some? {
        return;
      }
      ghost var start := Ledger(repo.docs, published, settlements);
      for i := 0 to |deliveries|
        invariant Ledger(repo.docs, published, settlements)
                  == ProcessAll(cfg, start, deliveries[..i], attempts[..i])
      {
        assert deliveries[..i + 1][..i] == deliveries[..i] && attempts[..i + 1][..i] == attempts[..i];
        var _ := ProcessInvoiceDelivery(deliveries[i], attempts[i], ackFaults[i]);
      }
      assert deliveries[..|deliveries|] == deliveries && attempts[..|attempts|] == attempts;
    }
  }

  /** One settlement per delivery, whatever happens to each. */
  lemma {:induction false} OneSettlementPerDelivery(
    cfg: Config, l: Ledger, deliveries: seq<Delivery>, attempts: seq<Attempt>)
    requires |deliveries| == |attempts|
    ensures var r := ProcessAll(cfg, l, deliveries, attempts);
            && |r.settlements| == |l.settlements| + |deliveries|
            && l.settlements <= r.settlements
  {
    if deliveries != [] {
      var last := |deliveries| - 1;
      OneSettlementPerDelivery(cfg, l, deliveries[..last], attempts[..last]);
    }
  }
}
