/** Reissuing a payment request: a read of the shared invoices, refused once the invoice is paid. */
module Reissue {
  import opened Wrappers
  import opened Errors
  import opened GoText
  import opened GoTime
  import opened Documents
  import opened InvoiceStore
  import opened PaymentProtocol
  import opened PaymentSafety
  import opened PaymentRuns
  import V = Validation

  datatype ReissueRequest = ReissueRequest(bookingNumber: string, documentNumber: string)

  function Reissue(
    docs: seq<Invoice>, host: string, r: ReissueRequest, fault: Option<Error>): Result<PaymentRequest, Code>
  {
    var verdict := V.New()
                   .NotBlank("booking_number", r.bookingNumber)
                   .NotBlank("document_number", r.documentNumber)
                   .Verdict();
    if verdict.Some? then Failure(InvalidArgument)
    else
      match FindByBookingNumberAndDocumentNumber(docs, r.bookingNumber, r.documentNumber, fault)
      case Failure(e) =>
        if As(e, KindTarget(DbInvoiceNotFound)).Some? then Failure(NotFound)
        else if As(e, KindTarget(DbCorruptedData)).Some? then Failure(Internal)
        else Failure(Internal)
      case Success(invoice) =>
        if EqualFold(invoice.status, PAID) then Failure(FailedPrecondition)
        else Success(BuildPaymentRequest(invoice, host))
  }

  predicate Names(i: Invoice, r: ReissueRequest) {
    i.bookingId == r.bookingNumber && i.payer.documentNumber == r.documentNumber
  }

  /** The first invoice of the booking and the payer's document, or the length of the collection. */
  function ByBooking(docs: seq<Invoice>, r: ReissueRequest): (i: nat)
    ensures i <= |docs|
    ensures i < |docs| ==> Names(docs[i], r)
    ensures forall k :: 0 <= k < i ==> !Names(docs[k], r)
  {
    FirstMatch(docs, (d: Invoice) => Names(d, r))
  }

  /** Reissue answers from the first matching invoice; every other outcome has its own code. */
  lemma ReissueOutcomes(docs: seq<Invoice>, host: string, r: ReissueRequest, fault: Option<Error>)
    ensures var i := ByBooking(docs, r);
            Reissue(docs, host, r, fault) ==
            if IsBlank(r.bookingNumber) || IsBlank(r.documentNumber) then Failure(InvalidArgument)
            else if fault.Some? then
              Failure(if As(fault.value, KindTarget(DbInvoiceNotFound)).Some? then NotFound else Internal)
            else if i == |docs| then Failure(NotFound)
            else if IsPaid(docs[i]) then Failure(FailedPrecondition)
            else Success(BuildPaymentRequest(docs[i], host))
  {
    var f := (d: Invoice) => d.bookingId == r.bookingNumber && d.payer.documentNumber == r.documentNumber;
    var i, j := FirstMatch(docs, f), ByBooking(docs, r);
    assert i == j by {
      assert i < |docs| ==> Names(docs[i], r);
      assert j < |docs| ==> f(docs[j]);
    }
  }

  /** Truncation to milliseconds shows in a payment request exactly when one of its two dates has finer parts. */
  lemma StoredRequestAgrees(original: Invoice, doc: Invoice, host: string)
    requires SameExceptStatus(StoredInvoice(original), doc)
    ensures BuildPaymentRequest(doc, host) == BuildPaymentRequest(original, host)
            <==> WholeMillis(original.issuedAt) && WholeMillis(original.dueAt)
  {
    TimestampRoundTrip(original.issuedAt, Timestamp(0, 0));
    TimestampRoundTrip(original.dueAt, Timestamp(0, 0));
    TimestampRoundTrip(Stored(original.issuedAt), Timestamp(0, 0));
    TimestampRoundTrip(Stored(original.dueAt), Timestamp(0, 0));
  }

  /**
   Whatever payments and deliveries have happened, a reissued payment request is the one built from
   the first unpaid invoice of that booking and document as it was created, field for field,
   exactly when that invoice's dates are whole milliseconds.
   */
  lemma ReissueAgreesWithOriginal(
    failChance: int, trace: seq<System>, labels: seq<Label>, k: nat, host: string, r: ReissueRequest,
    fault: Option<Error>)
    requires IsRun(failChance, trace, labels) && k < |trace|
    requires Reissue(trace[k].world.invoices, host, r, fault).Success?
    ensures var docs, created := trace[k].world.invoices, trace[k].created;
            var i := ByBooking(docs, r);
            && i == ByBooking(created, r) < |created| == |docs|
            && !IsPaid(docs[i])
            && (Reissue(docs, host, r, fault).value == BuildPaymentRequest(created[i], host)
                <==> WholeMillis(created[i].issuedAt) && WholeMillis(created[i].dueAt))
  {
    EveryStateGood(failChance, trace, labels, k);
    var docs, created := trace[k].world.invoices, trace[k].created;
    ReissueOutcomes(docs, host, r, fault);
    var i := ByBooking(docs, r);
    SameBookingOrder(created, docs, r);
    StoredRequestAgrees(created[i], docs[i], host);
  }

  lemma SameBookingOrder(created: seq<Invoice>, docs: seq<Invoice>, r: ReissueRequest)
    requires Records(created, docs)
    ensures ByBooking(created, r) == ByBooking(docs, r)
  {
    forall k | 0 <= k < |docs|
      ensures Names(created[k], r) <==> Names(docs[k], r)
    {
      assert SameExceptStatus(StoredInvoice(created[k]), docs[k]);
    }
  }

  lemma BookingIsStable(before: seq<Invoice>, after: seq<Invoice>, r: ReissueRequest)
    requires Evolves(before, after) && ByBooking(before, r) < |before|
    ensures ByBooking(after, r) == ByBooking(before, r)
  {
    forall k | 0 <= k <= ByBooking(before, r)
      ensures Names(before[k], r) <==> Names(after[k], r)
    {
      assert SameExceptStatus(before[k], after[k]);
    }
  }

  /** Once the invoice a reissue would answer from has been paid, reissuing is refused for good. */
  lemma ReissueAfterPaymentIsRefused(
    failChance: int, trace: seq<System>, labels: seq<Label>, p: nat, payer: nat, number: string,
    k: nat, host: string, r: ReissueRequest)
    requires IsRun(failChance, trace, labels) && Pays(trace, labels, p, payer, number) && p < k < |trace|
    requires ByBooking(trace[p + 1].world.invoices, r) == ByNumber(trace[p + 1].world.invoices, number)
    requires !IsBlank(r.bookingNumber) && !IsBlank(r.documentNumber)
    ensures Reissue(trace[k].world.invoices, host, r, None) == Failure(FailedPrecondition)
  {
    var paid, docs := trace[p + 1].world.invoices, trace[k].world.invoices;
    PaymentTakesEffect(failChance, trace, labels, p, payer, number);
    RunGrows(failChance, trace, labels, p + 1, k);
    NumberIsStable(paid, docs, number);
    BookingIsStable(paid, docs, r);
    ReissueOutcomes(docs, host, r, None);
  }
}
