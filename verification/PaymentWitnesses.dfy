/** Concrete runs of the payment protocol in which what one might expect of every payment does not happen. */
module PaymentWitnesses {
  import opened Wrappers
  import opened GoText
  import opened GoTime
  import opened Documents
  import opened InvoiceStore
  import opened HumanFriendlyId
  import opened PaymentProtocol
  import opened PaymentSafety
  import opened PaymentRuns
  import opened PaymentOverlap
  import opened PaymentLedger
  import opened PaymentCompletion
  import opened SampleMessages
  import R = Reissue

  const NUMBER := TEXT
  const NOW: Instant := UNIX_EPOCH

  // ---------- An invoice in an otherwise empty store ----------

  lemma InvoiceOf(r: CreateInvoiceRequest) returns (invoice: Invoice)
    requires Complete(r) && Storable(r)
    ensures NewInvoiceFromProtoMessage(Some(r), NUMBER, NOW) == Success(invoice)
    ensures invoice.invoiceNumber == NUMBER && invoice.status == PENDING
    ensures InvoiceChecks(invoice).Pass()
  {
    TextPasses();
    AcceptedIffComplete(Some(r), NUMBER, NOW);
    invoice := NewInvoiceFromProtoMessage(Some(r), NUMBER, NOW).value;
    InvoiceKeepsWholeRequest(r, NUMBER, NOW);
    OpensWithTextNotBlank(PaymentUrl(TEXT, NUMBER));
    AcceptedRequestsPassLaterChecks(r, NUMBER, NOW, TEXT);
  }

  const EMPTY := System(World([], [], []), [], [], [], 0)

  /** The run that stores one accepted invoice. */
  lemma OneInvoice(failChance: int, r: CreateInvoiceRequest)
    returns (trace: seq<System>, labels: seq<Label>, invoice: Invoice)
    requires Complete(r) && Storable(r)
    ensures NewInvoiceFromProtoMessage(Some(r), NUMBER, NOW) == Success(invoice)
    ensures IsRun(failChance, trace, labels) && trace[0] == EMPTY
    ensures Last(trace).world.invoices == [StoredInvoice(invoice)] && Last(trace).created == [invoice]
    ensures Has(Last(trace).world.invoices, NUMBER) && !PaidNumber(Last(trace).world.invoices, NUMBER)
  {
    hide Insert, NewInvoiceFromProtoMessage, InvoiceChecks;
    invoice := InvoiceOf(r);
    trace, labels := OneStepMore(failChance, [EMPTY], [], AddInvoice(invoice, NoFault));
    FirstInsertion(invoice);
    FirstInvoiceIsUnpaid(invoice);
  }

  lemma FirstInsertion(invoice: Invoice)
    requires InvoiceChecks(invoice).Pass() && invoice.status == PENDING
    ensures Insert([], invoice, NoFault) == Outcome([StoredInvoice(invoice)], None)
  {
  }

  lemma FirstInvoiceIsUnpaid(invoice: Invoice)
    requires invoice.invoiceNumber == NUMBER && invoice.status == PENDING
    ensures Has([StoredInvoice(invoice)], NUMBER) && !PaidNumber([StoredInvoice(invoice)], NUMBER)
  {
    PendingIsUnpaid();
    assert [StoredInvoice(invoice)][0].invoiceNumber == NUMBER;
  }

  lemma PendingIsUnpaid()
    ensures !EqualFold(PENDING, PAID)
  {
    assert |PENDING| != |PAID|;
  }

  /** The run that stores an invoice of no particular dates. */
  lemma OneUnpaidInvoice(failChance: int) returns (trace: seq<System>, labels: seq<Label>)
    ensures IsRun(failChance, trace, labels) && trace[0] == EMPTY
    ensures Has(Last(trace).world.invoices, NUMBER) && !PaidNumber(Last(trace).world.invoices, NUMBER)
  {
    DatedRequestIsComplete(Timestamp(0, 0), Timestamp(1, 0));
    var invoice: Invoice;
    trace, labels, invoice := OneInvoice(failChance, RequestDated(Timestamp(0, 0), Timestamp(1, 0)));
  }

  /** A payment of that invoice with one of the sample cards. */
  function PayWith(card: Card): PayWithCardRequest {
    PayWithCardRequest(Some(card), NUMBER)
  }

  lemma SamplePaymentsPassValidation(card: Card)
    requires card == SHORT_CARD || card == LONG_CARD
    ensures PayRequestChecks(PayWith(card)).Pass()
  {
    TextPasses();
    CardsPassValidation(card, NUMBER);
  }

  // ---------- One invoice, two payments ----------

  /** From an empty store: one invoice, two calls, both loads before both writes, and both writes succeed. */
  lemma OneInvoicePaidTwice(failChance: int)
    returns (trace: seq<System>, labels: seq<Label>, k: nat, c: nat, j: nat, d: nat)
    ensures IsRun(failChance, trace, labels) && trace[0] == EMPTY
    ensures k < j && c != d && Pays(trace, labels, k, c, NUMBER) && Pays(trace, labels, j, d, NUMBER)
  {
    trace, labels := OneUnpaidInvoice(failChance);
    SamplePaymentsPassValidation(LONG_CARD);
    trace, labels, k, c, j, d := UnpaidInvoiceCanBePaidTwice(failChance, trace, labels, PayWith(LONG_CARD), NOW);
  }

  // ---------- A card that is charged and never receipted ----------

  const HEALTHY := Environment(
    false, Success(NOW), None, 0, Draw(Success(SOME_UUID), Success(SOME_BYTES), ""), NOW, 0, NoFault, "", None)

  /** The same call takes so many healthy steps in a row. */
  lemma HealthySteps(failChance: int, trace: seq<System>, labels: seq<Label>, c: nat, count: nat)
    returns (longer: seq<System>, more: seq<Label>)
    requires IsRun(failChance, trace, labels)
    ensures Continues(failChance, trace, labels, longer, more) && |more| == |labels| + count
    ensures forall q :: |labels| <= q < |more| ==> more[q] == Step(c, HEALTHY)
  {
    longer, more := trace, labels;
    for i := 0 to count
      invariant Continues(failChance, trace, labels, longer, more) && |more| == |labels| + i
      invariant forall q :: |labels| <= q < |more| ==> more[q] == Step(c, HEALTHY)
    {
      ghost var before := more;
      longer, more := OneStepMore(failChance, longer, more, Step(c, HEALTHY));
      assert forall q :: 0 <= q < |before| ==> more[q] == before[q];
    }
  }

  lemma {:induction false} HealthyStepsCount(labels: seq<Label>, c: nat, j: nat, n: nat)
    requires j <= n <= |labels| && forall q :: j <= q < n ==> labels[q] == Step(c, HEALTHY)
    ensures StepsOf(labels, c, j, n) == n - j && HealthyStretch(labels, c, j, n)
  {
    if j < n {
      HealthyStepsCount(labels, c, j, n - 1);
    }
  }

  /** A call for a stored unpaid invoice comes to decide to pay, and from there all goes well. */
  lemma PayAndFollowUp(failChance: int, trace: seq<System>, labels: seq<Label>, req: PayWithCardRequest)
    returns (longer: seq<System>, more: seq<Label>, k: nat, c: nat)
    requires IsRun(failChance, trace, labels) && PayRequestChecks(req).Pass()
    requires var docs := Last(trace).world.invoices;
             Has(docs, req.invoiceNumber) && !PaidNumber(docs, req.invoiceNumber)
    ensures Continues(failChance, trace, labels, longer, more) && k < |longer| && c < |longer[k].calls|
    ensures longer[k].calls[c] == Call(req, Admitted(NOW), NoReply)
    ensures HealthyStretch(more, c, k, |more|) && StepsOf(more, c, k, |more|) == 5
  {
    hide Advance;
    NumberPasses(req);
    c := |Last(trace).calls|;
    longer, more := EnterWindow(failChance, trace, labels, req, NOW);
    longer, more := AdmitFromWindow(failChance, longer, more, c, req.invoiceNumber, Lenient(failChance, NOW));
    k := |more|;
    longer, more := HealthySteps(failChance, longer, more, c, 5);
    HealthyStepsCount(more, c, k, |more|);
  }

  /** What the call has left behind by then. */
  lemma PaidAndFollowedUp(
    failChance: int, trace: seq<System>, labels: seq<Label>, k: nat, c: nat, req: PayWithCardRequest)
    requires IsRun(failChance, trace, labels) && k < |trace| && c < |trace[k].calls|
    requires trace[k].calls[c] == Call(req, Admitted(NOW), NoReply)
    requires HealthyStretch(labels, c, k, |labels|) && StepsOf(labels, c, k, |labels|) == 5
    ensures c < |Last(trace).calls| && Last(trace).calls[c].req == req
    ensures PaidNumber(Last(trace).world.invoices, req.invoiceNumber)
    ensures FootprintOf(trace, labels, c, |labels|)
            == if Confirmable(req) then Footprint(1, 1, 1) else Footprint(1, 0, 0)
  {
    CompletesIffConfirmable(failChance, trace, labels, k, |labels|, c, NOW);
    CompletionAddsOneOfEach(failChance, trace, labels, k, |labels|, c, NOW);
    RunGrows(failChance, trace, labels, k, |labels|);
  }

  /**
   From an empty store, with nothing going wrong: a three-byte card number passes validation and the
   invoice is paid, but the call leaves neither receipt nor confirmation; a four-byte one leaves both.
   */
  lemma ShortCardIsPaidWithoutReceipt(failChance: int, card: Card)
    returns (trace: seq<System>, labels: seq<Label>, c: nat)
    requires card == SHORT_CARD || card == LONG_CARD
    ensures IsRun(failChance, trace, labels) && trace[0] == EMPTY && PaidNumber(Last(trace).world.invoices, NUMBER)
    ensures c < |Last(trace).calls| && Last(trace).calls[c].req == PayWith(card)
    ensures FootprintOf(trace, labels, c, |labels|)
            == if card == SHORT_CARD then Footprint(1, 0, 0) else Footprint(1, 1, 1)
  {
    trace, labels := OneUnpaidInvoice(failChance);
    SamplePaymentsPassValidation(card);
    ConfirmableCards(card);
    var k: nat;
    trace, labels, k, c := PayAndFollowUp(failChance, trace, labels, PayWith(card));
    PaidAndFollowedUp(failChance, trace, labels, k, c, PayWith(card));
  }

  lemma ConfirmableCards(card: Card)
    requires card == SHORT_CARD || card == LONG_CARD
    ensures Confirmable(PayWith(card)) <==> card == LONG_CARD
  {
    TextPasses();
    assert LONG_CARD.number[0..] == "1234";
    OpensWithTextNotBlank("1234");
  }

  // ---------- A reissued request that differs from the original ----------

  lemma CutInReissue(failChance: int, trace: seq<System>, labels: seq<Label>, invoice: Invoice, host: string)
    requires IsRun(failChance, trace, labels)
    requires Last(trace).world.invoices == [StoredInvoice(invoice)] && Last(trace).created == [invoice]
    requires invoice.bookingId == TEXT && invoice.payer.documentNumber == TEXT
    requires invoice.status == PENDING && !WholeMillis(invoice.issuedAt)
    ensures var reissued := R.Reissue(Last(trace).world.invoices, host, R.ReissueRequest(TEXT, TEXT), None);
            reissued.Success? && reissued.value != BuildPaymentRequest(invoice, host)
  {
    hide R.Reissue, BuildPaymentRequest;
    var docs, r := Last(trace).world.invoices, R.ReissueRequest(TEXT, TEXT);
    TextPasses();
    PendingIsUnpaid();
    assert R.Names(docs[0], r);
    R.ReissueOutcomes(docs, host, r, None);
    R.StoredRequestAgrees(invoice, docs[0], host);
  }

  lemma FineDatedInvoice(invoice: Invoice)
    requires NewInvoiceFromProtoMessage(Some(FINE_DATED), NUMBER, NOW) == Success(invoice)
    ensures invoice.bookingId == TEXT && invoice.payer.documentNumber == TEXT
    ensures invoice.status == PENDING && invoice.issuedAt == AsTime(FINE_DATED.issuedAt)
  {
  }

  /** From an empty store: an invoice issued a nanosecond past the epoch is reissued with another date. */
  lemma FineDateIsCutInReissue(failChance: int, host: string)
    returns (trace: seq<System>, labels: seq<Label>, invoice: Invoice)
    ensures IsRun(failChance, trace, labels) && trace[0] == EMPTY && Last(trace).created == [invoice]
    ensures var reissued := R.Reissue(Last(trace).world.invoices, host, R.ReissueRequest(TEXT, TEXT), None);
            reissued.Success? && reissued.value != BuildPaymentRequest(invoice, host)
  {
    FineDatedIsCut();
    trace, labels, invoice := OneInvoice(failChance, FINE_DATED);
    FineDatedInvoice(invoice);
    CutInReissue(failChance, trace, labels, invoice, host);
  }
}
