/**
 The invoices collection: a sequence of documents in insertion order. `FindOne` and `UpdateOne`
 take the first match; no unique index exists, so duplicates are stored. A fault handed to an
 operation is what the driver does instead of answering.
 */
module InvoiceStore {
  import opened Wrappers
  import opened Errors
  import opened GoText
  import opened GoTime
  import opened Documents
  import V = Validation

  datatype InsertFault =
    | NoFault
    | DuplicateKey(cause: Error)
    | InsertFailed(cause: Error)
    | UnexpectedId // the document is stored, its id cannot be read back

  const NO_DOCUMENTS := External("mongo: no documents in result", [])

  // ---------- First match ----------

  function FirstMatch<T>(docs: seq<T>, filter: T -> bool): (i: nat)
    ensures i <= |docs|
    ensures i < |docs| ==> filter(docs[i])
    ensures forall k :: 0 <= k < i ==> !filter(docs[k])
  {
    if docs == [] then 0
    else if filter(docs[0]) then 0
    else 1 + FirstMatch(docs[1..], filter)
  }

  /** The index of the invoice that a number denotes, or the length of the store. */
  function ByNumber(docs: seq<Invoice>, number: string): (i: nat)
    ensures i <= |docs|
    ensures i < |docs| ==> docs[i].invoiceNumber == number
    ensures forall k :: 0 <= k < i ==> docs[k].invoiceNumber != number
  {
    FirstMatch(docs, (d: Invoice) => d.invoiceNumber == number)
  }

  predicate Has(docs: seq<Invoice>, number: string) {
    ByNumber(docs, number) < |docs|
  }

  function Find(docs: seq<Invoice>, filter: Invoice -> bool, fault: Option<Error>): Result<Invoice, Error> {
    if fault.Some? then Failure(Wrap(DbCorruptedData, "", fault.value))
    else
      var i := FirstMatch(docs, filter);
      if i == |docs| then Failure(Wrap(DbInvoiceNotFound, "", NO_DOCUMENTS)) else Success(docs[i])
  }

  function FindByInvoiceNumber(docs: seq<Invoice>, number: string, fault: Option<Error>): Result<Invoice, Error> {
    var verdict := V.New().NotBlank("invoiceNumber", number).Verdict();
    if verdict.Some? then Failure(verdict.value)
    else Find(docs, (d: Invoice) => d.invoiceNumber == number, fault)
  }

  function FindByBookingNumberAndDocumentNumber(
    docs: seq<Invoice>, booking: string, document: string, fault: Option<Error>): Result<Invoice, Error>
  {
    var verdict := V.New().NotBlank("bookingNumber", booking).NotBlank("documentNumber", document).Verdict();
    if verdict.Some? then Failure(verdict.value)
    else Find(docs, (d: Invoice) => d.bookingId == booking && d.payer.documentNumber == document, fault)
  }

  // ---------- Writing ----------

  /** An invoice as it is read back after being stored. */
  function StoredInvoice(i: Invoice): Invoice {
    i.(issuedAt := Stored(i.issuedAt), dueAt := Stored(i.dueAt),
       createdAt := Stored(i.createdAt), updatedAt := Stored(i.updatedAt))
  }

  /** The collection after an operation, and the error the operation returned. */
  datatype Outcome = Outcome(docs: seq<Invoice>, err: Option<Error>)

  function Insert(docs: seq<Invoice>, invoice: Invoice, fault: InsertFault): Outcome {
    var verdict := InvoiceChecks(invoice).Verdict();
    if verdict.Some? then Outcome(docs, verdict)
    else if !IsValidInvoiceStatus(invoice.status) then
      Outcome(docs, Some(Violation("invoice.status", "must be one of pending, paid")))
    else
      match fault
      case DuplicateKey(e) => Outcome(docs, Some(Wrap(DbAlreadyExists, "", e)))
      case InsertFailed(e) => Outcome(docs, Some(Wrap(DbUnexpected, "failed to insert invoice", e)))
      case UnexpectedId =>
        Outcome(docs + [StoredInvoice(invoice)],
                Some(Wrap(DbUnexpected, "unexpected inserted id type", External("unexpected inserted id type", []))))
      case NoFault => Outcome(docs + [StoredInvoice(invoice)], None)
  }

  function StatusUpdateChecks(number: string, status: string, updatedAt: Instant): V.Checks {
    V.New()
      .NotBlank("invoiceNumber", number)
      .NotBlank("status", status)
      .NotZeroValue("updatedAt", V.Instant(updatedAt))
  }

  function SetStatus(
    docs: seq<Invoice>, number: string, status: string, updatedAt: Instant, fault: Option<Error>): Outcome
  {
    var verdict := StatusUpdateChecks(number, status, updatedAt).Verdict();
    if verdict.Some? then Outcome(docs, verdict)
    else if !IsValidInvoiceStatus(status) then
      Outcome(docs, Some(Violation("status", "must be one of pending, paid")))
    else if fault.Some? then
      Outcome(docs, Some(Wrap(DbUnexpected, "failed to update invoice status", fault.value)))
    else
      var i := ByNumber(docs, number);
      if i == |docs| then Outcome(docs, Some(Wrap(DbInvoiceNotFound, "", NO_DOCUMENTS)))
      else Outcome(docs[i := docs[i].(status := status, updatedAt := Stored(updatedAt))], None)
  }

  class InvoiceRepository {
    var docs: seq<Invoice>

    constructor (docs: seq<Invoice>)
      ensures this.docs == docs
    {
      this.docs := docs;
    }

    method Add(invoice: Invoice, fault: InsertFault) returns (err: Option<Error>)
      modifies this
      ensures Outcome(docs, err) == Insert(old(docs), invoice, fault)
    {
      err := InvoiceChecks(invoice).Verdict();
      if err.Some? {
        return;
      }
      if !IsValidInvoiceStatus(invoice.status) {
        return Some(Violation("invoice.status", "must be one of pending, paid"));
      }
      if fault.DuplicateKey? {
        return Some(Wrap(DbAlreadyExists, "", fault.cause));
      }
      if fault.InsertFailed? {
        return Some(Wrap(DbUnexpected, "failed to insert invoice", fault.cause));
      }
      docs := docs + [StoredInvoice(invoice)];
      if fault.UnexpectedId? {
        return Some(Wrap(DbUnexpected, "unexpected inserted id type", External("unexpected inserted id type", [])));
      }
      return None;
    }

    method UpdateStatus(number: string, status: string, updatedAt: Instant, fault: Option<Error>)
      returns (err: Option<Error>)
      modifies this
      ensures Outcome(docs, err) == SetStatus(old(docs), number, status, updatedAt, fault)
    {
      err := StatusUpdateChecks(number, status, updatedAt).Verdict();
      if err.Some? {
        return;
      }
      if !IsValidInvoiceStatus(status) {
        return Some(Violation("status", "must be one of pending, paid"));
      }
      if fault.Some? {
        return Some(Wrap(DbUnexpected, "failed to update invoice status", fault.value));
      }
      var i := ByNumber(docs, number);
      if i == |docs| {
        return Some(Wrap(DbInvoiceNotFound, "", NO_DOCUMENTS));
      }
      docs := docs[i := docs[i].(status := status, updatedAt := Stored(updatedAt))];
      return None;
    }
  }

  /** A load by number succeeds exactly on a stored number, and yields the document the number denotes. */
  lemma LoadYieldsThatInvoice(docs: seq<Invoice>, number: string, fault: Option<Error>)
    ensures var r := FindByInvoiceNumber(docs, number, fault);
            && (r.Success? <==> !IsBlank(number) && fault.None? && Has(docs, number))
            && (Has(docs, number) && r.Success? ==> r == Success(docs[ByNumber(docs, number)]))
  {
    var f := (d: Invoice) => d.invoiceNumber == number;
    var i, j := FirstMatch(docs, f), ByNumber(docs, number);
    assert i == j by {
      assert i < |docs| ==> docs[i].invoiceNumber == number;
      assert j < |docs| ==> f(docs[j]);
    }
  }

  /** A load that fails says why: a blank number, an undecodable document, or no document of that number. */
  lemma FailedLoadSaysWhy(docs: seq<Invoice>, number: string, fault: Option<Error>)
    ensures var r := FindByInvoiceNumber(docs, number, fault);
            r.Failure? ==>
              if IsBlank(number) then r.error == Join([Violation("invoiceNumber", "must not be blank")])
              else if fault.Some? then r.error == Wrap(DbCorruptedData, "", fault.value)
              else !Has(docs, number) && r.error == Wrap(DbInvoiceNotFound, "", NO_DOCUMENTS)
  {
    LoadYieldsThatInvoice(docs, number, fault);
    if IsBlank(number) {
      OnlyCheckFails(V.NotBlankStep("invoiceNumber", number));
    }
  }

  lemma OnlyCheckFails(step: V.Step)
    requires step().Some?
    ensures V.Checks([step]).Verdict() == Some(Join([step().value]))
  {
    assert V.Checks([step][..0]).Verdict() == None;
  }

  // ---------- How the collection may change ----------

  predicate IsPaid(i: Invoice) {
    EqualFold(i.status, PAID)
  }

  predicate PaidNumber(docs: seq<Invoice>, number: string) {
    Has(docs, number) && IsPaid(docs[ByNumber(docs, number)])
  }

  predicate SameExceptStatus(a: Invoice, b: Invoice) {
    b == a.(status := b.status, updatedAt := b.updatedAt)
  }

  /** Documents stay where they are, change at most in status and update time, and paid ones stay paid. */
  ghost predicate Evolves(before: seq<Invoice>, after: seq<Invoice>) {
    && |before| <= |after|
    && forall k :: 0 <= k < |before| ==>
         SameExceptStatus(before[k], after[k]) && (IsPaid(before[k]) ==> IsPaid(after[k]))
  }

  ghost predicate ValidStatuses(docs: seq<Invoice>) {
    forall k :: 0 <= k < |docs| ==> IsValidInvoiceStatus(docs[k].status)
  }

  lemma EvolvesTransitive(a: seq<Invoice>, b: seq<Invoice>, c: seq<Invoice>)
    requires Evolves(a, b) && Evolves(b, c)
    ensures Evolves(a, c)
  {
    forall k | 0 <= k < |a|
      ensures SameExceptStatus(a[k], c[k]) && (IsPaid(a[k]) ==> IsPaid(c[k]))
    {
      assert SameExceptStatus(a[k], b[k]) && SameExceptStatus(b[k], c[k]);
    }
  }

  /** A number, once it denotes an invoice, denotes that same document for ever. */
  lemma NumberIsStable(before: seq<Invoice>, after: seq<Invoice>, number: string)
    requires Evolves(before, after) && Has(before, number)
    ensures ByNumber(after, number) == ByNumber(before, number)
    ensures PaidNumber(before, number) ==> PaidNumber(after, number)
  {
    var i := ByNumber(before, number);
    assert SameExceptStatus(before[i], after[i]);
    forall k | 0 <= k < i
      ensures after[k].invoiceNumber != number
    {
      assert SameExceptStatus(before[k], after[k]);
    }
  }

  /** A stored document is the invoice, field for field, with its four instants cut to milliseconds. */
  lemma StoredFieldForField(i: Invoice)
    ensures StoredInvoice(i) == Invoice(
              i.invoiceNumber, i.status, Stored(i.issuedAt), Stored(i.dueAt),
              i.idempotencyId, i.bookingId, i.payerId, i.payer, i.booking,
              i.total, i.taxTotal, i.discountTotal, Stored(i.createdAt), Stored(i.updatedAt))
  {
  }

  lemma InsertAppendsOrKeeps(docs: seq<Invoice>, invoice: Invoice, fault: InsertFault)
    ensures var r := Insert(docs, invoice, fault);
            r.docs == docs || r.docs == docs + [StoredInvoice(invoice)]
  {
  }

  lemma InsertEvolves(docs: seq<Invoice>, invoice: Invoice, fault: InsertFault)
    ensures Evolves(docs, Insert(docs, invoice, fault).docs)
    ensures ValidStatuses(docs) ==> ValidStatuses(Insert(docs, invoice, fault).docs)
  {
  }

  lemma PayingEvolves(docs: seq<Invoice>, number: string, at: Instant, fault: Option<Error>)
    ensures Evolves(docs, SetStatus(docs, number, PAID, at, fault).docs)
    ensures ValidStatuses(docs) ==> ValidStatuses(SetStatus(docs, number, PAID, at, fault).docs)
  {
  }

  /** A write of `paid` takes effect exactly when it reports no error, and then on the invoice of that number alone. */
  lemma PayingMarksThatInvoice(docs: seq<Invoice>, number: string, at: Instant, fault: Option<Error>)
    ensures var r := SetStatus(docs, number, PAID, at, fault);
            && (r.err.None? <==>
                !IsBlank(number) && at != ZERO_INSTANT && fault.None? && Has(docs, number))
            && (r.err.Some? ==> r.docs == docs)
            && (r.err.None? ==>
                && |r.docs| == |docs|
                && PaidNumber(r.docs, number)
                && r.docs[ByNumber(docs, number)].updatedAt == Stored(at)
                && forall k :: 0 <= k < |docs| && k != ByNumber(docs, number) ==> r.docs[k] == docs[k])
  {
    PayingOutcome(docs, number, at, fault);
    var r := SetStatus(docs, number, PAID, at, fault);
    if r.err.None? {
      PayingEvolves(docs, number, at, fault);
      NumberIsStable(docs, r.docs, number);
    }
  }

  /** What a status update asks, whatever the status. */
  lemma StatusUpdatePassesIff(number: string, status: string, at: Instant)
    ensures StatusUpdateChecks(number, status, at).Pass()
            <==> !IsBlank(number) && !IsBlank(status) && at != ZERO_INSTANT
  {
  }

  /** A status update of any status: what it changes, and of which kind its error is. */
  lemma StatusUpdateOutcome(docs: seq<Invoice>, number: string, status: string, at: Instant, fault: Option<Error>)
    ensures var r, i := SetStatus(docs, number, status, at, fault), ByNumber(docs, number);
            if IsBlank(number) || IsBlank(status) || at == ZERO_INSTANT then
              r.docs == docs && r.err == StatusUpdateChecks(number, status, at).Verdict() && r.err.Some?
            else if status != "pending" && status != "paid" then
              r == Outcome(docs, Some(Violation("status", "must be one of pending, paid")))
            else if fault.Some? then
              r == Outcome(docs, Some(Wrap(DbUnexpected, "failed to update invoice status", fault.value)))
            else if i == |docs| then r == Outcome(docs, Some(Wrap(DbInvoiceNotFound, "", NO_DOCUMENTS)))
            else
              && r.err.None? && |r.docs| == |docs|
              && r.docs[i] == docs[i].(status := status, updatedAt := Stored(at))
              && forall k :: 0 <= k < |docs| && k != i ==> r.docs[k] == docs[k]
  {
    hide StatusUpdateChecks;
    StatusUpdatePassesIff(number, status, at);
  }

  lemma PaidUpdatePassesIff(number: string, at: Instant)
    ensures StatusUpdateChecks(number, PAID, at).Pass() <==> !IsBlank(number) && at != ZERO_INSTANT
  {
    assert PAID[0] == 'p';
    OpensWithTextNotBlank(PAID);
  }

  lemma PayingOutcome(docs: seq<Invoice>, number: string, at: Instant, fault: Option<Error>)
    ensures var r, i := SetStatus(docs, number, PAID, at, fault), ByNumber(docs, number);
            if !IsBlank(number) && at != ZERO_INSTANT && fault.None? && i < |docs|
            then r == Outcome(docs[i := docs[i].(status := PAID, updatedAt := Stored(at))], None)
            else r.err.Some? && r.docs == docs
  {
    PaidUpdatePassesIff(number, at);
  }
}
