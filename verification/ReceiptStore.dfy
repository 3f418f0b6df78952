/** The receipts collection. */
module ReceiptStore {
  import opened Wrappers
  import opened Errors
  import opened GoTime
  import opened Documents
  import opened InvoiceStore

  function StoredReceipt(r: Receipt): Receipt {
    r.(processedAt := Stored(r.processedAt))
  }

  datatype ReceiptOutcome = ReceiptOutcome(docs: seq<Receipt>, err: Option<Error>)

  function InsertReceipt(docs: seq<Receipt>, receipt: Receipt, fault: InsertFault): ReceiptOutcome {
    var verdict := ReceiptChecks(receipt).Verdict();
    if verdict.Some? then ReceiptOutcome(docs, verdict)
    else
      match fault
      case DuplicateKey(e) => ReceiptOutcome(docs, Some(Wrap(DbAlreadyExists, "", e)))
      case InsertFailed(e) => ReceiptOutcome(docs, Some(Wrap(DbUnexpected, "failed to insert receipt", e)))
      case UnexpectedId =>
        ReceiptOutcome(docs + [StoredReceipt(receipt)],
                       Some(Wrap(DbUnexpected, "unexpected inserted id type",
                                 External("unexpected inserted id type", []))))
      case NoFault => ReceiptOutcome(docs + [StoredReceipt(receipt)], None)
  }

  /** Every outcome of an insertion: what is added, and of which kind the error is. */
  lemma ReceiptInsertionOutcome(docs: seq<Receipt>, r: Receipt, fault: InsertFault)
    ensures var o := InsertReceipt(docs, r, fault);
            if !ReceiptChecks(r).Pass() then o == ReceiptOutcome(docs, ReceiptChecks(r).Verdict()) && o.err.Some?
            else
              && (o.err.None? <==> fault.NoFault?)
              && (o.docs == if fault.NoFault? || fault.UnexpectedId?
                            then docs + [Receipt(r.id, r.receiptNumber, r.invoiceNumber, r.card, Stored(r.processedAt))]
                            else docs)
              && (fault.DuplicateKey? ==> o.err == Some(Wrap(DbAlreadyExists, "", fault.cause)))
              && (fault.InsertFailed? ==> o.err == Some(Wrap(DbUnexpected, "failed to insert receipt", fault.cause)))
              && (fault.UnexpectedId? ==> o.err.value.Wrap? && o.err.value.kind == DbUnexpected)
  {
    hide ReceiptChecks;
  }

  class ReceiptRepository {
    var docs: seq<Receipt>

    constructor (docs: seq<Receipt>)
      ensures this.docs == docs
    {
      this.docs := docs;
    }

    method Add(receipt: Receipt, fault: InsertFault) returns (err: Option<Error>)
      modifies this
      ensures ReceiptOutcome(docs, err) == InsertReceipt(old(docs), receipt, fault)
    {
      err := ReceiptChecks(receipt).Verdict();
      if err.Some? {
        return;
      }
      if fault.DuplicateKey? {
        return Some(Wrap(DbAlreadyExists, "", fault.cause));
      }
      if fault.InsertFailed? {
        return Some(Wrap(DbUnexpected, "failed to insert receipt", fault.cause));
      }
      docs := docs + [StoredReceipt(receipt)];
      if fault.UnexpectedId? {
        return Some(Wrap(DbUnexpected, "unexpected inserted id type", External("unexpected inserted id type", [])));
      }
      return None;
    }
  }
}
