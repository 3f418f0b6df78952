/** Every payment link the consumer has sent leads to an invoice that is in the store. */
module PaymentLinks {
  import opened Wrappers
  import opened GoTime
  import opened Documents
  import opened InvoiceStore
  import opened HumanFriendlyId
  import opened InvoiceConsumer
  import opened BrokerProtocol
  import opened BrokerDrain

  ghost predicate NumbersStored(s: Broker) {
    && (s.work.Saved? ==> Has(s.invoices, s.work.invoice.invoiceNumber))
    && (forall p :: p in s.published ==> Has(s.invoices, p.1.request.invoiceNumber))
  }

  /** Numbers stay stored while the collection evolves, and what is newly published was saved. */
  lemma NumbersStayStored(s: Broker, t: Broker)
    requires NumbersStored(s) && Evolves(s.invoices, t.invoices)
    requires t.work.Saved? ==> t.work == s.work || Has(t.invoices, t.work.invoice.invoiceNumber)
    requires forall p :: p in t.published ==>
               p in s.published || (s.work.Saved? && p.1.request.invoiceNumber == s.work.invoice.invoiceNumber)
    ensures NumbersStored(t)
  {
    if s.work.Saved? {
      NumberIsStable(s.invoices, t.invoices, s.work.invoice.invoiceNumber);
    }
    forall p | p in t.published
      ensures Has(t.invoices, p.1.request.invoiceNumber)
    {
      if p in s.published {
        NumberIsStable(s.invoices, t.invoices, p.1.request.invoiceNumber);
      }
    }
  }

  lemma InsertedNumberIsStored(docs: seq<Invoice>, invoice: Invoice, fault: InsertFault)
    requires Insert(docs, invoice, fault).err.None?
    ensures Has(Insert(docs, invoice, fault).docs, invoice.invoiceNumber)
  {
    var after := Insert(docs, invoice, fault).docs;
    assert after[|docs|] == StoredInvoice(invoice);
  }

  lemma SaveKeepsNumbers(s: Broker, a: Attempt)
    requires NumbersStored(s) && s.work.Prepared?
    ensures NumbersStored(DoSave(s, a))
  {
    InsertEvolves(s.invoices, s.work.invoice, a.insertFault);
    if Insert(s.invoices, s.work.invoice, a.insertFault).err.None? {
      InsertedNumberIsStored(s.invoices, s.work.invoice, a.insertFault);
    }
    NumbersStayStored(s, DoSave(s, a));
  }

  lemma PublishKeepsNumbers(cfg: Config, s: Broker, a: Attempt)
    requires NumbersStored(s) && s.work.Saved?
    ensures NumbersStored(DoPublish(cfg, s, a))
  {
    NumbersStayStored(s, DoPublish(cfg, s, a));
  }

  lemma PaymentKeepsNumbers(s: Broker, number: string, at: Instant)
    requires NumbersStored(s)
    ensures NumbersStored(s.(invoices := SetStatus(s.invoices, number, PAID, at, None).docs))
  {
    PayingEvolves(s.invoices, number, at, None);
    NumbersStayStored(s, s.(invoices := SetStatus(s.invoices, number, PAID, at, None).docs));
  }

  lemma NextNumbersStored(cfg: Config, inbox: seq<Delivery>, s: Broker, l: Label)
    requires NumbersStored(s)
    ensures NumbersStored(Next(cfg, inbox, s, l))
  {
    hide DoSave, DoPublish, SetStatus;
    match l
    case Effect(a) =>
      if s.work.Prepared? {
        SaveKeepsNumbers(s, a);
      } else if s.work.Saved? {
        PublishKeepsNumbers(cfg, s, a);
      }
    case Payment(number, at) => PaymentKeepsNumbers(s, number, at);
    case _ =>
  }

  lemma {:induction false} PublishedNumbersStored(
    cfg: Config, inbox: seq<Delivery>, trace: seq<Broker>, labels: seq<Label>, k: nat)
    requires IsRun(cfg, inbox, trace, labels) && k < |trace|
    ensures NumbersStored(trace[k])
  {
    if k > 0 {
      PublishedNumbersStored(cfg, inbox, trace, labels, k - 1);
      NextNumbersStored(cfg, inbox, trace[k - 1], labels[k - 1]);
    }
  }

  /**
   In every reachable state, whatever has been redelivered or paid, each published payment request
   has one link, whose path matches the pay route and captures the request's own number, and that
   number denotes a stored invoice.
   */
  lemma PublishedLinkLeadsToStoredInvoice(
    cfg: Config, inbox: seq<Delivery>, trace: seq<Broker>, labels: seq<Label>, k: nat, m: nat, p: Published)
    requires IsRun(cfg, inbox, trace, labels) && k < |trace| && (m, p) in trace[k].published
    requires IsHostUrl(cfg.host)
    ensures |p.request.options| == 1 && p.request.options[0].Some?
    ensures Match(PathOf(p.request.options[0].value.paymentUrl)) == PayWithCardRoute(p.request.invoiceNumber)
    ensures Has(trace[k].invoices, p.request.invoiceNumber)
  {
    hide Match, PathOf;
    PublishedNumbersStored(cfg, inbox, trace, labels, k);
    EveryStateSound(cfg, inbox, trace, labels, k);
    assert PublishedFor(cfg, inbox, (m, p));
    LinkOfPublished(cfg, inbox, m, p);
  }

  lemma LinkOfPublished(cfg: Config, inbox: seq<Delivery>, m: nat, p: Published)
    requires PublishedFor(cfg, inbox, (m, p)) && IsHostUrl(cfg.host)
    ensures |p.request.options| == 1 && p.request.options[0].Some?
    ensures Match(PathOf(p.request.options[0].value.paymentUrl)) == PayWithCardRoute(p.request.invoiceNumber)
  {
    hide Match, PathOf;
    var invoice :| FromMessage(cfg, inbox, m, invoice) && p == PublicationOf(cfg, invoice);
    var a :| Prepare(cfg, inbox[m], a) == Some(invoice);
    PreparedNumber(cfg, inbox[m], a, invoice);
    GeneratedIdShape("INV", a.id);
    PaymentLinkRoundTrip(cfg.host, invoice.invoiceNumber);
  }

  lemma PreparedNumber(cfg: Config, d: Delivery, a: Attempt, invoice: Invoice)
    requires Prepare(cfg, d, a) == Some(invoice)
    ensures Generate("INV", a.id) == Success(invoice.invoiceNumber)
  {
  }
}
