/**
 The payment protocol and the consumer over one invoices collection. A step of either is, for the
 other, what it does to the collection: a save is a delivery that adds an invoice, a write of `paid`
 is a payment, and every other step is none of the other's business.
 */
module EndToEnd {
  import opened Wrappers
  import opened GoTime
  import opened Documents
  import opened InvoiceStore
  import opened InvoiceConsumer
  import opened PaymentSafety
  import opened BrokerDrain
  import P = PaymentProtocol
  import B = BrokerProtocol
  import O = PaymentOverlap

  datatype Whole = Whole(system: P.System, broker: B.Broker)

  datatype Label = Customer(pay: P.Label) | Consumer(consume: B.Label)

  // ---------- One step, as each side sees it ----------

  /** A step of a call that does not exist. */
  function NoCallMoves(s: P.System): P.Label {
    P.Step(|s.calls|, O.Lenient(0, ZERO_INSTANT))
  }

  /** A write that the store's checks refuse. */
  const NOTHING_PAID := B.Payment("", ZERO_INSTANT)

  function ForPayments(w: Whole, l: Label): P.Label {
    match l
    case Customer(pay) => if pay.AddInvoice? then NoCallMoves(w.system) else pay
    case Consumer(consume) =>
      if consume.Effect? && w.broker.work.Prepared?
      then P.AddInvoice(w.broker.work.invoice, consume.attempt.insertFault)
      else NoCallMoves(w.system)
  }

  predicate Writes(s: P.System, l: P.Label) {
    && l.Step? && l.call < |s.calls| && s.calls[l.call].at.Admitted?
    && !l.env.killed && l.env.dbFault.None?
  }

  function ForConsumer(w: Whole, l: Label): B.Label {
    match l
    case Customer(pay) =>
      if Writes(w.system, pay)
      then B.Payment(w.system.calls[pay.call].Number(), w.system.calls[pay.call].at.now)
      else NOTHING_PAID
    case Consumer(consume) => if consume.Payment? then NOTHING_PAID else consume
  }

  function Next(failChance: int, cfg: Config, inbox: seq<Delivery>, w: Whole, l: Label): Whole {
    Whole(P.Next(failChance, w.system, ForPayments(w, l)), B.Next(cfg, inbox, w.broker, ForConsumer(w, l)))
  }

  predicate SharesStore(w: Whole) {
    w.system.world.invoices == w.broker.invoices
  }

  ghost predicate IsRun(
    failChance: int, cfg: Config, inbox: seq<Delivery>, trace: seq<Whole>, labels: seq<Label>)
  {
    && |trace| == |labels| + 1
    && P.Init(trace[0].system) && B.Init(inbox, trace[0].broker) && SharesStore(trace[0])
    && forall k {:trigger Next(failChance, cfg, inbox, trace[k], labels[k])} ::
         0 <= k < |labels| ==> trace[k + 1] == Next(failChance, cfg, inbox, trace[k], labels[k])
  }

  // ---------- The two sides keep one store ----------

  lemma NothingPaidChangesNothing(docs: seq<Invoice>)
    ensures SetStatus(docs, "", PAID, ZERO_INSTANT, None).docs == docs
  {
    PayingMarksThatInvoice(docs, "", ZERO_INSTANT, None);
  }

  /** What a step of a call does to the collection: a payment if it writes, else nothing. */
  lemma CallStepOnStore(failChance: int, s: P.System, i: nat, env: P.Environment)
    requires i < |s.calls|
    ensures var c := s.calls[i];
            P.Next(failChance, s, P.Step(i, env)).world.invoices
            == if Writes(s, P.Step(i, env)) then SetStatus(s.world.invoices, c.Number(), PAID, c.at.now, None).docs
               else s.world.invoices
  {
    hide SetStatus;
    AdvanceEffect(failChance, s.world, s.calls[i], env);
    if s.calls[i].at.Admitted? && !env.killed {
      PayingMarksThatInvoice(s.world.invoices, s.calls[i].Number(), s.calls[i].at.now, env.dbFault);
    }
  }

  lemma CustomerSharesStore(failChance: int, cfg: Config, inbox: seq<Delivery>, w: Whole, pay: P.Label)
    requires SharesStore(w)
    ensures SharesStore(Next(failChance, cfg, inbox, w, Customer(pay)))
  {
    hide SetStatus, P.Advance;
    NothingPaidChangesNothing(w.broker.invoices);
    if pay.Step? && pay.call < |w.system.calls| {
      CallStepOnStore(failChance, w.system, pay.call, pay.env);
    }
  }

  /** What a step of the consumer does to the collection: an insertion if it saves, else nothing. */
  lemma ConsumerStepOnStore(cfg: Config, inbox: seq<Delivery>, s: B.Broker, l: B.Label)
    requires !l.Payment?
    ensures B.Next(cfg, inbox, s, l).invoices
            == if l.Effect? && s.work.Prepared? then Insert(s.invoices, s.work.invoice, l.attempt.insertFault).docs
               else s.invoices
  {
    hide Insert, Prepare, PublishError;
  }

  lemma ConsumerSharesStore(failChance: int, cfg: Config, inbox: seq<Delivery>, w: Whole, consume: B.Label)
    requires SharesStore(w)
    ensures SharesStore(Next(failChance, cfg, inbox, w, Consumer(consume)))
  {
    hide SetStatus, P.Advance, Insert, B.DoSave, B.DoPrepare, B.DoPublish;
    if consume.Payment? {
      NothingPaidChangesNothing(w.broker.invoices);
    } else {
      ConsumerStepOnStore(cfg, inbox, w.broker, consume);
    }
  }

  lemma {:induction false} OneStore(
    failChance: int, cfg: Config, inbox: seq<Delivery>, trace: seq<Whole>, labels: seq<Label>, k: nat)
    requires IsRun(failChance, cfg, inbox, trace, labels) && k < |trace|
    ensures SharesStore(trace[k])
  {
    hide P.Next, B.Next;
    if k > 0 {
      OneStore(failChance, cfg, inbox, trace, labels, k - 1);
      match labels[k - 1]
      case Customer(pay) => CustomerSharesStore(failChance, cfg, inbox, trace[k - 1], pay);
      case Consumer(consume) => ConsumerSharesStore(failChance, cfg, inbox, trace[k - 1], consume);
    }
  }

  // ---------- Each side is a run of its own protocol ----------

  function Systems(trace: seq<Whole>): seq<P.System> {
    seq(|trace|, k requires 0 <= k < |trace| => trace[k].system)
  }

  function Brokers(trace: seq<Whole>): seq<B.Broker> {
    seq(|trace|, k requires 0 <= k < |trace| => trace[k].broker)
  }

  function PaymentLabels(trace: seq<Whole>, labels: seq<Label>): seq<P.Label>
    requires |trace| == |labels| + 1
  {
    seq(|labels|, k requires 0 <= k < |labels| => ForPayments(trace[k], labels[k]))
  }

  function ConsumerLabels(trace: seq<Whole>, labels: seq<Label>): seq<B.Label>
    requires |trace| == |labels| + 1
  {
    seq(|labels|, k requires 0 <= k < |labels| => ForConsumer(trace[k], labels[k]))
  }

  /** So every theorem about runs of payments, and every one about runs of the consumer, holds of the whole. */
  lemma SidesAreRuns(failChance: int, cfg: Config, inbox: seq<Delivery>, trace: seq<Whole>, labels: seq<Label>)
    requires IsRun(failChance, cfg, inbox, trace, labels)
    ensures P.IsRun(failChance, Systems(trace), PaymentLabels(trace, labels))
    ensures B.IsRun(cfg, inbox, Brokers(trace), ConsumerLabels(trace, labels))
    ensures forall k :: 0 <= k < |trace| ==> SharesStore(trace[k])
  {
    hide P.Next, B.Next, ForPayments, ForConsumer;
    forall k | 0 <= k < |labels|
      ensures Systems(trace)[k + 1] == P.Next(failChance, Systems(trace)[k], PaymentLabels(trace, labels)[k])
      ensures Brokers(trace)[k + 1] == B.Next(cfg, inbox, Brokers(trace)[k], ConsumerLabels(trace, labels)[k])
    {
      assert trace[k + 1] == Next(failChance, cfg, inbox, trace[k], labels[k]);
    }
    forall k | 0 <= k < |trace|
      ensures SharesStore(trace[k])
    {
      OneStore(failChance, cfg, inbox, trace, labels, k);
    }
  }

  // ---------- Which message created an invoice ----------

  /** All invoices added since there were `base` were made from the messages recorded for them. */
  ghost predicate Made(cfg: Config, inbox: seq<Delivery>, base: nat, w: Whole) {
    && |w.system.created| == base + |w.broker.stored|
    && forall k :: 0 <= k < |w.broker.stored| ==>
         FromMessage(cfg, inbox, w.broker.stored[k], w.system.created[base + k])
  }

  /** A save adds to both records or to neither; no other step touches them. */
  lemma RecordsGrowTogether(failChance: int, cfg: Config, inbox: seq<Delivery>, w: Whole, l: Label)
    requires SharesStore(w)
    ensures var t := Next(failChance, cfg, inbox, w, l);
            (t.system.created == w.system.created && t.broker.stored == w.broker.stored)
            || (&& w.broker.work.Prepared?
                && t.system.created == w.system.created + [w.broker.work.invoice]
                && t.broker.stored == w.broker.stored + [w.broker.work.msg])
  {
    hide P.Advance, Insert, SetStatus, Prepare, PublishError;
  }

  lemma {:induction false} EveryInvoiceWasMade(
    failChance: int, cfg: Config, inbox: seq<Delivery>, trace: seq<Whole>, labels: seq<Label>, k: nat)
    requires IsRun(failChance, cfg, inbox, trace, labels) && k < |trace|
    ensures Made(cfg, inbox, |trace[0].system.created|, trace[k])
  {
    hide P.Next, B.Next, FromMessage;
    if k > 0 {
      EveryInvoiceWasMade(failChance, cfg, inbox, trace, labels, k - 1);
      OneStore(failChance, cfg, inbox, trace, labels, k - 1);
      RecordsGrowTogether(failChance, cfg, inbox, trace[k - 1], labels[k - 1]);
      WorkIsFromMessage(failChance, cfg, inbox, trace, labels, k - 1);
    }
  }

  lemma WorkIsFromMessage(
    failChance: int, cfg: Config, inbox: seq<Delivery>, trace: seq<Whole>, labels: seq<Label>, k: nat)
    requires IsRun(failChance, cfg, inbox, trace, labels) && k < |trace|
    ensures var work := trace[k].broker.work;
            work.Prepared? ==> FromMessage(cfg, inbox, work.msg, work.invoice)
  {
    hide FromMessage, IsRun;
    SidesAreRuns(failChance, cfg, inbox, trace, labels);
    EveryStateSound(cfg, inbox, Brokers(trace), ConsumerLabels(trace, labels), k);
  }

  // ---------- End to end ----------

  /** The invoice carries the booking and the payer of the request in its message. */
  predicate AskedBy(cfg: Config, inbox: seq<Delivery>, m: nat, bookingId: string, payerId: string) {
    && m < |inbox| && Decode(cfg, inbox[m]).Some?
    && Decode(cfg, inbox[m]).value.bookingId == bookingId
    && Decode(cfg, inbox[m]).value.payerId == payerId
  }

  lemma MessageAskedForInvoice(cfg: Config, inbox: seq<Delivery>, m: nat, invoice: Invoice)
    requires FromMessage(cfg, inbox, m, invoice)
    ensures AskedBy(cfg, inbox, m, invoice.bookingId, invoice.payerId)
  {
    var a :| Prepare(cfg, inbox[m], a) == Some(invoice);
    PreparedKeepsBooking(cfg, inbox[m], a, invoice);
  }

  lemma ConfirmationIsBacked(
    failChance: int, cfg: Config, inbox: seq<Delivery>, trace: seq<Whole>, labels: seq<Label>, k: nat, x: P.Sent)
    requires IsRun(failChance, cfg, inbox, trace, labels) && k < |trace|
    requires x in trace[k].system.world.confirmations
    ensures Backed(trace[k].system, x)
  {
    hide IsRun, Backed;
    SidesAreRuns(failChance, cfg, inbox, trace, labels);
    EveryStateGood(failChance, Systems(trace), PaymentLabels(trace, labels), k);
    assert Systems(trace)[k] == trace[k].system;
  }

  /**
   From the queue to the confirmation, under any interleaving of calls, attempts, redeliveries and
   crashes: a confirmation names a paid invoice of the shared store. If that invoice was not there to
   begin with, it was stored for one message of the queue, and the confirmation's booking, payer and
   routing key are those of the request in that message.
   */
  lemma ConfirmationNamesItsMessage(
    failChance: int, cfg: Config, inbox: seq<Delivery>, trace: seq<Whole>, labels: seq<Label>, k: nat, x: P.Sent)
    returns (i: nat)
    requires IsRun(failChance, cfg, inbox, trace, labels) && k < |trace|
    requires x in trace[k].system.world.confirmations
    ensures var docs, base := trace[k].broker.invoices, |trace[0].system.created|;
            && i == ByNumber(docs, x.confirmation.invoiceNumber) < |docs| && IsPaid(docs[i])
            && x.routingKey == "booking." + x.confirmation.bookingId + ".confirmation"
            && (i >= base ==>
                  && i - base < |trace[k].broker.stored|
                  && AskedBy(cfg, inbox, trace[k].broker.stored[i - base],
                             x.confirmation.bookingId, x.confirmation.payerId))
  {
    hide IsRun, FromMessage, AskedBy;
    var base := |trace[0].system.created|;
    i := ByNumber(trace[k].broker.invoices, x.confirmation.invoiceNumber);
    OneStore(failChance, cfg, inbox, trace, labels, k);
    ConfirmationIsBacked(failChance, cfg, inbox, trace, labels, k, x);
    EveryInvoiceWasMade(failChance, cfg, inbox, trace, labels, k);
    if i >= base {
      MessageAskedForInvoice(cfg, inbox, trace[k].broker.stored[i - base], trace[k].system.created[i]);
    }
  }
}
