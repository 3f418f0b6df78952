/** Progress of the consumer: when the queue drains, by a measure, and exactly which messages keep it from draining. */
module BrokerDrain {
  import opened Wrappers
  import opened GoText
  import opened Documents
  import opened InvoiceStore
  import opened HumanFriendlyId
  import opened InvoiceConsumer
  import opened BrokerProtocol
  import opened Counting

  // ---------- What is known of the invoice in work ----------

  ghost predicate FromMessage(cfg: Config, inbox: seq<Delivery>, m: nat, invoice: Invoice) {
    m < |inbox| && exists a :: Prepare(cfg, inbox[m], a) == Some(invoice)
  }

  ghost predicate WorkOk(cfg: Config, inbox: seq<Delivery>, s: Broker) {
    match s.work
    case Idle => true
    case Taken(m) => m < |inbox|
    case Prepared(m, invoice) => FromMessage(cfg, inbox, m, invoice)
    case Saved(m, invoice) => FromMessage(cfg, inbox, m, invoice)
    case Settling(m, _) => m < |inbox|
  }

  /** A published payment request is the one of an invoice made from that very message. */
  ghost predicate PublishedFor(cfg: Config, inbox: seq<Delivery>, p: (nat, Published)) {
    exists invoice :: FromMessage(cfg, inbox, p.0, invoice) && p.1 == PublicationOf(cfg, invoice)
  }

  ghost predicate Sound(cfg: Config, inbox: seq<Delivery>, s: Broker) {
    && (forall i :: 0 <= i < |s.ready| ==> s.ready[i] < |inbox|)
    && WorkOk(cfg, inbox, s)
    && (forall p :: p in s.published ==> PublishedFor(cfg, inbox, p))
  }

  lemma NextSound(cfg: Config, inbox: seq<Delivery>, s: Broker, l: Label)
    requires Sound(cfg, inbox, s)
    ensures Sound(cfg, inbox, Next(cfg, inbox, s, l))
  {
    match l
    case Effect(a) =>
      if s.work.Taken? {
        PrepareSound(cfg, inbox, s, a);
      } else if s.work.Prepared? {
        SaveSound(cfg, inbox, s, a);
      } else if s.work.Saved? {
        PublishSound(cfg, inbox, s, a);
      }
    case _ =>
  }

  lemma PrepareSound(cfg: Config, inbox: seq<Delivery>, s: Broker, a: Attempt)
    requires Sound(cfg, inbox, s) && s.work.Taken?
    ensures Sound(cfg, inbox, DoPrepare(cfg, inbox, s, a))
  {
  }

  lemma SaveSound(cfg: Config, inbox: seq<Delivery>, s: Broker, a: Attempt)
    requires Sound(cfg, inbox, s) && s.work.Prepared?
    ensures Sound(cfg, inbox, DoSave(s, a))
  {
  }

  lemma PublishSound(cfg: Config, inbox: seq<Delivery>, s: Broker, a: Attempt)
    requires Sound(cfg, inbox, s) && s.work.Saved?
    ensures Sound(cfg, inbox, DoPublish(cfg, s, a))
  {
    assert PublishedFor(cfg, inbox, (s.work.msg, PublicationOf(cfg, s.work.invoice)));
  }

  lemma {:induction false} EveryStateSound(
    cfg: Config, inbox: seq<Delivery>, trace: seq<Broker>, labels: seq<Label>, k: nat)
    requires IsRun(cfg, inbox, trace, labels) && k < |trace|
    ensures Sound(cfg, inbox, trace[k])
  {
    if k == 0 {
      forall i | 0 <= i < |trace[0].ready|
        ensures trace[0].ready[i] < |inbox|
      {
        CountsItsElements(trace[0].ready, i);
      }
    } else {
      EveryStateSound(cfg, inbox, trace, labels, k - 1);
      NextSound(cfg, inbox, trace[k - 1], labels[k - 1]);
    }
  }

  /**
   The publication repeats the amount, dates, payer and booking of the original request, goes to its
   payer, and offers one link: the pay path under the given host and its own number.
   */
  ghost predicate Repeats(cfg: Config, p: Published, r: CreateInvoiceRequest) {
    var q := p.request;
    && q.total == r.total && q.issuedAt == r.issuedAt && q.expiresAt == r.dueAt
    && q.payer.Some? && r.payer.Some?
    && q.payer.value.name == r.payer.value.name && q.payer.value.email == r.payer.value.email
    && q.booking.Some? && r.booking.Some?
    && q.booking.value.cottageName == r.booking.value.cottageName
    && q.booking.value.nights == r.booking.value.nights
    && q.booking.value.numberOfGuests == r.booking.value.numberOfGuests
    && |q.options| == 1 && q.options[0].Some? && q.options[0].value.method_ == CreditCard
    && q.options[0].value.paymentUrl == cfg.host + "/v1/payments/invoice/" + q.invoiceNumber
    && p.routingKey == "guest." + r.payerId
  }

  lemma PreparedRepeats(cfg: Config, d: Delivery, a: Attempt, invoice: Invoice)
    requires Prepare(cfg, d, a) == Some(invoice)
    ensures Decode(cfg, d).Some?
    ensures NormalizedRequest(Decode(cfg, d).value) ==>
              Repeats(cfg, PublicationOf(cfg, invoice), Decode(cfg, d).value)
  {
    hide RequestChecks;
    var r := Decode(cfg, d).value;
    PreparedKeepsBooking(cfg, d, a, invoice);
    if NormalizedRequest(r) {
      PaymentRequestSaysWhatWasRequested(r, Generate("INV", a.id).value, a.clock.value, cfg.host);
    }
  }

  lemma PreparedKeepsBooking(cfg: Config, d: Delivery, a: Attempt, invoice: Invoice)
    requires Prepare(cfg, d, a) == Some(invoice)
    ensures var r := Decode(cfg, d);
            r.Some? && r.value.bookingId == invoice.bookingId && r.value.payerId == invoice.payerId
  {
    hide RequestChecks;
  }

  /** Every published payment request repeats what its own message asked for. */
  lemma PublishedRepeatsItsMessage(
    cfg: Config, inbox: seq<Delivery>, trace: seq<Broker>, labels: seq<Label>, k: nat, m: nat, p: Published)
    requires IsRun(cfg, inbox, trace, labels) && k < |trace| && (m, p) in trace[k].published
    ensures m < |inbox| && Decode(cfg, inbox[m]).Some?
    ensures NormalizedRequest(Decode(cfg, inbox[m]).value) ==> Repeats(cfg, p, Decode(cfg, inbox[m]).value)
  {
    EveryStateSound(cfg, inbox, trace, labels, k);
    assert PublishedFor(cfg, inbox, (m, p));
    PublishedForRepeats(cfg, inbox, m, p);
  }

  lemma PublishedForRepeats(cfg: Config, inbox: seq<Delivery>, m: nat, p: Published)
    requires PublishedFor(cfg, inbox, (m, p))
    ensures m < |inbox| && Decode(cfg, inbox[m]).Some?
    ensures NormalizedRequest(Decode(cfg, inbox[m]).value) ==> Repeats(cfg, p, Decode(cfg, inbox[m]).value)
  {
    hide Prepare, Repeats, PublicationOf;
    var invoice :| FromMessage(cfg, inbox, m, invoice) && p == PublicationOf(cfg, invoice);
    var a :| Prepare(cfg, inbox[m], a) == Some(invoice);
    PreparedRepeats(cfg, inbox[m], a, invoice);
  }

  lemma {:induction false} CountsItsElements(xs: seq<nat>, i: nat)
    requires i < |xs|
    ensures Count(xs, Is(xs[i])) > 0
  {
    if i > 0 {
      CountsItsElements(xs[1..], i - 1);
    }
  }

  // ---------- Poison ----------

  /** A message the service accepts but whose invoice the store refuses on every attempt. */
  predicate Poison(cfg: Config, d: Delivery) {
    Acceptable(cfg, d) && !Storable(Decode(cfg, d).value)
  }

  /** An invoice made from a message passes the store's checks unless it is poison; its request always passes. */
  lemma PreparedInvoiceChecks(cfg: Config, d: Delivery, a: Attempt, invoice: Invoice)
    requires Prepare(cfg, d, a) == Some(invoice)
    ensures InvoiceChecks(invoice).Pass() <==> !Poison(cfg, d)
    ensures PaymentRequestChecks(BuildPaymentRequest(invoice, cfg.host)).Pass()
    ensures invoice.status == PENDING
  {
    var r := Decode(cfg, d).value;
    var number := Generate("INV", a.id).value;
    GeneratedIdNotBlank("INV", a.id);
    UrlNotBlank(cfg.host, number);
    AcceptedIffComplete(Some(r), number, a.clock.value);
    AcceptedRequestsPassLaterChecks(r, number, a.clock.value, cfg.host);
    InvoiceKeepsWholeRequest(r, number, a.clock.value);
  }

  lemma UrlNotBlank(host: string, number: string)
    ensures !IsBlank(PaymentUrl(host, number))
  {
    var url := PaymentUrl(host, number);
    assert url[|host|] == PAY_PATH[0];
    TextIsNotBlank(url, url[|host|]);
  }

  // ---------- Draining ----------

  predicate NoFaults(a: Attempt) {
    a.insertFault.NoFault? && a.publishFault.None?
  }

  /** The consumer does something in this step. */
  predicate Acts(s: Broker, l: Label) {
    match l
    case Take => s.work.Idle? && s.ready != []
    case Effect(_) => s.work.Taken? || s.work.Prepared? || s.work.Saved?
    case Settle(_, _) => s.work.Settling?
    case Crash(_) => !s.work.Idle?
    case Payment(_, _) => false
  }

  /** And something goes wrong in it: a save or publish fault, a settlement that does not arrive, a crash. */
  predicate GoesWrong(s: Broker, l: Label) {
    Acts(s, l) &&
    match l
    case Effect(a) => !NoFaults(a)
    case Settle(arrives, _) => !arrives
    case Crash(_) => true
    case _ => false
  }

  function Remaining(w: Work): (n: nat)
    ensures n <= 6
  {
    match w
    case Idle => 0
    case Taken(_) => 4
    case Prepared(_, _) => 3
    case Saved(_, _) => 2
    case Settling(_, settlement) => if settlement.Requeue? then 6 else 1
  }

  /** Steps left if nothing more goes wrong. */
  function Potential(s: Broker): nat {
    5 * |s.ready| + Remaining(s.work)
  }

  ghost predicate NoPoison(cfg: Config, inbox: seq<Delivery>) {
    forall m :: 0 <= m < |inbox| ==> !Poison(cfg, inbox[m])
  }

  lemma FaultFreeSaveSucceeds(cfg: Config, inbox: seq<Delivery>, s: Broker, a: Attempt)
    requires s.work.Prepared? && FromMessage(cfg, inbox, s.work.msg, s.work.invoice)
    requires NoPoison(cfg, inbox) && NoFaults(a)
    ensures DoSave(s, a).work == Saved(s.work.msg, s.work.invoice)
  {
    var m, invoice := s.work.msg, s.work.invoice;
    var b :| Prepare(cfg, inbox[m], b) == Some(invoice);
    PreparedInvoiceChecks(cfg, inbox[m], b, invoice);
    InsertionReports(s.invoices, invoice, a.insertFault);
  }

  lemma FaultFreePublishSucceeds(cfg: Config, inbox: seq<Delivery>, s: Broker, a: Attempt)
    requires s.work.Saved? && FromMessage(cfg, inbox, s.work.msg, s.work.invoice) && NoFaults(a)
    ensures DoPublish(cfg, s, a).work == Settling(s.work.msg, Ack)
  {
    var m, invoice := s.work.msg, s.work.invoice;
    var b :| Prepare(cfg, inbox[m], b) == Some(invoice);
    PreparedInvoiceChecks(cfg, inbox[m], b, invoice);
  }

  /** Every step uses up potential, and only a step that goes wrong may give some back. */
  lemma StepsUsePotential(cfg: Config, inbox: seq<Delivery>, s: Broker, l: Label)
    requires Sound(cfg, inbox, s) && NoPoison(cfg, inbox)
    ensures Potential(Next(cfg, inbox, s, l)) + One(Acts(s, l)) <= Potential(s) + 5 * One(GoesWrong(s, l))
  {
    hide DoSave, DoPublish, DoPrepare;
    match l
    case Effect(a) =>
      if s.work.Taken? {
        PrepareUsesPotential(cfg, inbox, s, a);
      } else if s.work.Prepared? {
        SaveUsesPotential(cfg, inbox, s, a);
      } else if s.work.Saved? {
        PublishUsesPotential(cfg, inbox, s, a);
      }
    case Settle(arrives, position) =>
      if s.work.Settling? {
        SettleUsesPotential(s, arrives, position);
      }
    case Crash(position) =>
      if !s.work.Idle? {
        CrashUsesPotential(s, position);
      }
    case Take =>
    case Payment(_, _) =>
  }

  lemma PrepareUsesPotential(cfg: Config, inbox: seq<Delivery>, s: Broker, a: Attempt)
    requires s.work.Taken? && s.work.msg < |inbox|
    ensures Potential(DoPrepare(cfg, inbox, s, a)) + 1 <= Potential(s)
  {
    hide Prepare;
  }

  lemma SettleUsesPotential(s: Broker, arrives: bool, position: nat)
    requires s.work.Settling?
    ensures Potential(DoSettle(s, arrives, position)) + 1 <= Potential(s) + 5 * One(!arrives)
  {
  }

  lemma CrashUsesPotential(s: Broker, position: nat)
    requires !s.work.Idle?
    ensures Potential(DoCrash(s, position)) + 1 <= Potential(s) + 5
  {
  }

  lemma SavingDrops(s: Broker, t: Broker)
    requires t.ready == s.ready && s.work.Prepared? && t.work.Saved?
    ensures Potential(t) + 1 <= Potential(s)
  {
  }

  lemma AckingDrops(s: Broker, t: Broker)
    requires t.ready == s.ready && s.work.Saved? && t.work.Settling? && t.work.settlement.Ack?
    ensures Potential(t) + 1 <= Potential(s)
  {
  }

  lemma FaultCostsFive(s: Broker, t: Broker)
    requires t.ready == s.ready && (s.work.Prepared? || s.work.Saved?)
    ensures Potential(t) + 1 <= Potential(s) + 5
  {
  }

  lemma SaveUsesPotential(cfg: Config, inbox: seq<Delivery>, s: Broker, a: Attempt)
    requires s.work.Prepared? && FromMessage(cfg, inbox, s.work.msg, s.work.invoice) && NoPoison(cfg, inbox)
    ensures Potential(DoSave(s, a)) + 1 <= Potential(s) + 5 * One(!NoFaults(a))
  {
    if NoFaults(a) {
      FaultFreeSaveSucceeds(cfg, inbox, s, a);
      SavingDrops(s, DoSave(s, a));
    } else {
      FaultCostsFive(s, DoSave(s, a));
    }
  }

  lemma PublishUsesPotential(cfg: Config, inbox: seq<Delivery>, s: Broker, a: Attempt)
    requires s.work.Saved? && FromMessage(cfg, inbox, s.work.msg, s.work.invoice)
    ensures Potential(DoPublish(cfg, s, a)) + 1 <= Potential(s) + 5 * One(!NoFaults(a))
  {
    if NoFaults(a) {
      FaultFreePublishSucceeds(cfg, inbox, s, a);
      AckingDrops(s, DoPublish(cfg, s, a));
    } else {
      FaultCostsFive(s, DoPublish(cfg, s, a));
    }
  }

  ghost function ActingSteps(trace: seq<Broker>, labels: seq<Label>, n: nat): nat
    requires |trace| == |labels| + 1 && n <= |labels|
  {
    if n == 0 then 0 else ActingSteps(trace, labels, n - 1) + One(Acts(trace[n - 1], labels[n - 1]))
  }

  ghost function WrongSteps(trace: seq<Broker>, labels: seq<Label>, n: nat): nat
    requires |trace| == |labels| + 1 && n <= |labels|
  {
    if n == 0 then 0 else WrongSteps(trace, labels, n - 1) + One(GoesWrong(trace[n - 1], labels[n - 1]))
  }

  ghost predicate Drained(s: Broker) {
    s.work.Idle? && s.ready == []
  }

  lemma {:induction false} StepsAreBounded(
    cfg: Config, inbox: seq<Delivery>, trace: seq<Broker>, labels: seq<Label>, n: nat)
    requires IsRun(cfg, inbox, trace, labels) && n <= |labels| && NoPoison(cfg, inbox)
    ensures Potential(trace[n]) + ActingSteps(trace, labels, n)
            <= 5 * |trace[0].ready| + 5 * WrongSteps(trace, labels, n)
  {
    if n > 0 {
      StepsAreBounded(cfg, inbox, trace, labels, n - 1);
      EveryStateSound(cfg, inbox, trace, labels, n - 1);
      StepsUsePotential(cfg, inbox, trace[n - 1], labels[n - 1]);
    }
  }

  /**
   The consumer drains. Without poison, a run of n messages in which f steps go wrong takes at most
   5n + 5f consumer steps; one that can take no further step has acked or dropped every message;
   and as long as the queue is not drained a further step is possible.
   */
  lemma ConsumerDrains(cfg: Config, inbox: seq<Delivery>, trace: seq<Broker>, labels: seq<Label>, n: nat, a: Attempt)
    requires IsRun(cfg, inbox, trace, labels) && n <= |labels| && NoPoison(cfg, inbox)
    ensures ActingSteps(trace, labels, n) <= 5 * |trace[0].ready| + 5 * WrongSteps(trace, labels, n)
    ensures Drained(trace[n]) ==>
              forall m: nat :: m < |inbox| ==>
                Count(trace[n].acked, Is(m)) + Count(trace[n].dropped, Is(m)) == 1
    ensures !Drained(trace[n]) ==>
              Acts(trace[n], Take) || Acts(trace[n], Effect(a)) || Acts(trace[n], Settle(true, 0))
  {
    StepsAreBounded(cfg, inbox, trace, labels, n);
    if Drained(trace[n]) {
      forall m: nat | m < |inbox|
        ensures Count(trace[n].acked, Is(m)) + Count(trace[n].dropped, Is(m)) == 1
      {
        EveryMessageAccounted(cfg, inbox, trace, labels, n, m);
      }
    }
  }

  // ---------- Poison never settles ----------

  /** The message is waiting, or in work and not about to be settled for good. */
  ghost predicate Stuck(s: Broker, m: nat) {
    m in s.ready || (InWork(s, m) && !s.work.Saved? && (s.work.Settling? ==> s.work.settlement.Requeue?))
  }

  /** Attempts whose clock and random sources answer; a failure of these drops the message. */
  predicate Answers(l: Label) {
    l.Effect? ==> Answering(l.attempt)
  }

  lemma PoisonStaysStuckInEffect(cfg: Config, inbox: seq<Delivery>, s: Broker, a: Attempt, m: nat)
    requires m < |inbox| && Poison(cfg, inbox[m]) && Sound(cfg, inbox, s) && Stuck(s, m) && Answers(Effect(a))
    ensures Stuck(Next(cfg, inbox, s, Effect(a)), m)
  {
    if InWork(s, m) && s.work.Taken? {
      PoisonIsPrepared(cfg, inbox[m], a);
    } else if InWork(s, m) && s.work.Prepared? {
      PoisonIsRequeued(cfg, inbox, s, a);
    }
  }

  lemma PoisonStaysStuck(cfg: Config, inbox: seq<Delivery>, s: Broker, l: Label, m: nat)
    requires m < |inbox| && Poison(cfg, inbox[m]) && Sound(cfg, inbox, s) && Stuck(s, m) && Answers(l)
    ensures Stuck(Next(cfg, inbox, s, l), m)
  {
    match l
    case Take =>
      if s.work.Idle? && s.ready != [] {
        assert m == s.ready[0] || m in s.ready[1..];
      }
    case Effect(a) => PoisonStaysStuckInEffect(cfg, inbox, s, a, m);
    case Settle(_, position) => MembersSurvivePutBack(s, position, m);
    case Crash(position) => MembersSurvivePutBack(s, position, m);
    case Payment(_, _) =>
  }

  lemma MembersSurvivePutBack(s: Broker, position: nat, m: nat)
    ensures m in s.ready && !s.work.Idle? ==> m in PutBack(s.ready, position, s.work.msg)
    ensures InWork(s, m) ==> m in PutBack(s.ready, position, s.work.msg)
  {
    if position <= |s.ready| {
      assert s.ready == s.ready[..position] + s.ready[position..];
    }
  }

  lemma PoisonIsPrepared(cfg: Config, d: Delivery, a: Attempt)
    requires Poison(cfg, d) && Answering(a)
    ensures Prepare(cfg, d, a).Some?
  {
    PreparedIffAcceptable(cfg, d, a);
  }

  lemma PoisonIsRequeued(cfg: Config, inbox: seq<Delivery>, s: Broker, a: Attempt)
    requires s.work.Prepared? && FromMessage(cfg, inbox, s.work.msg, s.work.invoice)
    requires Poison(cfg, inbox[s.work.msg])
    ensures DoSave(s, a) == s.(work := Settling(s.work.msg, Requeue))
  {
    var m, invoice := s.work.msg, s.work.invoice;
    var b :| Prepare(cfg, inbox[m], b) == Some(invoice);
    PreparedInvoiceChecks(cfg, inbox[m], b, invoice);
    RefusedSaveRequeues(s, a);
  }

  lemma RefusedSaveRequeues(s: Broker, a: Attempt)
    requires s.work.Prepared? && !InvoiceChecks(s.work.invoice).Pass()
    ensures DoSave(s, a) == s.(work := Settling(s.work.msg, Requeue))
  {
    InsertionReports(s.invoices, s.work.invoice, a.insertFault);
    RefusalRequeues(s.work.invoice);
  }

  lemma RefusalRequeues(invoice: Invoice)
    requires !InvoiceChecks(invoice).Pass()
    ensures SettleFailedSave(SaveError(InvoiceChecks(invoice).Verdict().value)) == Requeue
  {
    RefusalIsNotAlreadyExists(invoice);
  }

  /**
   A poison message is never acked or dropped, in no run in which clock and random sources answer,
   however long: the queue never drains.
   */
  lemma {:induction false} PoisonNeverSettles(
    cfg: Config, inbox: seq<Delivery>, trace: seq<Broker>, labels: seq<Label>, n: nat, m: nat)
    requires IsRun(cfg, inbox, trace, labels) && n < |trace|
    requires m < |inbox| && Poison(cfg, inbox[m])
    requires forall q :: 0 <= q < n ==> Answers(labels[q])
    ensures Stuck(trace[n], m) && !Drained(trace[n])
  {
    if n == 0 {
      CountedIsMember(trace[0].ready, m);
    } else {
      PoisonNeverSettles(cfg, inbox, trace, labels, n - 1, m);
      EveryStateSound(cfg, inbox, trace, labels, n - 1);
      PoisonStaysStuck(cfg, inbox, trace[n - 1], labels[n - 1], m);
    }
  }

  lemma {:induction false} CountedIsMember(xs: seq<nat>, m: nat)
    requires Count(xs, Is(m)) > 0
    ensures m in xs
  {
    if xs[0] != m {
      CountedIsMember(xs[1..], m);
    }
  }
}
