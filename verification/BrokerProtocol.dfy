/**
 The consumer against a broker that redelivers: messages wait in a queue, one is in work at a time,
 and a requeued, lost or crashed attempt puts its message back somewhere in the queue. An attempt
 advances by one effect per step, so a crash can fall between any two of them, and payments change
 the same invoices meanwhile.
 */
module BrokerProtocol {
  import opened Wrappers
  import opened Errors
  import opened GoTime
  import opened Documents
  import opened InvoiceStore
  import opened InvoiceConsumer
  import opened Counting

  // ---------- State ----------

  datatype Work =
    | Idle
    | Taken(msg: nat)
    | Prepared(msg: nat, invoice: Invoice)
    | Saved(msg: nat, invoice: Invoice)
    | Settling(msg: nat, settlement: Settlement)

  /**
   `stored`, `published`, `abandoned` and `unacknowledged` record, by message, the stored invoices,
   the published requests, the attempts that failed after storing, and the acks that never arrived.
   */
  datatype Broker = Broker(
    ready: seq<nat>, work: Work, acked: seq<nat>, dropped: seq<nat>,
    invoices: seq<Invoice>, stored: seq<nat>, published: seq<(nat, Published)>,
    abandoned: seq<nat>, unacknowledged: seq<nat>)

  datatype Label =
    | Take
    | Effect(attempt: Attempt)
    | Settle(arrives: bool, position: nat)
    | Crash(position: nat)
    | Payment(number: string, at: Instant)

  function PutBack(ready: seq<nat>, position: nat, m: nat): seq<nat> {
    if position <= |ready| then ready[..position] + [m] + ready[position..] else ready + [m]
  }

  // ---------- Steps ----------

  function DoTake(s: Broker): Broker {
    if s.work.Idle? && s.ready != [] then s.(work := Taken(s.ready[0]), ready := s.ready[1..]) else s
  }

  function DoPrepare(cfg: Config, inbox: seq<Delivery>, s: Broker, a: Attempt): Broker
    requires s.work.Taken? && s.work.msg < |inbox|
  {
    match Prepare(cfg, inbox[s.work.msg], a)
    case None => s.(work := Settling(s.work.msg, Drop))
    case Some(invoice) => s.(work := Prepared(s.work.msg, invoice))
  }

  function DoSave(s: Broker, a: Attempt): (t: Broker)
    requires s.work.Prepared?
    ensures t.ready == s.ready
  {
    var m, r := s.work.msg, Insert(s.invoices, s.work.invoice, a.insertFault);
    var kept := if |r.docs| > |s.invoices| then [m] else [];
    match r.err
    case None => s.(invoices := r.docs, stored := s.stored + kept, work := Saved(m, s.work.invoice))
    case Some(e) =>
      s.(invoices := r.docs, stored := s.stored + kept, abandoned := s.abandoned + kept,
         work := Settling(m, SettleFailedSave(SaveError(e))))
  }

  function DoPublish(cfg: Config, s: Broker, a: Attempt): (t: Broker)
    requires s.work.Saved?
    ensures t.ready == s.ready
  {
    var m := s.work.msg;
    match PublishError(cfg, s.work.invoice, a.publishFault)
    case Some(e) => s.(abandoned := s.abandoned + [m], work := Settling(m, SettleFailedPublish(e)))
    case None =>
      s.(published := s.published + [(m, PublicationOf(cfg, s.work.invoice))], work := Settling(m, Ack))
  }

  function DoSettle(s: Broker, arrives: bool, position: nat): Broker
    requires s.work.Settling?
  {
    var m := s.work.msg;
    if arrives && s.work.settlement.Ack? then s.(acked := s.acked + [m], work := Idle)
    else if arrives && s.work.settlement.Drop? then s.(dropped := s.dropped + [m], work := Idle)
    else
      s.(ready := PutBack(s.ready, position, m), work := Idle,
         unacknowledged := s.unacknowledged + if s.work.settlement.Ack? then [m] else [])
  }

  function DoCrash(s: Broker, position: nat): Broker
    requires !s.work.Idle?
  {
    var m := s.work.msg;
    s.(ready := PutBack(s.ready, position, m), work := Idle,
       abandoned := s.abandoned + (if s.work.Saved? then [m] else []),
       unacknowledged := s.unacknowledged + if s.work == Settling(m, Ack) then [m] else [])
  }

  function Next(cfg: Config, inbox: seq<Delivery>, s: Broker, l: Label): Broker {
    match l
    case Take => DoTake(s)
    case Effect(a) =>
      if s.work.Taken? && s.work.msg < |inbox| then DoPrepare(cfg, inbox, s, a)
      else if s.work.Prepared? then DoSave(s, a)
      else if s.work.Saved? then DoPublish(cfg, s, a)
      else s
    case Settle(arrives, position) => if s.work.Settling? then DoSettle(s, arrives, position) else s
    case Crash(position) => if s.work.Idle? then s else DoCrash(s, position)
    case Payment(number, at) => s.(invoices := SetStatus(s.invoices, number, PAID, at, None).docs)
  }

  /** Every message of the inbox waits exactly once; nothing has happened yet. */
  ghost predicate Init(inbox: seq<Delivery>, s: Broker) {
    && (forall m: nat :: Count(s.ready, Is(m)) == One(m < |inbox|))
    && s.work == Idle && s.acked == s.dropped == s.stored == s.abandoned == s.unacknowledged == []
    && s.published == []
  }

  ghost predicate IsRun(cfg: Config, inbox: seq<Delivery>, trace: seq<Broker>, labels: seq<Label>) {
    && |trace| == |labels| + 1
    && Init(inbox, trace[0])
    && forall k {:trigger Next(cfg, inbox, trace[k], labels[k])} ::
         0 <= k < |labels| ==> trace[k + 1] == Next(cfg, inbox, trace[k], labels[k])
  }

  // ---------- Conservation ----------

  function Is(m: nat): nat -> bool {
    (n: nat) => n == m
  }

  function IsFor(m: nat): ((nat, Published)) -> bool {
    (p: (nat, Published)) => p.0 == m
  }

  predicate InWork(s: Broker, m: nat) {
    !s.work.Idle? && s.work.msg == m
  }

  /** The message is in exactly one place, and its effects add up. */
  ghost predicate Accounted(inbox: seq<Delivery>, s: Broker, m: nat) {
    && Count(s.ready, Is(m)) + One(InWork(s, m)) + Count(s.acked, Is(m)) + Count(s.dropped, Is(m))
       == One(m < |inbox|)
    && Count(s.published, IsFor(m))
       == Count(s.acked, Is(m)) + Count(s.unacknowledged, Is(m)) + One(s.work == Settling(m, Ack))
    && Count(s.stored, Is(m))
       == Count(s.published, IsFor(m)) + Count(s.abandoned, Is(m)) + One(s.work.Saved? && s.work.msg == m)
  }

  lemma CountPutBack(ready: seq<nat>, position: nat, m: nat, n: nat)
    ensures Count(PutBack(ready, position, m), Is(n)) == Count(ready, Is(n)) + One(m == n)
  {
    if position <= |ready| {
      assert ready == ready[..position] + ready[position..];
      CountConcat(ready[..position], ready[position..], Is(n));
      CountConcat(ready[..position] + [m], ready[position..], Is(n));
      CountAppend(ready[..position], m, Is(n));
    } else {
      CountAppend(ready, m, Is(n));
    }
  }

  lemma AppendMaybe(xs: seq<nat>, m: nat, b: bool, n: nat)
    ensures Count(xs + (if b then [m] else []), Is(n)) == Count(xs, Is(n)) + One(b && m == n)
  {
    CountConcat(xs, if b then [m] else [], Is(n));
  }

  lemma TakeAccounted(inbox: seq<Delivery>, s: Broker, n: nat)
    requires Accounted(inbox, s, n)
    ensures Accounted(inbox, DoTake(s), n)
  {
    if s.work.Idle? && s.ready != [] {
      assert Count(s.ready, Is(n)) == One(s.ready[0] == n) + Count(s.ready[1..], Is(n));
    }
  }

  /** An insertion stores one document or none, and one whenever it reports no error. */
  lemma InsertionGrowth(docs: seq<Invoice>, invoice: Invoice, fault: InsertFault)
    ensures var r := Insert(docs, invoice, fault);
            && (r.docs == docs || r.docs == docs + [StoredInvoice(invoice)])
            && (r.err.None? ==> r.docs == docs + [StoredInvoice(invoice)])
  {
  }

  lemma SaveAccounted(inbox: seq<Delivery>, s: Broker, a: Attempt, n: nat)
    requires Accounted(inbox, s, n) && s.work.Prepared?
    ensures Accounted(inbox, DoSave(s, a), n)
  {
    var m, r := s.work.msg, Insert(s.invoices, s.work.invoice, a.insertFault);
    InsertionGrowth(s.invoices, s.work.invoice, a.insertFault);
    AppendMaybe(s.stored, m, |r.docs| > |s.invoices|, n);
    AppendMaybe(s.abandoned, m, |r.docs| > |s.invoices|, n);
    if r.err.Some? {
      FailedSaveNeverAcks(r.err.value);
    }
  }

  lemma FailedSaveNeverAcks(e: Error)
    ensures SettleFailedSave(SaveError(e)) != Ack
  {
  }

  lemma PublishAccounted(cfg: Config, inbox: seq<Delivery>, s: Broker, a: Attempt, n: nat)
    requires Accounted(inbox, s, n) && s.work.Saved?
    ensures Accounted(inbox, DoPublish(cfg, s, a), n)
  {
    hide PublishError, PublicationOf;
    var m := s.work.msg;
    CountAppend(s.abandoned, m, Is(n));
    CountAppend(s.published, (m, PublicationOf(cfg, s.work.invoice)), IsFor(n));
  }

  lemma SettleAccounted(inbox: seq<Delivery>, s: Broker, arrives: bool, position: nat, n: nat)
    requires Accounted(inbox, s, n) && s.work.Settling?
    ensures Accounted(inbox, DoSettle(s, arrives, position), n)
  {
    var m := s.work.msg;
    if arrives && s.work.settlement.Ack? {
      CountAppend(s.acked, m, Is(n));
    } else if arrives && s.work.settlement.Drop? {
      CountAppend(s.dropped, m, Is(n));
    } else {
      CountPutBack(s.ready, position, m, n);
      AppendMaybe(s.unacknowledged, m, s.work.settlement.Ack?, n);
    }
  }

  lemma CrashAccounted(inbox: seq<Delivery>, s: Broker, position: nat, n: nat)
    requires Accounted(inbox, s, n) && !s.work.Idle?
    ensures Accounted(inbox, DoCrash(s, position), n)
  {
    var m := s.work.msg;
    CountPutBack(s.ready, position, m, n);
    AppendMaybe(s.abandoned, m, s.work.Saved?, n);
    AppendMaybe(s.unacknowledged, m, s.work == Settling(m, Ack), n);
  }

  lemma PrepareAccounted(cfg: Config, inbox: seq<Delivery>, s: Broker, a: Attempt, n: nat)
    requires Accounted(inbox, s, n) && s.work.Taken? && s.work.msg < |inbox|
    ensures Accounted(inbox, DoPrepare(cfg, inbox, s, a), n)
  {
  }

  lemma EffectAccounted(cfg: Config, inbox: seq<Delivery>, s: Broker, a: Attempt, n: nat)
    requires Accounted(inbox, s, n)
    ensures Accounted(inbox, Next(cfg, inbox, s, Effect(a)), n)
  {
    if s.work.Taken? && s.work.msg < |inbox| {
      PrepareAccounted(cfg, inbox, s, a, n);
    } else if s.work.Prepared? {
      SaveAccounted(inbox, s, a, n);
    } else if s.work.Saved? {
      PublishAccounted(cfg, inbox, s, a, n);
    }
  }

  lemma NextAccounted(cfg: Config, inbox: seq<Delivery>, s: Broker, l: Label, n: nat)
    requires Accounted(inbox, s, n)
    ensures Accounted(inbox, Next(cfg, inbox, s, l), n)
  {
    match l
    case Take => TakeAccounted(inbox, s, n);
    case Effect(a) => EffectAccounted(cfg, inbox, s, a, n);
    case Settle(arrives, position) =>
      if s.work.Settling? {
        SettleAccounted(inbox, s, arrives, position, n);
      }
    case Crash(position) =>
      if !s.work.Idle? {
        CrashAccounted(inbox, s, position, n);
      }
    case Payment(_, _) =>
  }

  /**
   In every reachable state each message is in exactly one of ready, in work, acked and dropped;
   its published requests are its acks, arrived, lost or about to be sent; and the invoices stored
   for it are its published requests, its attempts abandoned after saving, and the one now saved.
   */
  lemma {:induction false} EveryMessageAccounted(
    cfg: Config, inbox: seq<Delivery>, trace: seq<Broker>, labels: seq<Label>, k: nat, m: nat)
    requires IsRun(cfg, inbox, trace, labels) && k < |trace|
    ensures Accounted(inbox, trace[k], m)
  {
    if k > 0 {
      EveryMessageAccounted(cfg, inbox, trace, labels, k - 1, m);
      NextAccounted(cfg, inbox, trace[k - 1], labels[k - 1], m);
    }
  }

  /** While no ack is lost, a message yields at most one payment request: one exactly if acked or about to be. */
  lemma AtMostOneRequestPerMessage(
    cfg: Config, inbox: seq<Delivery>, trace: seq<Broker>, labels: seq<Label>, k: nat, m: nat)
    requires IsRun(cfg, inbox, trace, labels) && k < |trace|
    requires Count(trace[k].unacknowledged, Is(m)) == 0
    ensures var s := trace[k];
            && Count(s.published, IsFor(m)) <= 1
            && (Count(s.published, IsFor(m)) == 1 <==> Count(s.acked, Is(m)) == 1 || s.work == Settling(m, Ack))
  {
    EveryMessageAccounted(cfg, inbox, trace, labels, k, m);
  }

  // ---------- An uninterrupted attempt ----------

  function Effects(cfg: Config, inbox: seq<Delivery>, s: Broker, a: Attempt, n: nat): Broker
    decreases n
  {
    if n == 0 then s else Effects(cfg, inbox, Next(cfg, inbox, s, Effect(a)), a, n - 1)
  }

  /** State `t` is state `s` after its work on message `m` came to what `r` says. */
  ghost predicate CameTo(s: Broker, t: Broker, m: nat, r: Processed) {
    && t.work == Settling(m, r.settlement)
    && t.invoices == r.docs
    && t.ready == s.ready && t.acked == s.acked && t.dropped == s.dropped
    && |r.published| <= 1
    && t.published == s.published + if r.published == [] then [] else [(m, r.published[0])]
  }

  lemma SettlingWaits(cfg: Config, inbox: seq<Delivery>, s: Broker, a: Attempt, n: nat)
    requires s.work.Settling?
    ensures Effects(cfg, inbox, s, a, n) == s
  {
  }

  lemma SavedComesTo(cfg: Config, inbox: seq<Delivery>, s: Broker, a: Attempt)
    requires s.work.Saved?
    ensures CameTo(s, Effects(cfg, inbox, s, a, 1), s.work.msg,
                   match PublishError(cfg, s.work.invoice, a.publishFault)
                   case Some(e) => Processed(s.invoices, [], SettleFailedPublish(e))
                   case None =>
                     Processed(s.invoices, [PublicationOf(cfg, s.work.invoice)], Ack))
  {
    hide PaymentRequestChecks, BuildPaymentRequest, PublicationOf;
    assert Effects(cfg, inbox, s, a, 1) == DoPublish(cfg, s, a);
  }

  lemma PreparedComesTo(cfg: Config, inbox: seq<Delivery>, s: Broker, a: Attempt)
    requires s.work.Prepared?
    ensures CameTo(s, Effects(cfg, inbox, s, a, 2), s.work.msg, SaveAndPublish(cfg, s.invoices, s.work.invoice, a))
  {
    var t := DoSave(s, a);
    assert Effects(cfg, inbox, s, a, 2) == Effects(cfg, inbox, t, a, 1);
    if t.work.Saved? {
      SavedComesTo(cfg, inbox, t, a);
    } else {
      SettlingWaits(cfg, inbox, t, a, 1);
    }
  }

  /** The attempt as the service processes it in one go is three effects of the protocol. */
  lemma AttemptIsThreeEffects(cfg: Config, inbox: seq<Delivery>, s: Broker, a: Attempt)
    requires s.work.Taken? && s.work.msg < |inbox|
    ensures CameTo(s, Effects(cfg, inbox, s, a, 3), s.work.msg, Process(cfg, s.invoices, inbox[s.work.msg], a))
  {
    var t := DoPrepare(cfg, inbox, s, a);
    assert Effects(cfg, inbox, s, a, 3) == Effects(cfg, inbox, t, a, 2);
    if t.work.Prepared? {
      PreparedComesTo(cfg, inbox, t, a);
    } else {
      SettlingWaits(cfg, inbox, t, a, 2);
    }
  }
}
