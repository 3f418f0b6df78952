/** Which messages end acked and which dropped, over whole runs of the consumer. */
module BrokerOutcomes {
  import opened Wrappers
  import opened Errors
  import opened Documents
  import opened InvoiceStore
  import opened InvoiceConsumer
  import opened BrokerProtocol
  import opened BrokerDrain
  import opened Counting
  import opened PoisonRun
  import opened Settlements

  // ---------- What is acked was acceptable ----------

  lemma AckedIsAcceptable(
    cfg: Config, inbox: seq<Delivery>, trace: seq<Broker>, labels: seq<Label>, n: nat, m: nat)
    requires IsRun(cfg, inbox, trace, labels) && n < |trace| && m in trace[n].acked
    ensures m < |inbox| && Acceptable(cfg, inbox[m])
  {
    EveryMessageAccounted(cfg, inbox, trace, labels, n, m);
    EveryStateSound(cfg, inbox, trace, labels, n);
    CountsMember(trace[n].acked, m);
    var p := CountedIsPublished(trace[n].published, m);
    assert PublishedFor(cfg, inbox, p);
    PublishedIsAcceptable(cfg, inbox, p);
  }

  lemma {:induction false} CountedIsPublished(ps: seq<(nat, Published)>, m: nat) returns (p: (nat, Published))
    requires Count(ps, IsFor(m)) > 0
    ensures p in ps && p.0 == m
  {
    if ps[0].0 == m {
      p := ps[0];
    } else {
      p := CountedIsPublished(ps[1..], m);
    }
  }

  lemma PublishedIsAcceptable(cfg: Config, inbox: seq<Delivery>, p: (nat, Published))
    requires PublishedFor(cfg, inbox, p)
    ensures p.0 < |inbox| && Acceptable(cfg, inbox[p.0])
  {
    hide Prepare, PublicationOf;
    var invoice :| FromMessage(cfg, inbox, p.0, invoice) && p.1 == PublicationOf(cfg, invoice);
    var a :| Prepare(cfg, inbox[p.0], a) == Some(invoice);
    PreparedIffAcceptable(cfg, inbox[p.0], a);
  }

  // ---------- What is acceptable is not dropped ----------

  /** Clock and random sources answer; save and publish may fail, but not as already-exists or as a violation. */
  ghost predicate Retryable(a: Attempt) {
    && Answering(a) && !SaysAlreadyExists(a.insertFault)
    && (a.publishFault.Some? ==> !Contains(a.publishFault.value, ViolationTarget))
  }

  ghost predicate RetryableLabel(l: Label) {
    l.Effect? ==> Retryable(l.attempt)
  }

  predicate NotDropped(s: Broker, m: nat) {
    m !in s.dropped && s.work != Settling(m, Drop)
  }

  lemma SaveDropsNothing(cfg: Config, inbox: seq<Delivery>, s: Broker, a: Attempt, m: nat)
    requires Sound(cfg, inbox, s) && s.work.Prepared? && NotDropped(s, m) && Retryable(a)
    ensures NotDropped(DoSave(s, a), m)
  {
    hide Insert, Prepare, InvoiceChecks;
    if Insert(s.invoices, s.work.invoice, a.insertFault).err.Some? {
      InsertionSettlement(s.invoices, s.work.invoice, a.insertFault);
    }
  }

  lemma PublishDropsNothing(cfg: Config, inbox: seq<Delivery>, s: Broker, a: Attempt, m: nat)
    requires Sound(cfg, inbox, s) && s.work.Saved? && NotDropped(s, m) && Retryable(a)
    ensures NotDropped(DoPublish(cfg, s, a), m)
  {
    hide Prepare, PublishError, BuildPaymentRequest;
    var b :| Prepare(cfg, inbox[s.work.msg], b) == Some(s.work.invoice);
    RetriedPublish(cfg, inbox[s.work.msg], b, a, s.work.invoice);
  }

  lemma RetriedPublish(cfg: Config, d: Delivery, b: Attempt, a: Attempt, invoice: Invoice)
    requires Prepare(cfg, d, b) == Some(invoice) && Retryable(a)
    ensures var e := PublishError(cfg, invoice, a.publishFault);
            e.Some? ==> SettleFailedPublish(e.value) == Requeue
  {
    hide Prepare, PublishError;
    SamePreparation(cfg, d, b, a.publishFault);
    PublishErrorIsFault(cfg, d, b.(publishFault := a.publishFault), invoice);
    if a.publishFault.Some? {
      PublishSettlement(cfg, d, b.(publishFault := a.publishFault), invoice);
    }
  }

  /** What an attempt prepares does not depend on what publishing does later. */
  lemma SamePreparation(cfg: Config, d: Delivery, b: Attempt, fault: Option<Error>)
    ensures Prepare(cfg, d, b.(publishFault := fault)) == Prepare(cfg, d, b)
  {
  }

  lemma PrepareDropsNothing(cfg: Config, inbox: seq<Delivery>, s: Broker, a: Attempt, m: nat)
    requires s.work.Taken? && s.work.msg < |inbox| && NotDropped(s, m) && Retryable(a)
    requires m < |inbox| && Acceptable(cfg, inbox[m])
    ensures NotDropped(DoPrepare(cfg, inbox, s, a), m)
  {
    hide Prepare;
    PreparedIffAcceptable(cfg, inbox[m], a);
  }

  lemma LabelIsRetryable(l: Label)
    requires RetryableLabel(l) && l.Effect?
    ensures Retryable(l.attempt)
  {
  }

  lemma NextDropsNothing(cfg: Config, inbox: seq<Delivery>, s: Broker, l: Label, m: nat)
    requires Sound(cfg, inbox, s) && NotDropped(s, m) && RetryableLabel(l)
    requires m < |inbox| && Acceptable(cfg, inbox[m])
    ensures NotDropped(Next(cfg, inbox, s, l), m)
  {
    hide DoPrepare, DoSave, DoPublish, Prepare, SetStatus, Acceptable, RetryableLabel;
    match l
    case Effect(a) =>
      assert Retryable(a) by {
        LabelIsRetryable(l);
      }
      if s.work.Taken? {
        PrepareDropsNothing(cfg, inbox, s, a, m);
      } else if s.work.Prepared? {
        SaveDropsNothing(cfg, inbox, s, a, m);
      } else if s.work.Saved? {
        PublishDropsNothing(cfg, inbox, s, a, m);
      }
    case _ =>
  }

  /** Whatever fails and is retried, crashes or is redelivered, a complete request is never dropped. */
  lemma {:induction false} AcceptableIsNeverDropped(
    cfg: Config, inbox: seq<Delivery>, trace: seq<Broker>, labels: seq<Label>, n: nat, m: nat)
    requires IsRun(cfg, inbox, trace, labels) && n < |trace|
    requires forall q :: 0 <= q < n ==> RetryableLabel(labels[q])
    requires m < |inbox| && Acceptable(cfg, inbox[m])
    ensures NotDropped(trace[n], m)
  {
    if n > 0 {
      AcceptableIsNeverDropped(cfg, inbox, trace, labels, n - 1, m);
      EveryStateSound(cfg, inbox, trace, labels, n - 1);
      NextDropsNothing(cfg, inbox, trace[n - 1], labels[n - 1], m);
    }
  }

  /**
   The end of every such run: once the consumer has drained, the messages that hold a complete request
   are acked, exactly these, and all others are dropped, exactly those; each message once.
   */
  lemma DrainedAcksExactlyTheAcceptable(
    cfg: Config, inbox: seq<Delivery>, trace: seq<Broker>, labels: seq<Label>, n: nat, m: nat)
    requires IsRun(cfg, inbox, trace, labels) && n < |trace| && m < |inbox|
    requires forall q :: 0 <= q < n ==> RetryableLabel(labels[q])
    requires Drained(trace[n])
    ensures Count(trace[n].acked, Is(m)) == One(Acceptable(cfg, inbox[m]))
    ensures Count(trace[n].dropped, Is(m)) == One(!Acceptable(cfg, inbox[m]))
  {
    hide Acceptable;
    EveryMessageAccounted(cfg, inbox, trace, labels, n, m);
    if Acceptable(cfg, inbox[m]) {
      AcceptableIsNeverDropped(cfg, inbox, trace, labels, n, m);
      if Count(trace[n].dropped, Is(m)) > 0 {
        CountedIsMember(trace[n].dropped, m);
      }
    } else if Count(trace[n].acked, Is(m)) > 0 {
      CountedIsMember(trace[n].acked, m);
      AckedIsAcceptable(cfg, inbox, trace, labels, n, m);
    }
  }
}
