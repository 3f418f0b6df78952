/** A message that the consumer takes, refuses and requeues for ever: a concrete run of any length. */
module PoisonRun {
  import opened Documents
  import opened InvoiceConsumer
  import opened BrokerProtocol
  import opened BrokerDrain
  import opened Counting
  import opened SampleMessages
  import opened Settlements

  /** Every body is read as the request issued at the zero instant. */
  const CONFIG := Reading(ZERO_DATED)

  lemma ZeroDatedIsPoison()
    ensures Poison(CONFIG, SOME_DELIVERY)
  {
    ZeroDatedIsCompleteNotStorable();
    ReadingDecodes(ZERO_DATED);
  }

  // ---------- One round ----------

  lemma TakeStep(cfg: Config, inbox: seq<Delivery>, s: Broker, m: nat)
    requires s.ready == [m] && s.work.Idle?
    ensures Next(cfg, inbox, s, Take) == s.(ready := [], work := Taken(m))
  {
  }

  lemma PrepareStep(cfg: Config, inbox: seq<Delivery>, s: Broker, m: nat, a: Attempt) returns (invoice: Invoice)
    requires s.work == Taken(m) && m < |inbox| && Poison(cfg, inbox[m]) && Answers(Effect(a))
    ensures Next(cfg, inbox, s, Effect(a)) == s.(work := Prepared(m, invoice))
    ensures FromMessage(cfg, inbox, m, invoice)
  {
    PoisonIsPrepared(cfg, inbox[m], a);
    invoice := Prepare(cfg, inbox[m], a).value;
  }

  lemma RefuseStep(cfg: Config, inbox: seq<Delivery>, s: Broker, m: nat, invoice: Invoice, a: Attempt)
    requires s.work == Prepared(m, invoice) && FromMessage(cfg, inbox, m, invoice) && Poison(cfg, inbox[m])
    ensures Next(cfg, inbox, s, Effect(a)) == s.(work := Settling(m, Requeue))
  {
    hide DoSave, Prepare, DoPrepare, DoPublish;
    PoisonIsRequeued(cfg, inbox, s, a);
  }

  lemma RequeueStep(cfg: Config, inbox: seq<Delivery>, s: Broker, m: nat)
    requires s.work == Settling(m, Requeue) && s.ready == []
    ensures Next(cfg, inbox, s, Settle(true, 0)) == s.(ready := [m], work := Idle)
  {
  }

  // ---------- Round after round ----------

  /** Every step does something and nothing goes wrong in it. */
  ghost predicate Faultless(trace: seq<Broker>, labels: seq<Label>)
    requires |trace| == |labels| + 1
  {
    forall q :: 0 <= q < |labels| ==> Acts(trace[q], labels[q]) && !GoesWrong(trace[q], labels[q])
  }

  lemma OneStepMore(cfg: Config, inbox: seq<Delivery>, trace: seq<Broker>, labels: seq<Label>, l: Label, t: Broker)
    returns (longer: seq<Broker>, more: seq<Label>)
    requires IsRun(cfg, inbox, trace, labels) && Faultless(trace, labels)
    requires t == Next(cfg, inbox, trace[|labels|], l)
    requires Acts(trace[|labels|], l) && !GoesWrong(trace[|labels|], l)
    ensures IsRun(cfg, inbox, longer, more) && Faultless(longer, more)
    ensures |more| == |labels| + 1 && longer[|more|] == t && longer[0] == trace[0]
  {
    longer, more := trace + [t], labels + [l];
  }

  /** With nothing else waiting, one round of the consumer brings a poison message back where it was. */
  lemma PoisonGoesRound(
    cfg: Config, inbox: seq<Delivery>, trace: seq<Broker>, labels: seq<Label>, m: nat, a: Attempt)
    returns (longer: seq<Broker>, more: seq<Label>)
    requires IsRun(cfg, inbox, trace, labels) && Faultless(trace, labels)
    requires trace[|labels|].ready == [m] && trace[|labels|].work.Idle?
    requires m < |inbox| && Poison(cfg, inbox[m]) && Answers(Effect(a)) && NoFaults(a)
    ensures IsRun(cfg, inbox, longer, more) && Faultless(longer, more)
    ensures |more| == |labels| + 4 && longer[|more|] == trace[|labels|] && longer[0] == trace[0]
  {
    var s := trace[|labels|];
    TakeStep(cfg, inbox, s, m);
    var taken := s.(ready := [], work := Taken(m));
    longer, more := OneStepMore(cfg, inbox, trace, labels, Take, taken);
    var invoice := PrepareStep(cfg, inbox, taken, m, a);
    var prepared := taken.(work := Prepared(m, invoice));
    longer, more := OneStepMore(cfg, inbox, longer, more, Effect(a), prepared);
    RefuseStep(cfg, inbox, prepared, m, invoice, a);
    var refused := prepared.(work := Settling(m, Requeue));
    longer, more := OneStepMore(cfg, inbox, longer, more, Effect(a), refused);
    RequeueStep(cfg, inbox, refused, m);
    longer, more := OneStepMore(cfg, inbox, longer, more, Settle(true, 0), s);
  }

  const WAITING := Broker([0], Idle, [], [], [], [], [], [], [])

  lemma WaitingIsInit(inbox: seq<Delivery>)
    requires |inbox| == 1
    ensures Init(inbox, WAITING)
  {
    assert WAITING.ready[1..] == [];
  }

  /** In a run of any length in which nothing goes wrong, the message goes round and round. */
  lemma PoisonRunsForEver(rounds: nat) returns (trace: seq<Broker>, labels: seq<Label>)
    ensures IsRun(CONFIG, [SOME_DELIVERY], trace, labels) && Faultless(trace, labels)
    ensures |labels| == 4 * rounds && trace[|labels|] == trace[0]
  {
    trace, labels := [WAITING], [];
    WaitingIsInit([SOME_DELIVERY]);
    ZeroDatedIsPoison();
    for i := 0 to rounds
      invariant IsRun(CONFIG, [SOME_DELIVERY], trace, labels) && Faultless(trace, labels)
      invariant |labels| == 4 * i && trace[|labels|] == trace[0] == WAITING
    {
      trace, labels := PoisonGoesRound(CONFIG, [SOME_DELIVERY], trace, labels, 0, GOOD_ATTEMPT);
    }
  }

  /** In every run in which clock and random sources answer, a poison message is neither acked nor dropped. */
  lemma PoisonStaysUnsettled(
    cfg: Config, inbox: seq<Delivery>, trace: seq<Broker>, labels: seq<Label>, n: nat, m: nat)
    requires IsRun(cfg, inbox, trace, labels) && n < |trace|
    requires m < |inbox| && Poison(cfg, inbox[m])
    requires forall q :: 0 <= q < n ==> Answers(labels[q])
    ensures m !in trace[n].acked && m !in trace[n].dropped && !Drained(trace[n])
  {
    PoisonNeverSettles(cfg, inbox, trace, labels, n, m);
    EveryMessageAccounted(cfg, inbox, trace, labels, n, m);
    CountsMember(trace[n].ready, m);
    CountsMember(trace[n].acked, m);
    CountsMember(trace[n].dropped, m);
  }

  lemma CountsMember(xs: seq<nat>, m: nat)
    ensures m in xs ==> Count(xs, Is(m)) > 0
  {
    if m in xs {
      var i :| 0 <= i < |xs| && xs[i] == m;
      CountsItsElements(xs, i);
    }
  }

  /** So this delivery, which the service accepts, is never settled. */
  lemma ZeroDatedNeverSettles(trace: seq<Broker>, labels: seq<Label>, n: nat)
    requires IsRun(CONFIG, [SOME_DELIVERY], trace, labels) && n < |trace|
    requires forall q :: 0 <= q < n ==> Answers(labels[q])
    ensures 0 !in trace[n].acked && 0 !in trace[n].dropped && !Drained(trace[n])
  {
    ZeroDatedIsPoison();
    PoisonStaysUnsettled(CONFIG, [SOME_DELIVERY], trace, labels, n, 0);
  }
}
