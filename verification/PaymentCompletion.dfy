/** When a payment runs to its end: the exact condition, under any interleaving. */
module PaymentCompletion {
  import opened Wrappers
  import opened GoText
  import opened GoTime
  import opened Documents
  import opened InvoiceStore
  import opened PaymentProtocol
  import opened PaymentSafety
  import opened PaymentRuns
  import opened PaymentLedger

  /** A step to which nothing goes wrong. */
  predicate Healthy(env: Environment) {
    && !env.killed && env.dbFault.None? && env.publishFault.None? && env.insertFault.NoFault?
    && env.id.uuid.Success? && env.id.random.Success? && env.processedAt != ZERO_INSTANT
  }

  function Last4(req: PayWithCardRequest): string
    requires |CardNumber(req)| >= 4
  {
    CardNumber(req)[|CardNumber(req)| - 4..]
  }

  /** What a request needs, beyond passing validation, for its payment to be receipted and confirmed. */
  predicate Confirmable(req: PayWithCardRequest) {
    && |CardNumber(req)| >= 4
    && !IsBlank(Last4(req))
    && !IsBlank(req.card.GetOr(NO_CARD).brand)
  }

  /** The five steps from the decision to pay to the confirmation. */
  function Rank(at: Progress): nat {
    match at
    case Written(_) => 1
    case Responded(_, _) => 2
    case Receipted(_, _) => 3
    case Reread(_, _, _) => 4
    case Confirmed(_, _) => 5
    case _ => 0
  }

  function ClockTime(at: Progress): Instant {
    match at
    case Admitted(now) => now
    case Written(now) => now
    case Responded(now, _) => now
    case Receipted(now, _) => now
    case Reread(now, _, _) => now
    case Confirmed(now, _) => now
    case _ => ZERO_INSTANT
  }

  /** A call after `steps` healthy steps, started with the clock reading `now`, its request confirmable or not. */
  ghost predicate OnItsWay(c: Call, now: Instant, steps: nat, confirmable: bool) {
    && (c.at.Responded? ==> AsTime(c.at.resp.processedAt) != ZERO_INSTANT)
    && if confirmable then
         Rank(c.at) == (if steps < 5 then steps else 5) && ClockTime(c.at) == now && (steps == 0 ==> c.at.Admitted?)
       else
         || c.at.EndedBeforeReceipt?
         || (steps < 3 && Rank(c.at) == steps && ClockTime(c.at) == now && (steps == 0 ==> c.at.Admitted?))
  }

  lemma HealthyWrite(s: System, c: Call, env: Environment, now: Instant, steps: nat, ok: bool)
    requires CallOk(s, c) && Healthy(env) && now != ZERO_INSTANT && OnItsWay(c, now, steps, ok) && c.at.Admitted?
    ensures OnItsWay(Write(s.world, c, env).call, now, steps + 1, ok)
  {
    PayingMarksThatInvoice(s.world.invoices, c.Number(), c.at.now, env.dbFault);
  }

  lemma HealthyResponse(s: System, c: Call, env: Environment, now: Instant, steps: nat, ok: bool)
    requires CallOk(s, c) && Healthy(env) && OnItsWay(c, now, steps, ok) && c.at.Written?
    requires ok == Confirmable(c.req)
    ensures OnItsWay(Respond(s.world, c, env).call, now, steps + 1, ok)
  {
    RespondEffect(s.world, c, env);
    TimestampRoundTrip(env.processedAt, Timestamp(0, 0));
  }

  /** A receipt is accepted, by its constructor and by the store, exactly for a confirmable request. */
  lemma HealthyReceipt(w: World, c: Call, env: Environment)
    requires c.at.Responded? && Answers(c, c.at.resp) && Healthy(env)
    requires !IsBlank(c.Number()) && AsTime(c.at.resp.processedAt) != ZERO_INSTANT
    ensures var m := SaveReceipt(w, c, env);
            if Confirmable(c.req) then m.call.at.Receipted? else m.call.at.EndedBeforeReceipt?
  {
    var r := NewReceiptFromProtMessage(c.at.resp, env.receiptId);
    assert r.Success? <==> Confirmable(c.req);
    if r.Success? {
      assert ReceiptChecks(r.value).Pass();
    }
  }

  lemma SavedOneRankFurther(c: Call, d: Call, now: Instant, steps: nat, ok: bool)
    requires OnItsWay(c, now, steps, ok) && c.at.Responded?
    requires if ok then d.at == Receipted(c.at.now, c.at.resp) else d.at.EndedBeforeReceipt?
    ensures OnItsWay(d, now, steps + 1, ok)
  {
  }

  lemma HealthySave(s: System, c: Call, env: Environment, now: Instant, steps: nat, ok: bool)
    requires CallOk(s, c) && Healthy(env) && OnItsWay(c, now, steps, ok) && c.at.Responded?
    requires ok == Confirmable(c.req)
    ensures OnItsWay(SaveReceipt(s.world, c, env).call, now, steps + 1, ok)
  {
    HealthyReceipt(s.world, c, env);
    SaveReceiptEffect(s.world, c, env);
    SavedOneRankFurther(c, SaveReceipt(s.world, c, env).call, now, steps, ok);
  }

  lemma HealthyReload(w: World, c: Call, env: Environment)
    requires Healthy(env) && c.at.Receipted?
    requires Has(w.invoices, c.at.resp.invoiceNumber) && !IsBlank(c.at.resp.invoiceNumber)
    ensures var m := Reload(w, c, env);
            m.call.req == c.req && m.call.at.Reread? && m.call.at.now == c.at.now
  {
    LoadYieldsThatInvoice(w.invoices, c.at.resp.invoiceNumber, env.dbFault);
  }

  lemma HealthyPublish(w: World, c: Call, env: Environment)
    requires Healthy(env) && c.at.Reread?
    ensures var m := Publish(w, c, env);
            m.call.req == c.req && m.call.at.Confirmed? && m.call.at.now == c.at.now
  {
  }

  lemma OneRankFurther(c: Call, d: Call, now: Instant, steps: nat, ok: bool)
    requires OnItsWay(c, now, steps, ok) && d.req == c.req
    requires (c.at.Receipted? && d.at.Reread?) || (c.at.Reread? && d.at.Confirmed?)
    requires ClockTime(d.at) == ClockTime(c.at)
    ensures OnItsWay(d, now, steps + 1, ok)
  {
  }

  lemma HealthyStep(failChance: int, s: System, c: Call, env: Environment, now: Instant, steps: nat, ok: bool)
    requires CallOk(s, c) && Healthy(env) && now != ZERO_INSTANT && OnItsWay(c, now, steps, ok)
    requires ok == Confirmable(c.req)
    ensures OnItsWay(Advance(failChance, s.world, c, env).call, now, steps + 1, ok)
  {
    hide SetStatus, PayRequestChecks, FindByInvoiceNumber, BuildResponse;
    if c.at.Admitted? {
      HealthyWrite(s, c, env, now, steps, ok);
    } else if c.at.Written? {
      HealthyResponse(s, c, env, now, steps, ok);
    } else if c.at.Responded? {
      HealthySave(s, c, env, now, steps, ok);
    } else if c.at.Receipted? {
      HealthyReload(s.world, c, env);
      OneRankFurther(c, Reload(s.world, c, env).call, now, steps, ok);
    } else if c.at.Reread? {
      HealthyPublish(s.world, c, env);
      OneRankFurther(c, Publish(s.world, c, env).call, now, steps, ok);
    }
  }

  function StepsOf(labels: seq<Label>, c: nat, j: nat, n: nat): nat
    requires j <= n <= |labels|
  {
    if j == n then 0 else StepsOf(labels, c, j, n - 1) + if Moves(labels[n - 1], c) then 1 else 0
  }

  ghost predicate HealthyStretch(labels: seq<Label>, c: nat, j: nat, n: nat)
    requires n <= |labels|
  {
    forall q :: j <= q < n && Moves(labels[q], c) ==> Healthy(labels[q].env)
  }

  lemma {:induction false} StaysOnItsWay(
    failChance: int, trace: seq<System>, labels: seq<Label>, k: nat, n: nat, c: nat, now: Instant)
    requires IsRun(failChance, trace, labels) && k <= n < |trace|
    requires c < |trace[k].calls| && trace[k].calls[c].at == Admitted(now) && now != ZERO_INSTANT
    requires HealthyStretch(labels, c, k, n)
    ensures c < |trace[n].calls| && trace[n].calls[c].req == trace[k].calls[c].req
    ensures OnItsWay(trace[n].calls[c], now, StepsOf(labels, c, k, n), Confirmable(trace[k].calls[c].req))
    decreases n
  {
    if k < n {
      StaysOnItsWay(failChance, trace, labels, k, n - 1, c, now);
      OneStepOnItsWay(failChance, trace, labels, n - 1, c, now, StepsOf(labels, c, k, n - 1),
                      Confirmable(trace[k].calls[c].req));
    }
  }

  lemma OneStepOnItsWay(
    failChance: int, trace: seq<System>, labels: seq<Label>, q: nat, c: nat, now: Instant, steps: nat, ok: bool)
    requires IsRun(failChance, trace, labels) && q < |labels| && now != ZERO_INSTANT
    requires c < |trace[q].calls| && ok == Confirmable(trace[q].calls[c].req)
    requires OnItsWay(trace[q].calls[c], now, steps, ok)
    requires Moves(labels[q], c) ==> Healthy(labels[q].env)
    ensures c < |trace[q + 1].calls| && trace[q + 1].calls[c].req == trace[q].calls[c].req
    ensures OnItsWay(trace[q + 1].calls[c], now, steps + if Moves(labels[q], c) then 1 else 0, ok)
  {
    RunStep(failChance, trace, labels, q);
    if Moves(labels[q], c) {
      EveryStateGood(failChance, trace, labels, q);
      HealthyStep(failChance, trace[q], trace[q].calls[c], labels[q].env, now, steps, ok);
      AdvanceEffect(failChance, trace[q].world, trace[q].calls[c], labels[q].env);
    } else {
      OthersLeaveCall(failChance, trace[q], labels[q], c);
    }
  }

  // ---------- The receipt and the confirmation of this very call ----------

  /** Step q is the call's, and appends the receipt of this response. */
  predicate AppendsReceipt(trace: seq<System>, labels: seq<Label>, q: nat, c: nat, resp: PayWithCardResponse)
    requires |trace| == |labels| + 1
  {
    && q < |labels| && Moves(labels[q], c)
    && var before, after := trace[q].world.receipts, trace[q + 1].world.receipts;
       IsOneLonger(before, after) && IsReceiptOf(after[|before|], resp)
  }

  /** Step q is the call's, and appends the confirmation of this response. */
  predicate AppendsConfirmation(
    trace: seq<System>, labels: seq<Label>, q: nat, c: nat, resp: PayWithCardResponse, now: Instant)
    requires |trace| == |labels| + 1
  {
    && q < |labels| && Moves(labels[q], c)
    && var before, after := trace[q].world.confirmations, trace[q + 1].world.confirmations;
       IsOneLonger(before, after) && IsConfirmationOf(after[|before|], resp, now)
  }

  /** The call's receipt is stored and the call has not failed since. */
  predicate KnowsReceipt(at: Progress) {
    at.Receipted? || at.Reread? || at.Confirmed?
  }

  lemma ReceiptStep(failChance: int, w: World, c: Call, env: Environment)
    requires KnowsReceipt(Advance(failChance, w, c, env).call.at)
    ensures var m := Advance(failChance, w, c, env);
            if KnowsReceipt(c.at) then m.call.at.resp == c.at.resp
            else
              && c.at.Responded?
              && IsOneLonger(w.receipts, m.world.receipts)
              && IsReceiptOf(m.world.receipts[|w.receipts|], m.call.at.resp)
  {
    hide SetStatus, PayRequestChecks, FindByInvoiceNumber;
    if !env.killed {
      match c.at
      case Loaded(_, _) => DecideEffect(failChance, w, c, env);
      case Written(_) => RespondEffect(w, c, env);
      case Responded(_, _) => SaveReceiptEffect(w, c, env);
      case _ =>
    }
  }

  lemma {:induction false} OwnReceiptAppended(
    failChance: int, trace: seq<System>, labels: seq<Label>, k: nat, n: nat, c: nat) returns (q: nat)
    requires IsRun(failChance, trace, labels) && k <= n < |trace|
    requires c < |trace[k].calls| && !KnowsReceipt(trace[k].calls[c].at)
    requires c < |trace[n].calls| && KnowsReceipt(trace[n].calls[c].at)
    ensures k <= q < n && AppendsReceipt(trace, labels, q, c, trace[n].calls[c].at.resp)
    decreases n
  {
    RunStep(failChance, trace, labels, n - 1);
    RunGrows(failChance, trace, labels, k, n - 1);
    if !Moves(labels[n - 1], c) {
      OthersLeaveCall(failChance, trace[n - 1], labels[n - 1], c);
      q := OwnReceiptAppended(failChance, trace, labels, k, n - 1, c);
    } else {
      ReceiptStep(failChance, trace[n - 1].world, trace[n - 1].calls[c], labels[n - 1].env);
      if KnowsReceipt(trace[n - 1].calls[c].at) {
        q := OwnReceiptAppended(failChance, trace, labels, k, n - 1, c);
      } else {
        q := n - 1;
      }
    }
  }

  /** The call is about to publish, on the invoice that its response names. */
  predicate RereadInvoice(at: Progress) {
    at.Reread? && at.invoice.invoiceNumber == at.resp.invoiceNumber
  }

  lemma CallsRereadTheirInvoice(failChance: int, trace: seq<System>, labels: seq<Label>, n: nat, c: nat)
    requires IsRun(failChance, trace, labels) && n < |trace|
    requires c < |trace[n].calls| && trace[n].calls[c].at.Reread?
    ensures RereadInvoice(trace[n].calls[c].at)
  {
    EveryStateGood(failChance, trace, labels, n);
    assert CallOk(trace[n], trace[n].calls[c]);
  }

  lemma ConfirmationStep(failChance: int, w: World, c: Call, env: Environment)
    requires c.at.Reread? ==> RereadInvoice(c.at)
    requires Advance(failChance, w, c, env).call.at.Confirmed?
    ensures var m := Advance(failChance, w, c, env);
            if c.at.Confirmed? then m.call == c
            else
              && c.at.Reread? && m.call.at.resp == c.at.resp
              && IsOneLonger(w.confirmations, m.world.confirmations)
              && IsConfirmationOf(m.world.confirmations[|w.confirmations|], c.at.resp, m.call.at.now)
  {
    if !env.killed {
      match c.at
      case Loaded(_, _) => DecideEffect(failChance, w, c, env);
      case Written(_) => RespondEffect(w, c, env);
      case Responded(_, _) => SaveReceiptEffect(w, c, env);
      case Reread(_, _, _) => PublishEffect(w, c, env);
      case _ =>
    }
  }

  lemma {:induction false} OwnConfirmationAppended(
    failChance: int, trace: seq<System>, labels: seq<Label>, k: nat, n: nat, c: nat) returns (p: nat)
    requires IsRun(failChance, trace, labels) && k <= n < |trace|
    requires c < |trace[k].calls| && !trace[k].calls[c].at.Confirmed?
    requires c < |trace[n].calls| && trace[n].calls[c].at.Confirmed?
    ensures k <= p < n && c < |trace[p].calls| && trace[p].calls[c].at.Reread?
    ensures trace[p].calls[c].at.resp == trace[n].calls[c].at.resp
    ensures AppendsConfirmation(trace, labels, p, c, trace[n].calls[c].at.resp, trace[n].calls[c].at.now)
    decreases n
  {
    RunStep(failChance, trace, labels, n - 1);
    RunGrows(failChance, trace, labels, k, n - 1);
    if !Moves(labels[n - 1], c) {
      OthersLeaveCall(failChance, trace[n - 1], labels[n - 1], c);
      p := OwnConfirmationAppended(failChance, trace, labels, k, n - 1, c);
    } else {
      if trace[n - 1].calls[c].at.Reread? {
        CallsRereadTheirInvoice(failChance, trace, labels, n - 1, c);
      }
      ConfirmationStep(failChance, trace[n - 1].world, trace[n - 1].calls[c], labels[n - 1].env);
      if trace[n - 1].calls[c].at.Confirmed? {
        p := OwnConfirmationAppended(failChance, trace, labels, k, n - 1, c);
      } else {
        p := n - 1;
      }
    }
  }

  /** One step of the call appends its receipt, and a later one its confirmation. */
  ghost predicate LeavesItsOwn(
    trace: seq<System>, labels: seq<Label>, k: nat, n: nat, c: nat, resp: PayWithCardResponse, now: Instant)
    requires |trace| == |labels| + 1
  {
    exists q: nat, p: nat :: k <= q < p < n
      && AppendsReceipt(trace, labels, q, c, resp) && AppendsConfirmation(trace, labels, p, c, resp, now)
  }

  lemma ConfirmedLeavesItsOwn(failChance: int, trace: seq<System>, labels: seq<Label>, k: nat, n: nat, c: nat)
    requires IsRun(failChance, trace, labels) && k <= n < |trace|
    requires c < |trace[k].calls| && !KnowsReceipt(trace[k].calls[c].at)
    requires c < |trace[n].calls| && trace[n].calls[c].at.Confirmed?
    ensures LeavesItsOwn(trace, labels, k, n, c, trace[n].calls[c].at.resp, trace[n].calls[c].at.now)
  {
    var p := OwnConfirmationAppended(failChance, trace, labels, k, n, c);
    var q := OwnReceiptAppended(failChance, trace, labels, k, p, c);
  }

  /**
   A call that has decided to pay, on a clock not at the zero instant, and whose next five steps
   all go well, however other calls and deliveries interleave, ends confirmed exactly when the
   request is confirmable; otherwise the invoice is paid and neither receipt nor confirmation
   follow. When confirmed, one of its steps has appended the receipt of its response, with its
   numbers, card and time, and a later one the confirmation, with the same numbers and the clock
   reading of the write.
   */
  lemma CompletesIffConfirmable(
    failChance: int, trace: seq<System>, labels: seq<Label>, k: nat, n: nat, c: nat, now: Instant)
    requires IsRun(failChance, trace, labels) && k <= n < |trace|
    requires c < |trace[k].calls| && trace[k].calls[c].at == Admitted(now) && now != ZERO_INSTANT
    requires HealthyStretch(labels, c, k, n) && StepsOf(labels, c, k, n) >= 5
    ensures c < |trace[n].calls|
    ensures var s, call := trace[n], trace[n].calls[c];
            && PaidNumber(s.world.invoices, call.Number())
            && (call.at.Confirmed? <==> Confirmable(trace[k].calls[c].req))
            && (!call.at.Confirmed? ==> call.at.EndedBeforeReceipt?)
            && (call.at.Confirmed? ==>
                && call.at.now == now
                && var resp := call.at.resp;
                   && call.reply == Response(resp) && resp.status == Succeeded
                   && resp.invoiceNumber == call.Number()
                   && |CardNumber(call.req)| >= 4
                   && resp.card == Some(CardSummary(call.req.card.GetOr(NO_CARD).brand, Last4(call.req)))
                   && HasReceiptFor(s.world, resp) && HasConfirmationFor(s.world, resp, now)
                   && LeavesItsOwn(trace, labels, k, n, c, resp, now))
  {
    hide IsRun;
    StaysOnItsWay(failChance, trace, labels, k, n, c, now);
    EveryStateGood(failChance, trace, labels, n);
    assert CallOk(trace[n], trace[n].calls[c]);
    if trace[n].calls[c].at.Confirmed? {
      ConfirmedLeavesItsOwn(failChance, trace, labels, k, n, c);
    }
  }

  /** Such a call has paid once, and has added exactly one receipt and one confirmation, or neither. */
  lemma CompletionAddsOneOfEach(
    failChance: int, trace: seq<System>, labels: seq<Label>, k: nat, n: nat, c: nat, now: Instant)
    requires IsRun(failChance, trace, labels) && k <= n < |trace|
    requires c < |trace[k].calls| && trace[k].calls[c].at == Admitted(now) && now != ZERO_INSTANT
    requires HealthyStretch(labels, c, k, n) && StepsOf(labels, c, k, n) >= 5
    ensures FootprintOf(trace, labels, c, n)
            == if Confirmable(trace[k].calls[c].req) then Footprint(1, 1, 1) else Footprint(1, 0, 0)
  {
    CompletesIffConfirmable(failChance, trace, labels, k, n, c, now);
    CallLedger(failChance, trace, labels, c, n);
  }

  /** The write itself leaves the clock reading, to the millisecond, as the invoice's update time. */
  lemma WriteRecordsClockTime(
    failChance: int, trace: seq<System>, labels: seq<Label>, k: nat, c: nat, number: string)
    requires IsRun(failChance, trace, labels) && Pays(trace, labels, k, c, number)
    ensures var docs := trace[k + 1].world.invoices;
            && Has(docs, number)
            && docs[ByNumber(docs, number)].updatedAt == Stored(ClockTime(trace[k].calls[c].at))
            && ClockTime(trace[k + 1].calls[c].at) == ClockTime(trace[k].calls[c].at)
  {
    RunStep(failChance, trace, labels, k);
    PayingStep(failChance, trace[k].world, trace[k].calls[c], labels[k].env);
    NextGrows(failChance, trace[k], labels[k]);
    NumberIsStable(trace[k].world.invoices, trace[k + 1].world.invoices, number);
  }
}
