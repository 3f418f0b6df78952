/** A payment from its arrival to its end: with no fault on the way, exactly how it comes out. */
module PaymentArrival {
  import opened Wrappers
  import opened GoText
  import opened GoTime
  import opened Documents
  import opened InvoiceStore
  import opened PaymentProtocol
  import opened PaymentSafety
  import opened PaymentRuns
  import opened PaymentOverlap
  import opened PaymentLedger
  import opened PaymentCompletion

  /** A healthy step on which the clock answers, and not with the zero instant. */
  predicate Favourable(env: Environment) {
    Healthy(env) && env.clock.Success? && env.clock.value != ZERO_INSTANT
  }

  ghost predicate FavourableStretch(labels: seq<Label>, c: nat, j: nat, n: nat)
    requires n <= |labels|
  {
    forall q :: j <= q < n && Moves(labels[q], c) ==> Favourable(labels[q].env)
  }

  // ---------- The call's next step ----------

  lemma {:induction false} StepsFromTheFront(labels: seq<Label>, c: nat, j: nat, n: nat)
    requires j < n <= |labels|
    ensures StepsOf(labels, c, j, n) == StepsOf(labels, c, j + 1, n) + if Moves(labels[j], c) then 1 else 0
  {
    if j + 1 < n {
      StepsFromTheFront(labels, c, j, n - 1);
    }
  }

  /** A call that still has a step to take is found unchanged when it takes it. */
  lemma {:induction false} NextMove(failChance: int, trace: seq<System>, labels: seq<Label>, c: nat, j: nat, n: nat)
    returns (q: nat)
    requires IsRun(failChance, trace, labels) && j <= n < |trace|
    requires c < |trace[j].calls| && StepsOf(labels, c, j, n) > 0
    ensures j <= q < n && Moves(labels[q], c)
    ensures c < |trace[q].calls| && trace[q].calls[c] == trace[j].calls[c]
    ensures StepsOf(labels, c, q + 1, n) == StepsOf(labels, c, j, n) - 1
    ensures trace[q + 1] == Next(failChance, trace[q], labels[q])
    decreases n - j
  {
    StepsFromTheFront(labels, c, j, n);
    RunStep(failChance, trace, labels, j);
    if Moves(labels[j], c) {
      q := j;
    } else {
      OthersLeaveCall(failChance, trace[j], labels[j], c);
      q := NextMove(failChance, trace, labels, c, j + 1, n);
    }
  }

  // ---------- Calls that end early ----------

  lemma {:induction false} RefusedForGood(
    failChance: int, trace: seq<System>, labels: seq<Label>, j: nat, n: nat, c: nat)
    requires IsRun(failChance, trace, labels) && j <= n < |trace|
    requires c < |trace[j].calls| && trace[j].calls[c].at.Refused?
    ensures c < |trace[n].calls| && trace[n].calls[c] == trace[j].calls[c]
    decreases n
  {
    if j < n {
      RefusedForGood(failChance, trace, labels, j, n - 1, c);
      RunStep(failChance, trace, labels, n - 1);
      RefusedStays(failChance, trace[n - 1], labels[n - 1], c);
    }
  }

  lemma RefusedStays(failChance: int, s: System, l: Label, c: nat)
    requires c < |s.calls| && s.calls[c].at.Refused?
    ensures c < |Next(failChance, s, l).calls| && Next(failChance, s, l).calls[c] == s.calls[c]
  {
  }

  lemma InvalidStep(failChance: int, s: System, i: nat, env: Environment)
    requires i < |s.calls| && s.calls[i].at.Started? && !env.killed && !PayRequestChecks(s.calls[i].req).Pass()
    ensures var t := Next(failChance, s, Step(i, env));
            i < |t.calls| && t.calls[i] == s.calls[i].(at := Refused, reply := Status(InvalidArgument))
  {
  }

  lemma MissingStep(failChance: int, s: System, i: nat, env: Environment)
    requires i < |s.calls| && s.calls[i].at.Clocked? && Undisturbed(env)
    requires !IsBlank(s.calls[i].Number()) && !Has(s.world.invoices, s.calls[i].Number())
    ensures var t := Next(failChance, s, Step(i, env));
            i < |t.calls| && t.calls[i] == s.calls[i].(at := Refused, reply := Status(NotFound))
  {
    var docs, number := s.world.invoices, s.calls[i].Number();
    LoadYieldsThatInvoice(docs, number, env.dbFault);
    MissingIsNotFound(docs, number);
  }

  lemma MissingIsNotFound(docs: seq<Invoice>, number: string)
    requires !IsBlank(number) && !Has(docs, number)
    ensures var r := FindByInvoiceNumber(docs, number, None); r.Failure? && MapError(r.error) == NotFound
  {
    LoadYieldsThatInvoice(docs, number, None);
  }

  lemma PaidStep(failChance: int, s: System, i: nat, env: Environment)
    requires i < |s.calls| && s.calls[i].at.Loaded? && !env.killed && IsPaid(s.calls[i].at.invoice)
    ensures var t := Next(failChance, s, Step(i, env));
            i < |t.calls| && t.calls[i] == s.calls[i].(at := Refused, reply := Status(FailedPrecondition))
  {
  }

  /** The answer to an unlucky draw: a FAILED response about this card, or none for a number too short to cut. */
  predicate AnsweredFailed(c: Call) {
    && c.at.Refused?
    && if |CardNumber(c.req)| < 4 then c.reply == NoReply
       else c.reply.Response? && c.reply.resp.status.Failed? && Describes(c.req, c.reply.resp)
  }

  lemma UnluckyStep(failChance: int, s: System, i: nat, env: Environment)
    requires i < |s.calls| && s.calls[i].at.Loaded? && !IsPaid(s.calls[i].at.invoice) && s.calls[i].reply == NoReply
    requires Healthy(env) && env.luck < failChance
    ensures var t := Next(failChance, s, Step(i, env));
            i < |t.calls| && t.calls[i].req == s.calls[i].req && AnsweredFailed(t.calls[i])
  {
    DecideEffect(failChance, s.world, s.calls[i], env);
  }

  // ---------- The first four steps ----------

  /** The call loads in step q, on a clock reading that is not the zero instant. */
  predicate LoadsAt(trace: seq<System>, labels: seq<Label>, q: nat, c: nat, req: PayWithCardRequest)
    requires |trace| == |labels| + 1
  {
    && q < |labels| && Moves(labels[q], c) && c < |trace[q].calls|
    && trace[q].calls[c].at.Clocked? && trace[q].calls[c].at.now != ZERO_INSTANT
    && trace[q].calls[c] == Call(req, trace[q].calls[c].at, NoReply)
  }

  lemma ComesToLoad(
    failChance: int, trace: seq<System>, labels: seq<Label>, k: nat, n: nat, c: nat, req: PayWithCardRequest)
    returns (load: nat)
    requires IsRun(failChance, trace, labels) && k <= n < |trace|
    requires c < |trace[k].calls| && trace[k].calls[c] == NewCall(req) && PayRequestChecks(req).Pass()
    requires FavourableStretch(labels, c, k, n) && StepsOf(labels, c, k, n) >= 3
    ensures k <= load < n && LoadsAt(trace, labels, load, c, req)
    ensures StepsOf(labels, c, load + 1, n) == StepsOf(labels, c, k, n) - 3
    ensures trace[load + 1] == Next(failChance, trace[load], labels[load])
  {
    hide Advance;
    var q := NextMove(failChance, trace, labels, c, k, n);
    ValidateStep(failChance, trace[q], c, labels[q].env);
    q := NextMove(failChance, trace, labels, c, q + 1, n);
    ClockStep(failChance, trace[q], c, labels[q].env, labels[q].env.clock.value);
    load := NextMove(failChance, trace, labels, c, q + 1, n);
  }

  /** The call draws in step q, having loaded this invoice in step `load`. */
  predicate DrawsAt(trace: seq<System>, labels: seq<Label>, load: nat, q: nat, c: nat, req: PayWithCardRequest)
    requires |trace| == |labels| + 1 && LoadsAt(trace, labels, load, c, req)
  {
    && q < |labels| && Moves(labels[q], c) && c < |trace[q].calls|
    && var docs := trace[load].world.invoices;
       Has(docs, req.invoiceNumber)
       && trace[q].calls[c]
          == Call(req, Loaded(trace[load].calls[c].at.now, docs[ByNumber(docs, req.invoiceNumber)]), NoReply)
  }

  /** From the load of a stored invoice to the draw. */
  lemma ComesToDraw(
    failChance: int, trace: seq<System>, labels: seq<Label>, load: nat, n: nat, c: nat, req: PayWithCardRequest)
    returns (q: nat)
    requires IsRun(failChance, trace, labels) && load < n < |trace| && LoadsAt(trace, labels, load, c, req)
    requires trace[load + 1] == Next(failChance, trace[load], labels[load]) && !IsBlank(req.invoiceNumber)
    requires Has(trace[load].world.invoices, req.invoiceNumber)
    requires FavourableStretch(labels, c, load, n) && StepsOf(labels, c, load + 1, n) >= 1
    ensures load < q < n && DrawsAt(trace, labels, load, q, c, req)
    ensures StepsOf(labels, c, q + 1, n) == StepsOf(labels, c, load + 1, n) - 1
    ensures trace[q + 1] == Next(failChance, trace[q], labels[q])
  {
    hide Advance;
    LoadStep(failChance, trace[load], c, labels[load].env);
    q := NextMove(failChance, trace, labels, c, load + 1, n);
  }

  // ---------- How it comes out ----------

  /** The state of a call that found these invoices when it loaded, drew this luck, and had no faults after. */
  ghost predicate ComesOut(
    failChance: int, docs: seq<Invoice>, luck: nat, req: PayWithCardRequest, end: System, c: nat)
  {
    && c < |end.calls| && end.calls[c].req == req
    && var call := end.calls[c];
       if !Has(docs, req.invoiceNumber) then call == Call(req, Refused, Status(NotFound))
       else if PaidNumber(docs, req.invoiceNumber) then call == Call(req, Refused, Status(FailedPrecondition))
       else if luck < failChance then AnsweredFailed(call)
       else
         && PaidNumber(end.world.invoices, req.invoiceNumber)
         && if Confirmable(req) then call.at.Confirmed? else call.at.EndedBeforeReceipt?
  }

  lemma ComesOutFromDraw(
    failChance: int, trace: seq<System>, labels: seq<Label>, load: nat, q: nat, n: nat, c: nat,
    req: PayWithCardRequest)
    requires IsRun(failChance, trace, labels) && load < q < n < |trace|
    requires LoadsAt(trace, labels, load, c, req) && DrawsAt(trace, labels, load, q, c, req)
    requires trace[q + 1] == Next(failChance, trace[q], labels[q])
    requires FavourableStretch(labels, c, q, n) && StepsOf(labels, c, q + 1, n) >= 5
    ensures ComesOut(failChance, trace[load].world.invoices, labels[q].env.luck, req, trace[n], c)
  {
    hide Advance;
    if PaidNumber(trace[load].world.invoices, req.invoiceNumber) {
      PaidStep(failChance, trace[q], c, labels[q].env);
      RefusedForGood(failChance, trace, labels, q + 1, n, c);
    } else if labels[q].env.luck < failChance {
      UnluckyStep(failChance, trace[q], c, labels[q].env);
      RefusedForGood(failChance, trace, labels, q + 1, n, c);
    } else {
      AdmitStep(failChance, trace[q], c, req.invoiceNumber, labels[q].env);
      CompletesIffConfirmable(failChance, trace, labels, q + 1, n, c, trace[load].calls[c].at.now);
      RunGrows(failChance, trace, labels, q + 1, n);
    }
  }

  lemma ComesOutFromLoad(
    failChance: int, trace: seq<System>, labels: seq<Label>, load: nat, n: nat, c: nat, req: PayWithCardRequest)
    returns (q: nat)
    requires IsRun(failChance, trace, labels) && load < n < |trace| && LoadsAt(trace, labels, load, c, req)
    requires trace[load + 1] == Next(failChance, trace[load], labels[load]) && !IsBlank(req.invoiceNumber)
    requires FavourableStretch(labels, c, load, n) && StepsOf(labels, c, load + 1, n) >= 6
    ensures Has(trace[load].world.invoices, req.invoiceNumber) ==>
              load < q < n && DrawsAt(trace, labels, load, q, c, req)
    ensures q < n && labels[q].Step?
    ensures ComesOut(failChance, trace[load].world.invoices, labels[q].env.luck, req, trace[n], c)
  {
    hide Advance;
    if !Has(trace[load].world.invoices, req.invoiceNumber) {
      q := load;
      MissingStep(failChance, trace[load], c, labels[load].env);
      RefusedForGood(failChance, trace, labels, load + 1, n, c);
    } else {
      q := ComesToDraw(failChance, trace, labels, load, n, c, req);
      ComesOutFromDraw(failChance, trace, labels, load, q, n, c, req);
    }
  }

  lemma InvalidIsRefused(
    failChance: int, trace: seq<System>, labels: seq<Label>, k: nat, n: nat, c: nat, req: PayWithCardRequest)
    requires IsRun(failChance, trace, labels) && k <= n < |trace|
    requires c < |trace[k].calls| && trace[k].calls[c] == NewCall(req) && !PayRequestChecks(req).Pass()
    requires FavourableStretch(labels, c, k, n) && StepsOf(labels, c, k, n) >= 1
    ensures c < |trace[n].calls| && trace[n].calls[c] == Call(req, Refused, Status(InvalidArgument))
  {
    hide Advance, PayRequestChecks;
    var q := NextMove(failChance, trace, labels, c, k, n);
    InvalidStep(failChance, trace[q], c, labels[q].env);
    RefusedForGood(failChance, trace, labels, q + 1, n, c);
  }

  /**
   A call that arrives and takes nine steps without a fault, however other calls and deliveries
   interleave, comes out as follows. An invalid request is refused as such. Otherwise what counts is
   the invoice as it is when the call loads it: missing, paid, or else the draw decides. An unlucky
   draw is answered FAILED; after a lucky one the invoice is paid by this call, which is confirmed
   exactly when its request is confirmable. A call that does not pay has changed nothing.
   */
  lemma ArrivalComesOut(
    failChance: int, trace: seq<System>, labels: seq<Label>, k: nat, n: nat, c: nat, req: PayWithCardRequest)
    returns (load: nat, draw: nat)
    requires IsRun(failChance, trace, labels) && k <= n < |trace|
    requires c < |trace[k].calls| && trace[k].calls[c] == NewCall(req)
    requires FavourableStretch(labels, c, k, n) && StepsOf(labels, c, k, n) >= 9
    ensures !PayRequestChecks(req).Pass() ==>
              c < |trace[n].calls| && trace[n].calls[c] == Call(req, Refused, Status(InvalidArgument))
    ensures PayRequestChecks(req).Pass() ==>
              && k <= load < n && LoadsAt(trace, labels, load, c, req)
              && draw < n && labels[draw].Step?
              && (Has(trace[load].world.invoices, req.invoiceNumber) ==>
                    load < draw && DrawsAt(trace, labels, load, draw, c, req))
              && ComesOut(failChance, trace[load].world.invoices, labels[draw].env.luck, req, trace[n], c)
    ensures c < |trace[n].calls| && (trace[n].calls[c].at.Refused? ==> ChangesNothing(trace, labels, c, 0, n))
  {
    hide Advance;
    if PayRequestChecks(req).Pass() {
      NumberPasses(req);
      load := ComesToLoad(failChance, trace, labels, k, n, c, req);
      draw := ComesOutFromLoad(failChance, trace, labels, load, n, c, req);
    } else {
      load, draw := 0, 0;
      InvalidIsRefused(failChance, trace, labels, k, n, c, req);
    }
    if trace[n].calls[c].at.Refused? {
      UnwrittenCallChangedNothing(failChance, trace, labels, n, c);
    }
  }
}
