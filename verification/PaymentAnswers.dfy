/** What a call is answered, and on whose draw: step by step, and over whole runs. */
module PaymentAnswers {
  import opened Wrappers
  import opened Errors
  import opened GoText
  import opened GoTime
  import opened Documents
  import opened InvoiceStore
  import opened HumanFriendlyId
  import opened PaymentProtocol
  import opened PaymentSafety
  import opened PaymentRuns
  import V = Validation

  // ---------- One step ----------

  /** The error of a store is answered NotFound if a missing invoice is anywhere in its tree, else Internal. */
  ghost function StoreAnswer(fault: Error): Reply {
    Status(if Contains(fault, KindTarget(DbInvoiceNotFound)) then NotFound else Internal)
  }

  /** Both sources of the receipt number answer. */
  predicate CanDraw(env: Environment) {
    env.id.uuid.Success? && env.id.random.Success?
  }

  /** A response of this status about the call's invoice and card, with the number and time of this step. */
  predicate IsAnswer(req: PayWithCardRequest, status: PaymentStatus, env: Environment, reply: Reply) {
    && reply.Response? && reply.resp.status == status && Describes(req, reply.resp)
    && CarriesDraw(reply.resp.receiptNumber, "RCPT", env.id)
    && reply.resp.processedAt == Some(NewTimestamp(env.processedAt))
  }

  lemma DrawIsCarried(resp: PayWithCardResponse, env: Environment)
    requires DrawnIn(resp, env)
    ensures CarriesDraw(resp.receiptNumber, "RCPT", env.id)
  {
    hide CarriesDraw, Generate;
    GeneratedNumberCarriesDraw("RCPT", env.id);
  }

  lemma ValidationAnswer(failChance: int, w: World, c: Call, env: Environment)
    requires c.at.Started? && c.reply == NoReply && !env.killed
    ensures Advance(failChance, w, c, env)
            == if PayRequestChecks(c.req).Pass() then Move(w, c.(at := Validated))
               else Move(w, c.(at := Refused, reply := Status(InvalidArgument)))
  {
    hide PayRequestChecks, Decide, Write, Respond, SaveReceipt, Reload, Publish, FindByInvoiceNumber;
  }

  lemma ClockAnswer(failChance: int, w: World, c: Call, env: Environment)
    requires c.at.Validated? && c.reply == NoReply && !env.killed
    ensures Advance(failChance, w, c, env)
            == if env.clock.Success? then Move(w, c.(at := Clocked(env.clock.value)))
               else Move(w, c.(at := Refused, reply := Status(Internal)))
  {
    hide PayRequestChecks, Decide, Write, Respond, SaveReceipt, Reload, Publish, FindByInvoiceNumber;
  }

  lemma LoadAnswer(failChance: int, w: World, c: Call, env: Environment)
    requires c.at.Clocked? && c.reply == NoReply && !env.killed && !IsBlank(c.Number())
    ensures Advance(failChance, w, c, env)
            == if env.dbFault.Some? then Move(w, c.(at := Refused, reply := StoreAnswer(env.dbFault.value)))
               else if !Has(w.invoices, c.Number()) then Move(w, c.(at := Refused, reply := Status(NotFound)))
               else Move(w, c.(at := Loaded(c.at.now, w.invoices[ByNumber(w.invoices, c.Number())])))
  {
    hide PayRequestChecks, Decide, Write, Respond, SaveReceipt, Reload, Publish, FindByInvoiceNumber;
    LoadYieldsThatInvoice(w.invoices, c.Number(), env.dbFault);
    FailedLoadSaysWhy(w.invoices, c.Number(), env.dbFault);
    var r := FindByInvoiceNumber(w.invoices, c.Number(), env.dbFault);
    if r.Failure? {
      NotFoundThroughLayer(r.error);
    }
  }

  /** One layer of another kind does not change how a store's error is answered. */
  lemma NotFoundThroughLayer(e: Error)
    requires e.Wrap?
    ensures MapError(e) == if e.kind == DbInvoiceNotFound || Contains(e.cause, KindTarget(DbInvoiceNotFound))
                           then NotFound else Internal
  {
    AsFindsIffPresent(e.cause, KindTarget(DbInvoiceNotFound));
    assert e.kind != DbInvoiceNotFound ==>
        As(e, KindTarget(DbInvoiceNotFound)) == As(e.cause, KindTarget(DbInvoiceNotFound));
  }

  lemma DrawAnswer(failChance: int, w: World, c: Call, env: Environment)
    requires c.at.Loaded? && c.reply == NoReply
    ensures var m := Decide(failChance, w, c, env);
            && m.world == w && m.call.req == c.req
            && if IsPaid(c.at.invoice) then m.call.at == Refused && m.call.reply == Status(FailedPrecondition)
               else if env.luck >= failChance then m.call.at == Admitted(c.at.now) && m.call.reply == NoReply
               else
                 && m.call.at == Refused
                 && if |CardNumber(c.req)| < 4 then m.call.reply == NoReply
                    else if !CanDraw(env) then m.call.reply == Status(Unknown)
                    else IsAnswer(c.req, Failed, env, m.call.reply)
  {
    hide CarriesDraw, Generate;
    DecideEffect(failChance, w, c, env);
    GeneratedNumberCarriesDraw("RCPT", env.id);
  }

  lemma WriteAnswer(w: World, c: Call, env: Environment)
    requires c.at.Admitted? && c.reply == NoReply && !IsBlank(c.Number())
    ensures var m := Write(w, c, env);
            if c.at.now == ZERO_INSTANT then m == Move(w, c.(at := Refused, reply := Status(Internal)))
            else if env.dbFault.Some? then m == Move(w, c.(at := Refused, reply := StoreAnswer(env.dbFault.value)))
            else if !Has(w.invoices, c.Number()) then m == Move(w, c.(at := Refused, reply := Status(NotFound)))
            else m.call == c.(at := Written(c.at.now)) && PaidNumber(m.world.invoices, c.Number())
  {
    hide SetStatus, StatusUpdateChecks;
    var r := SetStatus(w.invoices, c.Number(), PAID, c.at.now, env.dbFault);
    PaidUpdatePassesIff(c.Number(), c.at.now);
    StatusUpdatePassesIff(c.Number(), PAID, c.at.now);
    StatusUpdateOutcome(w.invoices, c.Number(), PAID, c.at.now, env.dbFault);
    PayingMarksThatInvoice(w.invoices, c.Number(), c.at.now, env.dbFault);
    if c.at.now == ZERO_INSTANT {
      RefusedUpdateIsInternal(c.Number());
    } else if r.err.Some? {
      NotFoundThroughLayer(r.err.value);
    }
  }

  /** An update at the zero instant fails validation, which is no missing invoice. */
  lemma RefusedUpdateIsInternal(number: string)
    requires !IsBlank(number)
    ensures StatusUpdateChecks(number, PAID, ZERO_INSTANT).Verdict().Some?
    ensures MapError(StatusUpdateChecks(number, PAID, ZERO_INSTANT).Verdict().value) == Internal
  {
    PaidUpdatePassesIff(number, ZERO_INSTANT);
    OnlyViolationsAreInternal(number);
  }

  lemma OnlyViolationsAreInternal(number: string)
    requires StatusUpdateChecks(number, PAID, ZERO_INSTANT).Verdict().Some?
    ensures MapError(StatusUpdateChecks(number, PAID, ZERO_INSTANT).Verdict().value) == Internal
  {
    hide IsBlank;
    var t := KindTarget(DbInvoiceNotFound);
    var c := StatusUpdateChecks(number, PAID, ZERO_INSTANT);
    V.ValidateJoinsFailuresInOrder(c, t);
    ViolationsInUpdate(number);
    V.FailuresAreViolations(c.steps);
    NoneIsMissing(V.Failures(c.steps));
  }

  lemma ViolationsInUpdate(number: string)
    ensures StatusUpdateChecks(number, PAID, ZERO_INSTANT).OnlyViolations()
  {
    var c := V.New();
    V.WithViolation(c, V.NotBlankStep("invoiceNumber", number));
    c := c.NotBlank("invoiceNumber", number);
    V.WithViolation(c, V.NotBlankStep("status", PAID));
    c := c.NotBlank("status", PAID);
    V.WithViolation(c, V.NotZeroValueStep("updatedAt", V.Instant(ZERO_INSTANT)));
  }

  lemma {:induction false} NoneIsMissing(es: seq<Error>)
    requires forall i :: 0 <= i < |es| ==> es[i].Violation?
    ensures V.FirstAs(es, KindTarget(DbInvoiceNotFound)).None?
  {
    if es != [] {
      NoneIsMissing(es[1..]);
    }
  }

  lemma ResponseAnswer(w: World, c: Call, env: Environment)
    requires c.at.Written? && c.reply == NoReply
    ensures var m := Respond(w, c, env);
            && m.world == w && m.call.req == c.req
            && if |CardNumber(c.req)| < 4 then m.call.at == EndedBeforeReceipt && m.call.reply == NoReply
               else if !CanDraw(env) then m.call.at == EndedBeforeReceipt && m.call.reply == Status(Internal)
               else
                 && IsAnswer(c.req, Succeeded, env, m.call.reply)
                 && m.call.at == Responded(c.at.now, m.call.reply.resp)
  {
    hide CarriesDraw, Generate;
    RespondEffect(w, c, env);
    GeneratedNumberCarriesDraw("RCPT", env.id);
  }

  // ---------- Whole runs ----------

  /** Step q is the one in which the call was answered, and the answer carries this step's draw. */
  predicate AnsweredIn(trace: seq<System>, labels: seq<Label>, q: nat, c: nat, resp: PayWithCardResponse)
    requires |trace| == |labels| + 1
  {
    && q < |labels| && Moves(labels[q], c) && c < |trace[q].calls| && c < |trace[q + 1].calls|
    && trace[q].calls[c].reply == NoReply && trace[q + 1].calls[c].reply == Response(resp)
    && CarriesDraw(resp.receiptNumber, "RCPT", labels[q].env.id)
    && resp.processedAt == Some(NewTimestamp(labels[q].env.processedAt))
  }

  /** A step gives a response only to an unanswered call, on its own draw; otherwise the reply stands. */
  lemma AnswerOfStep(failChance: int, w: World, c: Call, env: Environment)
    requires Unanswered(c.at) ==> c.reply == NoReply
    ensures var m := Advance(failChance, w, c, env);
            m.call.reply.Response? ==>
              m.call.reply == c.reply || (c.reply == NoReply && DrawnIn(m.call.reply.resp, env))
  {
    hide FindByInvoiceNumber, PayRequestChecks, SetStatus, NewReceiptFromProtMessage, Generate;
    if !env.killed {
      match c.at
      case Loaded(_, _) => DecideEffect(failChance, w, c, env);
      case Written(_) => RespondEffect(w, c, env);
      case Responded(_, _) => SaveReceiptEffect(w, c, env);
      case _ =>
    }
  }

  /**
   In every reachable state, every response a call has been given, SUCCEEDED or FAILED, was given in
   one of its own steps and carries what was drawn in that step: the receipt number is RCPT, the date
   and the six digits of that draw, and the processing time the one read then.
   */
  lemma {:induction false} ResponsesCarryTheirDraw(
    failChance: int, trace: seq<System>, labels: seq<Label>, n: nat, c: nat) returns (q: nat)
    requires IsRun(failChance, trace, labels) && n < |trace|
    requires c < |trace[n].calls| && trace[n].calls[c].reply.Response?
    ensures q < n && AnsweredIn(trace, labels, q, c, trace[n].calls[c].reply.resp)
    decreases n, 1
  {
    hide CarriesDraw, DrawnIn, Advance;
    if n > 0 {
      RunStep(failChance, trace, labels, n - 1);
      if c >= |trace[n - 1].calls| {
        assert false;
      } else if !Moves(labels[n - 1], c) {
        OthersLeaveCall(failChance, trace[n - 1], labels[n - 1], c);
        q := ResponsesCarryTheirDraw(failChance, trace, labels, n - 1, c);
      } else {
        EveryStateGood(failChance, trace, labels, n - 1);
        q := AnsweredByNow(failChance, trace, labels, n, c);
      }
    }
  }

  lemma AnsweredByNow(failChance: int, trace: seq<System>, labels: seq<Label>, n: nat, c: nat) returns (q: nat)
    requires IsRun(failChance, trace, labels) && 0 < n < |trace| && Good(trace[n - 1])
    requires trace[n] == Next(failChance, trace[n - 1], labels[n - 1]) && Moves(labels[n - 1], c)
    requires c < |trace[n - 1].calls| && trace[n].calls[c].reply.Response?
    ensures q < n && AnsweredIn(trace, labels, q, c, trace[n].calls[c].reply.resp)
    decreases n, 0
  {
    hide CarriesDraw, DrawnIn, Advance;
    var before, env := trace[n - 1].calls[c], labels[n - 1].env;
    assert CallOk(trace[n - 1], before);
    AnswerOfStep(failChance, trace[n - 1].world, before, env);
    if trace[n].calls[c].reply == before.reply {
      q := ResponsesCarryTheirDraw(failChance, trace, labels, n - 1, c);
    } else {
      q := n - 1;
      DrawSays(trace[n].calls[c].reply.resp, env);
    }
  }

  lemma DrawSays(resp: PayWithCardResponse, env: Environment)
    requires DrawnIn(resp, env)
    ensures CarriesDraw(resp.receiptNumber, "RCPT", env.id)
    ensures resp.processedAt == Some(NewTimestamp(env.processedAt))
  {
    hide CarriesDraw, Generate;
    DrawIsCarried(resp, env);
  }
}
