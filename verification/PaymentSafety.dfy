/** What holds in every reachable state, and over every run, of the payment protocol. */
module PaymentSafety {
  import opened Wrappers
  import opened Errors
  import opened GoText
  import opened GoTime
  import opened Documents
  import opened InvoiceStore
  import opened HumanFriendlyId
  import opened PaymentProtocol

  // ---------- What responses and receipts say ----------

  /** The response says what was asked: that invoice, that card, under a receipt number. */
  predicate Describes(req: PayWithCardRequest, resp: PayWithCardResponse) {
    && resp.invoiceNumber == req.invoiceNumber
    && !IsBlank(resp.receiptNumber)
    && resp.processedAt.Some?
    && |CardNumber(req)| >= 4
    && resp.card == Some(CardSummary(req.card.GetOr(NO_CARD).brand, CardNumber(req)[|CardNumber(req)| - 4..]))
  }

  /** The response carries the receipt number drawn in this step and the time read in it. */
  predicate DrawnIn(resp: PayWithCardResponse, env: Environment) {
    Generate("RCPT", env.id) == Success(resp.receiptNumber) && resp.processedAt == Some(NewTimestamp(env.processedAt))
  }

  /** The receipt repeats the response, its time cut as storing cuts it. */
  predicate IsReceiptOf(r: Receipt, resp: PayWithCardResponse) {
    && r.receiptNumber == resp.receiptNumber && r.invoiceNumber == resp.invoiceNumber
    && resp.card == Some(r.card)
    && r.processedAt == Stored(AsTime(resp.processedAt))
  }

  predicate IsConfirmationOf(x: Sent, resp: PayWithCardResponse, now: Instant) {
    && x.confirmation.receiptNumber == resp.receiptNumber
    && x.confirmation.invoiceNumber == resp.invoiceNumber
    && x.confirmation.confirmedAt == Some(NewTimestamp(now))
  }

  // ---------- What every step keeps ----------

  /** Nothing is removed or reordered, invoices change at most in status, calls keep their requests. */
  ghost predicate Grows(s: System, t: System) {
    && Evolves(s.world.invoices, t.world.invoices)
    && s.world.receipts <= t.world.receipts
    && s.world.confirmations <= t.world.confirmations
    && s.created <= t.created
    && t.seeded == s.seeded
    && |s.calls| <= |t.calls|
    && forall i :: 0 <= i < |s.calls| ==> t.calls[i].req == s.calls[i].req
  }

  lemma DecideEffect(failChance: int, w: World, c: Call, env: Environment)
    requires c.at.Loaded?
    ensures var m := Decide(failChance, w, c, env);
            && m.world == w && m.call.req == c.req
            && (m.call.at.Refused? || m.call.at == Admitted(c.at.now))
            && (m.call.at.Admitted? ==> m.call.reply == c.reply)
            && (m.call.reply.Response? ==>
                  || m.call.reply == c.reply
                  || (&& m.call.reply.resp.status.Failed?
                      && Describes(c.req, m.call.reply.resp) && DrawnIn(m.call.reply.resp, env)))
            && (IsPaid(c.at.invoice) ==> m.call == c.(at := Refused, reply := Status(FailedPrecondition)))
  {
    if Generate("RCPT", env.id).Success? {
      GeneratedIdNotBlank("RCPT", env.id);
    }
  }

  lemma RespondEffect(w: World, c: Call, env: Environment)
    requires c.at.Written?
    ensures var m := Respond(w, c, env);
            && m.world == w && m.call.req == c.req
            && (m.call.at.EndedBeforeReceipt? || m.call.at.Responded?)
            && (m.call.at.Responded? ==>
                  && m.call.at.now == c.at.now && Answers(m.call, m.call.at.resp)
                  && DrawnIn(m.call.at.resp, env))
            && (m.call.at.EndedBeforeReceipt? ==> m.call.reply == c.reply || m.call.reply == Status(Internal))
  {
    if Generate("RCPT", env.id).Success? {
      GeneratedIdNotBlank("RCPT", env.id);
    }
  }

  /** The move ends the call or goes on, and adds the receipt of its response or nothing. */
  ghost predicate AddsReceipt(w: World, c: Call, m: Move)
    requires c.at.Responded?
  {
    && m.world == w.(receipts := m.world.receipts)
    && m.call == c.(at := m.call.at)
    && (m.call.at.EndedBeforeReceipt? || m.call.at.EndedBeforeConfirmation?
        || m.call.at == Receipted(c.at.now, c.at.resp))
    && (m.call.at.EndedBeforeReceipt? ==> m.world == w)
    && (!m.call.at.EndedBeforeReceipt? ==>
          && |m.world.receipts| == |w.receipts| + 1
          && w.receipts <= m.world.receipts
          && IsReceiptOf(m.world.receipts[|w.receipts|], c.at.resp))
  }

  lemma SaveReceiptEffect(w: World, c: Call, env: Environment)
    requires c.at.Responded?
    ensures AddsReceipt(w, c, SaveReceipt(w, c, env))
  {
  }

  /** One step changes at most one collection, and which one is plain from where the call stands. */
  lemma AdvanceEffect(failChance: int, w: World, c: Call, env: Environment)
    ensures var m := Advance(failChance, w, c, env);
            && m.call.req == c.req
            && (env.killed ==> m == Move(w, Die(c)))
            && (!c.at.Admitted? ==> m.world.invoices == w.invoices)
            && (!c.at.Responded? ==> m.world.receipts == w.receipts)
            && (!c.at.Reread? ==> m.world.confirmations == w.confirmations)
            && w.receipts <= m.world.receipts
            && w.confirmations <= m.world.confirmations
  {
    hide FindByInvoiceNumber, PayRequestChecks;
    if !env.killed {
      match c.at
      case Loaded(_, _) => DecideEffect(failChance, w, c, env);
      case Written(_) => RespondEffect(w, c, env);
      case Responded(_, _) => SaveReceiptEffect(w, c, env);
      case _ =>
    }
  }

  lemma AdvanceGrows(failChance: int, w: World, c: Call, env: Environment)
    ensures var m := Advance(failChance, w, c, env);
            && Evolves(w.invoices, m.world.invoices)
            && |m.world.invoices| == |w.invoices|
            && (ValidStatuses(w.invoices) ==> ValidStatuses(m.world.invoices))
  {
    AdvanceEffect(failChance, w, c, env);
    if c.at.Admitted? && !env.killed {
      PayingEvolves(w.invoices, c.Number(), c.at.now, env.dbFault);
    }
  }

  /** Store evolution, one step: statuses stay in range and `paid` is never undone. */
  lemma NextGrows(failChance: int, s: System, l: Label)
    ensures Grows(s, Next(failChance, s, l))
    ensures ValidStatuses(s.world.invoices) ==> ValidStatuses(Next(failChance, s, l).world.invoices)
  {
    match l
    case Arrive(_) =>
    case Step(i, env) =>
      if i < |s.calls| {
        AdvanceEffect(failChance, s.world, s.calls[i], env);
        AdvanceGrows(failChance, s.world, s.calls[i], env);
      }
    case AddInvoice(invoice, fault) => InsertEvolves(s.world.invoices, invoice, fault);
  }

  lemma GrowsTransitive(a: System, b: System, c: System)
    requires Grows(a, b) && Grows(b, c)
    ensures Grows(a, c)
  {
    EvolvesTransitive(a.world.invoices, b.world.invoices, c.world.invoices);
  }

  /** Store evolution over whole runs, between any two states of a run. */
  lemma {:induction false} RunGrows(failChance: int, trace: seq<System>, labels: seq<Label>, j: nat, k: nat)
    requires IsRun(failChance, trace, labels) && j <= k < |trace|
    ensures Grows(trace[j], trace[k])
    ensures ValidStatuses(trace[j].world.invoices) ==> ValidStatuses(trace[k].world.invoices)
    decreases k - j
  {
    if j < k {
      RunGrows(failChance, trace, labels, j, k - 1);
      NextGrows(failChance, trace[k - 1], labels[k - 1]);
      GrowsTransitive(trace[j], trace[k - 1], trace[k]);
    }
  }

  // ---------- Confirmations are backed ----------

  ghost predicate HasReceiptFor(w: World, resp: PayWithCardResponse) {
    exists r :: r in w.receipts && IsReceiptOf(r, resp)
  }

  ghost predicate HasConfirmationFor(w: World, resp: PayWithCardResponse, now: Instant) {
    exists x :: x in w.confirmations && IsConfirmationOf(x, resp, now)
  }

  /** The invoice document and the invoice as created name the same booking and payer. */
  ghost predicate BookedAs(s: System, number: string, bookingId: string, payerId: string) {
    && Has(s.world.invoices, number)
    && ByNumber(s.world.invoices, number) < |s.created|
    && var i := s.created[ByNumber(s.world.invoices, number)];
       i.invoiceNumber == number && i.bookingId == bookingId && i.payerId == payerId
  }

  /** A confirmation has its receipt, its invoice is paid, and it goes to the booking of that invoice. */
  ghost predicate Backed(s: System, x: Sent) {
    var c := x.confirmation;
    && (exists r :: r in s.world.receipts
          && r.receiptNumber == c.receiptNumber && r.invoiceNumber == c.invoiceNumber)
    && PaidNumber(s.world.invoices, c.invoiceNumber)
    && BookedAs(s, c.invoiceNumber, c.bookingId, c.payerId)
    && x.routingKey == "booking." + c.bookingId + ".confirmation"
  }

  ghost predicate Answers(c: Call, resp: PayWithCardResponse) {
    && c.reply == Response(resp)
    && resp.status == Succeeded
    && Describes(c.req, resp)
  }

  predicate HasWritten(at: Progress) {
    at.Written? || at.Responded? || at.Receipted? || at.Reread? || at.Confirmed?
    || at.EndedBeforeReceipt? || at.EndedBeforeConfirmation?
  }

  predicate Unanswered(at: Progress) {
    at.Started? || at.Validated? || at.Clocked? || at.Loaded? || at.Admitted? || at.Written?
  }

  /** What is known of a call wherever it stands. */
  ghost predicate CallOk(s: System, c: Call) {
    && (c.at.Loaded? || c.at.Admitted? || HasWritten(c.at) ==>
          Has(s.world.invoices, c.Number()) && !IsBlank(c.Number()))
    && (HasWritten(c.at) ==> PaidNumber(s.world.invoices, c.Number()))
    && (Unanswered(c.at) ==> c.reply == NoReply)
    && (c.reply.Response? ==> Describes(c.req, c.reply.resp))
    && (c.reply.Response? && c.reply.resp.status.Failed? ==> c.at.Refused?)
    && (c.reply.Response? && c.reply.resp.status.Succeeded? ==> HasWritten(c.at))
    && match c.at
       case Responded(_, resp) => Answers(c, resp)
       case Receipted(_, resp) => Answers(c, resp) && HasReceiptFor(s.world, resp)
       case Reread(_, resp, invoice) =>
         && Answers(c, resp) && HasReceiptFor(s.world, resp)
         && invoice.invoiceNumber == c.Number()
         && BookedAs(s, c.Number(), invoice.bookingId, invoice.payerId)
       case Confirmed(now, resp) =>
         && Answers(c, resp) && HasReceiptFor(s.world, resp)
         && HasConfirmationFor(s.world, resp, now)
       case _ => true
  }

  ghost predicate Good(s: System) {
    && Records(s.created, s.world.invoices)
    && s.seeded <= |s.world.receipts|
    && (forall i :: 0 <= i < |s.calls| ==> CallOk(s, s.calls[i]))
    && (forall x :: x in s.world.confirmations ==> Backed(s, x))
  }

  lemma BookedAsStable(s: System, t: System, number: string, bookingId: string, payerId: string)
    requires Grows(s, t) && Records(t.created, t.world.invoices) && BookedAs(s, number, bookingId, payerId)
    ensures BookedAs(t, number, bookingId, payerId)
  {
    NumberIsStable(s.world.invoices, t.world.invoices, number);
  }

  /** A backed confirmation stays backed whatever any call or delivery does later. */
  lemma BackedStable(s: System, t: System, x: Sent)
    requires Grows(s, t) && Records(t.created, t.world.invoices) && Backed(s, x)
    ensures Backed(t, x)
  {
    var c := x.confirmation;
    var r :| r in s.world.receipts && r.receiptNumber == c.receiptNumber && r.invoiceNumber == c.invoiceNumber;
    assert r in t.world.receipts;
    NumberIsStable(s.world.invoices, t.world.invoices, c.invoiceNumber);
    BookedAsStable(s, t, c.invoiceNumber, c.bookingId, c.payerId);
  }

  lemma ReceiptForStable(w: World, v: World, resp: PayWithCardResponse)
    requires w.receipts <= v.receipts && HasReceiptFor(w, resp)
    ensures HasReceiptFor(v, resp)
  {
    var r :| r in w.receipts && IsReceiptOf(r, resp);
    assert r in v.receipts;
  }

  lemma CallOkStable(s: System, t: System, c: Call)
    requires Grows(s, t) && Records(t.created, t.world.invoices) && CallOk(s, c)
    ensures CallOk(t, c)
  {
    if Has(s.world.invoices, c.Number()) {
      NumberIsStable(s.world.invoices, t.world.invoices, c.Number());
    }
    match c.at
    case Receipted(_, resp) => ReceiptForStable(s.world, t.world, resp);
    case Reread(_, resp, invoice) =>
      ReceiptForStable(s.world, t.world, resp);
      BookedAsStable(s, t, c.Number(), invoice.bookingId, invoice.payerId);
    case Confirmed(now, resp) =>
      ReceiptForStable(s.world, t.world, resp);
      var x :| x in s.world.confirmations && IsConfirmationOf(x, resp, now);
      assert x in t.world.confirmations;
    case _ =>
  }

  lemma RecordsEvolve(created: seq<Invoice>, before: seq<Invoice>, after: seq<Invoice>)
    requires Records(created, before) && Evolves(before, after) && |before| == |after|
    ensures Records(created, after)
  {
    forall k | 0 <= k < |after|
      ensures SameExceptStatus(StoredInvoice(created[k]), after[k])
    {
      assert SameExceptStatus(StoredInvoice(created[k]), before[k]) && SameExceptStatus(before[k], after[k]);
    }
  }

  lemma NextRecords(failChance: int, s: System, l: Label)
    requires Records(s.created, s.world.invoices)
    ensures Records(Next(failChance, s, l).created, Next(failChance, s, l).world.invoices)
  {
    match l
    case Arrive(_) =>
    case Step(i, env) =>
      if i < |s.calls| {
        AdvanceGrows(failChance, s.world, s.calls[i], env);
        RecordsEvolve(s.created, s.world.invoices, Next(failChance, s, l).world.invoices);
      }
    case AddInvoice(invoice, fault) => InsertAppendsOrKeeps(s.world.invoices, invoice, fault);
  }

  /** The call that moves is in order afterwards. */
  lemma AdvancedCallOk(failChance: int, s: System, i: nat, env: Environment)
    requires Good(s) && i < |s.calls|
    ensures var t := Next(failChance, s, Step(i, env)); CallOk(t, t.calls[i])
  {
    hide Advance, SetStatus;
    var l := Step(i, env);
    var c := s.calls[i];
    var t := Next(failChance, s, l);
    NextGrows(failChance, s, l);
    NextRecords(failChance, s, l);
    CallOkStable(s, t, c);
    MovedCallOk(failChance, s, t, c, env);
  }

  /** A step of call `c` from state `s`, whose other effects are already part of `t`. */
  ghost predicate Moving(s: System, t: System, c: Call, m: Move) {
    && CallOk(s, c) && CallOk(t, c) && Records(s.created, s.world.invoices)
    && t.world == m.world && t.created == s.created
  }

  lemma MovedCallOk(failChance: int, s: System, t: System, c: Call, env: Environment)
    requires Moving(s, t, c, Advance(failChance, s.world, c, env))
    ensures CallOk(t, Advance(failChance, s.world, c, env).call)
  {
    if env.killed {
      DeadCallOk(t, c);
    } else if c.at.Admitted? {
      WrittenCallOk(s, t, c, env);
    } else if c.at.Responded? {
      SavedCallOk(s, t, c, env);
    } else if c.at.Receipted? {
      ReloadedCallOk(s, t, c, env);
    } else if c.at.Reread? {
      PublishedCallOk(s, t, c, env);
    } else if c.at.Loaded? {
      DecidedCallOk(failChance, s, t, c, env);
    } else if c.at.Written? {
      RespondedCallOk(s, t, c, env);
    } else {
      QuietCallOk(failChance, s, t, c, env);
    }
  }

  lemma DeadCallOk(s: System, c: Call)
    requires CallOk(s, c)
    ensures CallOk(s, Die(c))
  {
  }

  lemma QuietCallOk(failChance: int, s: System, t: System, c: Call, env: Environment)
    requires !env.killed
    requires !c.at.Loaded? && !c.at.Admitted? && !c.at.Written?
    requires !c.at.Responded? && !c.at.Receipted? && !c.at.Reread?
    requires Moving(s, t, c, Advance(failChance, s.world, c, env))
    ensures CallOk(t, Advance(failChance, s.world, c, env).call)
  {
    hide FindByInvoiceNumber, PayRequestChecks;
    if c.at.Clocked? {
      LoadYieldsThatInvoice(s.world.invoices, c.Number(), env.dbFault);
    }
  }

  lemma DecidedCallOk(failChance: int, s: System, t: System, c: Call, env: Environment)
    requires c.at.Loaded? && Moving(s, t, c, Decide(failChance, s.world, c, env))
    ensures CallOk(t, Decide(failChance, s.world, c, env).call)
  {
    DecideEffect(failChance, s.world, c, env);
  }

  lemma RespondedCallOk(s: System, t: System, c: Call, env: Environment)
    requires c.at.Written? && Moving(s, t, c, Respond(s.world, c, env))
    ensures CallOk(t, Respond(s.world, c, env).call)
  {
    RespondEffect(s.world, c, env);
  }

  lemma WrittenCallOk(s: System, t: System, c: Call, env: Environment)
    requires c.at.Admitted? && Moving(s, t, c, Write(s.world, c, env))
    ensures CallOk(t, Write(s.world, c, env).call)
  {
    PayingMarksThatInvoice(s.world.invoices, c.Number(), c.at.now, env.dbFault);
  }

  lemma SavedCallOk(s: System, t: System, c: Call, env: Environment)
    requires c.at.Responded? && Moving(s, t, c, SaveReceipt(s.world, c, env))
    ensures CallOk(t, SaveReceipt(s.world, c, env).call)
  {
    SaveReceiptEffect(s.world, c, env);
    ReceiptedCallOk(s, t, c, SaveReceipt(s.world, c, env));
  }

  lemma ReceiptedCallOk(s: System, t: System, c: Call, m: Move)
    requires c.at.Responded? && Moving(s, t, c, m) && AddsReceipt(s.world, c, m)
    ensures CallOk(t, m.call)
  {
    if m.call.at.Receipted? {
      assert m.world.receipts[|s.world.receipts|] in m.world.receipts;
    }
  }

  lemma ReloadedCallOk(s: System, t: System, c: Call, env: Environment)
    requires c.at.Receipted? && Moving(s, t, c, Reload(s.world, c, env))
    ensures CallOk(t, Reload(s.world, c, env).call)
  {
    hide FindByInvoiceNumber;
    LoadedIsBooked(s, c.Number(), env.dbFault);
  }

  lemma PublishedCallOk(s: System, t: System, c: Call, env: Environment)
    requires c.at.Reread? && Moving(s, t, c, Publish(s.world, c, env))
    ensures CallOk(t, Publish(s.world, c, env).call)
  {
    if env.publishFault.None? {
      var x := ConfirmationFor(c.at.invoice, c.at.resp, c.at.now, env.confirmationId);
      assert t.world.confirmations[|s.world.confirmations|] == x;
      assert x in t.world.confirmations && IsConfirmationOf(x, c.at.resp, c.at.now);
    }
  }

  lemma LoadedIsBooked(s: System, number: string, fault: Option<Error>)
    requires Records(s.created, s.world.invoices)
    ensures var r := FindByInvoiceNumber(s.world.invoices, number, fault);
            r.Success? ==>
              && r.value.invoiceNumber == number
              && BookedAs(s, number, r.value.bookingId, r.value.payerId)
  {
    LoadYieldsThatInvoice(s.world.invoices, number, fault);
    var i := ByNumber(s.world.invoices, number);
    assert i < |s.created| ==> SameExceptStatus(StoredInvoice(s.created[i]), s.world.invoices[i]);
  }

  lemma PublishEffect(w: World, c: Call, env: Environment)
    requires c.at.Reread?
    ensures var m, i := Publish(w, c, env), c.at.invoice;
            if env.publishFault.Some? then m == Move(w, c.(at := EndedBeforeConfirmation))
            else
              && m.world == w.(confirmations := w.confirmations
                   + [Sent(PaymentConfirmation(env.confirmationId, i.bookingId, i.payerId, i.invoiceNumber,
                                               c.at.resp.receiptNumber, Some(NewTimestamp(c.at.now))),
                           "booking." + i.bookingId + ".confirmation")])
              && m.call == c.(at := Confirmed(c.at.now, c.at.resp))
  {
  }

  /** What a call is about to publish is backed before it is sent. */
  lemma ConfirmationBacked(s: System, c: Call, id: string)
    requires c.at.Reread? && CallOk(s, c)
    ensures Backed(s, ConfirmationFor(c.at.invoice, c.at.resp, c.at.now, id))
  {
    var resp := c.at.resp;
    var r :| r in s.world.receipts && IsReceiptOf(r, resp);
  }

  lemma PublishedIsBacked(failChance: int, s: System, i: nat, env: Environment, x: Sent)
    requires i < |s.calls| && CallOk(s, s.calls[i])
    requires x in Advance(failChance, s.world, s.calls[i], env).world.confirmations && x !in s.world.confirmations
    ensures Backed(s, x)
  {
    var c := s.calls[i];
    AdvanceEffect(failChance, s.world, c, env);
    assert c.at.Reread? && !env.killed;
    PublishEffect(s.world, c, env);
    ConfirmationBacked(s, c, env.confirmationId);
  }

  lemma NextGood(failChance: int, s: System, l: Label)
    requires Good(s)
    ensures Good(Next(failChance, s, l))
  {
    hide Advance;
    var t := Next(failChance, s, l);
    NextGrows(failChance, s, l);
    NextRecords(failChance, s, l);
    forall i | 0 <= i < |t.calls|
      ensures CallOk(t, t.calls[i])
    {
      if l.Step? && l.call == i {
        AdvancedCallOk(failChance, s, i, l.env);
      } else if i < |s.calls| {
        CallOkStable(s, t, s.calls[i]);
      }
    }
    forall x | x in t.world.confirmations
      ensures Backed(t, x)
    {
      if x !in s.world.confirmations {
        PublishedIsBacked(failChance, s, l.call, l.env, x);
      }
      BackedStable(s, t, x);
    }
  }

  /** In every reachable state every call is in order and every confirmation backed. */
  lemma {:induction false} EveryStateGood(failChance: int, trace: seq<System>, labels: seq<Label>, k: nat)
    requires IsRun(failChance, trace, labels) && k < |trace|
    ensures Good(trace[k])
  {
    if k > 0 {
      EveryStateGood(failChance, trace, labels, k - 1);
      NextGood(failChance, trace[k - 1], labels[k - 1]);
    }
  }

  /**
   A confirmation published by step j is backed in every later state k: receipt stored, invoice
   paid, sent to the booking and naming the payer the invoice was created with.
   */
  lemma ConfirmationsStayBacked(failChance: int, trace: seq<System>, labels: seq<Label>, j: nat, k: nat, x: Sent)
    requires IsRun(failChance, trace, labels) && j <= k < |trace|
    requires x in trace[j].world.confirmations
    ensures x in trace[k].world.confirmations && Backed(trace[k], x)
  {
    RunGrows(failChance, trace, labels, j, k);
    EveryStateGood(failChance, trace, labels, k);
  }
}
