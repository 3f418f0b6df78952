/**
 The payment service as one object: `PayWithCard` up to its reply and the work it leaves running
 behind it. Run without interruption, the two are exactly the nine steps of the protocol.
 */
module PaymentService {
  import opened Wrappers
  import opened Errors
  import opened GoText
  import opened GoTime
  import opened Documents
  import opened InvoiceStore
  import opened ReceiptStore
  import opened PaymentProtocol
  import opened PaymentAnswers

  /** A call that runs alone. */
  function Run(failChance: int, w: World, c: Call, envs: seq<Environment>): Move
    decreases |envs|
  {
    if envs == [] then Move(w, c)
    else
      var m := Advance(failChance, w, c, envs[0]);
      Run(failChance, m.world, m.call, envs[1..])
  }

  ghost predicate Alive(envs: seq<Environment>) {
    forall k :: 0 <= k < |envs| ==> !envs[k].killed
  }

  // ---------- What the two halves compute ----------

  function PayFromAdmitted(w: World, c: Call, write: Environment, respond: Environment): Move
    requires c.at.Admitted?
  {
    var written := Write(w, c, write);
    if !written.call.at.Written? then written
    else Respond(written.world, written.call, respond)
  }

  function PayFromLoad(
    failChance: int, w: World, c: Call, decide: Environment, write: Environment, respond: Environment): Move
    requires c.at.Loaded?
  {
    var decided := Decide(failChance, w, c, decide);
    if !decided.call.at.Admitted? then decided
    else PayFromAdmitted(decided.world, decided.call, write, respond)
  }

  function PayFromClocked(failChance: int, w: World, c: Call, envs: seq<Environment>): Move
    requires |envs| == 4 && c.at.Clocked?
  {
    match FindByInvoiceNumber(w.invoices, c.Number(), envs[0].dbFault)
    case Failure(e) => Refuse(w, c, Status(MapError(e)))
    case Success(invoice) =>
      PayFromLoad(failChance, w, c.(at := Loaded(c.at.now, invoice)), envs[1], envs[2], envs[3])
  }

  /** The reply, with the call left where its background work would begin. */
  function Pay(failChance: int, w: World, req: PayWithCardRequest, envs: seq<Environment>): Move
    requires |envs| == 6
  {
    var c := NewCall(req);
    if PayRequestChecks(req).Verdict().Some? then Refuse(w, c, Status(InvalidArgument))
    else if envs[1].clock.Failure? then Refuse(w, c, Status(Internal))
    else PayFromClocked(failChance, w, c.(at := Clocked(envs[1].clock.value)), envs[2..])
  }

  lemma AdmittedCarriesItsDraw(w: World, c: Call, write: Environment, respond: Environment)
    requires c.at.Admitted? && c.reply == NoReply
    ensures var m := PayFromAdmitted(w, c, write, respond);
            m.call.reply.Response? ==> IsAnswer(c.req, Succeeded, respond, m.call.reply)
  {
    hide SetStatus, IsAnswer, Respond;
    var written := Write(w, c, write);
    if written.call.at.Written? {
      ResponseAnswer(written.world, written.call, respond);
    }
  }

  /** A FAILED response carries the number and time of the draw, a SUCCEEDED one those of the last step. */
  lemma PayCarriesItsDraw(failChance: int, w: World, req: PayWithCardRequest, envs: seq<Environment>)
    requires |envs| == 6
    ensures var reply := Pay(failChance, w, req, envs).call.reply;
            reply.Response? ==>
              IsAnswer(req, reply.resp.status, if reply.resp.status.Failed? then envs[3] else envs[5], reply)
  {
    hide Decide, PayFromAdmitted, IsAnswer, FindByInvoiceNumber, PayRequestChecks;
    if !PayRequestChecks(req).Verdict().Some? && envs[1].clock.Success? {
      var c := NewCall(req).(at := Clocked(envs[1].clock.value));
      var found := FindByInvoiceNumber(w.invoices, c.Number(), envs[2..][0].dbFault);
      if found.Success? {
        var loaded := c.(at := Loaded(c.at.now, found.value));
        LoadedCarriesItsDraw(failChance, w, loaded, envs[3], envs[4], envs[5]);
      }
    }
  }

  lemma LoadedCarriesItsDraw(
    failChance: int, w: World, c: Call, decide: Environment, write: Environment, respond: Environment)
    requires c.at.Loaded? && c.reply == NoReply
    ensures var reply := PayFromLoad(failChance, w, c, decide, write, respond).call.reply;
            reply.Response? ==>
              IsAnswer(c.req, reply.resp.status, if reply.resp.status.Failed? then decide else respond, reply)
  {
    hide Decide, PayFromAdmitted;
    DrawAnswer(failChance, w, c, decide);
    var decided := Decide(failChance, w, c, decide);
    if decided.call.at.Admitted? {
      AdmittedCarriesItsDraw(decided.world, decided.call, write, respond);
    }
  }

  function ConfirmFromReceipted(w: World, c: Call, envs: seq<Environment>): Move
    requires |envs| == 2 && c.at.Receipted?
  {
    var reloaded := Reload(w, c, envs[0]);
    if !reloaded.call.at.Reread? then reloaded
    else Publish(reloaded.world, reloaded.call, envs[1])
  }

  function FollowUp(w: World, c: Call, envs: seq<Environment>): Move
    requires |envs| == 3 && c.at.Responded?
  {
    var saved := SaveReceipt(w, c, envs[0]);
    if !saved.call.at.Receipted? then saved
    else ConfirmFromReceipted(saved.world, saved.call, envs[1..])
  }

  // ---------- The errors of the background work ----------

  function ReceiptError(e: Error): Error {
    if As(e, KindTarget(DbAlreadyExists)).Some? then Wrap(AppAlreadyExists, "", e)
    else if As(e, KindTarget(DbCorruptedData)).Some? then
      Wrap(AppCorruptedData, "database returned corrupted receipt data", e)
    else Wrap(AppUnexpected, "unexpect error happened while saving receipt", e)
  }

  /** What saving the receipt of a response reports. */
  function SaveReceiptError(
    docs: seq<Receipt>, resp: PayWithCardResponse, receiptId: nat, fault: InsertFault): Option<Error>
  {
    match NewReceiptFromProtMessage(resp, receiptId)
    case Failure(e) => Some(e)
    case Success(receipt) =>
      match InsertReceipt(docs, receipt, fault).err
      case None => None
      case Some(e) => Some(ReceiptError(e))
  }

  function ReloadError(e: Error): Error {
    if As(e, KindTarget(DbInvoiceNotFound)).Some? then Wrap(AppInvoiceNotFound, "", e)
    else if As(e, KindTarget(DbCorruptedData)).Some? then Wrap(AppCorruptedData, "", e)
    else Wrap(AppUnexpected, "unexpected error happened while getting invoice", e)
  }

  /** What sending the confirmation reports. */
  function SendError(
    docs: seq<Invoice>, number: string, loadFault: Option<Error>, publishFault: Option<Error>): Option<Error>
  {
    match FindByInvoiceNumber(docs, number, loadFault)
    case Failure(e) => Some(ReloadError(e))
    case Success(_) =>
      match publishFault
      case None => None
      case Some(e) =>
        Some(Wrap(AppUnexpected, "unexpected error happened while publishing payment confirmation message", e))
  }

  /** Each error of the background work wraps its cause, as a kind that the cause's whole tree decides. */
  lemma BackgroundErrorsAreClassified(e: Error)
    ensures var r := ReceiptError(e);
            && r.Wrap? && r.cause == e
            && r.kind == if Contains(e, KindTarget(DbAlreadyExists)) then AppAlreadyExists
                         else if Contains(e, KindTarget(DbCorruptedData)) then AppCorruptedData
                         else AppUnexpected
    ensures var r := ReloadError(e);
            && r.Wrap? && r.cause == e
            && r.kind == if Contains(e, KindTarget(DbInvoiceNotFound)) then AppInvoiceNotFound
                         else if Contains(e, KindTarget(DbCorruptedData)) then AppCorruptedData
                         else AppUnexpected
  {
    AsFindsIffPresent(e, KindTarget(DbAlreadyExists));
    AsFindsIffPresent(e, KindTarget(DbCorruptedData));
    AsFindsIffPresent(e, KindTarget(DbInvoiceNotFound));
  }

  // ---------- The object ----------

  class PaymentMakingService {
    const failChance: int
    const invoiceRepo: InvoiceRepository
    const receiptRepo: ReceiptRepository
    var published: seq<Sent> // the payment exchange

    constructor (failChance: int, invoiceRepo: InvoiceRepository, receiptRepo: ReceiptRepository)
      requires failChance >= 0
      ensures this.failChance == failChance && this.invoiceRepo == invoiceRepo && this.receiptRepo == receiptRepo
      ensures published == []
    {
      this.failChance := failChance;
      this.invoiceRepo := invoiceRepo;
      this.receiptRepo := receiptRepo;
      published := [];
    }

    ghost function Abs(): World
      reads this, invoiceRepo, receiptRepo
    {
      World(invoiceRepo.docs, receiptRepo.docs, published)
    }

    /** `tail` is what the goroutine started before the successful return goes on with. */
    method PayWithCard(req: PayWithCardRequest, envs: seq<Environment>)
      returns (reply: Reply, tail: Option<(Instant, PayWithCardResponse)>)
      requires |envs| == 6
      modifies invoiceRepo
      ensures var m := Pay(failChance, old(Abs()), req, envs);
              && Abs() == m.world
              && reply == m.call.reply
              && tail == if m.call.at.Responded? then Some((m.call.at.now, m.call.at.resp)) else None
      ensures reply.Response? ==>
                IsAnswer(req, reply.resp.status, if reply.resp.status.Failed? then envs[3] else envs[5], reply)
    {
      hide IsAnswer;
      PayCarriesItsDraw(failChance, Abs(), req, envs);
      tail := None;
      var verdict := PayRequestChecks(req).Verdict();
      if verdict.Some? {
        return Status(InvalidArgument), None;
      }
      if envs[1].clock.Failure? {
        return Status(Internal), None;
      }
      var now := envs[1].clock.value;
      var found := FindByInvoiceNumber(invoiceRepo.docs, req.invoiceNumber, envs[2].dbFault);
      if found.Failure? {
        return Status(MapError(found.error)), None;
      }
      if EqualFold(found.value.status, PAID) {
        return Status(FailedPrecondition), None;
      }
      if envs[3].luck < failChance {
        match BuildResponse(req, Failed, envs[3].id, envs[3].processedAt)
        case Panic => return NoReply, None;
        case BuildFailed(_) => return Status(Unknown), None;
        case Built(resp) => return Response(resp), None;
      }
      reply, tail := Charge(req, now, envs[4], envs[5]);
    }

    /** The second half of `PayWithCard`: the write of `paid` and the response. */
    method Charge(req: PayWithCardRequest, now: Instant, write: Environment, respond: Environment)
      returns (reply: Reply, tail: Option<(Instant, PayWithCardResponse)>)
      modifies invoiceRepo
      ensures var m := PayFromAdmitted(old(Abs()), Call(req, Admitted(now), NoReply), write, respond);
              && Abs() == m.world
              && reply == m.call.reply
              && tail == if m.call.at.Responded? then Some((m.call.at.now, m.call.at.resp)) else None
    {
      var err := invoiceRepo.UpdateStatus(req.invoiceNumber, PAID, now, write.dbFault);
      if err.Some? {
        return Status(MapError(err.value)), None;
      }
      match BuildResponse(req, Succeeded, respond.id, respond.processedAt)
      case Panic => return NoReply, None;
      case BuildFailed(_) => return Status(Internal), None;
      case Built(resp) => return Response(resp), Some((now, resp));
    }

    method SaveReceipt(resp: PayWithCardResponse, receiptId: nat, fault: InsertFault) returns (err: Option<Error>)
      modifies receiptRepo
      ensures forall c: Call, env: Environment ::
                c.at.Responded? && c.at.resp == resp && env.receiptId == receiptId && env.insertFault == fault ==>
                  && Abs() == PaymentProtocol.SaveReceipt(old(Abs()), c, env).world
                  && (err.None? <==> PaymentProtocol.SaveReceipt(old(Abs()), c, env).call.at.Receipted?)
      ensures err == SaveReceiptError(old(receiptRepo.docs), resp, receiptId, fault)
    {
      var receipt := NewReceiptFromProtMessage(resp, receiptId);
      if receipt.Failure? {
        return Some(receipt.error);
      }
      var addErr := receiptRepo.Add(receipt.value, fault);
      if addErr.None? {
        return None;
      }
      if As(addErr.value, KindTarget(DbAlreadyExists)).Some? {
        return Some(Wrap(AppAlreadyExists, "", addErr.value));
      }
      if As(addErr.value, KindTarget(DbCorruptedData)).Some? {
        return Some(Wrap(AppCorruptedData, "database returned corrupted receipt data", addErr.value));
      }
      return Some(Wrap(AppUnexpected, "unexpect error happened while saving receipt", addErr.value));
    }

    method SendConfirmationMessage(now: Instant, resp: PayWithCardResponse, reload: Environment, publish: Environment)
      returns (err: Option<Error>)
      modifies this
      ensures forall c: Call :: c.at == Receipted(now, resp) ==>
                var m := ConfirmFromReceipted(old(Abs()), c, [reload, publish]);
                Abs() == m.world && (err.None? <==> m.call.at.Confirmed?)
      ensures err == SendError(invoiceRepo.docs, resp.invoiceNumber, reload.dbFault, publish.publishFault)
    {
      var found := FindByInvoiceNumber(invoiceRepo.docs, resp.invoiceNumber, reload.dbFault);
      if found.Failure? {
        if As(found.error, KindTarget(DbInvoiceNotFound)).Some? {
          return Some(Wrap(AppInvoiceNotFound, "", found.error));
        }
        if As(found.error, KindTarget(DbCorruptedData)).Some? {
          return Some(Wrap(AppCorruptedData, "", found.error));
        }
        return Some(Wrap(AppUnexpected, "unexpected error happened while getting invoice", found.error));
      }
      var invoice := found.value;
      var confirmation := PaymentConfirmation(
        publish.confirmationId, invoice.bookingId, invoice.payerId, invoice.invoiceNumber,
        resp.receiptNumber, Some(NewTimestamp(now)));
      var routingKey := "booking." + invoice.bookingId + ".confirmation";
      if publish.publishFault.Some? {
        return Some(Wrap(AppUnexpected, "unexpected error happened while publishing payment confirmation message",
                         publish.publishFault.value));
      }
      published := published + [Sent(confirmation, routingKey)];
      return None;
    }

    /** The goroutine: the confirmation is attempted only after the receipt is stored. */
    method PostPaymentWork(ghost c: Call, now: Instant, resp: PayWithCardResponse, envs: seq<Environment>)
      requires |envs| == 3 && c.at == Responded(now, resp)
      modifies this, receiptRepo
      ensures Abs() == FollowUp(old(Abs()), c, envs).world
    {
      ghost var saved := PaymentProtocol.SaveReceipt(Abs(), c, envs[0]);
      var err := SaveReceipt(resp, envs[0].receiptId, envs[0].insertFault);
      if err.Some? {
        return;
      }
      assert saved.call.at == Receipted(now, resp);
      assert envs[1..] == [envs[1], envs[2]];
      var _ := SendConfirmationMessage(now, resp, envs[1], envs[2]);
    }
  }

  // ---------- The two halves are the protocol's steps ----------

  lemma {:induction false} FinalCallsStay(failChance: int, w: World, c: Call, envs: seq<Environment>)
    requires c.at.Refused? || c.at.EndedBeforeReceipt? || c.at.EndedBeforeConfirmation? || c.at.Confirmed?
    ensures Run(failChance, w, c, envs) == Move(w, c)
  {
    if envs != [] {
      FinalCallsStay(failChance, w, c, envs[1..]);
    }
  }

  lemma RunFromLoaded(failChance: int, w: World, c: Call, envs: seq<Environment>)
    requires |envs| == 3 && Alive(envs) && c.at.Loaded?
    ensures Run(failChance, w, c, envs) == PayFromLoad(failChance, w, c, envs[0], envs[1], envs[2])
  {
    var decided := Decide(failChance, w, c, envs[0]);
    assert Run(failChance, w, c, envs) == Run(failChance, decided.world, decided.call, envs[1..]);
    if decided.call.at.Admitted? {
      RunFromAdmitted(failChance, decided.world, decided.call, envs[1..]);
    } else {
      FinalCallsStay(failChance, decided.world, decided.call, envs[1..]);
    }
  }

  lemma RunFromAdmitted(failChance: int, w: World, c: Call, envs: seq<Environment>)
    requires |envs| == 2 && Alive(envs) && c.at.Admitted?
    ensures Run(failChance, w, c, envs) == PayFromAdmitted(w, c, envs[0], envs[1])
  {
    var m := Write(w, c, envs[0]);
    FirstStep(failChance, w, c, envs, m);
    RunAfterWrite(failChance, m, envs[1..]);
  }

  lemma RunAfterWrite(failChance: int, m: Move, envs: seq<Environment>)
    requires |envs| == 1 && Alive(envs) && (m.call.at.Written? || m.call.at.Refused?)
    ensures Run(failChance, m.world, m.call, envs)
            == if m.call.at.Written? then Respond(m.world, m.call, envs[0]) else m
  {
    if m.call.at.Written? {
      RunFromWritten(failChance, m.world, m.call, envs);
    } else {
      FinalCallsStay(failChance, m.world, m.call, envs);
    }
  }

  lemma RunFromWritten(failChance: int, w: World, c: Call, envs: seq<Environment>)
    requires |envs| == 1 && Alive(envs) && c.at.Written?
    ensures Run(failChance, w, c, envs) == Respond(w, c, envs[0])
  {
    FirstStep(failChance, w, c, envs, Respond(w, c, envs[0]));
  }

  /** `PayWithCard` up to its reply is the first six steps of a call that nothing interrupts. */
  lemma PayIsSixSteps(failChance: int, w: World, req: PayWithCardRequest, envs: seq<Environment>)
    requires |envs| == 6 && Alive(envs)
    ensures Run(failChance, w, NewCall(req), envs) == Pay(failChance, w, req, envs)
  {
    var c := NewCall(req);
    if PayRequestChecks(req).Verdict().Some? {
      FinalCallsStay(failChance, w, c.(at := Refused, reply := Status(InvalidArgument)), envs[1..]);
    } else {
      assert Run(failChance, w, c, envs) == Run(failChance, w, c.(at := Validated), envs[1..]);
      RunFromValidated(failChance, w, c.(at := Validated), envs[1..]);
      assert envs[1..][1..] == envs[2..];
    }
  }

  lemma RunFromValidated(failChance: int, w: World, c: Call, envs: seq<Environment>)
    requires |envs| == 5 && Alive(envs) && c.at.Validated?
    ensures Run(failChance, w, c, envs) ==
            if envs[0].clock.Failure? then Refuse(w, c, Status(Internal))
            else PayFromClocked(failChance, w, c.(at := Clocked(envs[0].clock.value)), envs[1..])
  {
    if envs[0].clock.Failure? {
      FinalCallsStay(failChance, w, c.(at := Refused, reply := Status(Internal)), envs[1..]);
    } else {
      RunFromClocked(failChance, w, c.(at := Clocked(envs[0].clock.value)), envs[1..]);
    }
  }

  lemma RunFromClocked(failChance: int, w: World, c: Call, envs: seq<Environment>)
    requires |envs| == 4 && Alive(envs) && c.at.Clocked?
    ensures Run(failChance, w, c, envs) == PayFromClocked(failChance, w, c, envs)
  {
    hide Decide, Write, Respond, PaymentProtocol.SaveReceipt, Reload, Publish, FindByInvoiceNumber;
    var found := FindByInvoiceNumber(w.invoices, c.Number(), envs[0].dbFault);
    if found.Failure? {
      FinalCallsStay(failChance, w, c.(at := Refused, reply := Status(MapError(found.error))), envs[1..]);
    } else {
      RunFromLoaded(failChance, w, c.(at := Loaded(c.at.now, found.value)), envs[1..]);
    }
  }

  lemma FirstStep(failChance: int, w: World, c: Call, envs: seq<Environment>, m: Move)
    requires envs != [] && m == Advance(failChance, w, c, envs[0])
    ensures Run(failChance, w, c, envs) == Run(failChance, m.world, m.call, envs[1..])
  {
  }

  lemma SavedOrEnded(w: World, c: Call, env: Environment)
    requires c.at.Responded?
    ensures var at := PaymentProtocol.SaveReceipt(w, c, env).call.at;
            at.Receipted? || at.EndedBeforeReceipt? || at.EndedBeforeConfirmation?
  {
  }

  /** The background work is the remaining three. */
  lemma FollowUpIsThreeSteps(failChance: int, w: World, c: Call, envs: seq<Environment>)
    requires |envs| == 3 && Alive(envs) && c.at.Responded?
    ensures Run(failChance, w, c, envs) == FollowUp(w, c, envs)
  {
    hide PaymentProtocol.SaveReceipt, Reload, Publish, Decide, Write, Respond;
    var m := PaymentProtocol.SaveReceipt(w, c, envs[0]);
    SavedOrEnded(w, c, envs[0]);
    FirstStep(failChance, w, c, envs, m);
    RunAfterSave(failChance, m, envs[1..]);
  }

  lemma RunAfterSave(failChance: int, m: Move, envs: seq<Environment>)
    requires |envs| == 2 && Alive(envs)
    requires m.call.at.Receipted? || m.call.at.EndedBeforeReceipt? || m.call.at.EndedBeforeConfirmation?
    ensures Run(failChance, m.world, m.call, envs)
            == if m.call.at.Receipted? then ConfirmFromReceipted(m.world, m.call, envs) else m
  {
    if m.call.at.Receipted? {
      RunFromReceipted(failChance, m.world, m.call, envs);
    } else {
      FinalCallsStay(failChance, m.world, m.call, envs);
    }
  }

  lemma RunFromReceipted(failChance: int, w: World, c: Call, envs: seq<Environment>)
    requires |envs| == 2 && Alive(envs) && c.at.Receipted?
    ensures Run(failChance, w, c, envs) == ConfirmFromReceipted(w, c, envs)
  {
    var m := Reload(w, c, envs[0]);
    if m.call.at.Reread? {
      var last := envs[1..];
      assert last[1..] == [];
      assert Run(failChance, m.world, m.call, last) == Publish(m.world, m.call, last[0]);
    } else {
      FinalCallsStay(failChance, m.world, m.call, envs[1..]);
    }
  }
}
