/**
 Card payment as a protocol: any number of `PayWithCard` calls, each a thread that advances one
 store, clock or broker operation at a time, over one invoices collection that also keeps growing.
 What the environment answers to a step (clock readings, random draws, faults, death of the thread)
 is a parameter of the step.
 */
module PaymentProtocol {
  import opened Wrappers
  import opened Errors
  import opened GoText
  import opened GoTime
  import opened Documents
  import opened InvoiceStore
  import opened ReceiptStore
  import opened HumanFriendlyId

  // ---------- State ----------

  /** A confirmation on the payment exchange. */
  datatype Sent = Sent(confirmation: PaymentConfirmation, routingKey: string)

  datatype World = World(invoices: seq<Invoice>, receipts: seq<Receipt>, confirmations: seq<Sent>)

  datatype Code = InvalidArgument | NotFound | FailedPrecondition | Internal | Unknown

  datatype Reply = NoReply | Response(resp: PayWithCardResponse) | Status(code: Code)

  /** How far a call has come. The last four states are final. */
  datatype Progress =
    | Started
    | Validated
    | Clocked(now: Instant)
    | Loaded(now: Instant, invoice: Invoice)
    | Admitted(now: Instant) // checked unpaid and drawn lucky, about to write
    | Written(now: Instant)
    | Responded(now: Instant, resp: PayWithCardResponse)
    | Receipted(now: Instant, resp: PayWithCardResponse)
    | Reread(now: Instant, resp: PayWithCardResponse, invoice: Invoice)
    | Confirmed(now: Instant, resp: PayWithCardResponse)
    | Refused // ended without having written
    | EndedBeforeReceipt // wrote, but left no receipt
    | EndedBeforeConfirmation // wrote and left a receipt, but sent nothing

  datatype Call = Call(req: PayWithCardRequest, at: Progress, reply: Reply) {
    function Number(): string { req.invoiceNumber }
  }

  function NewCall(req: PayWithCardRequest): Call {
    Call(req, Started, NoReply)
  }

  /** What the environment contributes to one step of one call. */
  datatype Environment = Environment(
    killed: bool, clock: Result<Instant, Error>, dbFault: Option<Error>, luck: nat,
    id: Draw, processedAt: Instant, receiptId: nat, insertFault: InsertFault,
    confirmationId: string, publishFault: Option<Error>)

  // ---------- The pure parts of the service ----------

  function MapError(err: Error): Code {
    if As(err, KindTarget(DbInvoiceNotFound)).Some? then NotFound
    else if As(err, KindTarget(DbCorruptedData)).Some? then Internal
    else Internal
  }

  /** A store's error becomes `NotFound` exactly when a missing invoice is anywhere in its tree. */
  lemma NotFoundIffInvoiceMissing(err: Error)
    ensures MapError(err) == if Contains(err, KindTarget(DbInvoiceNotFound)) then NotFound else Internal
  {
    AsFindsIffPresent(err, KindTarget(DbInvoiceNotFound));
  }

  /** Slicing the last four bytes off a shorter card number panics. */
  datatype Built = Panic | BuildFailed(err: Error) | Built(resp: PayWithCardResponse)

  function CardNumber(req: PayWithCardRequest): string {
    req.card.GetOr(NO_CARD).number
  }

  function BuildResponse(req: PayWithCardRequest, status: PaymentStatus, id: Draw, processedAt: Instant): Built {
    var number := CardNumber(req);
    if |number| < 4 then Panic
    else
      match Generate("RCPT", id)
      case Failure(e) => BuildFailed(Wrap(AppUnexpected, "failed to generate receipt number", e))
      case Success(receiptNumber) =>
        Built(PayWithCardResponse(
          receiptNumber, req.invoiceNumber, status,
          Some(CardSummary(req.card.GetOr(NO_CARD).brand, number[|number| - 4..])),
          Some(NewTimestamp(processedAt))))
  }

  function RoutingKey(bookingId: string): string {
    "booking." + bookingId + ".confirmation"
  }

  function ConfirmationFor(invoice: Invoice, resp: PayWithCardResponse, now: Instant, id: string): Sent {
    Sent(PaymentConfirmation(id, invoice.bookingId, invoice.payerId, invoice.invoiceNumber,
                             resp.receiptNumber, Some(NewTimestamp(now))),
         RoutingKey(invoice.bookingId))
  }

  // ---------- One step of one call ----------

  datatype Move = Move(world: World, call: Call)

  function Refuse(w: World, c: Call, reply: Reply): Move {
    Move(w, c.(at := Refused, reply := reply))
  }

  function Decide(failChance: int, w: World, c: Call, env: Environment): Move
    requires c.at.Loaded?
  {
    if EqualFold(c.at.invoice.status, PAID) then Refuse(w, c, Status(FailedPrecondition))
    else if env.luck < failChance then
      match BuildResponse(c.req, Failed, env.id, env.processedAt)
      case Panic => Refuse(w, c, NoReply)
      case BuildFailed(_) => Refuse(w, c, Status(Unknown))
      case Built(resp) => Refuse(w, c, Response(resp))
    else Move(w, c.(at := Admitted(c.at.now)))
  }

  function Write(w: World, c: Call, env: Environment): Move
    requires c.at.Admitted?
  {
    var r := SetStatus(w.invoices, c.Number(), PAID, c.at.now, env.dbFault);
    if r.err.Some? then Refuse(w.(invoices := r.docs), c, Status(MapError(r.err.value)))
    else Move(w.(invoices := r.docs), c.(at := Written(c.at.now)))
  }

  function Respond(w: World, c: Call, env: Environment): Move
    requires c.at.Written?
  {
    match BuildResponse(c.req, Succeeded, env.id, env.processedAt)
    case Panic => Move(w, c.(at := EndedBeforeReceipt))
    case BuildFailed(_) => Move(w, c.(at := EndedBeforeReceipt, reply := Status(Internal)))
    case Built(resp) => Move(w, c.(at := Responded(c.at.now, resp), reply := Response(resp)))
  }

  function SaveReceipt(w: World, c: Call, env: Environment): Move
    requires c.at.Responded?
  {
    match NewReceiptFromProtMessage(c.at.resp, env.receiptId)
    case Failure(_) => Move(w, c.(at := EndedBeforeReceipt))
    case Success(receipt) =>
      var r := InsertReceipt(w.receipts, receipt, env.insertFault);
      var w' := w.(receipts := r.docs);
      if r.err.None? then Move(w', c.(at := Receipted(c.at.now, c.at.resp)))
      else if r.docs == w.receipts then Move(w', c.(at := EndedBeforeReceipt))
      else Move(w', c.(at := EndedBeforeConfirmation))
  }

  function Reload(w: World, c: Call, env: Environment): Move
    requires c.at.Receipted?
  {
    match FindByInvoiceNumber(w.invoices, c.at.resp.invoiceNumber, env.dbFault)
    case Failure(_) => Move(w, c.(at := EndedBeforeConfirmation))
    case Success(invoice) => Move(w, c.(at := Reread(c.at.now, c.at.resp, invoice)))
  }

  function Publish(w: World, c: Call, env: Environment): Move
    requires c.at.Reread?
  {
    if env.publishFault.Some? then Move(w, c.(at := EndedBeforeConfirmation))
    else
      Move(w.(confirmations := w.confirmations
                               + [ConfirmationFor(c.at.invoice, c.at.resp, c.at.now, env.confirmationId)]),
           c.(at := Confirmed(c.at.now, c.at.resp)))
  }

  /** A thread may die between any two operations: a panic, a timeout, a crash of the process. */
  function Die(c: Call): Call {
    match c.at
    case Started | Validated | Clocked(_) | Loaded(_, _) | Admitted(_) => c.(at := Refused)
    case Written(_) | Responded(_, _) => c.(at := EndedBeforeReceipt)
    case Receipted(_, _) | Reread(_, _, _) => c.(at := EndedBeforeConfirmation)
    case _ => c
  }

  function Advance(failChance: int, w: World, c: Call, env: Environment): Move {
    if env.killed then Move(w, Die(c))
    else
      match c.at
      case Started =>
        if PayRequestChecks(c.req).Verdict().Some? then Refuse(w, c, Status(InvalidArgument))
        else Move(w, c.(at := Validated))
      case Validated =>
        (match env.clock
         case Failure(_) => Refuse(w, c, Status(Internal))
         case Success(now) => Move(w, c.(at := Clocked(now))))
      case Clocked(now) =>
        (match FindByInvoiceNumber(w.invoices, c.Number(), env.dbFault)
         case Failure(e) => Refuse(w, c, Status(MapError(e)))
         case Success(invoice) => Move(w, c.(at := Loaded(now, invoice))))
      case Loaded(_, _) => Decide(failChance, w, c, env)
      case Admitted(_) => Write(w, c, env)
      case Written(_) => Respond(w, c, env)
      case Responded(_, _) => SaveReceipt(w, c, env)
      case Receipted(_, _) => Reload(w, c, env)
      case Reread(_, _, _) => Publish(w, c, env)
      case _ => Move(w, c)
  }

  // ---------- The system ----------

  /**
   `created` records every stored invoice as it was handed to the store, in the order of the
   collection; `paidWrites` records the numbers of the successful writes of `paid`; the first
   `seeded` receipts were there before the service started.
   */
  datatype System = System(
    world: World, calls: seq<Call>, created: seq<Invoice>, paidWrites: seq<string>, seeded: nat)

  datatype Label =
    | Arrive(req: PayWithCardRequest)
    | Step(call: nat, env: Environment)
    | AddInvoice(invoice: Invoice, fault: InsertFault)

  predicate Enters(before: Progress, after: Progress) {
    before.Admitted? && after.Written?
  }

  function Next(failChance: int, s: System, l: Label): System {
    match l
    case Arrive(req) => s.(calls := s.calls + [NewCall(req)])
    case Step(i, env) =>
      if i >= |s.calls| then s
      else
        var m := Advance(failChance, s.world, s.calls[i], env);
        s.(world := m.world, calls := s.calls[i := m.call],
           paidWrites := s.paidWrites + if Enters(s.calls[i].at, m.call.at) then [m.call.Number()] else [])
    case AddInvoice(invoice, fault) =>
      var r := Insert(s.world.invoices, invoice, fault);
      s.(world := s.world.(invoices := r.docs),
         created := s.created + if |r.docs| > |s.world.invoices| then [invoice] else [])
  }

  /** The store holds what was created, up to truncated instants and later payments. */
  ghost predicate Records(created: seq<Invoice>, docs: seq<Invoice>) {
    && |created| == |docs|
    && forall k :: 0 <= k < |docs| ==> SameExceptStatus(StoredInvoice(created[k]), docs[k])
  }

  /** Any store contents, no call in progress. */
  ghost predicate Init(s: System) {
    && s.calls == [] && s.paidWrites == [] && s.world.confirmations == []
    && s.seeded == |s.world.receipts|
    && Records(s.created, s.world.invoices)
  }

  ghost predicate IsRun(failChance: int, trace: seq<System>, labels: seq<Label>) {
    && |trace| == |labels| + 1
    && Init(trace[0])
    && forall k {:trigger Next(failChance, trace[k], labels[k])} ::
         0 <= k < |labels| ==> trace[k + 1] == Next(failChance, trace[k], labels[k])
  }

  lemma RunStep(failChance: int, trace: seq<System>, labels: seq<Label>, k: nat)
    requires IsRun(failChance, trace, labels) && k < |labels|
    ensures trace[k + 1] == Next(failChance, trace[k], labels[k])
  {
  }
}
