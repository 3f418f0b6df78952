/** Conservation of payments: what each call has written, and how writes, receipts and confirmations balance. */
module PaymentLedger {
  import opened Documents
  import opened InvoiceStore
  import opened PaymentProtocol
  import opened PaymentSafety
  import opened PaymentRuns
  import opened Counting

  /** The call's receipt is in the collection. */
  predicate HasStoredReceipt(at: Progress) {
    at.Receipted? || at.Reread? || at.EndedBeforeConfirmation? || at.Confirmed?
  }

  predicate IsOneLonger<T(==)>(xs: seq<T>, ys: seq<T>) {
    |ys| == |xs| + 1 && xs <= ys
  }

  /** What one step of a call does to the collections, told from how far the call gets. */
  ghost predicate TellsItsEffect(w: World, c: Call, m: Move) {
    && m.call.req == c.req
    && (HasWritten(c.at) ==> HasWritten(m.call.at))
    && (HasStoredReceipt(c.at) ==> HasStoredReceipt(m.call.at))
    && (c.at.Confirmed? ==> m.call.at.Confirmed?)
    && (!HasWritten(m.call.at) ==> m.world == w)
    && (Enters(c.at, m.call.at) <==> !HasWritten(c.at) && HasWritten(m.call.at))
    && (if !HasStoredReceipt(c.at) && HasStoredReceipt(m.call.at)
        then c.at.Responded? && IsOneLonger(w.receipts, m.world.receipts)
             && m.world.receipts[|w.receipts|].invoiceNumber == c.at.resp.invoiceNumber
        else m.world.receipts == w.receipts)
    && (if !c.at.Confirmed? && m.call.at.Confirmed?
        then c.at.Reread? && IsOneLonger(w.confirmations, m.world.confirmations)
             && m.world.confirmations[|w.confirmations|].confirmation.invoiceNumber == c.at.invoice.invoiceNumber
        else m.world.confirmations == w.confirmations)
  }

  lemma WriteTellsItsEffect(w: World, c: Call, env: Environment)
    requires c.at.Admitted?
    ensures TellsItsEffect(w, c, Write(w, c, env))
  {
    hide SetStatus;
    PayingMarksThatInvoice(w.invoices, c.Number(), c.at.now, env.dbFault);
  }

  lemma SaveTellsItsEffect(w: World, c: Call, env: Environment)
    requires c.at.Responded?
    ensures TellsItsEffect(w, c, SaveReceipt(w, c, env))
  {
    SaveReceiptEffect(w, c, env);
    AddedReceiptTellsItsEffect(w, c, SaveReceipt(w, c, env));
  }

  lemma AddedReceiptTellsItsEffect(w: World, c: Call, m: Move)
    requires c.at.Responded? && AddsReceipt(w, c, m)
    ensures TellsItsEffect(w, c, m)
  {
  }

  lemma PublishTellsItsEffect(w: World, c: Call, env: Environment)
    requires c.at.Reread?
    ensures TellsItsEffect(w, c, Publish(w, c, env))
  {
    PublishEffect(w, c, env);
  }

  lemma EffectOfStep(failChance: int, w: World, c: Call, env: Environment)
    ensures TellsItsEffect(w, c, Advance(failChance, w, c, env))
  {
    hide SetStatus, NewReceiptFromProtMessage, PayRequestChecks, FindByInvoiceNumber;
    if !env.killed {
      match c.at
      case Loaded(_, _) => DecideEffect(failChance, w, c, env);
      case Admitted(_) => WriteTellsItsEffect(w, c, env);
      case Written(_) => RespondEffect(w, c, env);
      case Responded(_, _) => SaveTellsItsEffect(w, c, env);
      case Reread(_, _, _) => PublishTellsItsEffect(w, c, env);
      case _ =>
    }
  }

  // ---------- The ledger of one call ----------

  ghost predicate Labelled(trace: seq<System>, labels: seq<Label>, n: nat) {
    |trace| == |labels| + 1 && n <= |labels|
  }

  /** How many writes of `paid`, receipts and confirmations the first n steps of a run owe to call c. */
  datatype Footprint = Footprint(writes: int, receipts: int, confirmations: int)

  ghost function FootprintOf(trace: seq<System>, labels: seq<Label>, c: nat, n: nat): Footprint
    requires Labelled(trace, labels, n)
  {
    if n == 0 then Footprint(0, 0, 0)
    else
      var before := FootprintOf(trace, labels, c, n - 1);
      if Moves(labels[n - 1], c) then
        Footprint(before.writes + |trace[n].paidWrites| - |trace[n - 1].paidWrites|,
                  before.receipts + |trace[n].world.receipts| - |trace[n - 1].world.receipts|,
                  before.confirmations + |trace[n].world.confirmations| - |trace[n - 1].world.confirmations|)
      else before
  }

  ghost function ExpectedFootprint(s: System, c: nat): Footprint {
    if c >= |s.calls| then Footprint(0, 0, 0)
    else
      var at := s.calls[c].at;
      Footprint(One(HasWritten(at)), One(HasStoredReceipt(at)), One(at.Confirmed?))
  }

  lemma FootprintStep(failChance: int, s: System, l: Label, c: nat)
    ensures var t := Next(failChance, s, l);
            var e, f := ExpectedFootprint(s, c), ExpectedFootprint(t, c);
            if Moves(l, c) then
              && f.writes == e.writes + |t.paidWrites| - |s.paidWrites|
              && f.receipts == e.receipts + |t.world.receipts| - |s.world.receipts|
              && f.confirmations == e.confirmations + |t.world.confirmations| - |s.world.confirmations|
            else f == e
  {
    if c < |s.calls| {
      if Moves(l, c) {
        EffectOfStep(failChance, s.world, s.calls[c], l.env);
      } else {
        OthersLeaveCall(failChance, s, l, c);
      }
    }
  }

  /**
   Each call writes `paid` at most once, stores at most one receipt and that only after writing,
   and sends at most one confirmation and that only after its receipt; its state says which.
   */
  lemma {:induction false} CallLedger(failChance: int, trace: seq<System>, labels: seq<Label>, c: nat, n: nat)
    requires IsRun(failChance, trace, labels) && n < |trace|
    ensures FootprintOf(trace, labels, c, n) == ExpectedFootprint(trace[n], c)
  {
    if n > 0 {
      CallLedger(failChance, trace, labels, c, n - 1);
      FootprintStep(failChance, trace[n - 1], labels[n - 1], c);
    }
  }

  // ---------- Calls that did not write ----------

  lemma UnwrittenStep(failChance: int, s: System, l: Label, c: nat)
    requires var t := Next(failChance, s, l); c < |t.calls| && !HasWritten(t.calls[c].at)
    ensures c < |s.calls| ==> !HasWritten(s.calls[c].at)
    ensures Moves(l, c) ==> Next(failChance, s, l).world == s.world
  {
    if c < |s.calls| {
      if Moves(l, c) {
        EffectOfStep(failChance, s.world, s.calls[c], l.env);
      } else {
        OthersLeaveCall(failChance, s, l, c);
      }
    }
  }

  lemma {:induction false} UnwrittenCallChangedNothing(
    failChance: int, trace: seq<System>, labels: seq<Label>, n: nat, c: nat)
    requires IsRun(failChance, trace, labels) && n < |trace|
    requires c < |trace[n].calls| && !HasWritten(trace[n].calls[c].at)
    ensures ChangesNothing(trace, labels, c, 0, n)
  {
    if n > 0 {
      UnwrittenStep(failChance, trace[n - 1], labels[n - 1], c);
      if c < |trace[n - 1].calls| {
        UnwrittenCallChangedNothing(failChance, trace, labels, n - 1, c);
      } else {
        AbsentCallMovesNothing(failChance, trace, labels, n - 1, c);
      }
    }
  }

  lemma {:induction false} AbsentCallMovesNothing(
    failChance: int, trace: seq<System>, labels: seq<Label>, n: nat, c: nat)
    requires IsRun(failChance, trace, labels) && n < |trace| && c >= |trace[n].calls|
    ensures ChangesNothing(trace, labels, c, 0, n)
  {
    if n > 0 {
      NextGrows(failChance, trace[n - 1], labels[n - 1]);
      AbsentCallMovesNothing(failChance, trace, labels, n - 1, c);
    }
  }

  /** A call answered FAILED has left invoices, receipts and confirmations alone throughout. */
  lemma FailedResponseChangedNothing(failChance: int, trace: seq<System>, labels: seq<Label>, n: nat, c: nat)
    requires IsRun(failChance, trace, labels) && n < |trace| && c < |trace[n].calls|
    requires trace[n].calls[c].reply.Response? && trace[n].calls[c].reply.resp.status.Failed?
    ensures ChangesNothing(trace, labels, c, 0, n)
  {
    EveryStateGood(failChance, trace, labels, n);
    assert CallOk(trace[n], trace[n].calls[c]);
    UnwrittenCallChangedNothing(failChance, trace, labels, n, c);
  }

  // ---------- The ledger of one invoice ----------

  datatype Stage =
    | Paid | ReceiptStored | ConfirmationSent // how much is done
    | BeforeReceipt | EndedWithoutReceipt | BeforePublish | EndedWithoutConfirmation // and where it stands

  predicate InStage(stage: Stage, at: Progress) {
    match stage
    case Paid => HasWritten(at)
    case ReceiptStored => HasStoredReceipt(at)
    case ConfirmationSent => at.Confirmed?
    case BeforeReceipt => at.Written? || at.Responded?
    case EndedWithoutReceipt => at.EndedBeforeReceipt?
    case BeforePublish => at.Receipted? || at.Reread?
    case EndedWithoutConfirmation => at.EndedBeforeConfirmation?
  }

  function PaysFor(number: string, stage: Stage): Call -> bool {
    (c: Call) => c.Number() == number && InStage(stage, c.at)
  }

  function IsNumber(number: string): string -> bool {
    (n: string) => n == number
  }

  function ReceiptFor(number: string): Receipt -> bool {
    (r: Receipt) => r.invoiceNumber == number
  }

  function ConfirmationOf(number: string): Sent -> bool {
    (x: Sent) => x.confirmation.invoiceNumber == number
  }

  /** The receipts the service itself has stored. */
  function Issued(s: System): seq<Receipt>
    requires s.seeded <= |s.world.receipts|
  {
    s.world.receipts[s.seeded..]
  }

  ghost predicate Booked(s: System, number: string) {
    && s.seeded <= |s.world.receipts|
    && Count(s.paidWrites, IsNumber(number)) == Count(s.calls, PaysFor(number, Paid))
    && Count(Issued(s), ReceiptFor(number)) == Count(s.calls, PaysFor(number, ReceiptStored))
    && Count(s.world.confirmations, ConfirmationOf(number)) == Count(s.calls, PaysFor(number, ConfirmationSent))
  }

  /** A log and a stage stay in balance when the moving call enters the stage exactly as its entry is logged. */
  lemma LogFollowsCalls<T>(
    calls: seq<Call>, i: nat, c: Call, p: Call -> bool, log: seq<T>, added: seq<T>, q: T -> bool)
    requires i < |calls| && Count(log, q) == Count(calls, p)
    requires One(p(c)) == One(p(calls[i])) + Count(added, q)
    ensures Count(log + added, q) == Count(calls[i := c], p)
  {
    CountUpdate(calls, i, c, p);
    CountConcat(log, added, q);
  }

  lemma WritesBooked(failChance: int, s: System, i: nat, env: Environment, number: string)
    requires i < |s.calls|
    requires Count(s.paidWrites, IsNumber(number)) == Count(s.calls, PaysFor(number, Paid))
    ensures var t := Next(failChance, s, Step(i, env));
            Count(t.paidWrites, IsNumber(number)) == Count(t.calls, PaysFor(number, Paid))
  {
    var c := s.calls[i];
    var m := Advance(failChance, s.world, c, env);
    EffectOfStep(failChance, s.world, c, env);
    var added := if Enters(c.at, m.call.at) then [m.call.Number()] else [];
    LogFollowsCalls(s.calls, i, m.call, PaysFor(number, Paid), s.paidWrites, added, IsNumber(number));
  }

  /** The receipts one step adds: none, or one for the call's own invoice. */
  lemma ReceiptAdded(w: World, c: Call, m: Move, number: string) returns (added: seq<Receipt>)
    requires TellsItsEffect(w, c, m)
    requires c.at.Responded? ==> c.at.resp.invoiceNumber == c.Number()
    ensures m.world.receipts == w.receipts + added
    ensures One(PaysFor(number, ReceiptStored)(m.call))
            == One(PaysFor(number, ReceiptStored)(c)) + Count(added, ReceiptFor(number))
  {
    added := m.world.receipts[|w.receipts|..];
    if !HasStoredReceipt(c.at) && HasStoredReceipt(m.call.at) {
      assert added == [m.world.receipts[|w.receipts|]];
    }
  }

  lemma ReceiptsBalance(s: System, i: nat, m: Move, number: string)
    requires i < |s.calls| && s.seeded <= |s.world.receipts| && CallOk(s, s.calls[i])
    requires Count(Issued(s), ReceiptFor(number)) == Count(s.calls, PaysFor(number, ReceiptStored))
    requires TellsItsEffect(s.world, s.calls[i], m)
    ensures s.seeded <= |m.world.receipts|
    ensures Count(m.world.receipts[s.seeded..], ReceiptFor(number))
            == Count(s.calls[i := m.call], PaysFor(number, ReceiptStored))
  {
    var added := ReceiptAdded(s.world, s.calls[i], m, number);
    assert m.world.receipts[s.seeded..] == Issued(s) + added;
    LogFollowsCalls(s.calls, i, m.call, PaysFor(number, ReceiptStored), Issued(s), added, ReceiptFor(number));
  }

  lemma ReceiptsBooked(failChance: int, s: System, i: nat, env: Environment, number: string)
    requires i < |s.calls| && s.seeded <= |s.world.receipts| && CallOk(s, s.calls[i])
    requires Count(Issued(s), ReceiptFor(number)) == Count(s.calls, PaysFor(number, ReceiptStored))
    ensures var t := Next(failChance, s, Step(i, env));
            s.seeded <= |t.world.receipts|
            && Count(Issued(t), ReceiptFor(number)) == Count(t.calls, PaysFor(number, ReceiptStored))
  {
    EffectOfStep(failChance, s.world, s.calls[i], env);
    ReceiptsBalance(s, i, Advance(failChance, s.world, s.calls[i], env), number);
  }

  /** The confirmations one step adds: none, or one for the call's own invoice. */
  lemma ConfirmationAdded(w: World, c: Call, m: Move, number: string) returns (added: seq<Sent>)
    requires TellsItsEffect(w, c, m)
    requires c.at.Reread? ==> c.at.invoice.invoiceNumber == c.Number()
    ensures m.world.confirmations == w.confirmations + added
    ensures One(PaysFor(number, ConfirmationSent)(m.call))
            == One(PaysFor(number, ConfirmationSent)(c)) + Count(added, ConfirmationOf(number))
  {
    added := m.world.confirmations[|w.confirmations|..];
    if !c.at.Confirmed? && m.call.at.Confirmed? {
      assert added == [m.world.confirmations[|w.confirmations|]];
    }
  }

  lemma ConfirmationsBooked(failChance: int, s: System, i: nat, env: Environment, number: string)
    requires i < |s.calls| && CallOk(s, s.calls[i])
    requires Count(s.world.confirmations, ConfirmationOf(number)) == Count(s.calls, PaysFor(number, ConfirmationSent))
    ensures var t := Next(failChance, s, Step(i, env));
            Count(t.world.confirmations, ConfirmationOf(number)) == Count(t.calls, PaysFor(number, ConfirmationSent))
  {
    var c := s.calls[i];
    var m := Advance(failChance, s.world, c, env);
    EffectOfStep(failChance, s.world, c, env);
    var added := ConfirmationAdded(s.world, c, m, number);
    LogFollowsCalls(s.calls, i, m.call, PaysFor(number, ConfirmationSent),
                    s.world.confirmations, added, ConfirmationOf(number));
  }

  lemma NextBooked(failChance: int, s: System, l: Label, number: string)
    requires Good(s) && Booked(s, number)
    ensures Booked(Next(failChance, s, l), number)
  {
    match l
    case Arrive(req) =>
      CountAppend(s.calls, NewCall(req), PaysFor(number, Paid));
      CountAppend(s.calls, NewCall(req), PaysFor(number, ReceiptStored));
      CountAppend(s.calls, NewCall(req), PaysFor(number, ConfirmationSent));
    case Step(i, env) =>
      if i < |s.calls| {
        WritesBooked(failChance, s, i, env, number);
        ReceiptsBooked(failChance, s, i, env, number);
        ConfirmationsBooked(failChance, s, i, env, number);
      }
    case AddInvoice(_, _) =>
  }

  lemma {:induction false} EveryStateBooked(
    failChance: int, trace: seq<System>, labels: seq<Label>, k: nat, number: string)
    requires IsRun(failChance, trace, labels) && k < |trace|
    ensures Booked(trace[k], number)
  {
    if k == 0 {
      assert Issued(trace[0]) == [];
    } else {
      EveryStateBooked(failChance, trace, labels, k - 1, number);
      EveryStateGood(failChance, trace, labels, k - 1);
      NextBooked(failChance, trace[k - 1], labels[k - 1], number);
    }
  }

  lemma {:induction false} CountSplit<T>(xs: seq<T>, p: T -> bool, a: T -> bool, b: T -> bool, c: T -> bool)
    requires forall x :: x in xs ==> One(p(x)) == One(a(x)) + One(b(x)) + One(c(x))
    ensures Count(xs, p) == Count(xs, a) + Count(xs, b) + Count(xs, c)
  {
    if xs != [] {
      CountSplit(xs[1..], p, a, b, c);
    }
  }

  /**
   Per invoice number, in every reachable state: successful writes are calls on their way to a
   receipt, calls that ended before one, and receipts the service stored; those receipts are calls
   on their way to a confirmation, calls that ended before one, and confirmations sent.
   */
  lemma PaymentsAreConserved(failChance: int, trace: seq<System>, labels: seq<Label>, k: nat, number: string)
    requires IsRun(failChance, trace, labels) && k < |trace|
    ensures var s := trace[k];
            && s.seeded <= |s.world.receipts|
            && Count(s.paidWrites, IsNumber(number))
               == Count(s.calls, PaysFor(number, BeforeReceipt))
                  + Count(s.calls, PaysFor(number, EndedWithoutReceipt))
                  + Count(Issued(s), ReceiptFor(number))
            && Count(Issued(s), ReceiptFor(number))
               == Count(s.calls, PaysFor(number, BeforePublish))
                  + Count(s.calls, PaysFor(number, EndedWithoutConfirmation))
                  + Count(s.world.confirmations, ConfirmationOf(number))
  {
    EveryStateBooked(failChance, trace, labels, k, number);
    CountSplit(trace[k].calls, PaysFor(number, Paid), PaysFor(number, BeforeReceipt),
               PaysFor(number, EndedWithoutReceipt), PaysFor(number, ReceiptStored));
    CountSplit(trace[k].calls, PaysFor(number, ReceiptStored), PaysFor(number, BeforePublish),
               PaysFor(number, EndedWithoutConfirmation), PaysFor(number, ConfirmationSent));
  }
}
