/** Theorems about whole runs of the payment protocol: payers of one invoice overlap, late loads are refused. */
module PaymentRuns {
  import opened GoTime
  import opened InvoiceStore
  import opened PaymentProtocol
  import opened PaymentSafety

  // ---------- One step, seen from one call ----------

  predicate Moves(l: Label, c: nat) {
    l.Step? && l.call == c
  }

  /** A call changes only by its own steps. */
  lemma OthersLeaveCall(failChance: int, s: System, l: Label, c: nat)
    requires c < |s.calls| && !Moves(l, c)
    ensures c < |Next(failChance, s, l).calls| && Next(failChance, s, l).calls[c] == s.calls[c]
  {
  }

  /** The call has loaded the invoice unpaid and has not yet written. */
  predicate BetweenLoadAndWrite(s: System, c: nat, number: string) {
    && c < |s.calls|
    && s.calls[c].Number() == number
    && (s.calls[c].at.Admitted? || (s.calls[c].at.Loaded? && !IsPaid(s.calls[c].at.invoice)))
  }

  /** Step k is call c's successful write of `paid` on the invoice of this number. */
  predicate Pays(trace: seq<System>, labels: seq<Label>, k: nat, c: nat, number: string)
    requires |trace| == |labels| + 1
  {
    && k < |labels| && Moves(labels[k], c)
    && c < |trace[k].calls| && c < |trace[k + 1].calls|
    && trace[k].calls[c].Number() == number
    && Enters(trace[k].calls[c].at, trace[k + 1].calls[c].at)
  }

  /** The invoice is paid and the call is not about to pay it again. */
  ghost predicate ShutOut(s: System, c: nat, number: string) {
    PaidNumber(s.world.invoices, number) && !BetweenLoadAndWrite(s, c, number)
  }

  lemma LoadSeesPayment(failChance: int, w: World, c: Call, env: Environment)
    requires c.at.Clocked? && PaidNumber(w.invoices, c.Number())
    ensures var m := Advance(failChance, w, c, env);
            && m.world == w
            && (m.call.at.Refused? || (m.call.at.Loaded? && IsPaid(m.call.at.invoice)))
  {
    LoadYieldsThatInvoice(w.invoices, c.Number(), env.dbFault);
  }

  /** A call outside the window enters it only by loading an unpaid invoice. */
  lemma WindowEntry(failChance: int, w: World, c: Call, env: Environment)
    requires !(c.at.Admitted? || (c.at.Loaded? && !IsPaid(c.at.invoice))) && !c.at.Clocked?
    ensures var at := Advance(failChance, w, c, env).call.at;
            !(at.Admitted? || (at.Loaded? && !IsPaid(at.invoice)))
  {
    if !env.killed {
      match c.at
      case Loaded(_, _) => DecideEffect(failChance, w, c, env);
      case Written(_) => RespondEffect(w, c, env);
      case Responded(_, _) => SaveReceiptEffect(w, c, env);
      case _ =>
    }
  }

  lemma ShutOutStays(failChance: int, s: System, l: Label, c: nat, number: string)
    requires ShutOut(s, c, number)
    ensures ShutOut(Next(failChance, s, l), c, number)
  {
    var t := Next(failChance, s, l);
    NextGrows(failChance, s, l);
    NumberIsStable(s.world.invoices, t.world.invoices, number);
    if c < |s.calls| {
      if !Moves(l, c) {
        OthersLeaveCall(failChance, s, l, c);
      } else if s.calls[c].Number() == number {
        if s.calls[c].at.Clocked? {
          LoadSeesPayment(failChance, s.world, s.calls[c], l.env);
        } else {
          WindowEntry(failChance, s.world, s.calls[c], l.env);
        }
      }
    }
  }

  lemma {:induction false} ShutOutForever(
    failChance: int, trace: seq<System>, labels: seq<Label>, j: nat, k: nat, c: nat, number: string)
    requires IsRun(failChance, trace, labels) && j <= k < |trace|
    requires ShutOut(trace[j], c, number)
    ensures ShutOut(trace[k], c, number)
    decreases k - j
  {
    if j < k {
      ShutOutForever(failChance, trace, labels, j, k - 1, c, number);
      ShutOutStays(failChance, trace[k - 1], labels[k - 1], c, number);
    }
  }

  /** The step of a successful write. */
  lemma PayingStep(failChance: int, w: World, c: Call, env: Environment)
    requires Enters(c.at, Advance(failChance, w, c, env).call.at)
    ensures var m := Advance(failChance, w, c, env);
            && Has(w.invoices, c.Number()) && |m.world.invoices| == |w.invoices|
            && PaidNumber(m.world.invoices, c.Number())
            && m.world.invoices[ByNumber(w.invoices, c.Number())].updatedAt == Stored(c.at.now)
            && m.call == c.(at := Written(c.at.now)) && c.at.now != ZERO_INSTANT
  {
    hide SetStatus, FindByInvoiceNumber;
    PayingMarksThatInvoice(w.invoices, c.Number(), c.at.now, env.dbFault);
  }

  lemma PaymentTakesEffect(
    failChance: int, trace: seq<System>, labels: seq<Label>, k: nat, c: nat, number: string)
    requires IsRun(failChance, trace, labels) && Pays(trace, labels, k, c, number)
    ensures PaidNumber(trace[k + 1].world.invoices, number)
    ensures !PaidNumber(trace[0].world.invoices, number)
    ensures BetweenLoadAndWrite(trace[k], c, number)
  {
    var call := trace[k].calls[c];
    RunStep(failChance, trace, labels, k);
    PayingStep(failChance, trace[k].world, call, labels[k].env);
    if PaidNumber(trace[0].world.invoices, number) {
      ShutOutForever(failChance, trace, labels, 0, k, c, number);
    }
  }

  /**
   The overlap theorem. Just before any successful write on an invoice, every call that will ever
   write successfully on it afterwards has already loaded it and not yet written. Taking the first
   write, all successful payers of an invoice are between load and write at one instant.
   */
  lemma SuccessfulPayersOverlap(
    failChance: int, trace: seq<System>, labels: seq<Label>,
    k: nat, first: nat, j: nat, later: nat, number: string)
    requires IsRun(failChance, trace, labels) && k <= j
    requires Pays(trace, labels, k, first, number) && Pays(trace, labels, j, later, number)
    ensures BetweenLoadAndWrite(trace[k], first, number) && BetweenLoadAndWrite(trace[k], later, number)
    ensures k < j ==> later != first
  {
    PaymentTakesEffect(failChance, trace, labels, k, first, number);
    PaymentTakesEffect(failChance, trace, labels, j, later, number);
    if k < j {
      RunStep(failChance, trace, labels, k);
      if later == first || !BetweenLoadAndWrite(trace[k], later, number) {
        if later != first && later < |trace[k].calls| {
          OthersLeaveCall(failChance, trace[k], labels[k], later);
        }
        assert ShutOut(trace[k + 1], later, number);
        ShutOutForever(failChance, trace, labels, k + 1, j, later, number);
      }
    }
  }

  /** No two calls are ever between load and write on this invoice at once. */
  ghost predicate NeverOverlap(trace: seq<System>, number: string) {
    forall k: nat, c: nat, d: nat ::
      k < |trace| && BetweenLoadAndWrite(trace[k], c, number) && BetweenLoadAndWrite(trace[k], d, number) ==> c == d
  }

  /** Without overlap an invoice is paid at most once. */
  lemma AtMostOnePaymentWithoutOverlap(
    failChance: int, trace: seq<System>, labels: seq<Label>,
    k: nat, c: nat, j: nat, d: nat, number: string)
    requires IsRun(failChance, trace, labels) && NeverOverlap(trace, number)
    requires Pays(trace, labels, k, c, number) && Pays(trace, labels, j, d, number)
    ensures k == j && c == d
  {
    if k <= j {
      SuccessfulPayersOverlap(failChance, trace, labels, k, c, j, d, number);
    } else {
      SuccessfulPayersOverlap(failChance, trace, labels, j, d, k, c, number);
    }
  }

  // ---------- Loads that come after a payment ----------

  /** The call loaded the invoice paid, or has been turned away for it. */
  predicate TurnedAway(c: Call) {
    || (c.at.Loaded? && IsPaid(c.at.invoice) && c.reply == NoReply)
    || (c.at.Refused? && c.reply in {Status(FailedPrecondition), NoReply})
  }

  lemma TurnedAwayStep(failChance: int, w: World, c: Call, env: Environment)
    requires TurnedAway(c)
    ensures var m := Advance(failChance, w, c, env);
            && TurnedAway(m.call) && m.world == w
            && m.call.at.Refused?
            && (c.at.Loaded? && !env.killed ==> m.call.reply == Status(FailedPrecondition))
  {
    if c.at.Loaded? && !env.killed {
      DecideEffect(failChance, w, c, env);
    }
  }

  /** Step m is call c's successful load of the invoice of this number. */
  predicate Loads(trace: seq<System>, labels: seq<Label>, m: nat, c: nat, number: string)
    requires |trace| == |labels| + 1
  {
    && m < |labels| && Moves(labels[m], c)
    && c < |trace[m].calls| && c < |trace[m + 1].calls|
    && trace[m].calls[c].Number() == number
    && trace[m].calls[c].at.Clocked? && trace[m + 1].calls[c].at.Loaded?
  }

  lemma PaidStaysPaid(
    failChance: int, trace: seq<System>, labels: seq<Label>, p: nat, payer: nat, m: nat, number: string)
    requires IsRun(failChance, trace, labels) && p < m < |trace| && Pays(trace, labels, p, payer, number)
    ensures PaidNumber(trace[m].world.invoices, number)
  {
    PaymentTakesEffect(failChance, trace, labels, p, payer, number);
    RunGrows(failChance, trace, labels, p + 1, m);
    NumberIsStable(trace[p + 1].world.invoices, trace[m].world.invoices, number);
  }

  lemma LateLoadTurnsAway(
    failChance: int, trace: seq<System>, labels: seq<Label>,
    p: nat, payer: nat, m: nat, c: nat, number: string)
    requires IsRun(failChance, trace, labels) && p < m
    requires Pays(trace, labels, p, payer, number) && Loads(trace, labels, m, c, number)
    ensures TurnedAway(trace[m + 1].calls[c]) && trace[m + 1].world == trace[m].world
  {
    hide Decide, Write, Respond, SaveReceipt, Reload, Publish;
    PaidStaysPaid(failChance, trace, labels, p, payer, m, number);
    RunStep(failChance, trace, labels, m);
    LoadSeesPayment(failChance, trace[m].world, trace[m].calls[c], labels[m].env);
    EveryStateGood(failChance, trace, labels, m + 1);
    assert CallOk(trace[m + 1], trace[m + 1].calls[c]);
  }

  /** None of the call's steps in the stretch from j to n changes any collection. */
  ghost predicate ChangesNothing(trace: seq<System>, labels: seq<Label>, c: nat, j: nat, n: nat)
    requires |trace| == |labels| + 1 && n < |trace|
  {
    forall q :: j <= q < n && Moves(labels[q], c) ==> trace[q + 1].world == trace[q].world
  }

  /** The call's thread is not killed in the stretch from j to n. */
  ghost predicate Survives(labels: seq<Label>, c: nat, j: nat, n: nat)
    requires n <= |labels|
  {
    forall q :: j <= q < n && Moves(labels[q], c) ==> !labels[q].env.killed
  }

  ghost predicate Moved(labels: seq<Label>, c: nat, j: nat, n: nat)
    requires n <= |labels|
  {
    exists q :: j <= q < n && Moves(labels[q], c)
  }

  /** A call that has ended here was told that the invoice is already paid. */
  predicate ToldSo(c: Call) {
    c.at.Refused? ==> c.reply == Status(FailedPrecondition)
  }

  lemma TurnedAwayNext(failChance: int, s: System, l: Label, c: nat)
    requires c < |s.calls| && TurnedAway(s.calls[c])
    ensures var t := Next(failChance, s, l);
            && c < |t.calls| && TurnedAway(t.calls[c])
            && (Moves(l, c) ==> t.world == s.world && t.calls[c].at.Refused?)
            && (s.calls[c].at.Refused? ==> t.calls[c].at.Refused?)
            && (ToldSo(s.calls[c]) && !(Moves(l, c) && l.env.killed) ==> ToldSo(t.calls[c]))
  {
    if Moves(l, c) {
      TurnedAwayStep(failChance, s.world, s.calls[c], l.env);
    } else {
      OthersLeaveCall(failChance, s, l, c);
    }
  }

  /** From where it is turned away, a call changes nothing, and its next step ends it, with its answer if it lives. */
  lemma {:induction false} TurnedAwayForGood(
    failChance: int, trace: seq<System>, labels: seq<Label>, j: nat, n: nat, c: nat)
    requires IsRun(failChance, trace, labels) && j <= n < |trace|
    requires c < |trace[j].calls| && TurnedAway(trace[j].calls[c]) && ToldSo(trace[j].calls[c])
    ensures c < |trace[n].calls| && TurnedAway(trace[n].calls[c])
    ensures ChangesNothing(trace, labels, c, j, n)
    ensures Moved(labels, c, j, n) ==> trace[n].calls[c].at.Refused?
    ensures Survives(labels, c, j, n) ==> ToldSo(trace[n].calls[c])
    decreases n
  {
    if j < n {
      TurnedAwayForGood(failChance, trace, labels, j, n - 1, c);
      TurnedAwayNext(failChance, trace[n - 1], labels[n - 1], c);
    }
  }

  /**
   A call whose load of an invoice comes after a successful write on it changes no collection from
   the load on. Its next step ends it, and unless its thread dies there it is answered
   FailedPrecondition.
   */
  lemma LoadAfterPaymentIsRefused(
    failChance: int, trace: seq<System>, labels: seq<Label>,
    p: nat, payer: nat, m: nat, n: nat, c: nat, number: string)
    requires IsRun(failChance, trace, labels) && p < m < n < |trace|
    requires Pays(trace, labels, p, payer, number) && Loads(trace, labels, m, c, number)
    ensures c < |trace[n].calls| && TurnedAway(trace[n].calls[c])
    ensures ChangesNothing(trace, labels, c, m, n)
    ensures Moved(labels, c, m + 1, n) ==> trace[n].calls[c].at.Refused?
    ensures Moved(labels, c, m + 1, n) && Survives(labels, c, m + 1, n) ==>
              trace[n].calls[c].reply == Status(FailedPrecondition)
  {
    LateLoadTurnsAway(failChance, trace, labels, p, payer, m, c, number);
    TurnedAwayForGood(failChance, trace, labels, m + 1, n, c);
    ChangesNothingFromOneEarlier(trace, labels, c, m, n);
  }

  lemma ChangesNothingFromOneEarlier(trace: seq<System>, labels: seq<Label>, c: nat, m: nat, n: nat)
    requires |trace| == |labels| + 1 && m < n < |trace|
    requires trace[m + 1].world == trace[m].world && ChangesNothing(trace, labels, c, m + 1, n)
    ensures ChangesNothing(trace, labels, c, m, n)
  {
  }
}
