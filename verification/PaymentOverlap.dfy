/** Which calls can still pay an invoice that has just been paid: exactly those caught between load and write. */
module PaymentOverlap {
  import opened Wrappers
  import opened Errors
  import opened GoText
  import opened GoTime
  import opened Documents
  import opened InvoiceStore
  import opened HumanFriendlyId
  import opened PaymentProtocol
  import opened PaymentSafety
  import opened PaymentRuns

  // ---------- Longer runs ----------

  ghost predicate Continues(
    failChance: int, trace: seq<System>, labels: seq<Label>, longer: seq<System>, more: seq<Label>)
  {
    IsRun(failChance, longer, more) && trace <= longer && labels <= more
  }

  function Last(trace: seq<System>): System
    requires trace != []
  {
    trace[|trace| - 1]
  }

  lemma OneStepMore(failChance: int, trace: seq<System>, labels: seq<Label>, l: Label)
    returns (longer: seq<System>, more: seq<Label>)
    requires IsRun(failChance, trace, labels)
    ensures Continues(failChance, trace, labels, longer, more)
    ensures |longer| == |trace| + 1 && more[|labels|] == l
    ensures Last(longer) == Next(failChance, Last(trace), l)
  {
    longer, more := trace + [Next(failChance, Last(trace), l)], labels + [l];
  }

  /** A step to which nothing goes wrong. */
  predicate Undisturbed(env: Environment) {
    !env.killed && env.dbFault.None?
  }

  /** And for which the draw is lucky. */
  predicate Smooth(failChance: int, env: Environment) {
    Undisturbed(env) && env.luck >= failChance
  }

  // ---------- From the window to a payment ----------

  /** The clock reading of a call that has loaded and not yet written. */
  function Reading(at: Progress): Instant {
    match at
    case Loaded(now, _) => now
    case Admitted(now) => now
    case _ => ZERO_INSTANT
  }

  /** The call is in the window of this invoice, on a clock reading that the store accepts. */
  predicate CaughtInWindow(s: System, d: nat, number: string) {
    BetweenLoadAndWrite(s, d, number) && Reading(s.calls[d].at) != ZERO_INSTANT
  }

  lemma AdmitStep(failChance: int, s: System, d: nat, number: string, env: Environment)
    requires BetweenLoadAndWrite(s, d, number) && s.calls[d].at.Loaded? && Smooth(failChance, env)
    ensures var t := Next(failChance, s, Step(d, env));
            BetweenLoadAndWrite(t, d, number) && t.calls[d] == s.calls[d].(at := Admitted(s.calls[d].at.now))
  {
  }

  lemma WriteStep(failChance: int, s: System, d: nat, number: string, env: Environment)
    requires BetweenLoadAndWrite(s, d, number) && s.calls[d].at.Admitted? && Smooth(failChance, env)
    requires CallOk(s, s.calls[d]) && s.calls[d].at.now != ZERO_INSTANT
    ensures var t := Next(failChance, s, Step(d, env)); d < |t.calls| && t.calls[d].at.Written?
  {
    PayingMarksThatInvoice(s.world.invoices, number, s.calls[d].at.now, env.dbFault);
  }

  /** Every call but d that is in the window of s is still there in t. */
  ghost predicate OthersWait(s: System, t: System, d: nat, number: string) {
    forall e: nat :: e != d && CaughtInWindow(s, e, number) ==> CaughtInWindow(t, e, number)
  }

  lemma StepOthersWait(failChance: int, s: System, d: nat, env: Environment, number: string)
    ensures OthersWait(s, Next(failChance, s, Step(d, env)), d, number)
  {
    forall e: nat | e != d && CaughtInWindow(s, e, number)
      ensures CaughtInWindow(Next(failChance, s, Step(d, env)), e, number)
    {
      OthersLeaveCall(failChance, s, Step(d, env), e);
    }
  }

  /** A call in the window can come to be about to write. */
  lemma AdmitFromWindow(
    failChance: int, trace: seq<System>, labels: seq<Label>, d: nat, number: string, env: Environment)
    returns (longer: seq<System>, more: seq<Label>)
    requires IsRun(failChance, trace, labels) && Smooth(failChance, env) && CaughtInWindow(Last(trace), d, number)
    ensures Continues(failChance, trace, labels, longer, more)
    ensures CaughtInWindow(Last(longer), d, number)
    ensures Last(longer).calls[d] == Last(trace).calls[d].(at := Admitted(Reading(Last(trace).calls[d].at)))
    ensures OthersWait(Last(trace), Last(longer), d, number)
  {
    longer, more := trace, labels;
    if Last(trace).calls[d].at.Loaded? {
      AdmitStep(failChance, Last(trace), d, number, env);
      StepOthersWait(failChance, Last(trace), d, env, number);
      longer, more := OneStepMore(failChance, trace, labels, Step(d, env));
    }
  }

  lemma PayFromAdmission(
    failChance: int, trace: seq<System>, labels: seq<Label>, d: nat, number: string, env: Environment)
    returns (longer: seq<System>, more: seq<Label>)
    requires IsRun(failChance, trace, labels) && Smooth(failChance, env)
    requires CaughtInWindow(Last(trace), d, number) && Last(trace).calls[d].at.Admitted?
    ensures Continues(failChance, trace, labels, longer, more)
    ensures |more| == |labels| + 1 && Pays(longer, more, |labels|, d, number)
    ensures OthersWait(Last(trace), Last(longer), d, number)
  {
    EveryStateGood(failChance, trace, labels, |labels|);
    WriteStep(failChance, Last(trace), d, number, env);
    StepOthersWait(failChance, Last(trace), d, env, number);
    longer, more := OneStepMore(failChance, trace, labels, Step(d, env));
  }

  /** Whatever has happened to the invoice meanwhile, a call in the window can go on and pay it. */
  lemma PayFromWindow(
    failChance: int, trace: seq<System>, labels: seq<Label>, d: nat, number: string, env: Environment)
    returns (longer: seq<System>, more: seq<Label>)
    requires IsRun(failChance, trace, labels) && Smooth(failChance, env) && CaughtInWindow(Last(trace), d, number)
    ensures Continues(failChance, trace, labels, longer, more) && |more| > |labels|
    ensures Pays(longer, more, |more| - 1, d, number)
    ensures OthersWait(Last(trace), Last(longer), d, number)
  {
    longer, more := AdmitFromWindow(failChance, trace, labels, d, number, env);
    longer, more := PayFromAdmission(failChance, longer, more, d, number, env);
  }

  // ---------- A call pays on the clock reading it loaded with ----------

  /** The call has read the clock and tried to load, and if it waits in the window it is on this reading. */
  predicate PastLoad(c: Call, now: Instant) {
    && !c.at.Started? && !c.at.Validated? && !c.at.Clocked?
    && (c.at.Loaded? || c.at.Admitted? ==> Reading(c.at) == now)
  }

  lemma PastLoadStep(failChance: int, w: World, c: Call, env: Environment, now: Instant)
    requires PastLoad(c, now)
    ensures PastLoad(Advance(failChance, w, c, env).call, now)
  {
    if !env.killed {
      match c.at
      case Loaded(_, _) => DecideEffect(failChance, w, c, env);
      case Written(_) => RespondEffect(w, c, env);
      case Responded(_, _) => SaveReceiptEffect(w, c, env);
      case _ =>
    }
  }

  lemma {:induction false} PastLoadStays(
    failChance: int, trace: seq<System>, labels: seq<Label>, j: nat, k: nat, d: nat, now: Instant)
    requires IsRun(failChance, trace, labels) && j <= k < |trace|
    requires d < |trace[j].calls| && PastLoad(trace[j].calls[d], now)
    ensures d < |trace[k].calls| && PastLoad(trace[k].calls[d], now)
    decreases k
  {
    if j < k {
      PastLoadStays(failChance, trace, labels, j, k - 1, d, now);
      RunStep(failChance, trace, labels, k - 1);
      if Moves(labels[k - 1], d) {
        PastLoadStep(failChance, trace[k - 1].world, trace[k - 1].calls[d], labels[k - 1].env, now);
      } else {
        OthersLeaveCall(failChance, trace[k - 1], labels[k - 1], d);
      }
    }
  }

  // ---------- The exact condition of a second payment ----------

  /** Some run that begins like this one, up to and including step k, has call d pay after step k. */
  ghost predicate CanPayAfter(
    failChance: int, trace: seq<System>, labels: seq<Label>, k: nat, d: nat, number: string)
    requires |trace| == |labels| + 1 && k < |labels|
  {
    exists longer: seq<System>, more: seq<Label>, j: nat ::
      && Continues(failChance, trace[..k + 2], labels[..k + 1], longer, more)
      && k < j && Pays(longer, more, j, d, number)
  }

  lemma SecondPaymentNeedsOverlap(
    failChance: int, trace: seq<System>, labels: seq<Label>, k: nat, c: nat, j: nat, d: nat, number: string)
    requires IsRun(failChance, trace, labels) && k < j
    requires Pays(trace, labels, k, c, number) && Pays(trace, labels, j, d, number)
    ensures d != c && CaughtInWindow(trace[k], d, number)
  {
    hide Advance;
    SuccessfulPayersOverlap(failChance, trace, labels, k, c, j, d, number);
    PastLoadStays(failChance, trace, labels, k, j, d, Reading(trace[k].calls[d].at));
    RunStep(failChance, trace, labels, j);
    PayingStep(failChance, trace[j].world, trace[j].calls[d], labels[j].env);
  }

  lemma OverlapAllowsSecondPayment(
    failChance: int, trace: seq<System>, labels: seq<Label>, k: nat, c: nat, d: nat, number: string, env: Environment)
    requires IsRun(failChance, trace, labels) && Pays(trace, labels, k, c, number) && Smooth(failChance, env)
    requires d != c && CaughtInWindow(trace[k], d, number)
    ensures CanPayAfter(failChance, trace, labels, k, d, number)
  {
    hide Advance;
    OthersLeaveCall(failChance, trace[k], labels[k], d);
    var longer, more := PayFromWindow(failChance, trace[..k + 2], labels[..k + 1], d, number, env);
    assert Pays(longer, more, |more| - 1, d, number);
  }

  /** An environment that lets a call in the window go on. */
  function Lenient(failChance: int, now: Instant): (env: Environment)
    ensures Smooth(failChance, env) && env.clock == Success(now)
  {
    var none := Violation("", "");
    Environment(false, Success(now), None, if failChance > 0 then failChance else 0,
                Draw(Failure(none), Failure(none), ""), now, 0, NoFault, "", None)
  }

  /**
   Just after a call has paid an invoice, another call can still pay it in some continuation of the
   run if and only if, at the moment of that payment, it had loaded the invoice unpaid and not yet
   written, on a clock reading other than the zero instant.
   */
  lemma SecondPaymentIffOverlap(
    failChance: int, trace: seq<System>, labels: seq<Label>, k: nat, c: nat, d: nat, number: string)
    requires IsRun(failChance, trace, labels) && Pays(trace, labels, k, c, number)
    ensures CanPayAfter(failChance, trace, labels, k, d, number)
            <==> d != c && CaughtInWindow(trace[k], d, number)
  {
    if CanPayAfter(failChance, trace, labels, k, d, number) {
      var longer: seq<System>, more: seq<Label>, j: nat :|
        && Continues(failChance, trace[..k + 2], labels[..k + 1], longer, more)
        && k < j && Pays(longer, more, j, d, number);
      SamePrefix(trace, labels, longer, more, k);
      SecondPaymentNeedsOverlap(failChance, longer, more, k, c, j, d, number);
    }
    if d != c && CaughtInWindow(trace[k], d, number) {
      OverlapAllowsSecondPayment(failChance, trace, labels, k, c, d, number, Lenient(failChance, 1));
    }
  }

  lemma SamePrefix(trace: seq<System>, labels: seq<Label>, longer: seq<System>, more: seq<Label>, k: nat)
    requires |trace| == |labels| + 1 && k < |labels|
    requires trace[..k + 2] <= longer && labels[..k + 1] <= more
    ensures longer[k] == trace[k] && longer[k + 1] == trace[k + 1] && more[k] == labels[k]
  {
    assert trace[..k + 2][k] == trace[k] && trace[..k + 2][k + 1] == trace[k + 1];
    assert labels[..k + 1][k] == labels[k];
  }

  // ---------- A run with two payments ----------

  lemma ValidateStep(failChance: int, s: System, i: nat, env: Environment)
    requires i < |s.calls| && s.calls[i].at.Started? && Undisturbed(env)
    requires PayRequestChecks(s.calls[i].req).Pass()
    ensures Next(failChance, s, Step(i, env)) == s.(calls := s.calls[i := s.calls[i].(at := Validated)])
  {
  }

  lemma ClockStep(failChance: int, s: System, i: nat, env: Environment, now: Instant)
    requires i < |s.calls| && s.calls[i].at.Validated? && Undisturbed(env) && env.clock == Success(now)
    ensures Next(failChance, s, Step(i, env)) == s.(calls := s.calls[i := s.calls[i].(at := Clocked(now))])
  {
  }

  lemma LoadStep(failChance: int, s: System, i: nat, env: Environment)
    requires i < |s.calls| && s.calls[i].at.Clocked? && Undisturbed(env)
    requires Has(s.world.invoices, s.calls[i].Number()) && !IsBlank(s.calls[i].Number())
    ensures var invoice := s.world.invoices[ByNumber(s.world.invoices, s.calls[i].Number())];
            Next(failChance, s, Step(i, env))
            == s.(calls := s.calls[i := s.calls[i].(at := Loaded(s.calls[i].at.now, invoice))])
  {
    LoadYieldsThatInvoice(s.world.invoices, s.calls[i].Number(), env.dbFault);
  }

  /** A new call can come as far as the window of any stored unpaid invoice, moving nothing else. */
  lemma EnterWindow(
    failChance: int, trace: seq<System>, labels: seq<Label>, req: PayWithCardRequest, now: Instant)
    returns (longer: seq<System>, more: seq<Label>)
    requires IsRun(failChance, trace, labels) && PayRequestChecks(req).Pass() && !IsBlank(req.invoiceNumber)
    requires var docs := Last(trace).world.invoices;
             Has(docs, req.invoiceNumber) && !PaidNumber(docs, req.invoiceNumber)
    ensures Continues(failChance, trace, labels, longer, more)
    ensures var docs := Last(trace).world.invoices;
            Last(longer) == Last(trace).(calls := Last(trace).calls
              + [Call(req, Loaded(now, docs[ByNumber(docs, req.invoiceNumber)]), NoReply)])
  {
    hide Advance;
    var env, i := Lenient(failChance, now), |Last(trace).calls|;
    longer, more := OneStepMore(failChance, trace, labels, Arrive(req));
    ValidateStep(failChance, Last(longer), i, env);
    longer, more := OneStepMore(failChance, longer, more, Step(i, env));
    ClockStep(failChance, Last(longer), i, env, now);
    longer, more := OneStepMore(failChance, longer, more, Step(i, env));
    LoadStep(failChance, Last(longer), i, env);
    longer, more := OneStepMore(failChance, longer, more, Step(i, env));
  }

  /** Two calls of the same request that both load before either writes. */
  lemma BothInWindow(failChance: int, trace: seq<System>, labels: seq<Label>, req: PayWithCardRequest, now: Instant)
    returns (longer: seq<System>, more: seq<Label>, c: nat)
    requires IsRun(failChance, trace, labels) && PayRequestChecks(req).Pass() && now != ZERO_INSTANT
    requires var docs := Last(trace).world.invoices;
             Has(docs, req.invoiceNumber) && !PaidNumber(docs, req.invoiceNumber)
    ensures Continues(failChance, trace, labels, longer, more)
    ensures CaughtInWindow(Last(longer), c, req.invoiceNumber) && CaughtInWindow(Last(longer), c + 1, req.invoiceNumber)
  {
    NumberPasses(req);
    c := |Last(trace).calls|;
    longer, more := EnterWindow(failChance, trace, labels, req, now);
    longer, more := EnterWindow(failChance, longer, more, req, now);
  }

  lemma NumberPasses(req: PayWithCardRequest)
    requires PayRequestChecks(req).Pass()
    ensures !IsBlank(req.invoiceNumber)
  {
  }

  /** Two calls in the window can both go on and pay. */
  lemma PayBoth(
    failChance: int, trace: seq<System>, labels: seq<Label>, c: nat, d: nat, number: string, env: Environment)
    returns (longer: seq<System>, more: seq<Label>, k: nat, j: nat)
    requires IsRun(failChance, trace, labels) && Smooth(failChance, env) && c != d
    requires CaughtInWindow(Last(trace), c, number) && CaughtInWindow(Last(trace), d, number)
    ensures Continues(failChance, trace, labels, longer, more) && k < j
    ensures Pays(longer, more, k, c, number) && Pays(longer, more, j, d, number)
  {
    var paid, labelled := PayFromWindow(failChance, trace, labels, c, number, env);
    longer, more := PayFromWindow(failChance, paid, labelled, d, number, env);
    k, j := |labelled| - 1, |more| - 1;
    assert paid[k] == longer[k] && paid[k + 1] == longer[k + 1] && labelled[k] == more[k];
  }

  /**
   One payment per invoice fails: whatever has happened before, two calls of any acceptable request
   for any stored unpaid invoice can both write `paid` on it.
   */
  lemma UnpaidInvoiceCanBePaidTwice(
    failChance: int, trace: seq<System>, labels: seq<Label>, req: PayWithCardRequest, now: Instant)
    returns (longer: seq<System>, more: seq<Label>, k: nat, c: nat, j: nat, d: nat)
    requires IsRun(failChance, trace, labels) && PayRequestChecks(req).Pass() && now != ZERO_INSTANT
    requires var docs := Last(trace).world.invoices;
             Has(docs, req.invoiceNumber) && !PaidNumber(docs, req.invoiceNumber)
    ensures Continues(failChance, trace, labels, longer, more)
    ensures k < j && c != d
    ensures Pays(longer, more, k, c, req.invoiceNumber) && Pays(longer, more, j, d, req.invoiceNumber)
  {
    longer, more, c := BothInWindow(failChance, trace, labels, req, now);
    d := c + 1;
    longer, more, k, j := PayBoth(failChance, longer, more, c, d, req.invoiceNumber, Lenient(failChance, now));
  }
}
