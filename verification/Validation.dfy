/**
 The validator: a list of closures, each returning a violation or nothing, whose errors
 `Validate` joins. `Checks` is the value of the validator's only field; the class `Validator`
 updates that field in place.
 */
module Validation {
  import opened Wrappers
  import opened Errors
  import opened GoText

  type Step = () -> Option<Error>

  /** What reaches a check through Go's `any`, as far as reflection tells the kinds apart. */
  datatype Value =
    | NilInterface
    | Signed(i: int)
    | Unsigned(u: nat)
    | Floating(f: real)
    | Text(s: string)
    | Instant(sinceZero: int)
    | Reference(isNil: bool)

  function Ref<T>(o: Option<T>): Value {
    Reference(o.None?)
  }

  predicate IsZero(v: Value) {
    match v
    case NilInterface => false // reflection panics here; no caller passes it
    case Signed(i) => i == 0
    case Unsigned(u) => u == 0
    case Floating(f) => f == 0.0
    case Text(s) => s == ""
    case Instant(t) => t == 0
    case Reference(isNil) => isNil
  }

  predicate IsPositive(v: Value) {
    (v.Signed? && v.i > 0) || (v.Unsigned? && v.u > 0) || (v.Floating? && v.f > 0.0)
  }

  predicate IsNil(v: Value) {
    v.NilInterface? || (v.Reference? && v.isNil)
  }

  function NotBlankStep(field: string, value: string): Step {
    () => if IsBlank(value) then Some(Violation(field, "must not be blank")) else None
  }

  function NotZeroValueStep(field: string, value: Value): Step {
    () => if IsZero(value) then Some(Violation(field, "must not be zero value")) else None
  }

  function PositiveValueStep(field: string, value: Value): Step {
    () =>
      match value
      case Signed(i) => if i > 0 then None else Some(Violation(field, "must be greater than 0"))
      case Unsigned(u) => if u > 0 then None else Some(Violation(field, "must be greater than 0"))
      case Floating(f) => if f > 0.0 then None else Some(Violation(field, "must be greater than 0"))
      case _ => Some(Violation(field, "must be a number greater than 0"))
  }

  function NotNilStep(field: string, value: Value): Step {
    () => if IsNil(value) then Some(Violation(field, "must not be nil")) else None
  }

  function ValidPrecedenceStep(start: int, end: int): Step {
    () => if start > end || start == end
          then Some(Violation("start", "start date must be before end date"))
          else None
  }

  /** `errors.Join(err, stepErr)`, which leaves out a nil first argument. */
  function JoinErr(err: Option<Error>, stepErr: Error): Error {
    if err.None? then Join([stepErr]) else Join([err.value, stepErr])
  }

  datatype Checks = Checks(steps: seq<Step>) {
    ghost predicate Pass() {
      forall k :: 0 <= k < |steps| ==> steps[k]() == None
    }

    /** Every failure is a violation: all that the named checks can report. */
    ghost predicate OnlyViolations() {
      forall k :: 0 <= k < |steps| ==> var e := steps[k](); e.Some? ==> e.value.Violation?
    }

    function With(step: Step): (r: Checks)
      ensures r == Checks(steps + [step])
      ensures r.Pass() <==> Pass() && step() == None
    {
      var r := Checks(steps + [step]);
      assert r.steps[|steps|] == step;
      assert r.Pass() ==> Pass() by {
        assert forall k :: 0 <= k < |steps| ==> r.steps[k] == steps[k];
      }
      r
    }

    function NotBlank(field: string, value: string): (r: Checks)
      ensures r.Pass() <==> Pass() && !IsBlank(value)
    {
      With(NotBlankStep(field, value))
    }

    function NotZeroValue(field: string, value: Value): (r: Checks)
      ensures r.Pass() <==> Pass() && !IsZero(value)
    {
      With(NotZeroValueStep(field, value))
    }

    function PositiveValue(field: string, value: Value): (r: Checks)
      ensures r.Pass() <==> Pass() && IsPositive(value)
    {
      With(PositiveValueStep(field, value))
    }

    function NotNil(field: string, value: Value): (r: Checks)
      ensures r.Pass() <==> Pass() && !IsNil(value)
    {
      With(NotNilStep(field, value))
    }

    function ValidPrecedence(start: int, end: int): (r: Checks)
      ensures r.Pass() <==> Pass() && start < end
    {
      With(ValidPrecedenceStep(start, end))
    }

    /** The error that `Validate` accumulates, step by step. */
    function Verdict(): (r: Option<Error>)
      ensures r.None? <==> Pass()
      decreases |steps|
    {
      if steps == [] then None
      else
        var last := |steps| - 1;
        var before := Checks(steps[..last]).Verdict();
        assert steps == steps[..last] + [steps[last]];
        assert Pass() <==> Checks(steps[..last]).Pass() && steps[last]() == None by {
          assert Checks(steps) == Checks(steps[..last]).With(steps[last]);
        }
        match steps[last]()
        case None => before
        case Some(e) => Some(JoinErr(before, e))
    }
  }

  function New(): (r: Checks)
    ensures r.Pass()
  {
    Checks([])
  }

  /** The validator object: every check appends a closure to `steps`, `Validate` runs them in order. */
  class Validator {
    var steps: seq<Step>

    constructor ()
      ensures Checks(steps) == New()
    {
      steps := [];
    }

    method NotBlank(field: string, value: string)
      modifies this
      ensures Checks(steps) == Checks(old(steps)).NotBlank(field, value)
    {
      steps := steps + [NotBlankStep(field, value)];
    }

    method NotZeroValue(field: string, value: Value)
      modifies this
      ensures Checks(steps) == Checks(old(steps)).NotZeroValue(field, value)
    {
      steps := steps + [NotZeroValueStep(field, value)];
    }

    method PositiveValue(field: string, value: Value)
      modifies this
      ensures Checks(steps) == Checks(old(steps)).PositiveValue(field, value)
    {
      steps := steps + [PositiveValueStep(field, value)];
    }

    method NotNil(field: string, value: Value)
      modifies this
      ensures Checks(steps) == Checks(old(steps)).NotNil(field, value)
    {
      steps := steps + [NotNilStep(field, value)];
    }

    method ValidPrecedence(start: int, end: int)
      modifies this
      ensures Checks(steps) == Checks(old(steps)).ValidPrecedence(start, end)
    {
      steps := steps + [ValidPrecedenceStep(start, end)];
    }

    method Validate() returns (err: Option<Error>)
      ensures err == Checks(steps).Verdict()
    {
      err := None;
      for i := 0 to |steps|
        invariant err == Checks(steps[..i]).Verdict()
      {
        assert steps[..i + 1][..i] == steps[..i];
        var stepErr := steps[i]();
        if stepErr.Some? {
          err := Some(JoinErr(err, stepErr.value));
        }
      }
      assert steps[..|steps|] == steps;
    }
  }

  /** The errors of the failing steps, in the order of the steps. */
  function Failures(steps: seq<Step>): seq<Error> {
    if steps == [] then []
    else (match steps[0]() case None => [] case Some(e) => [e]) + Failures(steps[1..])
  }

  /** Reads a join tree that nests to the left back into the list of its right branches. */
  function Unjoin(e: Error): seq<Error> {
    if e.Join? && |e.joined| == 1 then [e.joined[0]]
    else if e.Join? && |e.joined| == 2 then Unjoin(e.joined[0]) + [e.joined[1]]
    else []
  }

  function FirstAs(es: seq<Error>, t: Target): Option<Error> {
    if es == [] then None
    else if As(es[0], t).Some? then As(es[0], t)
    else FirstAs(es[1..], t)
  }

  lemma {:induction false} FailuresSnoc(steps: seq<Step>, step: Step)
    ensures Failures(steps + [step]) ==
            Failures(steps) + (match step() case None => [] case Some(e) => [e])
  {
    if steps == [] {
      assert steps + [step] == [step];
      assert Failures([step][1..]) == [];
    } else {
      assert (steps + [step])[1..] == steps[1..] + [step];
      FailuresSnoc(steps[1..], step);
    }
  }

  lemma {:induction false} FirstAsSnoc(es: seq<Error>, e: Error, t: Target)
    ensures FirstAs(es + [e], t) == if FirstAs(es, t).Some? then FirstAs(es, t) else As(e, t)
  {
    if es == [] {
      assert es + [e] == [e];
      assert FirstAs([e][1..], t) == None;
    } else {
      assert (es + [e])[1..] == es[1..] + [e];
      FirstAsSnoc(es[1..], e, t);
    }
  }

  lemma AsJoin(err: Option<Error>, e: Error, t: Target)
    ensures As(JoinErr(err, e), t) ==
            if err.Some? && As(err.value, t).Some? then As(err.value, t) else As(e, t)
  {
    assert AsAny([e], t) == As(e, t) by {
      assert [e][1..] == [];
    }
    if err.Some? {
      assert [err.value, e][1..] == [e];
      assert AsAny([err.value, e], t) == if As(err.value, t).Some? then As(err.value, t) else AsAny([e], t);
    }
  }

  /**
   The whole meaning of `Validate`: no error exactly when nothing fails; otherwise the tree nests
   to the left over exactly the failing steps' errors in order, and a depth-first search of it
   meets them in that order.
   */
  lemma {:induction false} ValidateJoinsFailuresInOrder(c: Checks, t: Target)
    ensures c.Verdict().None? <==> Failures(c.steps) == []
    ensures c.Verdict().Some? ==> Unjoin(c.Verdict().value) == Failures(c.steps)
    ensures c.Verdict().Some? ==> As(c.Verdict().value, t) == FirstAs(Failures(c.steps), t)
    decreases |c.steps|
  {
    if c.steps != [] {
      var last := |c.steps| - 1;
      var before := Checks(c.steps[..last]);
      assert c.steps == before.steps + [c.steps[last]];
      ValidateJoinsFailuresInOrder(before, t);
      FailuresSnoc(before.steps, c.steps[last]);
      var stepErr := c.steps[last]();
      if stepErr.Some? {
        AsJoin(before.Verdict(), stepErr.value, t);
        FirstAsSnoc(Failures(before.steps), stepErr.value, t);
      }
    }
  }

  /** The first violation in step order is what `errors.As` extracts from a failed validation. */
  lemma {:induction false} AsFindsFirstViolation(c: Checks)
    requires c.OnlyViolations() && c.Verdict().Some?
    ensures Failures(c.steps) != []
    ensures As(c.Verdict().value, ViolationTarget) == Some(Failures(c.steps)[0])
  {
    ValidateJoinsFailuresInOrder(c, ViolationTarget);
    FailuresAreViolations(c.steps);
  }

  /** A named check that fails says so of its own field and once. */
  lemma FailingCheckNamesItsField(c: Checks, field: string, text: string, value: Value, start: int, end: int)
    ensures Failures(c.NotBlank(field, text).steps)
            == Failures(c.steps) + if IsBlank(text) then [Violation(field, "must not be blank")] else []
    ensures Failures(c.NotZeroValue(field, value).steps)
            == Failures(c.steps) + if IsZero(value) then [Violation(field, "must not be zero value")] else []
    ensures Failures(c.NotNil(field, value).steps)
            == Failures(c.steps) + if IsNil(value) then [Violation(field, "must not be nil")] else []
    ensures var message := if value.Signed? || value.Unsigned? || value.Floating?
                           then "must be greater than 0" else "must be a number greater than 0";
            Failures(c.PositiveValue(field, value).steps)
            == Failures(c.steps) + if IsPositive(value) then [] else [Violation(field, message)]
    ensures Failures(c.ValidPrecedence(start, end).steps)
            == Failures(c.steps) +
               if start < end then [] else [Violation("start", "start date must be before end date")]
  {
    FailuresSnoc(c.steps, ValidPrecedenceStep(start, end));
    FailuresSnoc(c.steps, NotBlankStep(field, text));
    FailuresSnoc(c.steps, NotZeroValueStep(field, value));
    FailuresSnoc(c.steps, NotNilStep(field, value));
    FailuresSnoc(c.steps, PositiveValueStep(field, value));
  }

  /** One more named check is one more violation at most. */
  lemma WithViolation(c: Checks, step: Step)
    requires c.OnlyViolations() && (step() == None || step().value.Violation?)
    ensures c.With(step).OnlyViolations()
  {
  }

  lemma {:induction false} FailuresAreViolations(steps: seq<Step>)
    requires Checks(steps).OnlyViolations()
    ensures forall i :: 0 <= i < |Failures(steps)| ==> Failures(steps)[i].Violation?
  {
    if steps != [] {
      assert Checks(steps[1..]).OnlyViolations() by {
        assert forall k :: 0 <= k < |steps[1..]| ==> steps[1..][k] == steps[k + 1];
      }
      FailuresAreViolations(steps[1..]);
    }
  }
}
