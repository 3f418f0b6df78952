/**
 The error values of all layers as one tree, and `errors.As` over it.
 A `Wrap` is one of the layer types whose `Unwrap` yields a single cause, a `Join` is what
 `errors.Join` builds, and `External` is an error of a library, with whatever it unwraps to.
 */
module Errors {
  import opened Wrappers

  datatype Kind =
    | AppCorruptedData | AppAlreadyExists | AppPublish | AppUnexpected
    | AppInvoiceNotFound | AppReceiptNotFound
    | DbUnexpected | DbCorruptedData | DbAlreadyExists | DbInvoiceNotFound | DbReceiptNotFound
    | MqUnexpected | Annotated

  datatype Error =
    | Violation(field: string, message: string)
    | External(text: string, causes: seq<Error>)
    | Join(joined: seq<Error>)
    | Wrap(kind: Kind, msg: string, cause: Error)

  /** The type of the pointer handed to `errors.As`. */
  datatype Target = ViolationTarget | KindTarget(kind: Kind)

  predicate Matches(e: Error, t: Target) {
    match t
    case ViolationTarget => e.Violation?
    case KindTarget(k) => e.Wrap? && e.kind == k
  }

  /** `errors.As`: the error itself, else its cause, else its branches depth first. */
  function As(e: Error, t: Target): Option<Error> {
    if Matches(e, t) then Some(e)
    else
      match e
      case Violation(_, _) => None
      case External(_, causes) => AsAny(causes, t)
      case Join(joined) => AsAny(joined, t)
      case Wrap(_, _, cause) => As(cause, t)
  }

  function AsAny(es: seq<Error>, t: Target): Option<Error> {
    if es == [] then None
    else
      var first := As(es[0], t);
      if first.Some? then first else AsAny(es[1..], t)
  }

  /** The set of all nodes of the tree, the reference against which the search is stated. */
  function Nodes(e: Error): set<Error> {
    {e} +
    (match e
     case Violation(_, _) => {}
     case External(_, causes) => NodesOf(causes)
     case Join(joined) => NodesOf(joined)
     case Wrap(_, _, cause) => Nodes(cause))
  }

  function NodesOf(es: seq<Error>): set<Error> {
    if es == [] then {} else Nodes(es[0]) + NodesOf(es[1..])
  }

  ghost predicate Contains(e: Error, t: Target) {
    exists n :: n in Nodes(e) && Matches(n, t)
  }

  /** The search succeeds exactly when some node of the tree has the wanted type, and returns such a node. */
  lemma {:induction false} AsFindsIffPresent(e: Error, t: Target)
    ensures As(e, t).Some? <==> Contains(e, t)
    ensures As(e, t).Some? ==> As(e, t).value in Nodes(e) && Matches(As(e, t).value, t)
    decreases e
  {
    if Matches(e, t) {
      assert e in Nodes(e);
    } else {
      match e
      case Violation(_, _) =>
      case External(_, causes) => AsAnyFindsIffPresent(causes, t);
      case Join(joined) => AsAnyFindsIffPresent(joined, t);
      case Wrap(_, _, cause) => AsFindsIffPresent(cause, t);
    }
  }

  lemma {:induction false} AsAnyFindsIffPresent(es: seq<Error>, t: Target)
    ensures AsAny(es, t).Some? <==> exists n :: n in NodesOf(es) && Matches(n, t)
    ensures AsAny(es, t).Some? ==> AsAny(es, t).value in NodesOf(es) && Matches(AsAny(es, t).value, t)
    decreases es
  {
    if es != [] {
      AsFindsIffPresent(es[0], t);
      AsAnyFindsIffPresent(es[1..], t);
    }
  }

  /** Any number of wrapping layers of other types leaves the classification unchanged. */
  function WrapAll(layers: seq<(Kind, string)>, e: Error): Error {
    if layers == [] then e else Wrap(layers[0].0, layers[0].1, WrapAll(layers[1..], e))
  }

  lemma {:induction false} ClassificationSurvivesWrapping(layers: seq<(Kind, string)>, e: Error, t: Target)
    requires forall i :: 0 <= i < |layers| ==> t != KindTarget(layers[i].0)
    ensures As(WrapAll(layers, e), t) == As(e, t)
  {
    if layers != [] {
      ClassificationSurvivesWrapping(layers[1..], e, t);
    }
  }
}
