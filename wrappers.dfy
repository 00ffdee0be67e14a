/** Shared result wrappers: Python's `None` and its exceptions, as values. */
module Wrappers {
  datatype Option<T> = None | Some(value: T)

  /** The exception classes the engine raises or lets escape. */
  datatype Failure =
    | KeyError(detail: string)
    | ValueError(detail: string)
    | IndexError(detail: string)
    | TypeError(detail: string)
    | AttributeError(detail: string)

  datatype Result<T> = Ok(value: T) | Err(error: Failure)
  {
    predicate IsFailure() { Err? }
  }

  /** What pandas raises for `.iloc[0]` on an empty column. */
  const EmptyIndexMessage := "index 0 is out of bounds for axis 0 with size 0"

  /** The values present in `xs` from position `from` on, in order. */
  function Somes<T>(xs: seq<Option<T>>, from: nat): (r: seq<T>)
    requires from <= |xs|
    ensures |r| <= |xs| - from
    decreases |xs| - from
  {
    if from == |xs| then []
    else (if xs[from].Some? then [xs[from].value] else []) + Somes(xs, from + 1)
  }

  /** Something is present from `from` on exactly when some position holds a value. */
  lemma {:induction false} SomesNonEmpty<T>(xs: seq<Option<T>>, from: nat)
    requires from <= |xs|
    ensures |Somes(xs, from)| > 0 <==> exists j :: from <= j < |xs| && xs[j].Some?
    decreases |xs| - from
  {
    if from < |xs| {
      SomesNonEmpty(xs, from + 1);
    }
  }

  /** The first failure of `fs` from position `from` on. */
  function FirstFailure(fs: seq<Option<Failure>>, from: nat): (r: Option<Failure>)
    requires from <= |fs|
    decreases |fs| - from
  {
    if from == |fs| then None
    else if fs[from].Some? then fs[from]
    else FirstFailure(fs, from + 1)
  }

  /** There is no first failure exactly when nothing from `from` on fails; a failure found is one of them. */
  lemma {:induction false} FirstFailureNone(fs: seq<Option<Failure>>, from: nat)
    requires from <= |fs|
    ensures FirstFailure(fs, from).None? <==> forall j :: from <= j < |fs| ==> fs[j].None?
    ensures FirstFailure(fs, from).Some? ==> exists j :: from <= j < |fs| && fs[j] == FirstFailure(fs, from)
    decreases |fs| - from
  {
    if from < |fs| {
      FirstFailureNone(fs, from + 1);
    }
  }
}
