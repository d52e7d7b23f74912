/** Failure-carrying values shared by every stage of the lead pipeline.

    The JavaScript program reports every problem by throwing; here a throw is
    an `Err` value that the pipeline propagates with `:-`. JavaScript's
    `undefined` is `None` wherever a value may be missing.
 */
module Results {

  /** A value that may be missing (`undefined` in the source). */
  datatype Option<+T> = None | Some(value: T) {

    /** The carried value, or `default` when there is none. */
    function GetOr(default: T): T {
      match this
      case Some(v) => v
      case None => default
    }
  }

  /** Why a run stopped. Each case is one of the exceptions the source can throw. */
  datatype Failure =
      /** The advertising API answered with an `error` object; carries its `message`. */
    | UpstreamError(message: string)
      /** `flattenLead` was handed `undefined` (a response without a `data` list). */
    | NotAnEntry
      /** A lead entry has no `field_data` list. */
    | MissingFieldData
      /** An attribute of `field_data` has no `values` list, so `attr.values[0]` throws. */
    | MissingValues
      /** A flattened lead has no `vehicle_info` attribute to split. */
    | MissingVehicleInfo

  /** Either a value or the failure that stopped the computation. */
  datatype Result<+T> = Ok(value: T) | Err(error: Failure) {

    predicate IsFailure() {
      Err?
    }

    function PropagateFailure<U>(): Result<U>
      requires Err?
    {
      Err(error)
    }

    function Extract(): T
      requires Ok?
    {
      value
    }
  }

  /** Applies `f` to every element in order, as a Bluebird `.map` stage over
      already-settled values does: either every element succeeds and the
      results keep their positions, or the stage fails with the failure of
      the first element (by position) that fails. */
  function MapAll<A, B>(xs: seq<A>, f: A -> Result<B>): (r: Result<seq<B>>)
    ensures r.Ok? <==> forall i :: 0 <= i < |xs| ==> f(xs[i]).Ok?
    ensures r.Ok? ==> |r.value| == |xs| && forall i :: 0 <= i < |xs| ==> f(xs[i]) == Ok(r.value[i])
    ensures r.Err? ==> exists i :: 0 <= i < |xs| && f(xs[i]) == Err(r.error) && forall j :: 0 <= j < i ==> f(xs[j]).Ok?
    decreases |xs|
  {
    if xs == [] then Ok([])
    else
      match f(xs[0])
      case Err(e) => Err(e)
      case Ok(y) =>
        match MapAll(xs[1..], f)
        case Err(e) =>
          ghost var k :| 0 <= k < |xs[1..]| && f(xs[1..][k]) == Err(e) && forall j :: 0 <= j < k ==> f(xs[1..][j]).Ok?;
          assert f(xs[k + 1]) == Err(e);
          Err(e)
        case Ok(ys) => Ok([y] + ys)
  }
}
