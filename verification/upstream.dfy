/** What the advertising API returns, once each response body has been decoded,
    and the two stages that turn the per-ad responses into one list of lead
    entries: `parseBody`'s error check and the `concatAdData` fold
    (briarbush.js, lines 191-224 and 487-489).
 */
module Upstream {
  import opened Results

  /** One `field_data` element: an attribute name and its list of values.
      `values` is `None` when the attribute carries no `values` list. */
  datatype Attribute = Attribute(name: string, values: Option<seq<string>>)

  /** One lead entry of a response's `data` list. Each part is `None` when
      the entry does not carry it: `id` and `createdTime` then read as
      `undefined`, and `fieldData` is missing as a whole. */
  datatype RawEntry = RawEntry(id: Option<string>, createdTime: Option<string>, fieldData: Option<seq<Attribute>>)

  /** The API's `error` object. */
  datatype ApiError = ApiError(message: string, kind: string, code: int, traceId: string)

  /** A decoded response body: an optional `error` object and an optional `data` list. */
  datatype Body = Body(error: Option<ApiError>, data: Option<seq<RawEntry>>)

  /** An element of the aggregated list: a lead entry, or the `undefined` that
      `Array.prototype.concat` appends for a body without `data`. */
  datatype Item = Undefined | Entry(entry: RawEntry)

  /** `parseBody` after `JSON.parse`: a body with an `error` object (always
      truthy) fails with that error's message; any other body passes through
      unchanged. */
  function ParseBody(body: Body): (r: Result<Body>)
    ensures r.Err? <==> body.error.Some?
    ensures r.Err? ==> r.error == UpstreamError(body.error.value.message)
    ensures r.Ok? ==> r.value == body
  {
    match body.error
    case Some(e) => Err(UpstreamError(e.message))
    case None => Ok(body)
  }

  /** The items `data.concat(body.data)` appends: the entries of the list in
      order, or a single `undefined` when there is no list. */
  function DataItems(body: Body): seq<Item> {
    match body.data
    case Some(entries) => seq(|entries|, i requires 0 <= i < |entries| => Entry(entries[i]))
    case None => [Undefined]
  }

  /** How many items one body contributes to the aggregated list. */
  function DataLength(body: Body): nat {
    match body.data
    case Some(entries) => |entries|
    case None => 1
  }

  /** `concatAdData(data, requests)`: the accumulated items are kept as they
      are and the body's items follow them, in the body's order. */
  function ConcatAdData(acc: seq<Item>, body: Body): (r: seq<Item>)
    ensures |r| == |acc| + DataLength(body)
    ensures r[..|acc|] == acc
    ensures forall j :: 0 <= j < DataLength(body) ==>
      r[|acc| + j] == (if body.data.Some? then Entry(body.data.value[j]) else Undefined)
  {
    acc + DataItems(body)
  }

  /** Total number of items a list of bodies contributes. */
  function TotalLength(bodies: seq<Body>): nat
    decreases |bodies|
  {
    if bodies == [] then 0 else DataLength(bodies[0]) + TotalLength(bodies[1..])
  }

  /** `bodies.reduce(concatAdData, acc)`: the fold from the left, one body at a time. */
  function Fold(acc: seq<Item>, bodies: seq<Body>): seq<Item>
    decreases |bodies|
  {
    if bodies == [] then acc else Fold(ConcatAdData(acc, bodies[0]), bodies[1..])
  }

  /** `bodies.reduce(concatAdData, [])`: the aggregated list of the run. */
  function Aggregate(bodies: seq<Body>): seq<Item> {
    Fold([], bodies)
  }

  /** The fold never changes what it has accumulated: it only appends. */
  lemma {:induction false} FoldKeepsAccumulator(acc: seq<Item>, bodies: seq<Body>)
    ensures Fold(acc, bodies) == acc + Aggregate(bodies)
    decreases |bodies|
  {
    if bodies == [] {
      assert acc + [] == acc;
    } else {
      var d, rest := DataItems(bodies[0]), bodies[1..];
      assert Fold(acc, bodies) == acc + d + Aggregate(rest) by {
        FoldKeepsAccumulator(acc + d, rest);
      }
      assert Aggregate(bodies) == d + Aggregate(rest) by {
        assert [] + d == d;
        FoldKeepsAccumulator(d, rest);
      }
      assert acc + d + Aggregate(rest) == acc + (d + Aggregate(rest));
    }
  }

  /** The first response's items come first. */
  lemma AggregateFirst(bodies: seq<Body>)
    requires bodies != []
    ensures Aggregate(bodies) == DataItems(bodies[0]) + Aggregate(bodies[1..])
  {
    assert [] + DataItems(bodies[0]) == DataItems(bodies[0]);
    FoldKeepsAccumulator(DataItems(bodies[0]), bodies[1..]);
  }

  /** The aggregate holds as many items as the responses contribute together. */
  lemma {:induction false} AggregateLength(bodies: seq<Body>)
    ensures |Aggregate(bodies)| == TotalLength(bodies)
    decreases |bodies|
  {
    if bodies != [] {
      AggregateFirst(bodies);
      AggregateLength(bodies[1..]);
    }
  }

  /** Folding over two lists in turn is folding over their concatenation. */
  lemma {:induction false} FoldAppend(acc: seq<Item>, xs: seq<Body>, ys: seq<Body>)
    ensures Fold(acc, xs + ys) == Fold(Fold(acc, xs), ys)
    decreases |xs|
  {
    if xs == [] {
      assert xs + ys == ys;
    } else {
      assert (xs + ys)[0] == xs[0];
      assert (xs + ys)[1..] == xs[1..] + ys;
      FoldAppend(ConcatAdData(acc, xs[0]), xs[1..], ys);
    }
  }

  /** Aggregation follows request order: the items of a list of responses
      are the items of its first part followed by those of its second part. */
  lemma AggregateAppend(xs: seq<Body>, ys: seq<Body>)
    ensures Aggregate(xs + ys) == Aggregate(xs) + Aggregate(ys)
  {
    FoldAppend([], xs, ys);
    FoldKeepsAccumulator(Aggregate(xs), ys);
  }

  /** The last response's items are appended by the last `concatAdData` step. */
  lemma AggregateLast(bodies: seq<Body>)
    requires bodies != []
    ensures Aggregate(bodies) == ConcatAdData(Aggregate(bodies[..|bodies| - 1]), bodies[|bodies| - 1])
  {
    var init, last := bodies[..|bodies| - 1], bodies[|bodies| - 1];
    assert bodies == init + [last];
    AggregateAppend(init, [last]);
    AggregateOne(last);
  }

  /** One response on its own contributes exactly its own items. */
  lemma AggregateOne(body: Body)
    ensures Aggregate([body]) == DataItems(body)
  {
    AggregateFirst([body]);
    assert [body][1..] == [];
  }

  /** Two responses `[a, b]` aggregate to the items of `a` followed by the items of `b`. */
  lemma AggregateTwo(a: Body, b: Body)
    ensures Aggregate([a, b]) == DataItems(a) + DataItems(b)
  {
    AggregateAppend([a], [b]);
    assert [a] + [b] == [a, b];
    AggregateOne(a);
    AggregateOne(b);
  }

  /** When every response carries a `data` list, the aggregate holds only lead
      entries, as many as the lists hold together. */
  lemma {:induction false} AggregateOfData(bodies: seq<Body>)
    requires forall i :: 0 <= i < |bodies| ==> bodies[i].data.Some?
    ensures forall k :: 0 <= k < |Aggregate(bodies)| ==> Aggregate(bodies)[k].Entry?
    decreases |bodies|
  {
    if bodies != [] {
      AggregateFirst(bodies);
      AggregateOfData(bodies[1..]);
    }
  }

  /** A response without a `data` list puts an `undefined` into the aggregate. */
  lemma AggregateOfMissingData(bodies: seq<Body>, i: int)
    requires 0 <= i < |bodies| && bodies[i].data.None?
    ensures Undefined in Aggregate(bodies)
  {
    var before, after := bodies[..i], bodies[i + 1..];
    assert bodies == before + ([bodies[i]] + after);
    AggregateAppend(before, [bodies[i]] + after);
    AggregateAppend([bodies[i]], after);
    AggregateOne(bodies[i]);
    var items := Aggregate(bodies);
    assert items == Aggregate(before) + ([Undefined] + Aggregate(after));
    assert items[|Aggregate(before)|] == Undefined;
  }
}
