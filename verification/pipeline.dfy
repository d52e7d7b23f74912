/** `app.run` restricted to its pure stages (briarbush.js, lines 480-503):
    decode each response, concatenate their `data` lists, flatten every
    entry, derive its vehicle fields and render the three payloads. The
    HTTP requests before, and `buildMessage` and the sending after, are not
    part of this chain (the mail options a rendered lead gives are stated
    separately in `Mail`); the responses come in as decoded bodies, in the
    order of the ad list.

    Every Bluebird stage waits for all its elements, so a failure is the one
    of the first element, by position, that fails in the earliest stage that
    fails.
 */
module Pipeline {
  import opened Results
  import opened Upstream
  import opened Leads
  import Payloads

  /** An item that gets through flattening and vehicle derivation: an entry
      whose `field_data` attributes all carry `values`, among them a
      `vehicle_info` attribute with a value. */
  predicate Deliverable(item: Item) {
    && item.Entry?
    && item.entry.fieldData.Some?
    && HasValues(item.entry.fieldData.value)
    && AttrValue(item.entry.fieldData.value, VehicleInfoKey).Some?
  }

  /** Deliverable items are exactly those both fallible stages accept. */
  lemma DeliverableFlattens(item: Item)
    ensures Deliverable(item) <==> FlattenLead(item).Ok? && FormatVehicleInfo(FlattenLead(item).value).Ok?
  {
    if FlattenLead(item).Ok? {
      assert VehicleInfoKey != IdKey && VehicleInfoKey != RequestDateKey;
      assert Lookup(FlattenLead(item).value, VehicleInfoKey) == AttrValue(item.entry.fieldData.value, VehicleInfoKey);
    }
  }

  /** The lead an item becomes before rendering, computed for that item alone. */
  function Prepared(item: Item): Lead
    requires Deliverable(item)
  {
    DeliverableFlattens(item);
    FormatVehicleInfo(FlattenLead(item).value).value
  }

  /** The rendered lead an item becomes, computed for that item alone. */
  function Delivered(w: Payloads.Wording, item: Item, dealer: string, eol: string): Lead
    requires Deliverable(item)
  {
    Payloads.RenderLead(w, Prepared(item), dealer, eol)
  }

  predicate AllDeliverable(items: seq<Item>) {
    forall k :: 0 <= k < |items| ==> Deliverable(items[k])
  }

  predicate NoUpstreamError(bodies: seq<Body>) {
    forall i :: 0 <= i < |bodies| ==> bodies[i].error.None?
  }

  /** The decoding stage: every body unchanged, or the error message of the
      first body that carries an error. */
  function DecodeAll(bodies: seq<Body>): (r: Result<seq<Body>>)
    ensures r.Ok? <==> NoUpstreamError(bodies)
    ensures r.Ok? ==> r.value == bodies
    ensures r.Err? ==>
      exists i :: 0 <= i < |bodies| && bodies[i].error.Some? && (forall j :: 0 <= j < i ==> bodies[j].error.None?)
        && r.error == UpstreamError(bodies[i].error.value.message)
  {
    var r := MapAll(bodies, ParseBody);
    if r.Ok? then ParsedUnchanged(bodies, r.value); r else r
  }

  /** A decode stage that succeeds hands every body on unchanged. */
  lemma ParsedUnchanged(bodies: seq<Body>, parsed: seq<Body>)
    requires MapAll(bodies, ParseBody) == Ok(parsed)
    ensures parsed == bodies
  {
    assert |parsed| == |bodies|;
    forall i | 0 <= i < |bodies| ensures parsed[i] == bodies[i] {
      assert ParseBody(bodies[i]) == Ok(parsed[i]);
    }
  }

  /** The flattening stage and then the vehicle stage. Since the first stage
      finishes before the second starts, a flattening failure anywhere wins
      over a missing `vehicle_info` earlier in the list. */
  function PrepareAll(items: seq<Item>): (r: Result<seq<Lead>>)
    ensures r.Ok? <==> AllDeliverable(items)
    ensures r.Ok? ==> |r.value| == |items|
    ensures r.Ok? ==> forall k :: 0 <= k < |items| ==> Deliverable(items[k]) && r.value[k] == Prepared(items[k])
    ensures (exists k :: 0 <= k < |items| && FlattenLead(items[k]).Err?) ==>
      exists k :: 0 <= k < |items| && FlattenLead(items[k]).Err? && (forall j :: 0 <= j < k ==> FlattenLead(items[j]).Ok?)
        && r == Err(FlattenLead(items[k]).error)
    ensures (forall k :: 0 <= k < |items| ==> FlattenLead(items[k]).Ok?) && r.Err? ==> r == Err(MissingVehicleInfo)
  {
    var leads :- MapAll(items, FlattenLead);
    var formatted :- MapAll(leads, FormatVehicleInfo);
    PreparedEach(items, leads, formatted);
    Ok(formatted)
  }

  /** An item both stages accept is deliverable and becomes its prepared lead. */
  lemma PreparedOne(item: Item, lead: Lead, formatted: Lead)
    requires FlattenLead(item) == Ok(lead) && FormatVehicleInfo(lead) == Ok(formatted)
    ensures Deliverable(item) && formatted == Prepared(item)
  {
    DeliverableFlattens(item);
  }

  /** When both stages succeed, each lead is the one its item gives alone. */
  lemma PreparedEach(items: seq<Item>, leads: seq<Lead>, formatted: seq<Lead>)
    requires |leads| == |items| && |formatted| == |items|
    requires forall k :: 0 <= k < |items| ==> FlattenLead(items[k]) == Ok(leads[k])
    requires forall k :: 0 <= k < |items| ==> FormatVehicleInfo(leads[k]) == Ok(formatted[k])
    ensures forall k :: 0 <= k < |items| ==> Deliverable(items[k]) && formatted[k] == Prepared(items[k])
  {
    forall k | 0 <= k < |items| ensures Deliverable(items[k]) && formatted[k] == Prepared(items[k]) {
      PreparedOne(items[k], leads[k], formatted[k]);
    }
  }

  /** The pure part of `app.run`: the rendered leads in the order of the
      concatenated `data` lists, or the failure that stops the run: the
      first upstream error, and otherwise the failure `PrepareAll` reports
      (the first flattening failure by position, else a missing
      `vehicle_info`). */
  function Run(w: Payloads.Wording, bodies: seq<Body>, dealer: string, eol: string): (r: Result<seq<Lead>>)
    ensures !NoUpstreamError(bodies) ==>
      exists i :: 0 <= i < |bodies| && bodies[i].error.Some? && (forall j :: 0 <= j < i ==> bodies[j].error.None?)
        && r == Err(UpstreamError(bodies[i].error.value.message))
    ensures r.Ok? <==> NoUpstreamError(bodies) && AllDeliverable(Aggregate(bodies))
    ensures NoUpstreamError(bodies) && r.Err? ==>
      PrepareAll(Aggregate(bodies)).Err? && r.error == PrepareAll(Aggregate(bodies)).error
    ensures r.Ok? ==> |r.value| == |Aggregate(bodies)| == TotalLength(bodies)
    ensures r.Ok? ==> forall k :: 0 <= k < |r.value| ==>
      Deliverable(Aggregate(bodies)[k]) && r.value[k] == Delivered(w, Aggregate(bodies)[k], dealer, eol)
  {
    match DecodeAll(bodies)
    case Err(e) => Err(e)
    case Ok(_) =>
      var items := Aggregate(bodies);
      match PrepareAll(items)
      case Err(e) => Err(e)
      case Ok(leads) =>
        AggregateLength(bodies);
        Ok(seq(|leads|, k requires 0 <= k < |leads| => Payloads.RenderLead(w, leads[k], dealer, eol)))
  }
}
