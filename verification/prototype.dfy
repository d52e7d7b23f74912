/** The earlier prototype of the same job (index.js): fetch, decode,
    concatenate, flatten, and render each lead as an ADF document for one
    fixed dealer. It shares `concatAdData` and the flattening rule with the
    later program (index.js, lines 51-73, are the same code as briarbush.js,
    lines 221-242, so `Upstream.ConcatAdData` and `Leads.FlattenLead` model
    both), but it decodes without looking for an API error, derives no
    vehicle fields, and writes a different document.
 */
module Prototype {
  import opened Results
  import opened Upstream
  import opened Leads
  import opened JsStrings

  /** `parseBody` in the prototype (index.js, lines 37-48): the decoded body,
      whatever it holds. */
  function PrototypeParseBody(body: Body): Body {
    body
  }

  /** The prototype reads the vehicle from the raw form fields `year` and
      `make`, and a phone number from `phone_number`. */
  const YearKey := "year"
  const MakeKey := "make"
  const PhoneKey := "phone_number"

  /** The fixed pieces of the prototype's document, one per literal. */
  datatype PrototypeMarkup = PrototypeMarkup(
    prolog: string, adfOpen: string, adfClose: string, prospectOpen: string, prospectClose: string,
    requestDateOpen: string, requestDateClose: string,
    vehicleOpen: string, vehicleClose: string, yearOpen: string, yearClose: string,
    makeOpen: string, makeClose: string, modelOpen: string, modelClose: string,
    customerOpen: string, customerClose: string, contactOpen: string, contactClose: string,
    nameOpen: string, nameClose: string, phoneOpen: string, phoneClose: string,
    emailOpen: string, emailClose: string, vendorOpen: string, vendorClose: string, vendorName: string)

  /** The markup `leadXMLADFPayload` writes (index.js, lines 77-100). */
  const Markup := PrototypeMarkup(
    prolog := "<?ADF version \"1.0\"?>" + "<?XML version \"1.0\"?>",
    adfOpen := "<adf>", adfClose := "</adf>",
    prospectOpen := "<prospect>", prospectClose := "</prospect>",
    requestDateOpen := "<requestdate>", requestDateClose := "</requestdate>",
    vehicleOpen := "<vehicle>", vehicleClose := "</vehicle>",
    yearOpen := "<year>", yearClose := "</year>",
    makeOpen := "<make>", makeClose := "</make>",
    modelOpen := "<model>", modelClose := "</model>",
    customerOpen := "<customer>", customerClose := "</customer>",
    contactOpen := "<contact>", contactClose := "</contact>",
    nameOpen := "<name part=\"full\">", nameClose := "</name>",
    phoneOpen := "<phone>", phoneClose := "</phone>",
    emailOpen := "<email>", emailClose := "</email>",
    vendorOpen := "<vendor>", vendorClose := "</vendor>",
    vendorName := "<name part=\"full\">" + "Whitten Brothers CDJR" + "</name>")

  /** What the prototype's document prints of a lead. */
  datatype PrototypeFields = PrototypeFields(
    requestDate: string, year: string, make: string, fullName: string, phone: string, email: string)

  function PrototypeFieldsOf(lead: Lead): PrototypeFields {
    PrototypeFields(
      Text(lead, RequestDateKey), Text(lead, YearKey), Text(lead, MakeKey),
      Text(lead, FullNameKey), Text(lead, PhoneKey), Text(lead, EmailKey))
  }

  /** The `<vehicle>` element. The `<model>` element repeats the year. */
  function PrototypeVehicle(m: PrototypeMarkup, f: PrototypeFields): string {
    m.vehicleOpen
    + (m.yearOpen + f.year + m.yearClose)
    + (m.makeOpen + f.make + m.makeClose)
    + (m.modelOpen + f.year + m.modelClose)
    + m.vehicleClose
  }

  function PrototypeCustomer(m: PrototypeMarkup, f: PrototypeFields): string {
    m.customerOpen + m.contactOpen
    + (m.nameOpen + f.fullName + m.nameClose)
    + (m.phoneOpen + f.phone + m.phoneClose)
    + (m.emailOpen + f.email + m.emailClose)
    + m.contactClose + m.customerClose
  }

  /** The `<vendor>` element always names the same dealership. */
  function PrototypeVendor(m: PrototypeMarkup): string {
    m.vendorOpen + m.contactOpen + m.vendorName + m.contactClose + m.vendorClose
  }

  /** No `<id>` and no `<provider>`: the request date, vehicle, customer and vendor. */
  function PrototypeProspect(m: PrototypeMarkup, f: PrototypeFields): string {
    m.prospectOpen
    + (m.requestDateOpen + f.requestDate + m.requestDateClose)
    + PrototypeVehicle(m, f)
    + PrototypeCustomer(m, f)
    + PrototypeVendor(m)
    + m.prospectClose
  }

  function PrototypeRender(m: PrototypeMarkup, f: PrototypeFields): string {
    m.prolog + m.adfOpen + PrototypeProspect(m, f) + m.adfClose
  }

  /** `leadXMLADFPayload(lead)`. */
  function PrototypeDocument(lead: Lead): string {
    PrototypeRender(Markup, PrototypeFieldsOf(lead))
  }

  // ---------------------------------------------------------------------------
  // Structure, for any spelling of the markup

  lemma PrototypeFrame(m: PrototypeMarkup, f: PrototypeFields)
    ensures StartsWith(PrototypeRender(m, f), m.prolog + m.adfOpen + m.prospectOpen)
    ensures EndsWith(PrototypeRender(m, f), m.vendorClose + m.prospectClose + m.adfClose)
  {
    var head := m.prolog + m.adfOpen + m.prospectOpen;
    var middle := (m.requestDateOpen + f.requestDate + m.requestDateClose)
      + PrototypeVehicle(m, f) + PrototypeCustomer(m, f)
      + (m.vendorOpen + m.contactOpen + m.vendorName + m.contactClose);
    var tail := m.vendorClose + m.prospectClose + m.adfClose;
    assert PrototypeRender(m, f) == head + (middle + tail);
    StartsWithAppend(head, middle + tail);
    assert PrototypeRender(m, f) == (head + middle) + tail;
    EndsWithAppend(head + middle, tail);
  }

  lemma VehicleInDocument(m: PrototypeMarkup, f: PrototypeFields)
    ensures Contains(PrototypeRender(m, f), PrototypeVehicle(m, f))
  {
    var doc := PrototypeRender(m, f);
    var before := m.prolog + m.adfOpen + m.prospectOpen + (m.requestDateOpen + f.requestDate + m.requestDateClose);
    var after := PrototypeCustomer(m, f) + PrototypeVendor(m) + m.prospectClose + m.adfClose;
    assert doc == before + PrototypeVehicle(m, f) + after;
    ContainsAt(doc, before, PrototypeVehicle(m, f), after);
  }

  lemma CustomerInDocument(m: PrototypeMarkup, f: PrototypeFields)
    ensures Contains(PrototypeRender(m, f), PrototypeCustomer(m, f))
  {
    var doc := PrototypeRender(m, f);
    var before := m.prolog + m.adfOpen + m.prospectOpen + (m.requestDateOpen + f.requestDate + m.requestDateClose)
      + PrototypeVehicle(m, f);
    var after := PrototypeVendor(m) + m.prospectClose + m.adfClose;
    assert doc == before + PrototypeCustomer(m, f) + after;
    ContainsAt(doc, before, PrototypeCustomer(m, f), after);
  }

  lemma VendorInDocument(m: PrototypeMarkup, f: PrototypeFields)
    ensures Contains(PrototypeRender(m, f), m.vendorOpen + m.contactOpen + m.vendorName)
  {
    var doc := PrototypeRender(m, f);
    var t := m.vendorOpen + m.contactOpen + m.vendorName;
    var before := m.prolog + m.adfOpen + m.prospectOpen + (m.requestDateOpen + f.requestDate + m.requestDateClose)
      + PrototypeVehicle(m, f) + PrototypeCustomer(m, f);
    var after := m.contactClose + m.vendorClose + m.prospectClose + m.adfClose;
    assert doc == before + t + after;
    ContainsAt(doc, before, t, after);
  }

  /** Both the `<year>` and the `<model>` element hold the year. */
  lemma ModelRepeatsYear(m: PrototypeMarkup, f: PrototypeFields)
    ensures Contains(PrototypeRender(m, f), m.yearOpen + f.year + m.yearClose)
    ensures Contains(PrototypeRender(m, f), m.modelOpen + f.year + m.modelClose)
  {
    var vehicle := PrototypeVehicle(m, f);
    var year := m.yearOpen + f.year + m.yearClose;
    var make := m.makeOpen + f.make + m.makeClose;
    var model := m.modelOpen + f.year + m.modelClose;
    VehicleInDocument(m, f);
    ContainsAt(vehicle, m.vehicleOpen, year, make + model + m.vehicleClose);
    ContainsAt(vehicle, m.vehicleOpen + year + make, model, m.vehicleClose);
    ContainsTransitive(PrototypeRender(m, f), vehicle, year);
    ContainsTransitive(PrototypeRender(m, f), vehicle, model);
  }

  lemma PhoneInDocument(m: PrototypeMarkup, f: PrototypeFields)
    ensures Contains(PrototypeRender(m, f), m.phoneOpen + f.phone + m.phoneClose)
  {
    var customer := PrototypeCustomer(m, f);
    var phone := m.phoneOpen + f.phone + m.phoneClose;
    var before := m.customerOpen + m.contactOpen + (m.nameOpen + f.fullName + m.nameClose);
    var after := (m.emailOpen + f.email + m.emailClose) + m.contactClose + m.customerClose;
    CustomerInDocument(m, f);
    assert customer == before + phone + after;
    ContainsAt(customer, before, phone, after);
    ContainsTransitive(PrototypeRender(m, f), customer, phone);
  }

  // ---------------------------------------------------------------------------
  // The same facts about the document the prototype writes

  /** The document ends by closing the vendor, the prospect and the `<adf>` element. */
  lemma PrototypeEnds(lead: Lead)
    ensures StartsWith(PrototypeDocument(lead), "<?ADF version \"1.0\"?>" + "<?XML version \"1.0\"?>" + "<adf>" + "<prospect>")
    ensures EndsWith(PrototypeDocument(lead), "</vendor>" + "</prospect>" + "</adf>")
  {
    PrototypeFrame(Markup, PrototypeFieldsOf(lead));
  }

  /** The `<model>` element holds `lead.year`, as does `<year>`. */
  lemma PrototypeModelIsYear(lead: Lead)
    ensures Contains(PrototypeDocument(lead), "<year>" + Text(lead, YearKey) + "</year>")
    ensures Contains(PrototypeDocument(lead), "<model>" + Text(lead, YearKey) + "</model>")
  {
    ModelRepeatsYear(Markup, PrototypeFieldsOf(lead));
  }

  /** The phone element carries `lead.phone_number`. */
  lemma PrototypePhone(lead: Lead)
    ensures Contains(PrototypeDocument(lead), "<phone>" + Text(lead, PhoneKey) + "</phone>")
  {
    PhoneInDocument(Markup, PrototypeFieldsOf(lead));
  }

  /** The vendor is always the same dealership, whatever the lead. */
  lemma PrototypeVendorIsFixed(lead: Lead)
    ensures Contains(PrototypeDocument(lead),
      "<vendor>" + "<contact>" + ("<name part=\"full\">" + "Whitten Brothers CDJR" + "</name>"))
  {
    VendorInDocument(Markup, PrototypeFieldsOf(lead));
  }

  /** The document reads only the six raw fields it prints: not the id, and
      none of the derived `vehicle_*` fields of the later program. */
  lemma PrototypeReadsOnlyItsFields(a: Lead, b: Lead)
    requires Lookup(a, RequestDateKey) == Lookup(b, RequestDateKey)
    requires Lookup(a, YearKey) == Lookup(b, YearKey) && Lookup(a, MakeKey) == Lookup(b, MakeKey)
    requires Lookup(a, FullNameKey) == Lookup(b, FullNameKey)
    requires Lookup(a, PhoneKey) == Lookup(b, PhoneKey) && Lookup(a, EmailKey) == Lookup(b, EmailKey)
    ensures PrototypeDocument(a) == PrototypeDocument(b)
  {
    assert PrototypeFieldsOf(a) == PrototypeFieldsOf(b);
  }

  // ---------------------------------------------------------------------------
  // The prototype's chain of stages (index.js, lines 128-133)

  /** An item `leadsToObj` accepts: an entry with `field_data` whose
      attributes all carry `values`. */
  predicate Flattenable(item: Item) {
    item.Entry? && item.entry.fieldData.Some? && HasValues(item.entry.fieldData.value)
  }

  /** Decode, concatenate, flatten and render: the documents in the order of
      the concatenated `data` lists, or the failure of the first item that
      cannot be flattened. An API error is never reported as such. The
      prototype itself renders with `Markup`. */
  function PrototypeRun(m: PrototypeMarkup, bodies: seq<Body>): (r: Result<seq<string>>)
    ensures r.Ok? <==> forall k :: 0 <= k < |Aggregate(bodies)| ==> Flattenable(Aggregate(bodies)[k])
    ensures r.Ok? ==> |r.value| == |Aggregate(bodies)| == TotalLength(bodies)
    ensures r.Ok? ==> forall k :: 0 <= k < |r.value| ==>
      Flattenable(Aggregate(bodies)[k]) && r.value[k] == PrototypeRender(m, PrototypeFieldsOf(FlattenLead(Aggregate(bodies)[k]).value))
    ensures r.Err? ==> r.error == NotAnEntry || r.error == MissingFieldData || r.error == MissingValues
    ensures r.Err? ==>
      exists k :: 0 <= k < |Aggregate(bodies)| && FlattenLead(Aggregate(bodies)[k]).Err?
        && (forall j :: 0 <= j < k ==> FlattenLead(Aggregate(bodies)[j]).Ok?)
        && r.error == FlattenLead(Aggregate(bodies)[k]).error
  {
    var parsed := seq(|bodies|, i requires 0 <= i < |bodies| => PrototypeParseBody(bodies[i]));
    assert parsed == bodies;
    var items := Aggregate(parsed);
    AggregateLength(bodies);
    var leads :- MapAll(items, FlattenLead);
    Ok(seq(|leads|, k requires 0 <= k < |leads| => PrototypeRender(m, PrototypeFieldsOf(leads[k]))))
  }

  /** A response carrying an API error has no `data` list, so the prototype
      fails on the `undefined` it appends, not with the API's message. */
  lemma PrototypeHidesApiErrors(m: PrototypeMarkup, bodies: seq<Body>, i: int)
    requires 0 <= i < |bodies| && bodies[i].error.Some? && bodies[i].data.None?
    ensures PrototypeRun(m, bodies).Err?
    ensures !PrototypeRun(m, bodies).error.UpstreamError?
  {
    AggregateOfMissingData(bodies, i);
    var items := Aggregate(bodies);
    var k :| 0 <= k < |items| && items[k] == Undefined;
    assert !Flattenable(items[k]);
  }
}
