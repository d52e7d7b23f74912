/** `adfPayload`: the lead rendered as an ADF ("Auto-lead Data Format")
    document, the XML dialect dealer CRMs ingest (briarbush.js, lines 260-316).

    The program appends fixed markup and lead values, unescaped, one
    statement at a time. `AdfRender` is that concatenation with the fixed
    markup drawn from an `AdfMarkup` record, and `AdfDocument` applies it to
    the program's own spelling (`Markup`). The structural lemmas are proved
    for any spelling, which keeps the solver away from the characters of the
    literal tags, and then restated for the program's.
 */
module AdfPayload {
  import opened Results
  import opened Leads
  import opened JsStrings

  /** The fixed pieces of an ADF document, one field per literal the program appends. */
  datatype AdfMarkup = AdfMarkup(
    prolog: string, adfOpen: string, adfClose: string, prospectOpen: string, prospectClose: string,
    idOpen: string, idClose: string, requestDateOpen: string, requestDateClose: string,
    vehicleOpen: string, vehicleClose: string, yearOpen: string, yearClose: string,
    makeOpen: string, makeClose: string, modelOpen: string, modelClose: string,
    commentsOpen: string, commentsClose: string,
    customerOpen: string, customerClose: string, contactOpen: string, contactClose: string,
    customerNameOpen: string, nameClose: string, phone: string, emailOpen: string, emailClose: string,
    vendorOpen: string, vendorClose: string, vendorNameOpen: string, provider: string)

  /** The markup `adfPayload` writes. */
  const Markup := AdfMarkup(
    prolog := "<?ADF version \"1.0\"?>" + "<?XML version \"1.0\"?>",
    adfOpen := "<adf>", adfClose := "</adf>",
    prospectOpen := "<prospect status=\"new\">", prospectClose := "</prospect>",
    idOpen := "<id source=\"facebook\">", idClose := "</id>",
    requestDateOpen := "<requestdate>", requestDateClose := "</requestdate>",
    vehicleOpen := "<vehicle interest=\"buy\" status=\"used\">", vehicleClose := "</vehicle>",
    yearOpen := "<year>", yearClose := "</year>",
    makeOpen := "<make>", makeClose := "</make>",
    modelOpen := "<model>", modelClose := "</model>",
    commentsOpen := "<comments>", commentsClose := "</comments>",
    customerOpen := "<customer>", customerClose := "</customer>",
    contactOpen := "<contact>", contactClose := "</contact>",
    customerNameOpen := "<name part=\"full\" type=\"individual\">", nameClose := "</name>",
    phone := "<phone>Not Provided</phone>",
    emailOpen := "<email>", emailClose := "</email>",
    vendorOpen := "<vendor>", vendorClose := "</vendor>",
    vendorNameOpen := "<name part=\"full\">",
    provider := "<provider>" + "<contact>" + "<name part=\"full\" type=\"business\">Workshop Digital</name>"
                + "</contact>" + "</provider>")

  /** What the document prints of a lead, each field as it appears when
      concatenated (`undefined` for a missing one); a comment is `Some` only
      when its field is truthy. */
  datatype AdfFields = AdfFields(
    id: string, requestDate: string, year: string, make: string, model: string,
    vehicleComment: Option<string>, fullName: string, email: string, customerComment: Option<string>)

  function FieldsOf(lead: Lead): AdfFields {
    AdfFields(
      Text(lead, IdKey), Text(lead, RequestDateKey),
      Text(lead, VehicleYearKey), Text(lead, VehicleMakeKey), Text(lead, VehicleModelKey),
      Comment(lead, VehicleCommentKey),
      Text(lead, FullNameKey), Text(lead, EmailKey),
      Comment(lead, CustomerCommentKey))
  }

  /** The optional `<comments>` element, wrapping the comment verbatim. */
  function CommentBlock(m: AdfMarkup, comment: Option<string>): (r: string)
    ensures comment.None? ==> r == ""
    ensures comment.Some? ==> r == m.commentsOpen + comment.value + m.commentsClose
  {
    match comment
    case Some(text) => m.commentsOpen + text + m.commentsClose
    case None => ""
  }

  /** The three vehicle elements, in the order year, make, model. */
  function VehicleFields(m: AdfMarkup, f: AdfFields): string {
    m.yearOpen + f.year + m.yearClose
    + m.makeOpen + f.make + m.makeClose
    + m.modelOpen + f.model + m.modelClose
  }

  /** The `<vehicle>` element: year, make, model, and the vehicle comment when there is one. */
  function AdfVehicle(m: AdfMarkup, f: AdfFields): string {
    m.vehicleOpen + VehicleFields(m, f) + CommentBlock(m, f.vehicleComment) + m.vehicleClose
  }

  /** The customer's `<contact>` element. No phone number is ever sent. */
  function CustomerContact(m: AdfMarkup, f: AdfFields): string {
    m.contactOpen
    + m.customerNameOpen + f.fullName + m.nameClose
    + m.phone
    + m.emailOpen + f.email + m.emailClose
    + m.contactClose
  }

  /** The `<customer>` element: contact details, and the customer comment when there is one. */
  function AdfCustomer(m: AdfMarkup, f: AdfFields): string {
    m.customerOpen + CustomerContact(m, f) + CommentBlock(m, f.customerComment) + m.customerClose
  }

  /** The `<vendor>` element, naming the dealer. */
  function AdfVendor(m: AdfMarkup, dealer: string): string {
    m.vendorOpen + m.contactOpen + m.vendorNameOpen + dealer + m.nameClose + m.contactClose + m.vendorClose
  }

  /** The `<prospect>` element: the lead's id and request date, then the
      vehicle, customer, vendor and provider elements. */
  function AdfProspect(m: AdfMarkup, f: AdfFields, dealer: string): string {
    m.prospectOpen
    + (m.idOpen + f.id + m.idClose)
    + (m.requestDateOpen + f.requestDate + m.requestDateClose)
    + AdfVehicle(m, f)
    + AdfCustomer(m, f)
    + AdfVendor(m, dealer)
    + m.provider
    + m.prospectClose
  }

  /** The document: the processing instructions and one `<adf>` element. */
  function AdfRender(m: AdfMarkup, f: AdfFields, dealer: string): string {
    m.prolog + m.adfOpen + AdfProspect(m, f, dealer) + m.adfClose
  }

  /** The payload string `adfPayload` builds. */
  function AdfDocument(lead: Lead, dealer: string): string {
    AdfRender(Markup, FieldsOf(lead), dealer)
  }

  // ---------------------------------------------------------------------------
  // Where things are in the document, for any spelling of the markup

  /** The fourth, fifth and sixth of eight appended parts each occur in the whole. */
  lemma MiddlePartsOccur(a: string, b: string, c: string, d: string, e: string, f: string, g: string, h: string)
    ensures Contains(a + b + c + d + e + f + g + h, d)
    ensures Contains(a + b + c + d + e + f + g + h, e)
    ensures Contains(a + b + c + d + e + f + g + h, f)
  {
    ContainsAt(a + b + c + d + e + f + g + h, a + b + c, d, e + f + g + h);
    ContainsAt(a + b + c + d + e + f + g + h, a + b + c + d, e, f + g + h);
    ContainsAt(a + b + c + d + e + f + g + h, a + b + c + d + e, f, g + h);
  }

  /** The vehicle, customer and vendor elements each occur in the document. */
  lemma Sections(m: AdfMarkup, f: AdfFields, dealer: string)
    ensures Contains(AdfRender(m, f, dealer), AdfVehicle(m, f))
    ensures Contains(AdfRender(m, f, dealer), AdfCustomer(m, f))
    ensures Contains(AdfRender(m, f, dealer), AdfVendor(m, dealer))
  {
    var doc, prospect := AdfRender(m, f, dealer), AdfProspect(m, f, dealer);
    ContainsAt(doc, m.prolog + m.adfOpen, prospect, m.adfClose);
    MiddlePartsOccur(m.prospectOpen, m.idOpen + f.id + m.idClose,
      m.requestDateOpen + f.requestDate + m.requestDateClose,
      AdfVehicle(m, f), AdfCustomer(m, f), AdfVendor(m, dealer), m.provider, m.prospectClose);
    ContainsTransitive(doc, prospect, AdfVehicle(m, f));
    ContainsTransitive(doc, prospect, AdfCustomer(m, f));
    ContainsTransitive(doc, prospect, AdfVendor(m, dealer));
  }

  /** The second and third of eight appended parts, each made of three
      pieces, occur together in the whole. */
  lemma LeadingPairOccurs(a: string, b1: string, b2: string, b3: string, c1: string, c2: string, c3: string,
                          d: string, e: string, f: string, g: string, h: string)
    ensures Contains(a + (b1 + b2 + b3) + (c1 + c2 + c3) + d + e + f + g + h, b1 + b2 + b3 + c1 + c2 + c3)
  {
    var whole := a + (b1 + b2 + b3) + (c1 + c2 + c3) + d + e + f + g + h;
    assert whole == a + (b1 + b2 + b3 + c1 + c2 + c3) + (d + e + f + g + h);
    ContainsAt(whole, a, b1 + b2 + b3 + c1 + c2 + c3, d + e + f + g + h);
  }

  /** The id element occurs in the document, directly followed by the
      request date element. */
  lemma IdAndRequestDate(m: AdfMarkup, f: AdfFields, dealer: string)
    ensures Contains(AdfRender(m, f, dealer),
      m.idOpen + f.id + m.idClose + m.requestDateOpen + f.requestDate + m.requestDateClose)
  {
    var doc, prospect := AdfRender(m, f, dealer), AdfProspect(m, f, dealer);
    ContainsAt(doc, m.prolog + m.adfOpen, prospect, m.adfClose);
    LeadingPairOccurs(m.prospectOpen, m.idOpen, f.id, m.idClose, m.requestDateOpen, f.requestDate, m.requestDateClose,
      AdfVehicle(m, f), AdfCustomer(m, f), AdfVendor(m, dealer), m.provider, m.prospectClose);
    ContainsTransitive(doc, prospect, m.idOpen + f.id + m.idClose + m.requestDateOpen + f.requestDate + m.requestDateClose);
  }

  lemma Frame(m: AdfMarkup, f: AdfFields, dealer: string)
    ensures StartsWith(AdfRender(m, f, dealer), m.prolog + m.adfOpen)
    ensures EndsWith(AdfRender(m, f, dealer), m.adfClose)
  {
    var prospect := AdfProspect(m, f, dealer);
    assert AdfRender(m, f, dealer) == (m.prolog + m.adfOpen) + (prospect + m.adfClose);
    StartsWithAppend(m.prolog + m.adfOpen, prospect + m.adfClose);
    EndsWithAppend(m.prolog + m.adfOpen + prospect, m.adfClose);
  }

  /** Concatenation regrouped so that the last two parts form one. */
  lemma GroupLastTwo(a: string, b: string, c: string, d: string)
    ensures a + b + c + d == a + b + (c + d)
  {
  }

  /** Concatenation regrouped at the boundary inside its second part. */
  lemma SplitAfterSecond(a: string, x: string, y: string, k: string, l: string)
    ensures a + (x + y) + k + l == (a + x) + (y + k + l)
  {
  }

  /** Nine parts regrouped as the first four, the fifth, and the last four. */
  lemma IsolateFifth(c1: string, c2: string, c3: string, c4: string, c5: string, c6: string, c7: string, c8: string, c9: string)
    ensures c1 + c2 + c3 + c4 + c5 + c6 + c7 + c8 + c9 == (c1 + c2 + c3 + c4) + c5 + (c6 + c7 + c8 + c9)
  {
  }

  lemma HasVehicleFields(m: AdfMarkup, f: AdfFields, dealer: string)
    ensures Contains(AdfRender(m, f, dealer), VehicleFields(m, f))
  {
    var vehicle, fields := AdfVehicle(m, f), VehicleFields(m, f);
    Sections(m, f, dealer);
    GroupLastTwo(m.vehicleOpen, fields, CommentBlock(m, f.vehicleComment), m.vehicleClose);
    ContainsAt(vehicle, m.vehicleOpen, fields, CommentBlock(m, f.vehicleComment) + m.vehicleClose);
    ContainsTransitive(AdfRender(m, f, dealer), vehicle, fields);
  }

  lemma VehicleComment(m: AdfMarkup, f: AdfFields, dealer: string)
    ensures Contains(AdfRender(m, f, dealer), m.modelClose + CommentBlock(m, f.vehicleComment) + m.vehicleClose)
  {
    var vehicle := AdfVehicle(m, f);
    var t := m.modelClose + CommentBlock(m, f.vehicleComment) + m.vehicleClose;
    var x := m.yearOpen + f.year + m.yearClose
      + m.makeOpen + f.make + m.makeClose
      + m.modelOpen + f.model;
    Sections(m, f, dealer);
    SplitAfterSecond(m.vehicleOpen, x, m.modelClose, CommentBlock(m, f.vehicleComment), m.vehicleClose);
    ContainsEnd(vehicle, m.vehicleOpen + x, t);
    ContainsTransitive(AdfRender(m, f, dealer), vehicle, t);
  }

  lemma PhoneElement(m: AdfMarkup, f: AdfFields, dealer: string)
    ensures Contains(AdfRender(m, f, dealer), m.phone)
  {
    var customer, contact := AdfCustomer(m, f), CustomerContact(m, f);
    Sections(m, f, dealer);
    GroupLastTwo(m.customerOpen, contact, CommentBlock(m, f.customerComment), m.customerClose);
    ContainsAt(customer, m.customerOpen, contact, CommentBlock(m, f.customerComment) + m.customerClose);
    IsolateFifth(m.contactOpen, m.customerNameOpen, f.fullName, m.nameClose, m.phone, m.emailOpen, f.email, m.emailClose, m.contactClose);
    ContainsAt(contact, m.contactOpen + m.customerNameOpen + f.fullName + m.nameClose,
      m.phone, m.emailOpen + f.email + m.emailClose + m.contactClose);
    ContainsTransitive(customer, contact, m.phone);
    ContainsTransitive(AdfRender(m, f, dealer), customer, m.phone);
  }

  lemma CustomerComment(m: AdfMarkup, f: AdfFields, dealer: string)
    ensures Contains(AdfRender(m, f, dealer), m.contactClose + CommentBlock(m, f.customerComment) + m.customerClose)
  {
    var customer := AdfCustomer(m, f);
    var t := m.contactClose + CommentBlock(m, f.customerComment) + m.customerClose;
    var x := m.contactOpen
      + m.customerNameOpen + f.fullName + m.nameClose
      + m.phone
      + m.emailOpen + f.email + m.emailClose;
    Sections(m, f, dealer);
    SplitAfterSecond(m.customerOpen, x, m.contactClose, CommentBlock(m, f.customerComment), m.customerClose);
    ContainsEnd(customer, m.customerOpen + x, t);
    ContainsTransitive(AdfRender(m, f, dealer), customer, t);
  }

  lemma VendorName(m: AdfMarkup, f: AdfFields, dealer: string)
    ensures Contains(AdfRender(m, f, dealer), m.vendorOpen + m.contactOpen + m.vendorNameOpen + dealer + m.nameClose)
  {
    var vendor := AdfVendor(m, dealer);
    var t := m.vendorOpen + m.contactOpen + m.vendorNameOpen + dealer + m.nameClose;
    Sections(m, f, dealer);
    assert vendor == t + (m.contactClose + m.vendorClose);
    ContainsStart(vendor, t, m.contactClose + m.vendorClose);
    ContainsTransitive(AdfRender(m, f, dealer), vendor, t);
  }

  // ---------------------------------------------------------------------------
  // The same facts about the document `adfPayload` writes

  /** The document starts with the two processing instructions and `<adf>`,
      and ends with `</adf>`. */
  lemma AdfFrame(lead: Lead, dealer: string)
    ensures StartsWith(AdfDocument(lead, dealer), "<?ADF version \"1.0\"?>" + "<?XML version \"1.0\"?>" + "<adf>")
    ensures EndsWith(AdfDocument(lead, dealer), "</adf>")
  {
    Frame(Markup, FieldsOf(lead), dealer);
  }

  /** Year, make and model appear together and in that order, each holding
      the lead's derived vehicle field verbatim. */
  lemma AdfHasVehicleFields(lead: Lead, dealer: string)
    ensures Contains(AdfDocument(lead, dealer),
      "<year>" + Text(lead, VehicleYearKey) + "</year>"
      + "<make>" + Text(lead, VehicleMakeKey) + "</make>"
      + "<model>" + Text(lead, VehicleModelKey) + "</model>")
  {
    HasVehicleFields(Markup, FieldsOf(lead), dealer);
  }

  /** `<id source="facebook">` holds the lead's id and is directly followed
      by `<requestdate>` holding its request date, both as they print. */
  lemma AdfIdAndRequestDate(lead: Lead, dealer: string)
    ensures Contains(AdfDocument(lead, dealer),
      "<id source=\"facebook\">" + Text(lead, IdKey) + "</id>"
      + "<requestdate>" + Text(lead, RequestDateKey) + "</requestdate>")
  {
    IdAndRequestDate(Markup, FieldsOf(lead), dealer);
  }

  /** The vehicle's `<comments>` element directly follows `<model>` and holds
      the comment verbatim when `vehicle_comment` is truthy; otherwise
      `</model>` is directly followed by `</vehicle>`. */
  lemma AdfVehicleComment(lead: Lead, dealer: string)
    ensures IsSet(lead, VehicleCommentKey) ==>
      Contains(AdfDocument(lead, dealer), "</model>" + ("<comments>" + lead[VehicleCommentKey] + "</comments>") + "</vehicle>")
    ensures !IsSet(lead, VehicleCommentKey) ==> Contains(AdfDocument(lead, dealer), "</model>" + "" + "</vehicle>")
  {
    var doc := AdfDocument(lead, dealer);
    if IsSet(lead, VehicleCommentKey) {
      assert Contains(doc, "</model>" + ("<comments>" + lead[VehicleCommentKey] + "</comments>") + "</vehicle>") by {
        VehicleComment(Markup, FieldsOf(lead), dealer);
      }
    } else {
      assert Contains(doc, "</model>" + "" + "</vehicle>") by {
        VehicleComment(Markup, FieldsOf(lead), dealer);
      }
    }
  }

  /** The phone element always carries the fixed text `Not Provided`. */
  lemma AdfPhoneNotProvided(lead: Lead, dealer: string)
    ensures Contains(AdfDocument(lead, dealer), "<phone>Not Provided</phone>")
  {
    PhoneElement(Markup, FieldsOf(lead), dealer);
  }

  /** The customer's `<comments>` element closes `<customer>` right after the
      contact details when `customer_comment` is truthy; otherwise
      `</contact>` is directly followed by `</customer>`. */
  lemma AdfCustomerComment(lead: Lead, dealer: string)
    ensures IsSet(lead, CustomerCommentKey) ==>
      Contains(AdfDocument(lead, dealer), "</contact>" + ("<comments>" + lead[CustomerCommentKey] + "</comments>") + "</customer>")
    ensures !IsSet(lead, CustomerCommentKey) ==> Contains(AdfDocument(lead, dealer), "</contact>" + "" + "</customer>")
  {
    var doc := AdfDocument(lead, dealer);
    if IsSet(lead, CustomerCommentKey) {
      assert Contains(doc, "</contact>" + ("<comments>" + lead[CustomerCommentKey] + "</comments>") + "</customer>") by {
        CustomerComment(Markup, FieldsOf(lead), dealer);
      }
    } else {
      assert Contains(doc, "</contact>" + "" + "</customer>") by {
        CustomerComment(Markup, FieldsOf(lead), dealer);
      }
    }
  }

  /** The vendor's name is the dealer setting, verbatim. */
  lemma AdfVendorIsDealer(lead: Lead, dealer: string)
    ensures Contains(AdfDocument(lead, dealer), "<vendor>" + "<contact>" + "<name part=\"full\">" + dealer + "</name>")
  {
    VendorName(Markup, FieldsOf(lead), dealer);
  }

  /** The document reads nothing of the lead but the nine fields it prints:
      two leads that agree on those render identically. */
  lemma AdfReadsOnlyItsFields(a: Lead, b: Lead, dealer: string)
    requires Lookup(a, IdKey) == Lookup(b, IdKey) && Lookup(a, RequestDateKey) == Lookup(b, RequestDateKey)
    requires Lookup(a, VehicleYearKey) == Lookup(b, VehicleYearKey)
    requires Lookup(a, VehicleMakeKey) == Lookup(b, VehicleMakeKey)
    requires Lookup(a, VehicleModelKey) == Lookup(b, VehicleModelKey)
    requires Lookup(a, VehicleCommentKey) == Lookup(b, VehicleCommentKey)
    requires Lookup(a, FullNameKey) == Lookup(b, FullNameKey) && Lookup(a, EmailKey) == Lookup(b, EmailKey)
    requires Lookup(a, CustomerCommentKey) == Lookup(b, CustomerCommentKey)
    ensures AdfDocument(a, dealer) == AdfDocument(b, dealer)
  {
    assert FieldsOf(a) == FieldsOf(b);
  }
}
