/** The options object `buildMessage` hands to the MIME composer
    (briarbush.js, lines 391-421): fixed sender and subject, the recipients
    from the `email` setting, the two notices as the text and HTML bodies,
    and the ADF document as an `application/xml` alternative. The carbon
    copy, blind carbon copy and reply-to headers appear only when their
    setting is truthy.
 */
module Mail {
  import opened Results
  import opened Leads
  import opened Settings
  import Payloads

  const FromAddress := "Workshop Digital <mailgun@mg.workshopdigital.com>"
  const Subject := "FB Lead"
  const XmlContentType := "application/xml"

  /** The `email` setting as `app.init` builds it (lines 66-71): the
      `--email-to`, `--email-reply`, `--email-cc` and `--email-bcc` values,
      each possibly `undefined` or `null`. */
  datatype EmailSetting = EmailSetting(to: JsValue, replyTo: JsValue, cc: JsValue, bcc: JsValue)

  /** The object `app.init` stores under `email`. */
  function EmailObject(e: EmailSetting): JsValue {
    Obj(map["to" := e.to, "replyTo" := e.replyTo, "cc" := e.cc, "bcc" := e.bcc])
  }

  /** `app.get('email')` as `buildMessage` reads it: its `to`, `replyTo`,
      `cc` and `bcc` properties, or `None` for the TypeError thrown when the
      setting is `undefined` or `null`. */
  function EmailOf(store: Store): (r: Option<EmailSetting>)
    ensures r.Some? <==> Property(Get(store, "email"), "to").Some?
    ensures r.Some? ==> Property(Get(store, "email"), "to") == Some(r.value.to)
    ensures r.Some? ==> Property(Get(store, "email"), "replyTo") == Some(r.value.replyTo)
    ensures r.Some? ==> Property(Get(store, "email"), "cc") == Some(r.value.cc)
    ensures r.Some? ==> Property(Get(store, "email"), "bcc") == Some(r.value.bcc)
  {
    var e := Get(store, "email");
    if e.Undefined? || e.Null? then None
    else Some(EmailSetting(
      Property(e, "to").value, Property(e, "replyTo").value, Property(e, "cc").value, Property(e, "bcc").value))
  }

  /** Reading back the stored setting gives the four values `app.init` put in it. */
  lemma EmailRoundTrip(store: Store, e: EmailSetting)
    ensures EmailOf(Set(store, "email", EmailObject(e))) == Some(e)
  {
    var fields := map["to" := e.to, "replyTo" := e.replyTo, "cc" := e.cc, "bcc" := e.bcc];
    assert fields["to"] == e.to && fields["replyTo"] == e.replyTo;
    assert fields["cc"] == e.cc && fields["bcc"] == e.bcc;
  }

  /** Once the configuration check has passed, `buildMessage` can read the
      setting and addresses the message to a truthy `to`. */
  lemma CheckedSettingHasRecipient(store: Store)
    requires ConfigCheck(store) == Passed
    ensures EmailOf(store).Some? && Truthy(EmailOf(store).value.to)
    ensures Truthy(BuildOptions(map[], EmailOf(store).value).to)
  {
  }

  /** An entry of `alternatives`. */
  datatype Alternative = Alternative(contentType: string, content: JsValue)

  /** The options object. The three optional entries are `None` when the
      object has no such key. */
  datatype MailOptions = MailOptions(
    from: string, to: JsValue, subject: string, text: JsValue, html: JsValue,
    alternatives: seq<Alternative>,
    cc: Option<JsValue>, bcc: Option<JsValue>, replyTo: Option<JsValue>)

  /** `lead[key]` read as a JavaScript value: `undefined` when absent. */
  function LeadValue(lead: Lead, key: string): (v: JsValue)
    ensures v.Str? <==> key in lead
    ensures v.Str? ==> v.s == lead[key]
    ensures !v.Str? ==> v == Undefined
  {
    if key in lead then Str(lead[key]) else Undefined
  }

  /** `if (value) options[header] = value`. */
  function IfTruthy(value: JsValue): (r: Option<JsValue>)
    ensures r.Some? <==> Truthy(value)
    ensures r.Some? ==> r.value == value
  {
    if Truthy(value) then Some(value) else None
  }

  /** The options `buildMessage` builds for a lead. */
  function BuildOptions(lead: Lead, email: EmailSetting): (r: MailOptions)
    ensures r.from == FromAddress && r.subject == Subject && r.to == email.to
    ensures r.text == LeadValue(lead, Payloads.TextPayloadKey)
    ensures r.html == LeadValue(lead, Payloads.HtmlPayloadKey)
    ensures r.alternatives == [Alternative(XmlContentType, LeadValue(lead, Payloads.AdfPayloadKey))]
    ensures r.cc.Some? <==> Truthy(email.cc)
    ensures r.bcc.Some? <==> Truthy(email.bcc)
    ensures r.replyTo.Some? <==> Truthy(email.replyTo)
    ensures r.cc.Some? ==> r.cc.value == email.cc
    ensures r.bcc.Some? ==> r.bcc.value == email.bcc
    ensures r.replyTo.Some? ==> r.replyTo.value == email.replyTo
  {
    MailOptions(
      FromAddress, email.to, Subject,
      LeadValue(lead, Payloads.TextPayloadKey), LeadValue(lead, Payloads.HtmlPayloadKey),
      [Alternative(XmlContentType, LeadValue(lead, Payloads.AdfPayloadKey))],
      IfTruthy(email.cc), IfTruthy(email.bcc), IfTruthy(email.replyTo))
  }

  /** The optional headers change nothing else: two settings that agree on
      `to` give the same message apart from those headers. */
  lemma BaseIgnoresCopies(lead: Lead, e1: EmailSetting, e2: EmailSetting)
    requires e1.to == e2.to
    ensures BuildOptions(lead, e1).(cc := None, bcc := None, replyTo := None)
         == BuildOptions(lead, e2).(cc := None, bcc := None, replyTo := None)
  {
  }

  /** For a lead that went through the three rendering stages, the message
      carries exactly the rendered documents: the text notice, the HTML
      notice and the ADF document of the lead handed to those stages. */
  lemma OptionsOfRenderedLead(w: Payloads.Wording, lead: Lead, dealer: string, eol: string, email: EmailSetting)
    ensures BuildOptions(Payloads.RenderLead(w, lead, dealer, eol), email).text == Str(Payloads.TextOf(w, lead, dealer, eol))
    ensures BuildOptions(Payloads.RenderLead(w, lead, dealer, eol), email).html == Str(Payloads.HtmlOf(w, lead, dealer))
    ensures BuildOptions(Payloads.RenderLead(w, lead, dealer, eol), email).alternatives ==
      [Alternative(XmlContentType, Str(Payloads.AdfOf(w, lead, dealer)))]
  {
    Payloads.RenderedAdf(w, lead, dealer, eol);
    Payloads.RenderedHtml(w, lead, dealer, eol);
    Payloads.RenderedText(w, lead, dealer, eol);
  }
}
