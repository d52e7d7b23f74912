/** The three rendering stages of the run: `adfPayload`, `htmlPayload` and
    `textPayload` each store their document on the lead under a key of its
    own and hand the lead on (briarbush.js, lines 260-388).

    The stages take the fixed wording of the three documents as one record,
    `Wording`; the program's own is `ProgramWording`. Everything here holds
    for any wording, which keeps the proofs away from the characters of the
    literal text.
 */
module Payloads {
  import opened Results
  import opened Leads
  import AdfPayload
  import Notices

  const AdfPayloadKey := "adfPayload"
  const HtmlPayloadKey := "htmlPayload"
  const TextPayloadKey := "textPayload"

  /** The fixed text of the ADF document, the HTML notice and the text notice. */
  datatype Wording = Wording(adf: AdfPayload.AdfMarkup, html: Notices.HtmlWords, text: Notices.TextWords)

  const ProgramWording := Wording(AdfPayload.Markup, Notices.HtmlSpelling, Notices.TextSpelling)

  function AdfOf(w: Wording, lead: Lead, dealer: string): string {
    AdfPayload.AdfRender(w.adf, AdfPayload.FieldsOf(lead), dealer)
  }

  function HtmlOf(w: Wording, lead: Lead, dealer: string): string {
    Notices.HtmlRender(w.html, Notices.NoticeFieldsOf(lead, dealer))
  }

  function TextOf(w: Wording, lead: Lead, dealer: string, eol: string): string {
    Notices.TextRender(w.text, Notices.NoticeFieldsOf(lead, dealer), eol)
  }

  /** With the program's wording these are the documents the program builds. */
  lemma ProgramAdf(lead: Lead, dealer: string)
    ensures AdfOf(ProgramWording, lead, dealer) == AdfPayload.AdfDocument(lead, dealer)
  {
    assert ProgramWording.adf == AdfPayload.Markup;
  }

  lemma ProgramHtml(lead: Lead, dealer: string)
    ensures HtmlOf(ProgramWording, lead, dealer) == Notices.HtmlDocument(lead, dealer)
  {
    assert ProgramWording.html == Notices.HtmlSpelling;
  }

  lemma ProgramText(lead: Lead, dealer: string, eol: string)
    ensures TextOf(ProgramWording, lead, dealer, eol) == Notices.TextDocument(lead, dealer, eol)
  {
    assert ProgramWording.text == Notices.TextSpelling;
  }

  /** Storing `doc` under `key` adds that key and changes no other. */
  function Attach(lead: Lead, key: string, doc: string): (r: Lead)
    ensures r.Keys == lead.Keys + {key}
    ensures Lookup(r, key) == Some(doc)
    ensures forall k :: k != key ==> Lookup(r, k) == Lookup(lead, k)
  {
    lead[key := doc]
  }

  /** `adfPayload(lead)`: adds the ADF document and nothing else. */
  function AttachAdf(w: Wording, lead: Lead, dealer: string): (r: Lead)
    ensures r.Keys == lead.Keys + {AdfPayloadKey}
    ensures Lookup(r, AdfPayloadKey) == Some(AdfOf(w, lead, dealer))
    ensures forall key :: key != AdfPayloadKey ==> Lookup(r, key) == Lookup(lead, key)
  {
    Attach(lead, AdfPayloadKey, AdfOf(w, lead, dealer))
  }

  /** `htmlPayload(lead)`: adds the HTML notice and nothing else. */
  function AttachHtml(w: Wording, lead: Lead, dealer: string): (r: Lead)
    ensures r.Keys == lead.Keys + {HtmlPayloadKey}
    ensures Lookup(r, HtmlPayloadKey) == Some(HtmlOf(w, lead, dealer))
    ensures forall key :: key != HtmlPayloadKey ==> Lookup(r, key) == Lookup(lead, key)
  {
    Attach(lead, HtmlPayloadKey, HtmlOf(w, lead, dealer))
  }

  /** `textPayload(lead)`: adds the plain-text notice and nothing else. */
  function AttachText(w: Wording, lead: Lead, dealer: string, eol: string): (r: Lead)
    ensures r.Keys == lead.Keys + {TextPayloadKey}
    ensures Lookup(r, TextPayloadKey) == Some(TextOf(w, lead, dealer, eol))
    ensures forall key :: key != TextPayloadKey ==> Lookup(r, key) == Lookup(lead, key)
  {
    Attach(lead, TextPayloadKey, TextOf(w, lead, dealer, eol))
  }

  /** Storing a payload on a lead leaves each of the three documents of that
      lead as it was: no document prints a payload key, so the order of the
      stages does not matter to what they produce. */
  lemma PayloadKeyNotPrinted(w: Wording, lead: Lead, key: string, doc: string, dealer: string, eol: string)
    requires key == AdfPayloadKey || key == HtmlPayloadKey || key == TextPayloadKey
    ensures AdfOf(w, Attach(lead, key, doc), dealer) == AdfOf(w, lead, dealer)
    ensures HtmlOf(w, Attach(lead, key, doc), dealer) == HtmlOf(w, lead, dealer)
    ensures TextOf(w, Attach(lead, key, doc), dealer, eol) == TextOf(w, lead, dealer, eol)
  {
    var a := Attach(lead, key, doc);
    assert AdfPayload.FieldsOf(a) == AdfPayload.FieldsOf(lead);
    Notices.NoticeReadsOnlyItsFields(a, lead, dealer);
  }

  /** The three stages in the order the run applies them. */
  function RenderLead(w: Wording, lead: Lead, dealer: string, eol: string): Lead {
    AttachText(w, AttachHtml(w, AttachAdf(w, lead, dealer), dealer), dealer, eol)
  }

  /** Rendering adds the three payload keys and changes no other field. */
  lemma RenderedKeys(w: Wording, lead: Lead, dealer: string, eol: string)
    ensures RenderLead(w, lead, dealer, eol).Keys == lead.Keys + {AdfPayloadKey, HtmlPayloadKey, TextPayloadKey}
    ensures forall key :: key != AdfPayloadKey && key != HtmlPayloadKey && key != TextPayloadKey ==>
      Lookup(RenderLead(w, lead, dealer, eol), key) == Lookup(lead, key)
  {
  }

  /** The ADF payload stored is the document of the lead handed to the stages. */
  lemma RenderedAdf(w: Wording, lead: Lead, dealer: string, eol: string)
    ensures Lookup(RenderLead(w, lead, dealer, eol), AdfPayloadKey) == Some(AdfOf(w, lead, dealer))
  {
    var a := AttachAdf(w, lead, dealer);
    var h := AttachHtml(w, a, dealer);
    assert Lookup(h, AdfPayloadKey) == Lookup(a, AdfPayloadKey);
  }

  /** The HTML notice stored is the one of the lead handed to the stages:
      the ADF payload added before it does not change it. */
  lemma RenderedHtml(w: Wording, lead: Lead, dealer: string, eol: string)
    ensures Lookup(RenderLead(w, lead, dealer, eol), HtmlPayloadKey) == Some(HtmlOf(w, lead, dealer))
  {
    var a := AttachAdf(w, lead, dealer);
    var h := AttachHtml(w, a, dealer);
    PayloadKeyNotPrinted(w, lead, AdfPayloadKey, AdfOf(w, lead, dealer), dealer, eol);
    assert Lookup(h, HtmlPayloadKey) == Some(HtmlOf(w, lead, dealer));
  }

  /** The text notice stored is the one of the lead handed to the stages:
      the payloads added before it do not change it. */
  lemma RenderedText(w: Wording, lead: Lead, dealer: string, eol: string)
    ensures Lookup(RenderLead(w, lead, dealer, eol), TextPayloadKey) == Some(TextOf(w, lead, dealer, eol))
  {
    var a := AttachAdf(w, lead, dealer);
    var h := AttachHtml(w, a, dealer);
    PayloadKeyNotPrinted(w, lead, AdfPayloadKey, AdfOf(w, lead, dealer), dealer, eol);
    PayloadKeyNotPrinted(w, a, HtmlPayloadKey, HtmlOf(w, a, dealer), dealer, eol);
  }
}
