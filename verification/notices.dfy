/** The two human-readable notices sent alongside the ADF document:
    `htmlPayload` (briarbush.js, lines 319-353) and `textPayload` (lines
    356-388). Both print a summary of the lead and then, for each comment
    field that is truthy, a titled section: the customer's comments first,
    then the vehicle comments. `CommentSections` is that shared list, and
    each renderer is proved to be its summary followed by its rendering of
    the list.

    As in the ADF module, each renderer takes its fixed wording as a record
    and the lead's printed fields as another, so that the proofs never look
    at the characters of the literal text.
 */
module Notices {
  import opened Results
  import opened Leads
  import opened JsStrings

  // ---------------------------------------------------------------------------
  // The comment sections both notices print

  datatype CommentKind = CustomerComments | VehicleComments

  datatype Section = Section(kind: CommentKind, text: string)

  /** The sections for a customer and a vehicle comment, each present only
      when there is a comment, the customer's first. */
  function SectionsOf(customer: Option<string>, vehicle: Option<string>): (r: seq<Section>)
    ensures |r| == (if customer.Some? then 1 else 0) + (if vehicle.Some? then 1 else 0)
    ensures customer.Some? ==> r[0] == Section(CustomerComments, customer.value)
    ensures vehicle.Some? ==> r[|r| - 1] == Section(VehicleComments, vehicle.value)
  {
    (if customer.Some? then [Section(CustomerComments, customer.value)] else [])
    + (if vehicle.Some? then [Section(VehicleComments, vehicle.value)] else [])
  }

  /** The comment sections of a lead: one per truthy comment field, as many
      as there are such fields, the customer's comments before the vehicle's. */
  function CommentSections(lead: Lead): (r: seq<Section>)
    ensures |r| == (if IsSet(lead, CustomerCommentKey) then 1 else 0) + (if IsSet(lead, VehicleCommentKey) then 1 else 0)
    ensures IsSet(lead, CustomerCommentKey) ==> r[0] == Section(CustomerComments, lead[CustomerCommentKey])
    ensures IsSet(lead, VehicleCommentKey) ==> r[|r| - 1] == Section(VehicleComments, lead[VehicleCommentKey])
  {
    SectionsOf(Comment(lead, CustomerCommentKey), Comment(lead, VehicleCommentKey))
  }

  /** What the notices print of the lead and the settings. */
  datatype NoticeFields = NoticeFields(
    dealer: string, fullName: string, email: string, make: string, model: string, year: string,
    customerComment: Option<string>, vehicleComment: Option<string>)

  function NoticeFieldsOf(lead: Lead, dealer: string): NoticeFields {
    NoticeFields(
      dealer, Text(lead, FullNameKey), Text(lead, EmailKey),
      Text(lead, VehicleMakeKey), Text(lead, VehicleModelKey), Text(lead, VehicleYearKey),
      Comment(lead, CustomerCommentKey), Comment(lead, VehicleCommentKey))
  }

  /** The notices read nothing of the lead but the seven fields they print. */
  lemma NoticeReadsOnlyItsFields(a: Lead, b: Lead, dealer: string)
    requires Lookup(a, FullNameKey) == Lookup(b, FullNameKey) && Lookup(a, EmailKey) == Lookup(b, EmailKey)
    requires Lookup(a, VehicleMakeKey) == Lookup(b, VehicleMakeKey)
    requires Lookup(a, VehicleModelKey) == Lookup(b, VehicleModelKey)
    requires Lookup(a, VehicleYearKey) == Lookup(b, VehicleYearKey)
    requires Lookup(a, CustomerCommentKey) == Lookup(b, CustomerCommentKey)
    requires Lookup(a, VehicleCommentKey) == Lookup(b, VehicleCommentKey)
    ensures NoticeFieldsOf(a, dealer) == NoticeFieldsOf(b, dealer)
    ensures CommentSections(a) == CommentSections(b)
  {
  }

  function Sections(f: NoticeFields): seq<Section> {
    SectionsOf(f.customerComment, f.vehicleComment)
  }

  // ---------------------------------------------------------------------------
  // htmlPayload

  /** The fixed pieces of the HTML notice, one field per literal. */
  datatype HtmlWords = HtmlWords(
    greetingOpen: string, greetingClose: string, paragraphOpen: string, addressOpen: string,
    submitted: string, paragraphClose: string, tableHead: string, rowOpen: string,
    cellOpen: string, cellClose: string, tableClose: string,
    customerHeading: string, vehicleHeading: string)

  /** The wording `htmlPayload` writes. */
  const HtmlSpelling := HtmlWords(
    greetingOpen := "<h1>Hello", greetingClose := ",</h1>",
    paragraphOpen := "<p>", addressOpen := " <",
    submitted := "> has submitted a request via Facebook and has been uploaded to your CRM.</p>",
    paragraphClose := "</p>",
    tableHead := "<table><thead><tr><th>Make</th><th>Model</th><th>Year</th></tr></thead>",
    rowOpen := "<tbody><tr>", cellOpen := "<td>", cellClose := "</td>", tableClose := "</tr></table>",
    customerHeading := "<h3>Customer Comments</h3>", vehicleHeading := "<h3>Vehicle Comments</h3>")

  /** The greeting, the submission sentence and the vehicle table. */
  function HtmlSummary(w: HtmlWords, f: NoticeFields): string {
    (w.greetingOpen + f.dealer + w.greetingClose)
    + (w.paragraphOpen + f.fullName + w.addressOpen + f.email + w.submitted)
    + w.tableHead
    + w.rowOpen
    + (w.cellOpen + f.make + w.cellClose)
    + (w.cellOpen + f.model + w.cellClose)
    + (w.cellOpen + f.year + w.cellClose)
    + w.tableClose
  }

  /** A heading and a paragraph holding the comment, when there is one. */
  function HtmlComment(w: HtmlWords, heading: string, comment: Option<string>): string {
    if comment.Some? then heading + (w.paragraphOpen + comment.value + w.paragraphClose) else ""
  }

  function HtmlRender(w: HtmlWords, f: NoticeFields): string {
    HtmlSummary(w, f)
    + HtmlComment(w, w.customerHeading, f.customerComment)
    + HtmlComment(w, w.vehicleHeading, f.vehicleComment)
  }

  /** The `htmlPayload` string. */
  function HtmlDocument(lead: Lead, dealer: string): string {
    HtmlRender(HtmlSpelling, NoticeFieldsOf(lead, dealer))
  }

  function HtmlHeading(w: HtmlWords, kind: CommentKind): string {
    match kind
    case CustomerComments => w.customerHeading
    case VehicleComments => w.vehicleHeading
  }

  function HtmlSection(w: HtmlWords, s: Section): string {
    HtmlHeading(w, s.kind) + (w.paragraphOpen + s.text + w.paragraphClose)
  }

  function HtmlSections(w: HtmlWords, ss: seq<Section>): string
    decreases |ss|
  {
    if ss == [] then "" else HtmlSection(w, ss[0]) + HtmlSections(w, ss[1..])
  }

  lemma HtmlSectionsOne(w: HtmlWords, s: Section)
    ensures HtmlSections(w, [s]) == HtmlSection(w, s)
  {
    assert [s][1..] == [];
  }

  lemma HtmlSectionsTwo(w: HtmlWords, s: Section, t: Section)
    ensures HtmlSections(w, [s, t]) == HtmlSection(w, s) + HtmlSection(w, t)
  {
    assert [s, t][1..] == [t];
    HtmlSectionsOne(w, t);
  }

  /** The two optional comment blocks are the sections of the two comments, in order. */
  lemma HtmlCommentsAsSections(w: HtmlWords, customer: Option<string>, vehicle: Option<string>)
    ensures HtmlComment(w, w.customerHeading, customer) + HtmlComment(w, w.vehicleHeading, vehicle)
         == HtmlSections(w, SectionsOf(customer, vehicle))
  {
    var ss := SectionsOf(customer, vehicle);
    match (customer, vehicle)
    case (Some(x), Some(y)) =>
      assert ss == [Section(CustomerComments, x), Section(VehicleComments, y)];
      HtmlSectionsTwo(w, ss[0], ss[1]);
    case (Some(x), None) =>
      assert ss == [Section(CustomerComments, x)];
      HtmlSectionsOne(w, ss[0]);
    case (None, Some(y)) =>
      assert ss == [Section(VehicleComments, y)];
      HtmlSectionsOne(w, ss[0]);
    case (None, None) =>
      assert ss == [];
  }

  /** The HTML notice is its summary followed by one section per comment
      section, in order. */
  lemma HtmlBySections(w: HtmlWords, f: NoticeFields)
    ensures HtmlRender(w, f) == HtmlSummary(w, f) + HtmlSections(w, Sections(f))
  {
    var summary := HtmlSummary(w, f);
    var c := HtmlComment(w, w.customerHeading, f.customerComment);
    var v := HtmlComment(w, w.vehicleHeading, f.vehicleComment);
    HtmlCommentsAsSections(w, f.customerComment, f.vehicleComment);
    assert summary + c + v == summary + (c + v);
  }

  lemma HtmlGreeting(w: HtmlWords, f: NoticeFields)
    ensures StartsWith(HtmlRender(w, f), w.greetingOpen + f.dealer + w.greetingClose)
  {
    var g := w.greetingOpen + f.dealer + w.greetingClose;
    var rest := (w.paragraphOpen + f.fullName + w.addressOpen + f.email + w.submitted)
      + w.tableHead + w.rowOpen
      + (w.cellOpen + f.make + w.cellClose)
      + (w.cellOpen + f.model + w.cellClose)
      + (w.cellOpen + f.year + w.cellClose)
      + w.tableClose
      + HtmlComment(w, w.customerHeading, f.customerComment)
      + HtmlComment(w, w.vehicleHeading, f.vehicleComment);
    assert HtmlRender(w, f) == g + rest;
    StartsWithAppend(g, rest);
  }

  lemma HtmlCells(w: HtmlWords, f: NoticeFields)
    ensures Contains(HtmlRender(w, f),
      (w.cellOpen + f.make + w.cellClose) + (w.cellOpen + f.model + w.cellClose) + (w.cellOpen + f.year + w.cellClose))
  {
    var cells := (w.cellOpen + f.make + w.cellClose) + (w.cellOpen + f.model + w.cellClose) + (w.cellOpen + f.year + w.cellClose);
    var before := (w.greetingOpen + f.dealer + w.greetingClose)
      + (w.paragraphOpen + f.fullName + w.addressOpen + f.email + w.submitted)
      + w.tableHead + w.rowOpen;
    var after := w.tableClose
      + HtmlComment(w, w.customerHeading, f.customerComment)
      + HtmlComment(w, w.vehicleHeading, f.vehicleComment);
    assert HtmlRender(w, f) == before + cells + after;
    ContainsMiddle(before, cells, after);
  }

  /** The `htmlPayload` string is the summary followed by the lead's comment
      sections, the customer's before the vehicle's. */
  lemma HtmlAsSections(lead: Lead, dealer: string)
    ensures HtmlDocument(lead, dealer) ==
      HtmlSummary(HtmlSpelling, NoticeFieldsOf(lead, dealer)) + HtmlSections(HtmlSpelling, CommentSections(lead))
  {
    HtmlBySections(HtmlSpelling, NoticeFieldsOf(lead, dealer));
  }

  /** The greeting has no space between `Hello` and the dealer's name. */
  lemma HtmlStartsWithGreeting(lead: Lead, dealer: string)
    ensures StartsWith(HtmlDocument(lead, dealer), "<h1>Hello" + dealer + ",</h1>")
  {
    HtmlGreeting(HtmlSpelling, NoticeFieldsOf(lead, dealer));
  }

  /** The table row lists make, model and year, in that order. */
  lemma HtmlVehicleRow(lead: Lead, dealer: string)
    ensures Contains(HtmlDocument(lead, dealer),
      ("<td>" + Text(lead, VehicleMakeKey) + "</td>")
      + ("<td>" + Text(lead, VehicleModelKey) + "</td>")
      + ("<td>" + Text(lead, VehicleYearKey) + "</td>"))
  {
    HtmlCells(HtmlSpelling, NoticeFieldsOf(lead, dealer));
  }

  // ---------------------------------------------------------------------------
  // textPayload

  /** The fixed wording of the plain-text notice. */
  datatype TextWords = TextWords(
    hello: string, greetingEnd: string, addressOpen: string, submitted: string,
    makeLabel: string, modelLabel: string, yearLabel: string,
    customerTitle: string, vehicleTitle: string)

  /** The wording `textPayload` writes; the long sentence is the program's
      single literal, written here in three parts. */
  const TextSpelling := TextWords(
    hello := "Hello ", greetingEnd := ",", addressOpen := " <",
    submitted := "> has submitted a request" + " via Facebook and has" + " been uploaded to your CRM.",
    makeLabel := "Make: ", modelLabel := "Model: ", yearLabel := "Year: ",
    customerTitle := "Customer Comments", vehicleTitle := "Vehicle Comments")

  /** A title line, the comment line and an empty line, when there is a comment. */
  function TextComment(title: string, comment: Option<string>, eol: string): string {
    if comment.Some? then (title + eol) + (comment.value + eol) + eol else ""
  }

  /** The notice as the program appends it, with `eol` for `OS.EOL`. */
  function TextRender(w: TextWords, f: NoticeFields, eol: string): string {
    (w.hello + f.dealer + w.greetingEnd + eol)
    + (f.fullName + w.addressOpen + f.email + w.submitted + eol)
    + (w.makeLabel + f.make + eol)
    + (w.modelLabel + f.model + eol)
    + (w.yearLabel + f.year + eol)
    + eol
    + TextComment(w.customerTitle, f.customerComment, eol)
    + TextComment(w.vehicleTitle, f.vehicleComment, eol)
  }

  /** The `textPayload` string. */
  function TextDocument(lead: Lead, dealer: string, eol: string): string {
    TextRender(TextSpelling, NoticeFieldsOf(lead, dealer), eol)
  }

  /** Each line followed by the line terminator. */
  function Terminated(lines: seq<string>, eol: string): string
    decreases |lines|
  {
    if lines == [] then "" else lines[0] + eol + Terminated(lines[1..], eol)
  }

  lemma {:induction false} TerminatedAppend(a: seq<string>, b: seq<string>, eol: string)
    ensures Terminated(a + b, eol) == Terminated(a, eol) + Terminated(b, eol)
    decreases |a|
  {
    if a == [] {
      assert a + b == b;
    } else {
      assert (a + b)[0] == a[0];
      assert (a + b)[1..] == a[1..] + b;
      TerminatedAppend(a[1..], b, eol);
    }
  }

  lemma TerminatedThree(x: string, y: string, z: string, eol: string)
    ensures Terminated([x, y, z], eol) == (x + eol) + (y + eol) + (z + eol)
  {
    assert [x, y, z][1..] == [y, z];
    assert [y, z][1..] == [z];
    assert [z][1..] == [];
    assert Terminated([z], eol) == z + eol + "";
    assert z + eol + "" == z + eol;
  }

  function TextTitle(w: TextWords, kind: CommentKind): string {
    match kind
    case CustomerComments => w.customerTitle
    case VehicleComments => w.vehicleTitle
  }

  /** Greeting, submission sentence, make, model, year, and an empty line. */
  function SummaryLines(w: TextWords, f: NoticeFields): seq<string> {
    [w.hello + f.dealer + w.greetingEnd,
     f.fullName + w.addressOpen + f.email + w.submitted,
     w.makeLabel + f.make,
     w.modelLabel + f.model,
     w.yearLabel + f.year,
     ""]
  }

  /** Three lines per section: its title, its text, and an empty line. */
  function SectionLines(w: TextWords, ss: seq<Section>): (r: seq<string>)
    ensures |r| == 3 * |ss|
    decreases |ss|
  {
    if ss == [] then [] else [TextTitle(w, ss[0].kind), ss[0].text, ""] + SectionLines(w, ss[1..])
  }

  function TextLines(w: TextWords, f: NoticeFields): seq<string> {
    SummaryLines(w, f) + SectionLines(w, Sections(f))
  }

  lemma SummaryTerminated(w: TextWords, f: NoticeFields, eol: string)
    ensures Terminated(SummaryLines(w, f), eol) ==
      (w.hello + f.dealer + w.greetingEnd + eol)
      + (f.fullName + w.addressOpen + f.email + w.submitted + eol)
      + (w.makeLabel + f.make + eol)
      + (w.modelLabel + f.model + eol)
      + (w.yearLabel + f.year + eol)
      + eol
  {
    var lines := SummaryLines(w, f);
    assert lines == lines[..3] + lines[3..];
    TerminatedAppend(lines[..3], lines[3..], eol);
    TerminatedThree(lines[0], lines[1], lines[2], eol);
    assert lines[..3] == [lines[0], lines[1], lines[2]];
    TerminatedThree(lines[3], lines[4], lines[5], eol);
    assert lines[3..] == [lines[3], lines[4], lines[5]];
    assert "" + eol == eol;
  }

  lemma SectionTerminated(w: TextWords, s: Section, eol: string)
    ensures Terminated(SectionLines(w, [s]), eol) == TextComment(TextTitle(w, s.kind), Some(s.text), eol)
  {
    assert [s][1..] == [];
    assert SectionLines(w, [s]) == [TextTitle(w, s.kind), s.text, ""] + [];
    assert [TextTitle(w, s.kind), s.text, ""] + [] == [TextTitle(w, s.kind), s.text, ""];
    TerminatedThree(TextTitle(w, s.kind), s.text, "", eol);
    assert "" + eol == eol;
  }

  lemma SectionLinesAppend(w: TextWords, a: seq<Section>, b: seq<Section>)
    ensures SectionLines(w, a + b) == SectionLines(w, a) + SectionLines(w, b)
    decreases |a|
  {
    if a == [] {
      assert a + b == b;
    } else {
      assert (a + b)[0] == a[0];
      assert (a + b)[1..] == a[1..] + b;
      SectionLinesAppend(w, a[1..], b);
    }
  }

  lemma CommentsTerminated(w: TextWords, f: NoticeFields, eol: string)
    ensures Terminated(SectionLines(w, Sections(f)), eol) ==
      TextComment(w.customerTitle, f.customerComment, eol) + TextComment(w.vehicleTitle, f.vehicleComment, eol)
  {
    var c := if f.customerComment.Some? then [Section(CustomerComments, f.customerComment.value)] else [];
    var v := if f.vehicleComment.Some? then [Section(VehicleComments, f.vehicleComment.value)] else [];
    assert Sections(f) == c + v;
    SectionLinesAppend(w, c, v);
    TerminatedAppend(SectionLines(w, c), SectionLines(w, v), eol);
    if f.customerComment.Some? {
      SectionTerminated(w, c[0], eol);
    }
    if f.vehicleComment.Some? {
      SectionTerminated(w, v[0], eol);
    }
  }

  /** The plain-text notice is a list of lines, each followed by `eol`: six
      summary lines and three per comment section. */
  lemma TextByLines(w: TextWords, f: NoticeFields, eol: string)
    ensures TextRender(w, f, eol) == Terminated(TextLines(w, f), eol)
    ensures |TextLines(w, f)| == 6 + 3 * |Sections(f)|
  {
    SummaryTerminated(w, f, eol);
    CommentsTerminated(w, f, eol);
    TerminatedAppend(SummaryLines(w, f), SectionLines(w, Sections(f)), eol);
    var s := Terminated(SummaryLines(w, f), eol);
    var c := TextComment(w.customerTitle, f.customerComment, eol);
    var v := TextComment(w.vehicleTitle, f.vehicleComment, eol);
    assert s + c + v == s + (c + v);
  }

  /** With a terminator holding exactly one newline and lines holding none,
      the terminated text has exactly one newline per line. */
  lemma {:induction false} NewlineCount(lines: seq<string>, eol: string)
    requires forall i :: 0 <= i < |lines| ==> '\n' !in lines[i]
    requires CountChar(eol, '\n') == 1
    ensures CountChar(Terminated(lines, eol), '\n') == |lines|
    decreases |lines|
  {
    if lines != [] {
      NewlineCount(lines[1..], eol);
      CountAbsent(lines[0], '\n');
      CountAppend(lines[0], eol, '\n');
      CountAppend(lines[0] + eol, Terminated(lines[1..], eol), '\n');
    }
  }

  lemma SubmittedHasNoNewline()
    ensures '\n' !in TextSpelling.submitted
  {
    var a, b, c := "> has submitted a request", " via Facebook and has", " been uploaded to your CRM.";
    assert '\n' !in a;
    assert '\n' !in b;
    assert '\n' !in c;
    assert TextSpelling.submitted == a + b + c;
  }

  lemma LabelsHaveNoNewline()
    ensures '\n' !in TextSpelling.hello && '\n' !in TextSpelling.greetingEnd && '\n' !in TextSpelling.addressOpen
    ensures '\n' !in TextSpelling.makeLabel && '\n' !in TextSpelling.modelLabel && '\n' !in TextSpelling.yearLabel
  {
  }

  lemma TitlesHaveNoNewline()
    ensures '\n' !in TextSpelling.customerTitle && '\n' !in TextSpelling.vehicleTitle
  {
  }

  lemma TextWordsHaveNoNewline()
    ensures '\n' !in TextSpelling.hello && '\n' !in TextSpelling.greetingEnd && '\n' !in TextSpelling.addressOpen
    ensures '\n' !in TextSpelling.makeLabel && '\n' !in TextSpelling.modelLabel && '\n' !in TextSpelling.yearLabel
    ensures '\n' !in TextSpelling.customerTitle && '\n' !in TextSpelling.vehicleTitle
    ensures '\n' !in TextSpelling.submitted
  {
    SubmittedHasNoNewline();
    LabelsHaveNoNewline();
    TitlesHaveNoNewline();
  }

  /** The terminators `OS.EOL` can be, each holding exactly one newline. */
  predicate IsLineEnd(eol: string) {
    eol == "\n" || eol == "\r\n"
  }

  lemma LineEndHasOneNewline(eol: string)
    requires IsLineEnd(eol)
    ensures CountChar(eol, '\n') == 1
  {
    if eol == "\r\n" {
      assert eol[1..] == "\n";
    }
  }

  /** The `textPayload` string is the lead's notice lines, each followed by
      `OS.EOL`: six summary lines, then three per comment section, the
      customer's before the vehicle's. */
  lemma TextAsLines(lead: Lead, dealer: string, eol: string)
    ensures TextDocument(lead, dealer, eol) == Terminated(TextLines(TextSpelling, NoticeFieldsOf(lead, dealer)), eol)
    ensures TextLines(TextSpelling, NoticeFieldsOf(lead, dealer)) ==
      SummaryLines(TextSpelling, NoticeFieldsOf(lead, dealer)) + SectionLines(TextSpelling, CommentSections(lead))
    ensures |TextLines(TextSpelling, NoticeFieldsOf(lead, dealer))| == 6 + 3 * |CommentSections(lead)|
  {
    TextByLines(TextSpelling, NoticeFieldsOf(lead, dealer), eol);
  }

  lemma CommentsHaveNoNewline(lead: Lead, key: string)
    requires '\n' !in Text(lead, key)
    ensures Comment(lead, key).Some? ==> '\n' !in Comment(lead, key).value
  {
  }

  lemma {:induction false} SectionLinesHaveNoNewline(w: TextWords, ss: seq<Section>)
    requires '\n' !in w.customerTitle && '\n' !in w.vehicleTitle
    requires forall k :: 0 <= k < |ss| ==> '\n' !in ss[k].text
    ensures forall i :: 0 <= i < |SectionLines(w, ss)| ==> '\n' !in SectionLines(w, ss)[i]
    decreases |ss|
  {
    if ss != [] {
      SectionLinesHaveNoNewline(w, ss[1..]);
      var head := [TextTitle(w, ss[0].kind), ss[0].text, ""];
      var r := SectionLines(w, ss);
      forall i | 0 <= i < |r| ensures '\n' !in r[i] {
        if i >= 3 {
          assert r[i] == SectionLines(w, ss[1..])[i - 3];
        }
      }
    }
  }

  /** When no printed field contains a newline, the notice holds exactly
      `6 + 3k` line terminators, `k` being the number of truthy comment
      fields. */
  lemma TextEolCount(lead: Lead, dealer: string, eol: string)
    requires IsLineEnd(eol)
    requires '\n' !in dealer && '\n' !in Text(lead, FullNameKey) && '\n' !in Text(lead, EmailKey)
    requires '\n' !in Text(lead, VehicleMakeKey) && '\n' !in Text(lead, VehicleModelKey) && '\n' !in Text(lead, VehicleYearKey)
    requires '\n' !in Text(lead, CustomerCommentKey) && '\n' !in Text(lead, VehicleCommentKey)
    ensures CountChar(TextDocument(lead, dealer, eol), '\n') == 6 + 3 * |CommentSections(lead)|
  {
    var w, f := TextSpelling, NoticeFieldsOf(lead, dealer);
    var lines := TextLines(w, f);
    TextByLines(w, f, eol);
    TextWordsHaveNoNewline();
    LineEndHasOneNewline(eol);
    var summary, sections := SummaryLines(w, f), SectionLines(w, Sections(f));
    CommentsHaveNoNewline(lead, CustomerCommentKey);
    CommentsHaveNoNewline(lead, VehicleCommentKey);
    SectionLinesHaveNoNewline(w, Sections(f));
    forall i | 0 <= i < |lines| ensures '\n' !in lines[i] {
      if i < 6 {
        assert lines[i] == summary[i];
      } else {
        assert lines[i] == sections[i - 6];
      }
    }
    NewlineCount(lines, eol);
  }
}
