# Briarbush lead pipeline, modelled in Dafny

Briarbush is a Node.js job. It fetches the leads that Facebook lead ads
collected and turns each lead into an ADF ("Auto-lead Data Format") XML
document. It also writes two human-readable notices, one HTML and one plain
text, and mails all three to a car dealer's CRM address. This project models
the pure part of that job as Dafny datatypes and functions, and proves what
the job does to a lead:

- how the command-line settings are parsed, stored and checked
  (`Settings`);
- how decoded API responses are checked for errors and concatenated into
  one list of entries (`Upstream`);
- how an entry becomes a flat lead object, and how the vehicle year, make
  and model come out of its free-text `vehicle_info` (`Leads`);
- the ADF document (`AdfPayload`), the HTML and text notices (`Notices`),
  and the three rendering stages that store them on the lead (`Payloads`);
- the options object handed to the MIME composer (`Mail`);
- the whole chain of pure stages in `app.run`, with its failure behaviour
  (`Pipeline`);
- the earlier prototype, `index.js`, whose ADF document differs from the
  later one (`Prototype`).

`Results` holds the `Option`/`Result` types and `MapAll`, which models a
Bluebird `.map` stage: when elements fail, the failure reported is the one of
the first failing element by position, whichever of them the library settles
first. `JsStrings` models the JavaScript string operations
the program relies on:

- `split` with and without a limit;
- `indexOf`;
- `replace(/\s/g, '')`.

A lead is a `map<string, string>`. A key that is absent stands for
`undefined`. When a value is concatenated into a document, `Leads.Text`
gives it as it prints, so an absent key prints as `undefined`.

The renderers take their fixed wording as a record: `AdfMarkup`, `HtmlWords`
and `TextWords`, bundled as `Payloads.Wording`. The lemmas about structure
are proved for any wording. Each document's lemmas are then stated for the
program's own literal text (`AdfPayload.Markup`, `Notices.HtmlSpelling`,
`Notices.TextSpelling`, `Prototype.Markup`).

The model follows the code as written, including three quirks (a fourth,
the rounding of large ad ids, is listed under "Findings"):

- `formatVehicleInfo` uses `indexOf(',')` as a truth value, so
  `"2024 Ford F150"` is split on a comma and becomes the year
  `2024FordF150`.
- The HTML greeting has no space after `Hello`.
- The prototype's `<model>` element repeats the year.

## Model

| member | source | states |
|---|---|---|
| Results.MapAll | briarbush.js:488-497 | A `.map` stage over resolved values succeeds exactly when every element succeeds, then gives each element's value in order; otherwise it fails with the error of the first failing element |
| JsStrings.Split | briarbush.js:39 | `split(',')` gives one more piece than there are separators, and no piece contains the separator |
| JsStrings.JoinSplit | briarbush.js:39 | Joining the pieces of a split with the separator gives back the original string |
| JsStrings.SplitJoin | briarbush.js:39 | Splitting a join of separator-free pieces (at least one) gives back the pieces |
| JsStrings.SplitLimit | briarbush.js:250 | `split(sep, 3)` is the first pieces of the full split, at most three, and all of them when there are fewer |
| JsStrings.IndexOf | briarbush.js:249 | `indexOf` is -1 exactly when the character is absent; otherwise the character sits at that index and nowhere before it |
| JsStrings.StripWhitespace | briarbush.js:252-254 | `replace(/\s/g,'')` leaves no whitespace and never lengthens the string |
| JsStrings.StripAppend | briarbush.js:252-254 | Stripping whitespace distributes over concatenation |
| JsStrings.StripChar | briarbush.js:252-254 | One character is dropped when it is whitespace and kept otherwise; with `StripAppend` this fixes the result on every string |
| JsStrings.StripKeeps | briarbush.js:252-254 | A character occurs in the stripped string exactly when it occurs in the input and is not whitespace |
| JsStrings.StripIdentity | briarbush.js:252-254 | Stripping leaves a string unchanged exactly when it has no whitespace |
| Settings.Set | briarbush.js:135-145 | After `set(key, value)`, `key` reads as `value`, every other key reads as before, and only `key` is added |
| Settings.EnabledAfterSet | briarbush.js:155-158 | `enabled(key)` after setting `key` is the truthiness of the value; other keys' `enabled` is unchanged |
| Settings.ConfigCheck | briarbush.js:108-132 | Checks the ad list, then `email.to`, then the dealer. Each outcome holds exactly when its check is the first to fail; the check passes exactly when all three are truthy. Reading `.to` of an undefined or null `email` throws |
| Settings.ConfigCheckIgnoresOtherSettings | briarbush.js:108-132 | Setting any key other than `adList`, `email` and `dealer` does not change the check's outcome |
| Settings.MissingItemExitsCleanly | briarbush.js:113-129 | When `email` is an object, every failed check exits with status 0 |
| Settings.ParseEmailList | briarbush.js:38-40 | The `--email-to` value splits into one address more than it has commas; joining them with commas gives the value back |
| Settings.EmailListRoundTrip | briarbush.js:38-40 | Comma-free addresses joined with commas parse back to the same addresses |
| Settings.Ulp | briarbush.js:34 | The gap between doubles around a number is a power of two: 1 below 2^53, and otherwise one that puts the number between 2^52 and 2^53 gaps, a 53-bit significand |
| Settings.UlpUnique | briarbush.js:34 | Above 2^53 exactly one power of two puts the number between 2^52 and 2^53 gaps, so `Ulp`'s conditions determine the gap |
| Settings.RoundToDouble | briarbush.js:34 | `Number` rounds a numeral's value to a multiple of that gap, at most half a gap away, to the even multiple on a tie, and leaves values up to 2^53 exact |
| Settings.NearestMultiple | briarbush.js:34 | Rounding down or up by the remainder gives the nearest multiple, the even one on a tie, and the number itself when it is a multiple |
| Settings.ToNumber | briarbush.js:34 | A piece is text exactly when it is not all digits. Otherwise it is the rounded value, or `Infinity` when that reaches 2^1024, and exactly the numeral's value up to 2^53 |
| Settings.ParseAdsList | briarbush.js:33-35 | The `--ads` value gives one id per comma-separated piece, in order, each converted by `ToNumber` |
| Settings.AdsArgumentIsDecimal | briarbush.js:33-35 | An argument of digits and commas gives only numbers, never unconverted text |
| Settings.AdsArgument | briarbush.js:33-35 | Ids written in decimal and joined with commas form an argument of that shape, which splits back into the numerals |
| Settings.AdsListRoundTrip | briarbush.js:33-35 | Ids up to 2^53 written in decimal and joined with commas parse back to the same ids |
| Settings.LargeIdIsRounded | briarbush.js:33-35 | The id 2^53 + 1 parses as 2^53 |
| Settings.ExactNumber | briarbush.js:33-35 | The exact reading: text exactly when a piece is not all digits, and different from `Number` only on numerals above 2^53 |
| Settings.ParseAdIdsExact | briarbush.js:33-35 | One exactly-read id per comma-separated piece, in order |
| Settings.ExactAdsListRoundTrip | briarbush.js:33-35 | Under the exact reading every list of ids written in decimal parses back to the same ids |
| Settings.ReadingsAgreeUpToTwoTo53 | briarbush.js:33-35 | The two readings agree on every argument whose numerals are at most 2^53 |
| Settings.DecimalRoundTrip | briarbush.js:34 | Reading back the decimal numeral of a number gives that number |
| Upstream.ParseBody | briarbush.js:191-218 | A decoded body fails with its error's message exactly when it carries an `error` object; any other body is returned unchanged |
| Upstream.ConcatAdData | briarbush.js:221-224 | `concatAdData` keeps the accumulated items and appends the body's entries in order, or one `undefined` when the body has no `data` |
| Upstream.FoldKeepsAccumulator | briarbush.js:489 | The `reduce` fold only ever appends: folding from any accumulator gives that accumulator followed by the aggregate |
| Upstream.AggregateFirst | briarbush.js:487-489 | The first response's items come first in the aggregate |
| Upstream.AggregateLast | briarbush.js:487-489 | The aggregate is the last `concatAdData` step applied to the aggregate of all earlier responses |
| Upstream.AggregateLength | briarbush.js:487-489 | The aggregate holds as many items as the responses contribute together |
| Upstream.FoldAppend | briarbush.js:489 | Folding over two lists of responses in turn is folding over their concatenation |
| Upstream.AggregateAppend | briarbush.js:487-489 | The aggregate of two lists of responses is the first list's items followed by the second's: request order is kept |
| Upstream.AggregateOne | briarbush.js:221-224 | One response contributes exactly its own items |
| Upstream.AggregateTwo | briarbush.js:487-489 | Two responses give the first's items, then the second's |
| Upstream.AggregateOfData | briarbush.js:487-489 | When every response has a `data` list, the aggregate holds only entries |
| Upstream.AggregateOfMissingData | briarbush.js:221-224 | A response without `data` puts an `undefined` into the aggregate |
| Leads.LastNamed | briarbush.js:232-236 | Finds the last attribute with a given name, or none; no later attribute has that name |
| Leads.StepLookup | briarbush.js:233-235 | One iteration of the `forEach` sets the attribute's own value under its name, sets `id` and `requestdate` from the entry, and leaves the rest |
| Leads.FlattenAttrsLookup | briarbush.js:232-236 | After the loop, each ordinary key holds the first value of the last attribute of that name; `id` and `requestdate` hold the last attribute's value when it is named so, and otherwise the entry's own |
| Leads.FlattenLead | briarbush.js:227-243 | An `undefined` item, an entry without `field_data` and an attribute without `values` fail. Any other entry succeeds, with every key read as `FlattenAttrsLookup` states |
| Leads.LaterAttributeWins | briarbush.js:235 | A later attribute with the same name overwrites an earlier one |
| Leads.IdFromEntry | briarbush.js:233-234 | When the last attribute is not named `id` or `requestdate`, the lead has the entry's own id and creation time, absent when the entry lacks them |
| Leads.EmptyFieldData | briarbush.js:232-236 | An empty `field_data` list gives an empty lead, without even `id` |
| Leads.Separator | briarbush.js:249 | The separator is a space exactly when `vehicle_info` starts with a comma, and a comma otherwise, even when there is no comma at all |
| Leads.VehiclePieces | briarbush.js:250 | `vehicle_info` is split into at most three pieces |
| Leads.Field | briarbush.js:252-254 | A field is `Unknown` when its piece is missing or empty; otherwise it is the piece with all whitespace removed, possibly `""` |
| Leads.FormatVehicleInfo | briarbush.js:246-257 | Fails exactly when `vehicle_info` is missing. Otherwise it sets the three vehicle fields from `ParseVehicle`, adds only those keys and changes no other key |
| Leads.EmptyVehicle | briarbush.js:249-254 | An empty `vehicle_info` gives `Unknown` three times |
| Leads.VehicleWithoutComma | briarbush.js:249-254 | Text without a comma becomes the year, with its whitespace removed; make and model are `Unknown` |
| Leads.SplitThree | briarbush.js:250 | `year,make,model` followed by nothing or by further comma-separated text splits into exactly those three pieces |
| Leads.VehicleRoundTrip | briarbush.js:249-254 | Non-empty, comma-free, whitespace-free year, make and model joined by commas come back as they were, and anything after a third comma is dropped |
| Leads.CommaSeparatedExample | briarbush.js:249-254 | `2023,Toyota,Camry` gives 2023, Toyota, Camry |
| Leads.SpaceSeparatedExample | briarbush.js:249-254 | `2024 Ford F150` gives the year `2024FordF150`, with make and model `Unknown` |
| Leads.StripSpacedWords | briarbush.js:252 | Whitespace-free words separated by single spaces run together when stripped |
| AdfPayload.Sections | briarbush.js:272-302 | The vehicle, customer and vendor elements each occur in the document |
| AdfPayload.Frame | briarbush.js:266-309 | For any markup, the document starts with the processing instructions and `<adf>`, and ends with `</adf>` |
| AdfPayload.IdAndRequestDate | briarbush.js:270-271 | For any markup, the id element occurs directly followed by the request date element |
| AdfPayload.HasVehicleFields | briarbush.js:273-275 | For any markup, the year, make and model elements occur together, in that order |
| AdfPayload.VehicleComment | briarbush.js:275-283 | For any markup, the vehicle comment block sits between `</model>` and `</vehicle>` |
| AdfPayload.PhoneElement | briarbush.js:287 | For any markup, the fixed phone element occurs in the document |
| AdfPayload.CustomerComment | briarbush.js:289-297 | For any markup, the customer comment block sits between `</contact>` and `</customer>` |
| AdfPayload.VendorName | briarbush.js:298-300 | For any markup, the vendor's name element holds the dealer |
| AdfPayload.AdfFrame | briarbush.js:266-309 | The document starts `<?ADF version "1.0"?><?XML version "1.0"?><adf>` and ends `</adf>` |
| AdfPayload.AdfIdAndRequestDate | briarbush.js:270-271 | `<id source="facebook">` holds the lead's id and is directly followed by `<requestdate>` holding its request date, both as they print |
| AdfPayload.AdfHasVehicleFields | briarbush.js:273-275 | `<year>`, `<make>` and `<model>` appear contiguously, holding the lead's derived fields as they print |
| AdfPayload.AdfVehicleComment | briarbush.js:275-283 | A truthy `vehicle_comment` puts its `<comments>` element between `</model>` and `</vehicle>`; otherwise `</model>` is directly followed by `</vehicle>` |
| AdfPayload.AdfPhoneNotProvided | briarbush.js:287 | The document contains `<phone>Not Provided</phone>` |
| AdfPayload.AdfCustomerComment | briarbush.js:289-297 | A truthy `customer_comment` puts its `<comments>` element between `</contact>` and `</customer>`; otherwise `</contact>` is directly followed by `</customer>` |
| AdfPayload.AdfVendorIsDealer | briarbush.js:298-300 | The vendor's `<name part="full">` holds the dealer setting verbatim |
| AdfPayload.AdfReadsOnlyItsFields | briarbush.js:266-309 | Two leads that agree on the nine printed fields give the same document |
| Notices.SectionsOf | briarbush.js:334-346 | There is one section per present comment; the customer's comes first and the vehicle's last |
| Notices.CommentSections | briarbush.js:369-383 | A lead has one section per truthy comment field, the customer's before the vehicle's |
| Notices.NoticeReadsOnlyItsFields | briarbush.js:325-383 | Two leads that agree on the seven printed fields give the same notice fields and sections |
| Notices.HtmlCommentsAsSections | briarbush.js:334-346 | The two optional comment blocks are the HTML sections of the comments, in order |
| Notices.HtmlBySections | briarbush.js:325-346 | For any wording, the HTML notice is its summary followed by one section per comment section |
| Notices.HtmlGreeting | briarbush.js:325 | For any wording, the notice starts with the greeting around the dealer's name |
| Notices.HtmlCells | briarbush.js:329-331 | For any wording, the make, model and year cells occur together, in that order |
| Notices.HtmlAsSections | briarbush.js:325-346 | The `htmlPayload` string is its summary followed by the lead's comment sections, customer first |
| Notices.HtmlStartsWithGreeting | briarbush.js:325 | The HTML starts `<h1>Hello` + dealer + `,</h1>`, with no space after `Hello` |
| Notices.HtmlVehicleRow | briarbush.js:329-331 | The table row holds make, model and year cells, contiguously and in that order |
| Notices.SectionLines | briarbush.js:371-381 | Each comment section gives three lines |
| Notices.SectionLinesAppend | briarbush.js:369-383 | The lines of consecutive sections are the lines of each, in order |
| Notices.TextByLines | briarbush.js:362-383 | For any wording, the text notice is a list of lines, each followed by the line ending: six summary lines, then three per comment section |
| Notices.NewlineCount | briarbush.js:362-383 | Newline-free lines, each followed by a line ending with one newline, hold one newline per line |
| Notices.TextWordsHaveNoNewline | briarbush.js:362-379 | None of the text notice's fixed words contains a newline |
| Notices.LineEndHasOneNewline | briarbush.js:362 | Both line endings `OS.EOL` each hold exactly one newline |
| Notices.TextAsLines | briarbush.js:362-383 | The `textPayload` string is the lead's lines, each followed by the line ending; there are six plus three per comment section |
| Notices.SectionLinesHaveNoNewline | briarbush.js:369-383 | With newline-free titles and comments, no section line contains a newline |
| Notices.TextEolCount | briarbush.js:362-383 | When no printed value contains a newline, the text notice holds exactly 6 + 3 × (number of comment sections) line endings |
| Payloads.ProgramAdf | briarbush.js:266-309 | The ADF document rendered with the program's wording is `AdfPayload.AdfDocument` |
| Payloads.ProgramHtml | briarbush.js:325-346 | The HTML notice rendered with the program's wording is `Notices.HtmlDocument` |
| Payloads.ProgramText | briarbush.js:362-383 | The text notice rendered with the program's wording is `Notices.TextDocument` |
| Payloads.Attach | briarbush.js:311 | Storing a document adds its key, makes that key read as the document, and changes no other key |
| Payloads.AttachAdf | briarbush.js:260-316 | `adfPayload` adds only `adfPayload`, holding the ADF document of the lead it was given |
| Payloads.AttachHtml | briarbush.js:319-353 | `htmlPayload` adds only `htmlPayload`, holding the HTML notice of the lead it was given |
| Payloads.AttachText | briarbush.js:356-388 | `textPayload` adds only `textPayload`, holding the text notice of the lead it was given |
| Payloads.PayloadKeyNotPrinted | briarbush.js:260-388 | Storing any payload on a lead leaves its ADF document, HTML notice and text notice as they were |
| Payloads.RenderedKeys | briarbush.js:493-495 | The three stages add the three payload keys and change no other field |
| Payloads.RenderedAdf | briarbush.js:493-495 | After the three stages, `adfPayload` holds the ADF document of the lead that entered them |
| Payloads.RenderedHtml | briarbush.js:493-495 | After the three stages, `htmlPayload` holds the HTML notice of the lead that entered them; the ADF payload added first does not change it |
| Payloads.RenderedText | briarbush.js:493-495 | After the three stages, `textPayload` holds the text notice of the lead that entered them |
| Mail.EmailOf | briarbush.js:394-421 | The `email` setting can be read exactly when its `to` can, and then gives its four properties |
| Mail.EmailRoundTrip | briarbush.js:66-71 | The object `app.init` stores under `email` reads back as the four values it was built from |
| Mail.CheckedSettingHasRecipient | briarbush.js:108-132 | After a passed configuration check the `email` setting can be read and the message goes to a truthy `to` |
| Mail.BuildOptions | briarbush.js:397-421 | Fixed `from` and `subject`, `to` from the setting, `text` and `html` from the lead's payloads, one `application/xml` alternative carrying `adfPayload`. `cc`, `bcc` and `Reply-To` are each present exactly when their setting is truthy, and then carry it |
| Mail.BaseIgnoresCopies | briarbush.js:397-421 | Two settings with the same `to` give the same options apart from the three optional headers |
| Mail.OptionsOfRenderedLead | briarbush.js:397-409 | For a rendered lead, the message's text, HTML and alternative are exactly the documents of the lead that entered the rendering stages |
| Pipeline.DeliverableFlattens | briarbush.js:491-492 | An item passes flattening and vehicle derivation exactly when it is an entry whose `field_data` attributes all carry `values`, with a valued `vehicle_info` among them |
| Pipeline.DecodeAll | briarbush.js:488 | Decoding succeeds exactly when no body carries an error, and then hands on every body unchanged; otherwise it fails with the first erroring body's message |
| Pipeline.PreparedEach | briarbush.js:491-492 | When both stages succeed, each lead is the one its item gives on its own |
| Pipeline.PrepareAll | briarbush.js:491-492 | Succeeds exactly when every item is deliverable, giving each item's prepared lead in order. A flattening failure anywhere is reported before any missing `vehicle_info`, and it is the first by position |
| Pipeline.Run | briarbush.js:480-503 | The first upstream error stops the run. The run succeeds exactly when no body has an error and every aggregated item is deliverable, and then gives one rendered lead per aggregated item, in order. Otherwise the failure is that of `PrepareAll`: the first flattening failure by position, else a missing `vehicle_info` |
| Prototype.PrototypeFrame | index.js:77-100 | For any markup, the document starts with the prolog, `<adf>` and `<prospect>`, and ends by closing vendor, prospect and `<adf>` |
| Prototype.VehicleInDocument | index.js:82-86 | For any markup, the `<vehicle>` element occurs in the document |
| Prototype.CustomerInDocument | index.js:87-93 | For any markup, the `<customer>` element occurs in the document |
| Prototype.VendorInDocument | index.js:94-98 | For any markup, the vendor's name element occurs in the document |
| Prototype.ModelRepeatsYear | index.js:83-85 | For any markup, both the `<year>` and the `<model>` element hold the year |
| Prototype.PhoneInDocument | index.js:90 | For any markup, the phone element holds the phone field |
| Prototype.PrototypeEnds | index.js:77-100 | The document starts `<?ADF version "1.0"?><?XML version "1.0"?><adf><prospect>` and ends `</vendor></prospect></adf>`: the vendor is the last element, with no `<provider>` after it |
| Prototype.PrototypeModelIsYear | index.js:83-85 | `<model>` holds `lead.year`, as `<year>` does |
| Prototype.PrototypePhone | index.js:90 | The phone element holds `lead.phone_number` |
| Prototype.PrototypeVendorIsFixed | index.js:94-98 | The vendor is always `Whitten Brothers CDJR`, whatever the lead |
| Prototype.PrototypeReadsOnlyItsFields | index.js:76-103 | Two leads that agree on the six raw fields printed give the same document; `id` and the derived vehicle fields are never read |
| Prototype.PrototypeRun | index.js:128-132 | Succeeds exactly when every aggregated item is an entry with `field_data` whose attributes all carry `values`. It then gives one document per item, in order, as many as the responses contribute. Otherwise it fails with the flattening error of the first item, by position, that cannot be flattened |
| Prototype.PrototypeHidesApiErrors | index.js:37-48 | With no error check, a response carrying an API error and no `data` makes the run fail at flattening, not with the API's message |

## Left out

- Logging (`logger.js` and every `log.*` call): output only; it changes no value.
- `requestLeads` in both files: HTTP requests, with a time window taken
  from the wall clock. The model starts from the decoded response bodies,
  in the order of the ad list.
- `JSON.parse` of each response: bodies enter the model already decoded,
  as `Upstream.Body`. A body that is not valid JSON is not modelled.
- `app.init`: `commander` option parsing and the cron-derived interval,
  which is a floating-point number of hours. The settings enter the model
  as a `Settings.Store` and an `EmailSetting` record.
- `Number()` in `parseAdsList` beyond decimal numerals: a piece that is
  not all digits is kept as its text (`NotDecimal`), not converted to its
  floating-point value (NaN, hexadecimal, exponent, sign, surrounding
  spaces).
- Settings.ToNumber: numerals of more than 20 significant digits are rounded
  correctly. ECMA-262 lets an implementation round those from their first
  20 digits instead, so another engine may give a neighbouring double.
- The MIME composer, the envelope `buildMessage` returns after it, `sendLead`
  and Mailgun's `sendMime` (whose callback ignores errors), and the
  prototype's Nodemailer `sendLead` with its fixed addresses: third-party
  I/O. The model stops at the options object.
- `process.exit`, the `catch`/`finally` ordering, the `done` and
  `leadCount` logging, and the cron scheduling of `run`. `Pipeline.Run`
  returns the failure that would reach `catch`. `Settings.ExitStatus`
  gives the status `configCheck` exits with.
- Bluebird's concurrency: every stage is modelled as finishing for all
  elements before the next stage starts, so the reported failure is the
  first by position in the earliest failing stage.
- `OS.EOL` is a parameter (`eol`). `Notices.IsLineEnd` names the two values
  it takes, `"\n"` and `"\r\n"`.
- The `dealer` setting enters the renderers as a string. A dealer that is
  not a string, or is undefined, is not modelled; `configCheck` rejects a
  falsy one before any lead is rendered.
- `Leads.Step`: an attribute whose `values` list is empty assigns `undefined`.
  The model removes the key instead. Reading, printing and truthiness are
  the same either way; only a key enumeration would differ.
- Upstream.Attribute: a missing `values` list is modelled (it throws); a
  missing `name`, which would store the value under the key `"undefined"`,
  and values that are not strings or lists are not.
- Prototype.PrototypeEnds: the absence of `<provider>` is shown by the
  vendor's closing tag ending the document. A field value could itself
  contain the text `<provider>`, so the document as a whole is not said to
  lack it.
- `Prototype.PrototypeParseBody`: the prototype's `parseBody` is
  `JSON.parse` alone, so over decoded bodies it is the identity.
- `Upstream.Body`: only the `error` and `data` members of a response are
  modelled. Paging links are never read.

## Findings

| source | as written | input that shows it | evidently intended | confidence | as-written member | corrected member |
|---|---|---|---|---|---|---|
| briarbush.js:33-35 | `parseAdsList` converts each ad id with `Number`, which rounds a numeral above 2^53 to the nearest double; the id then reaches the request path of `requestLeads` (briarbush.js:176) as a different number | `--ads 9007199254740993` gives the id 9007199254740992. Ad ids of 16 or more digits can be this large | Each id keeps the value it was written with | high; not executed | Settings.LargeIdIsRounded | Settings.ExactAdsListRoundTrip |

`Settings.ParseAdsList` keeps the code's behaviour. `Settings.ParseAdIdsExact`
reads each id exactly; `ReadingsAgreeUpToTwoTo53` shows the two differ only
above 2^53. No other part of the model reads the ad ids.
