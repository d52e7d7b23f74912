/** Lead normalization: `flattenLead` turns one API entry into a flat lead
    object, and `formatVehicleInfo` derives the vehicle year, make and model
    from the free-text `vehicle_info` attribute (briarbush.js, lines 227-257;
    index.js, lines 57-73 holds the same flattening as `leadsToObj`).
 */
module Leads {
  import opened Results
  import opened Upstream
  import JsStrings

  /** A lead object. A key that is absent is `undefined` in the source. */
  type Lead = map<string, string>

  const IdKey := "id"
  const RequestDateKey := "requestdate"
  const VehicleInfoKey := "vehicle_info"
  const VehicleYearKey := "vehicle_year"
  const VehicleMakeKey := "vehicle_make"
  const VehicleModelKey := "vehicle_model"
  const Unknown := "Unknown"
  const FullNameKey := "full_name"
  const EmailKey := "email"
  const VehicleCommentKey := "vehicle_comment"
  const CustomerCommentKey := "customer_comment"

  /** `lead[key]`, with `None` for `undefined`. */
  function Lookup(lead: Lead, key: string): Option<string> {
    if key in lead then Some(lead[key]) else None
  }

  /** `'' + lead[key]`: the value as it appears when concatenated into a string. */
  function Text(lead: Lead, key: string): string {
    if key in lead then lead[key] else "undefined"
  }

  /** `if (lead[key])`: present and not the empty string. */
  predicate IsSet(lead: Lead, key: string) {
    key in lead && lead[key] != ""
  }

  /** A comment field as the renderers use it: `if (lead[key])` guards it,
      so it is printed only when it is truthy. */
  function Comment(lead: Lead, key: string): (r: Option<string>)
    ensures r.Some? <==> IsSet(lead, key)
    ensures r.Some? ==> r.value == lead[key]
  {
    if IsSet(lead, key) then Some(lead[key]) else None
  }

  /** `values[0]`, `undefined` for an empty list. */
  function First(values: seq<string>): Option<string> {
    if |values| > 0 then Some(values[0]) else None
  }

  /** `attr.values[0]` for an attribute that has a `values` list. Without
      one the source throws; `FlattenLead` rejects that case before any of
      the functions below is applied, so `None` here is never observed. */
  function FirstValue(attr: Attribute): Option<string> {
    if attr.values.Some? then First(attr.values.value) else None
  }

  /** Every attribute carries a `values` list; otherwise `attr.values[0]`
      throws a `TypeError` on the first attribute without one. */
  predicate HasValues(attrs: seq<Attribute>) {
    forall i :: 0 <= i < |attrs| ==> attrs[i].values.Some?
  }

  /** `lead[key] = value`, where assigning `undefined` leaves the key undefined. */
  function Assign(lead: Lead, key: string, value: Option<string>): Lead {
    match value
    case Some(v) => lead[key := v]
    case None => lead - {key}
  }

  /** One iteration of the `forEach` in `flattenLead`: set `id` and
      `requestdate` from the entry, then the attribute's first value. */
  function Step(lead: Lead, entry: RawEntry, attr: Attribute): Lead {
    Assign(Assign(Assign(lead, IdKey, entry.id), RequestDateKey, entry.createdTime), attr.name, FirstValue(attr))
  }

  /** The lead after the `forEach` has visited every attribute of `attrs`, in order. */
  function FlattenAttrs(entry: RawEntry, attrs: seq<Attribute>): Lead
    decreases |attrs|
  {
    if attrs == [] then map[]
    else Step(FlattenAttrs(entry, attrs[..|attrs| - 1]), entry, attrs[|attrs| - 1])
  }

  /** Index of the last attribute named `key`, or -1 when there is none. */
  function LastNamed(attrs: seq<Attribute>, key: string): (r: int)
    ensures -1 <= r < |attrs|
    ensures r >= 0 ==> attrs[r].name == key
    ensures forall j :: r < j < |attrs| ==> attrs[j].name != key
    decreases |attrs|
  {
    if attrs == [] then -1
    else if attrs[|attrs| - 1].name == key then |attrs| - 1
    else LastNamed(attrs[..|attrs| - 1], key)
  }

  /** Where an ordinary attribute's value comes from: the first value of the
      last attribute with that name. */
  function AttrValue(attrs: seq<Attribute>, key: string): Option<string> {
    var i := LastNamed(attrs, key);
    if i < 0 then None else FirstValue(attrs[i])
  }

  /** Where `id` (or `requestdate`) comes from: nothing for an empty attribute
      list; the last attribute when it is itself named `key`; otherwise the
      entry's own `fromEntry` value, which every iteration writes again. */
  function EntryValue(attrs: seq<Attribute>, key: string, fromEntry: Option<string>): Option<string> {
    if attrs == [] then None
    else if attrs[|attrs| - 1].name == key then FirstValue(attrs[|attrs| - 1])
    else fromEntry
  }

  /** What one iteration leaves under each key: the attribute's own value
      under its name, the entry's id and creation time under theirs, and
      everything else as it was. */
  lemma StepLookup(lead: Lead, entry: RawEntry, attr: Attribute, key: string)
    ensures Lookup(Step(lead, entry, attr), key) ==
      if key == attr.name then FirstValue(attr)
      else if key == IdKey then entry.id
      else if key == RequestDateKey then entry.createdTime
      else Lookup(lead, key)
  {
  }

  /** What every key of a flattened lead reads as. */
  lemma {:induction false} FlattenAttrsLookup(entry: RawEntry, attrs: seq<Attribute>, key: string)
    ensures key != IdKey && key != RequestDateKey ==>
      Lookup(FlattenAttrs(entry, attrs), key) == AttrValue(attrs, key)
    ensures Lookup(FlattenAttrs(entry, attrs), IdKey) == EntryValue(attrs, IdKey, entry.id)
    ensures Lookup(FlattenAttrs(entry, attrs), RequestDateKey) == EntryValue(attrs, RequestDateKey, entry.createdTime)
    decreases |attrs|
  {
    if attrs != [] {
      var init := attrs[..|attrs| - 1];
      FlattenAttrsLookup(entry, init, key);
      StepLookup(FlattenAttrs(entry, init), entry, attrs[|attrs| - 1], key);
      if attrs[|attrs| - 1].name != key {
        assert LastNamed(attrs, key) == LastNamed(init, key);
        var i := LastNamed(init, key);
        if i >= 0 {
          assert attrs[i] == init[i];
        }
      }
    }
  }

  /** `flattenLead(entry)`: each attribute name maps to the first value of
      the last attribute of that name; `id` and `requestdate` are the entry's
      own unless the last attribute overrides them; no entry at all, an entry
      without `field_data`, or an attribute without `values` is an error. */
  function FlattenLead(item: Item): (r: Result<Lead>)
    ensures item.Undefined? ==> r == Err(NotAnEntry)
    ensures item.Entry? && item.entry.fieldData.None? ==> r == Err(MissingFieldData)
    ensures item.Entry? && item.entry.fieldData.Some? && !HasValues(item.entry.fieldData.value) ==>
      r == Err(MissingValues)
    ensures r.Ok? <==> item.Entry? && item.entry.fieldData.Some? && HasValues(item.entry.fieldData.value)
    ensures r.Ok? ==> forall key :: key != IdKey && key != RequestDateKey ==>
      Lookup(r.value, key) == AttrValue(item.entry.fieldData.value, key)
    ensures r.Ok? ==> Lookup(r.value, IdKey) == EntryValue(item.entry.fieldData.value, IdKey, item.entry.id)
    ensures r.Ok? ==>
      Lookup(r.value, RequestDateKey) == EntryValue(item.entry.fieldData.value, RequestDateKey, item.entry.createdTime)
  {
    match item
    case Undefined => Err(NotAnEntry)
    case Entry(entry) =>
      match entry.fieldData
      case None => Err(MissingFieldData)
      case Some(attrs) =>
        if !HasValues(attrs) then Err(MissingValues) else
        var lead := FlattenAttrs(entry, attrs);
        FlattenAttrsLookup(entry, attrs, IdKey);
        FlattenAttrsLookup(entry, attrs, RequestDateKey);
        assert forall key :: key != IdKey && key != RequestDateKey ==> Lookup(lead, key) == AttrValue(attrs, key) by {
          forall key | key != IdKey && key != RequestDateKey ensures Lookup(lead, key) == AttrValue(attrs, key) {
            FlattenAttrsLookup(entry, attrs, key);
          }
        }
        Ok(lead)
  }

  /** A later attribute with the same name overwrites an earlier one. */
  lemma LaterAttributeWins(entry: RawEntry, attrs: seq<Attribute>, i: int, j: int)
    requires entry.fieldData == Some(attrs) && HasValues(attrs)
    requires 0 <= i < j < |attrs| && attrs[i].name == attrs[j].name
    requires attrs[j].name != IdKey && attrs[j].name != RequestDateKey
    requires forall k :: j < k < |attrs| ==> attrs[k].name != attrs[j].name
    ensures Lookup(FlattenLead(Entry(entry)).value, attrs[i].name) == First(attrs[j].values.value)
  {
    assert LastNamed(attrs, attrs[j].name) == j;
  }

  /** A non-empty `field_data` whose last attribute is not named `id` or
      `requestdate` leaves the entry's own id and creation time in the lead
      (`undefined` when the entry has none). */
  lemma IdFromEntry(entry: RawEntry, attrs: seq<Attribute>)
    requires entry.fieldData == Some(attrs) && HasValues(attrs)
    requires attrs != [] && attrs[|attrs| - 1].name != IdKey && attrs[|attrs| - 1].name != RequestDateKey
    ensures Lookup(FlattenLead(Entry(entry)).value, IdKey) == entry.id
    ensures Lookup(FlattenLead(Entry(entry)).value, RequestDateKey) == entry.createdTime
  {
  }

  /** An empty `field_data` list gives an empty lead: the loop body that sets
      `id` and `requestdate` never runs. */
  lemma EmptyFieldData(entry: RawEntry)
    requires entry.fieldData == Some([])
    ensures FlattenLead(Entry(entry)) == Ok(map[])
  {
  }

  /** The separator `formatVehicleInfo` picks: `indexOf(',')` is used as a
      truth value, so the separator is a comma unless the text starts with a
      comma (index 0 is falsy, -1 is truthy), and a space only then. */
  function Separator(info: string): (sep: char)
    ensures sep == ' ' <==> |info| > 0 && info[0] == ','
    ensures sep == ',' <==> !(|info| > 0 && info[0] == ',')
  {
    if JsStrings.IndexOf(info, ',') != 0 then ',' else ' '
  }

  /** The derived vehicle fields. */
  datatype Vehicle = Vehicle(year: string, make: string, model: string)

  /** `vehicle_info.split(separator, 3)`. */
  function VehiclePieces(info: string): (r: seq<string>)
    ensures |r| <= 3
  {
    JsStrings.SplitLimit(info, Separator(info), 3)
  }

  /** `vehicle[i] ? vehicle[i].replace(/\s/g, '') : 'Unknown'`. */
  function Field(pieces: seq<string>, i: nat): (r: string)
    ensures i >= |pieces| || pieces[i] == "" ==> r == Unknown
    ensures i < |pieces| && pieces[i] != "" ==> r == JsStrings.StripWhitespace(pieces[i])
    ensures JsStrings.HasNoWhitespace(r)
  {
    if i < |pieces| && pieces[i] != "" then JsStrings.StripWhitespace(pieces[i]) else Unknown
  }

  /** Year, make and model from the first three pieces of `vehicle_info`. */
  function ParseVehicle(info: string): (v: Vehicle)
    ensures v.year == Field(VehiclePieces(info), 0)
    ensures v.make == Field(VehiclePieces(info), 1)
    ensures v.model == Field(VehiclePieces(info), 2)
  {
    var pieces := VehiclePieces(info);
    Vehicle(Field(pieces, 0), Field(pieces, 1), Field(pieces, 2))
  }

  /** `formatVehicleInfo(lead)`: sets the three vehicle fields and changes
      nothing else; a lead without `vehicle_info` makes `.indexOf` throw. */
  function FormatVehicleInfo(lead: Lead): (r: Result<Lead>)
    ensures r.Err? <==> VehicleInfoKey !in lead
    ensures r.Err? ==> r.error == MissingVehicleInfo
    ensures r.Ok? ==> r.value.Keys == lead.Keys + {VehicleYearKey, VehicleMakeKey, VehicleModelKey}
    ensures r.Ok? ==>
      && r.value[VehicleYearKey] == ParseVehicle(lead[VehicleInfoKey]).year
      && r.value[VehicleMakeKey] == ParseVehicle(lead[VehicleInfoKey]).make
      && r.value[VehicleModelKey] == ParseVehicle(lead[VehicleInfoKey]).model
    ensures r.Ok? ==> forall key :: key != VehicleYearKey && key != VehicleMakeKey && key != VehicleModelKey ==>
      Lookup(r.value, key) == Lookup(lead, key)
  {
    if VehicleInfoKey !in lead then Err(MissingVehicleInfo)
    else
      var v := ParseVehicle(lead[VehicleInfoKey]);
      Ok(lead[VehicleYearKey := v.year][VehicleMakeKey := v.make][VehicleModelKey := v.model])
  }

  /** An empty `vehicle_info` gives three "Unknown" fields. */
  lemma EmptyVehicle()
    ensures ParseVehicle("") == Vehicle(Unknown, Unknown, Unknown)
  {
    assert JsStrings.Split("", ',') == [""];
    assert VehiclePieces("") == [""];
  }

  /** Text without any comma is still split on a comma, so it all becomes the
      year (whitespace removed) and make and model are "Unknown". */
  lemma VehicleWithoutComma(info: string)
    requires info != "" && ',' !in info
    ensures ParseVehicle(info) == Vehicle(JsStrings.StripWhitespace(info), Unknown, Unknown)
  {
    assert info[0] in info;
    JsStrings.SplitNoSeparator(info, ',');
  }

  /** The first three comma-separated pieces of `year,make,model` followed by
      nothing or by more comma-separated text. */
  lemma SplitThree(year: string, make: string, model: string, tail: string)
    requires ',' !in year && ',' !in make && ',' !in model
    requires tail == "" || tail[0] == ','
    ensures JsStrings.SplitLimit(year + [','] + make + [','] + model + tail, ',', 3) == [year, make, model]
  {
    var info := year + [','] + make + [','] + model + tail;
    var modelPart := JsStrings.Split(model + tail, ',');
    SplitModelTail(model, tail);
    SplitTwoMore(year, make, model + tail);
    assert info == year + [','] + (make + [','] + (model + tail));
    var pieces := JsStrings.Split(info, ',');
    assert pieces == [year, make] + modelPart;
    assert pieces[..3] == [year, make, model];
  }

  lemma SplitModelTail(model: string, tail: string)
    requires ',' !in model
    requires tail == "" || tail[0] == ','
    ensures |JsStrings.Split(model + tail, ',')| >= 1 && JsStrings.Split(model + tail, ',')[0] == model
  {
    JsStrings.SplitNoSeparator(model, ',');
    if tail == "" {
      assert model + tail == model;
    } else {
      assert model + tail == model + [','] + tail[1..];
      JsStrings.SplitAround(model, tail[1..], ',');
    }
  }

  /** A comma-free piece followed by a comma splits off as one piece. */
  lemma SplitCons(piece: string, more: string)
    requires ',' !in piece
    ensures JsStrings.Split(piece + [','] + more, ',') == [piece] + JsStrings.Split(more, ',')
  {
    JsStrings.SplitNoSeparator(piece, ',');
    JsStrings.SplitAround(piece, more, ',');
  }

  lemma SplitTwoMore(year: string, make: string, more: string)
    requires ',' !in year && ',' !in make
    ensures JsStrings.Split(year + [','] + (make + [','] + more), ',') == [year, make] + JsStrings.Split(more, ',')
  {
    var tail := JsStrings.Split(more, ',');
    SplitCons(make, more);
    SplitCons(year, make + [','] + more);
    assert [year] + ([make] + tail) == [year, make] + tail;
  }

  /** Comma-joined year, make and model, free of commas and whitespace, come
      back as they were; whatever follows a third comma is dropped. */
  lemma VehicleRoundTrip(year: string, make: string, model: string, tail: string)
    requires year != "" && make != "" && model != ""
    requires ',' !in year && ',' !in make && ',' !in model
    requires JsStrings.HasNoWhitespace(year) && JsStrings.HasNoWhitespace(make) && JsStrings.HasNoWhitespace(model)
    requires tail == "" || tail[0] == ','
    ensures ParseVehicle(year + [','] + make + [','] + model + tail) == Vehicle(year, make, model)
  {
    var info := year + [','] + make + [','] + model + tail;
    assert info[0] == year[0];
    assert year[0] in year;
    assert Separator(info) == ',';
    SplitThree(year, make, model, tail);
    assert VehiclePieces(info) == [year, make, model];
    JsStrings.StripIdentity(year);
    JsStrings.StripIdentity(make);
    JsStrings.StripIdentity(model);
  }

  /** The example "2023,Toyota,Camry". */
  lemma CommaSeparatedExample()
    ensures ParseVehicle("2023,Toyota,Camry") == Vehicle("2023", "Toyota", "Camry")
  {
    assert "2023,Toyota,Camry" == "2023" + [','] + "Toyota" + [','] + "Camry" + "";
    VehicleRoundTrip("2023", "Toyota", "Camry", "");
  }

  /** The example "2024 Ford F150": no comma, so the year is "2024FordF150". */
  lemma SpaceSeparatedExample()
    ensures ParseVehicle("2024 Ford F150") == Vehicle("2024FordF150", Unknown, Unknown)
  {
    var s := "2024 Ford F150";
    assert forall i :: 0 <= i < |s| ==> s[i] != ',';
    VehicleWithoutComma(s);
    StripExample(s);
  }

  /** Words free of whitespace, separated by single spaces, run together. */
  lemma StripSpacedWords(a: string, b: string, c: string)
    requires JsStrings.HasNoWhitespace(a) && JsStrings.HasNoWhitespace(b) && JsStrings.HasNoWhitespace(c)
    ensures JsStrings.StripWhitespace(a + " " + b + " " + c) == a + b + c
  {
    var sp := " ";
    var sa, sb, sc := JsStrings.StripWhitespace(a), JsStrings.StripWhitespace(b), JsStrings.StripWhitespace(c);
    assert sa == a && sb == b && sc == c by {
      JsStrings.StripIdentity(a);
      JsStrings.StripIdentity(b);
      JsStrings.StripIdentity(c);
    }
    assert JsStrings.StripWhitespace(sp) == "" by { StripSpace(); }
    assert JsStrings.StripWhitespace(a + sp) == a by {
      JsStrings.StripAppend(a, sp);
      assert a + "" == a;
    }
    assert JsStrings.StripWhitespace(a + sp + b) == a + b by {
      JsStrings.StripAppend(a + sp, b);
    }
    assert JsStrings.StripWhitespace(a + sp + b + sp) == a + b by {
      JsStrings.StripAppend(a + sp + b, sp);
      assert a + b + "" == a + b;
    }
    JsStrings.StripAppend(a + sp + b + sp, c);
  }

  lemma StripExample(s: string)
    requires s == "2024 Ford F150"
    ensures JsStrings.StripWhitespace(s) == "2024FordF150"
  {
    assert s == "2024" + " " + "Ford" + " " + "F150";
    NoWhitespaceWords();
    StripSpacedWords("2024", "Ford", "F150");
    assert "2024" + "Ford" + "F150" == "2024FordF150";
  }

  lemma StripSpace()
    ensures JsStrings.StripWhitespace(" ") == ""
  {
  }

  lemma NoWhitespaceWords()
    ensures JsStrings.HasNoWhitespace("2024")
    ensures JsStrings.HasNoWhitespace("Ford")
    ensures JsStrings.HasNoWhitespace("F150")
  {
  }
}
