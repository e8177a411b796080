// The portable project-package file (src/types/project-package.ts): the
// schema's shape as datatypes, the schema check as a parser from a JSON
// value, and the encoder the exporter serialises with.

module ProjectPackage {
  import opened Common

  /** A JSON value as `JSON.parse` returns it; object members in text order. */
  datatype Json =
    | JNull
    | JBool(b: bool)
    | JNum(n: real)
    | JStr(s: string)
    | JArr(elems: seq<Json>)
    | JObj(fields: seq<(string, Json)>)

  const PackageFormat := "ats-chd-project-package"
  const PackageVersion := "1"

  datatype FileMetadata = FileMetadata(exported_at: string, source_app_version: Option<string>)

  datatype PackageEntry = PackageEntry(
    package_name: string,
    name: Option<string>,
    description: Option<string>,
    version: string,
    metadata: Option<string>)

  datatype LocationEntry = LocationEntry(
    package_name: string,
    name: string,
    export_name: Option<string>,
    sort_order: real)

  datatype ItemEntry = ItemEntry(
    package_name: string,
    location_name: string,
    part_number: string,
    description: string,
    secondary_description: Option<string>,
    quantity: real,
    unit: string,
    unit_price: Option<real>,
    manufacturer: Option<string>,
    supplier: Option<string>,
    category: Option<string>,
    reference_designator: Option<string>,
    is_spare: bool,
    metadata: Option<string>,
    sort_order: real)

  /** The typed contents of a package file. */
  datatype PackageFile = PackageFile(
    format: string,
    version: string,
    metadata: FileMetadata,
    project_number: string,
    packages: seq<PackageEntry>,
    locations: seq<LocationEntry>,
    items: seq<ItemEntry>)

  /** The two literal fields of the schema. */
  predicate Valid(f: PackageFile)
  {
    f.format == PackageFormat && f.version == PackageVersion
  }

  // ---------------------------------------------------------------------
  // Field checks: z.string(), .nullable(), .optional(), z.number(), z.boolean()
  // ---------------------------------------------------------------------

  /** `o[k]`: the member named `k`, scanning from position `i`. */
  function MemberFrom(o: Record<Json>, k: string, i: nat): Option<Json>
    decreases |o| - i
  {
    if i >= |o| then None else if o[i].0 == k then Some(o[i].1) else MemberFrom(o, k, i + 1)
  }

  function Member(o: Record<Json>, k: string): Option<Json>
  {
    MemberFrom(o, k, 0)
  }

  /** A member whose name does not occur earlier is found. */
  lemma {:induction false} MemberAt(o: Record<Json>, i: nat, from: nat)
    requires from <= i < |o| && forall j :: from <= j < i ==> o[j].0 != o[i].0
    ensures MemberFrom(o, o[i].0, from) == Some(o[i].1)
    decreases i - from
  {
    if from < i {
      MemberAt(o, i, from + 1);
    }
  }

  /** A required string member. */
  function StrField(o: Record<Json>, k: string): Option<string>
  {
    var v := Member(o, k);
    if v.Some? && v.value.JStr? then Some(v.value.s) else None
  }

  /** A string-or-null member: present and null reads as `None`, absent fails. */
  function NullableStrField(o: Record<Json>, k: string): Option<Option<string>>
  {
    var v := Member(o, k);
    if v == Some(JNull) then Some(None)
    else if v.Some? && v.value.JStr? then Some(Some(v.value.s))
    else None
  }

  /** An optional string member: absent reads as `None`, null fails. */
  function OptionalStrField(o: Record<Json>, k: string): Option<Option<string>>
  {
    var v := Member(o, k);
    if v.None? then Some(None)
    else if v.value.JStr? then Some(Some(v.value.s))
    else None
  }

  function NumField(o: Record<Json>, k: string): Option<real>
  {
    var v := Member(o, k);
    if v.Some? && v.value.JNum? then Some(v.value.n) else None
  }

  function NullableNumField(o: Record<Json>, k: string): Option<Option<real>>
  {
    var v := Member(o, k);
    if v == Some(JNull) then Some(None)
    else if v.Some? && v.value.JNum? then Some(Some(v.value.n))
    else None
  }

  function BoolField(o: Record<Json>, k: string): Option<bool>
  {
    var v := Member(o, k);
    if v.Some? && v.value.JBool? then Some(v.value.b) else None
  }

  /** z.array(elem): every element must pass. */
  function ParseEach<T>(js: seq<Json>, f: Json -> Option<T>): (r: Option<seq<T>>)
    ensures r.Some? <==> forall i :: 0 <= i < |js| ==> f(js[i]).Some?
    ensures r.Some? ==> |r.value| == |js| && forall i :: 0 <= i < |js| ==> r.value[i] == f(js[i]).value
  {
    if js == [] then Some([])
    else
      var head := f(js[0]);
      var tail := ParseEach(js[1..], f);
      if head.Some? && tail.Some? then Some([head.value] + tail.value)
      else
        assert f(js[0]).None? || exists i :: 1 <= i < |js| && f(js[i]).None? by {
          if head.Some? {
            var i :| 0 <= i < |js[1..]| && f(js[1..][i]).None?;
            assert f(js[i + 1]).None?;
          }
        }
        None
  }

  function ArrayField<T>(o: Record<Json>, k: string, f: Json -> Option<T>): Option<seq<T>>
  {
    var v := Member(o, k);
    if v.Some? && v.value.JArr? then ParseEach(v.value.elems, f) else None
  }

  // ---------------------------------------------------------------------
  // The schema as a parser
  // ---------------------------------------------------------------------

  function ParseMetadata(j: Json): Option<FileMetadata>
  {
    if !j.JObj? then None
    else
      var o := j.fields;
      match (StrField(o, "exported_at"), OptionalStrField(o, "source_app_version"))
      case (Some(at), Some(app)) => Some(FileMetadata(at, app))
      case _ => None
  }

  function ParsePackage(j: Json): Option<PackageEntry>
  {
    if !j.JObj? then None
    else
      var o := j.fields;
      match (StrField(o, "package_name"), NullableStrField(o, "name"), NullableStrField(o, "description"),
             StrField(o, "version"), NullableStrField(o, "metadata"))
      case (Some(pn), Some(n), Some(d), Some(v), Some(m)) => Some(PackageEntry(pn, n, d, v, m))
      case _ => None
  }

  function ParseLocation(j: Json): Option<LocationEntry>
  {
    if !j.JObj? then None
    else
      var o := j.fields;
      match (StrField(o, "package_name"), StrField(o, "name"), NullableStrField(o, "export_name"),
             NumField(o, "sort_order"))
      case (Some(pn), Some(n), Some(e), Some(so)) => Some(LocationEntry(pn, n, e, so))
      case _ => None
  }

  /** The item's text columns, checked first. */
  function ParseItemText(o: Record<Json>): Option<(string, string, string, string, Option<string>, string)>
  {
    match (StrField(o, "package_name"), StrField(o, "location_name"), StrField(o, "part_number"),
           StrField(o, "description"), NullableStrField(o, "secondary_description"), StrField(o, "unit"))
    case (Some(pn), Some(ln), Some(num), Some(d), Some(sd), Some(u)) => Some((pn, ln, num, d, sd, u))
    case _ => None
  }

  /** The item's optional text columns. */
  function ParseItemRefs(o: Record<Json>): Option<(Option<string>, Option<string>, Option<string>, Option<string>,
                                                   Option<string>)>
  {
    match (NullableStrField(o, "manufacturer"), NullableStrField(o, "supplier"), NullableStrField(o, "category"),
           NullableStrField(o, "reference_designator"), NullableStrField(o, "metadata"))
    case (Some(m), Some(s), Some(c), Some(rd), Some(md)) => Some((m, s, c, rd, md))
    case _ => None
  }

  /** The item's numeric and boolean columns. */
  function ParseItemValues(o: Record<Json>): Option<(real, Option<real>, bool, real)>
  {
    match (NumField(o, "quantity"), NullableNumField(o, "unit_price"), BoolField(o, "is_spare"),
           NumField(o, "sort_order"))
    case (Some(q), Some(p), Some(sp), Some(so)) => Some((q, p, sp, so))
    case _ => None
  }

  function ParseItem(j: Json): Option<ItemEntry>
  {
    if !j.JObj? then None
    else
      match (ParseItemText(j.fields), ParseItemRefs(j.fields), ParseItemValues(j.fields))
      case (Some(t), Some(r), Some(v)) =>
        Some(ItemEntry(t.0, t.1, t.2, t.3, t.4, v.0, t.5, v.1, r.0, r.1, r.2, r.3, v.2, r.4, v.3))
      case _ => None
  }

  /** `job_project.project_number`. */
  function ParseJobProject(j: Json): Option<string>
  {
    if j.JObj? then StrField(j.fields, "project_number") else None
  }

  /** The literals, the metadata object and the job project. */
  function ParseHeader(o: Record<Json>): Option<(string, string, FileMetadata, string)>
  {
    var fmt := StrField(o, "format");
    var ver := StrField(o, "version");
    var md := Member(o, "metadata");
    var jp := Member(o, "job_project");
    if fmt != Some(PackageFormat) || ver != Some(PackageVersion) || md.None? || jp.None? then None
    else
      var m := ParseMetadata(md.value);
      var pn := ParseJobProject(jp.value);
      if m.Some? && pn.Some? then Some((fmt.value, ver.value, m.value, pn.value)) else None
  }

  /** The three arrays. */
  function ParseBody(o: Record<Json>): Option<(seq<PackageEntry>, seq<LocationEntry>, seq<ItemEntry>)>
  {
    var ps := ArrayField(o, "packages", ParsePackage);
    var ls := ArrayField(o, "locations", ParseLocation);
    var its := ArrayField(o, "items", ParseItem);
    if ps.Some? && ls.Some? && its.Some? then Some((ps.value, ls.value, its.value)) else None
  }

  /**
   * ProjectPackageFileSchema.parse: the typed file when every member has
   * the schema's type and the two literals match, otherwise nothing.
   */
  function ParseFile(j: Json): (r: Option<PackageFile>)
    ensures r.Some? ==> Valid(r.value)
  {
    if !j.JObj? then None
    else
      var h := ParseHeader(j.fields);
      var b := ParseBody(j.fields);
      if h.Some? && b.Some? then
        Some(PackageFile(h.value.0, h.value.1, h.value.2, h.value.3, b.value.0, b.value.1, b.value.2))
      else None
  }

  // ---------------------------------------------------------------------
  // The encoder (what JSON.stringify of the typed file produces)
  // ---------------------------------------------------------------------

  function StrJson(s: Option<string>): Json
  {
    if s.Some? then JStr(s.value) else JNull
  }

  function NumJson(n: Option<real>): Json
  {
    if n.Some? then JNum(n.value) else JNull
  }

  function EncodeMetadata(m: FileMetadata): Json
  {
    if m.source_app_version.Some? then
      JObj([("exported_at", JStr(m.exported_at)), ("source_app_version", JStr(m.source_app_version.value))])
    else JObj([("exported_at", JStr(m.exported_at))])
  }

  function EncodePackage(p: PackageEntry): Json
  {
    JObj([("package_name", JStr(p.package_name)), ("name", StrJson(p.name)), ("description", StrJson(p.description)),
          ("version", JStr(p.version)), ("metadata", StrJson(p.metadata))])
  }

  function EncodeLocation(l: LocationEntry): Json
  {
    JObj([("package_name", JStr(l.package_name)), ("name", JStr(l.name)), ("export_name", StrJson(l.export_name)),
          ("sort_order", JNum(l.sort_order))])
  }

  function EncodeItem(i: ItemEntry): Json
  {
    JObj([("package_name", JStr(i.package_name)), ("location_name", JStr(i.location_name)),
          ("part_number", JStr(i.part_number)), ("description", JStr(i.description)),
          ("secondary_description", StrJson(i.secondary_description)), ("quantity", JNum(i.quantity)),
          ("unit", JStr(i.unit)), ("unit_price", NumJson(i.unit_price)), ("manufacturer", StrJson(i.manufacturer)),
          ("supplier", StrJson(i.supplier)), ("category", StrJson(i.category)),
          ("reference_designator", StrJson(i.reference_designator)), ("is_spare", JBool(i.is_spare)),
          ("metadata", StrJson(i.metadata)), ("sort_order", JNum(i.sort_order))])
  }

  function EncodeEach<T>(xs: seq<T>, enc: T -> Json): (js: seq<Json>)
    ensures |js| == |xs| && forall k :: 0 <= k < |xs| ==> js[k] == enc(xs[k])
  {
    seq(|xs|, k requires 0 <= k < |xs| => enc(xs[k]))
  }

  function EncodeFile(f: PackageFile): Json
  {
    JObj([("format", JStr(f.format)), ("version", JStr(f.version)), ("metadata", EncodeMetadata(f.metadata)),
          ("job_project", JObj([("project_number", JStr(f.project_number))])),
          ("packages", JArr(EncodeEach(f.packages, EncodePackage))),
          ("locations", JArr(EncodeEach(f.locations, EncodeLocation))),
          ("items", JArr(EncodeEach(f.items, EncodeItem)))])
  }

  // ---------------------------------------------------------------------
  // Round trips
  // ---------------------------------------------------------------------

  // Reading back one encoded member.

  lemma StrOf(o: Record<Json>, k: string, s: string)
    requires Member(o, k) == Some(JStr(s))
    ensures StrField(o, k) == Some(s)
  {
  }

  lemma NullableStrOf(o: Record<Json>, k: string, s: Option<string>)
    requires Member(o, k) == Some(StrJson(s))
    ensures NullableStrField(o, k) == Some(s)
  {
  }

  lemma NumOf(o: Record<Json>, k: string, n: real)
    requires Member(o, k) == Some(JNum(n))
    ensures NumField(o, k) == Some(n)
  {
  }

  lemma NullableNumOf(o: Record<Json>, k: string, n: Option<real>)
    requires Member(o, k) == Some(NumJson(n))
    ensures NullableNumField(o, k) == Some(n)
  {
  }

  lemma MetadataRoundTrip(m: FileMetadata)
    ensures ParseMetadata(EncodeMetadata(m)) == Some(m)
  {
    var o := EncodeMetadata(m).fields;
    MemberAt(o, 0, 0);
    if m.source_app_version.Some? {
      MemberAt(o, 1, 0);
    } else {
      assert MemberFrom(o, "source_app_version", 1) == None;
    }
  }

  lemma PackageRoundTrip(p: PackageEntry)
    ensures ParsePackage(EncodePackage(p)) == Some(p)
  {
    var o := EncodePackage(p).fields;
    MemberAt(o, 0, 0);
    StrOf(o, "package_name", p.package_name);
    MemberAt(o, 1, 0);
    NullableStrOf(o, "name", p.name);
    MemberAt(o, 2, 0);
    NullableStrOf(o, "description", p.description);
    MemberAt(o, 3, 0);
    StrOf(o, "version", p.version);
    MemberAt(o, 4, 0);
    NullableStrOf(o, "metadata", p.metadata);
  }

  lemma LocationRoundTrip(l: LocationEntry)
    ensures ParseLocation(EncodeLocation(l)) == Some(l)
  {
    var o := EncodeLocation(l).fields;
    MemberAt(o, 0, 0);
    StrOf(o, "package_name", l.package_name);
    MemberAt(o, 1, 0);
    StrOf(o, "name", l.name);
    MemberAt(o, 2, 0);
    NullableStrOf(o, "export_name", l.export_name);
    MemberAt(o, 3, 0);
    NumOf(o, "sort_order", l.sort_order);
  }

  lemma ItemNamesRoundTrip(i: ItemEntry)
    ensures var o := EncodeItem(i).fields;
            StrField(o, "package_name") == Some(i.package_name) &&
            StrField(o, "location_name") == Some(i.location_name) &&
            StrField(o, "part_number") == Some(i.part_number)
  {
    var o := EncodeItem(i).fields;
    MemberAt(o, 0, 0);
    StrOf(o, "package_name", i.package_name);
    MemberAt(o, 1, 0);
    StrOf(o, "location_name", i.location_name);
    MemberAt(o, 2, 0);
    StrOf(o, "part_number", i.part_number);
  }

  lemma ItemDescriptionRoundTrip(i: ItemEntry)
    ensures var o := EncodeItem(i).fields;
            StrField(o, "description") == Some(i.description) &&
            NullableStrField(o, "secondary_description") == Some(i.secondary_description)
  {
    var o := EncodeItem(i).fields;
    MemberAt(o, 3, 0);
    StrOf(o, "description", i.description);
    MemberAt(o, 4, 0);
    NullableStrOf(o, "secondary_description", i.secondary_description);
  }

  lemma ItemUnitRoundTrip(i: ItemEntry)
    ensures StrField(EncodeItem(i).fields, "unit") == Some(i.unit)
  {
    MemberAt(EncodeItem(i).fields, 6, 0);
    StrOf(EncodeItem(i).fields, "unit", i.unit);
  }

  lemma ItemTextRoundTrip(i: ItemEntry)
    ensures ParseItemText(EncodeItem(i).fields) == Some((i.package_name, i.location_name, i.part_number,
                                                         i.description, i.secondary_description, i.unit))
  {
    ItemNamesRoundTrip(i);
    ItemDescriptionRoundTrip(i);
    ItemUnitRoundTrip(i);
  }

  lemma ItemSourcesRoundTrip(i: ItemEntry)
    ensures var o := EncodeItem(i).fields;
            NullableStrField(o, "manufacturer") == Some(i.manufacturer) &&
            NullableStrField(o, "supplier") == Some(i.supplier) &&
            NullableStrField(o, "category") == Some(i.category)
  {
    var o := EncodeItem(i).fields;
    MemberAt(o, 8, 0);
    NullableStrOf(o, "manufacturer", i.manufacturer);
    MemberAt(o, 9, 0);
    NullableStrOf(o, "supplier", i.supplier);
    MemberAt(o, 10, 0);
    NullableStrOf(o, "category", i.category);
  }

  lemma ItemNotesRoundTrip(i: ItemEntry)
    ensures var o := EncodeItem(i).fields;
            NullableStrField(o, "reference_designator") == Some(i.reference_designator) &&
            NullableStrField(o, "metadata") == Some(i.metadata)
  {
    var o := EncodeItem(i).fields;
    MemberAt(o, 11, 0);
    NullableStrOf(o, "reference_designator", i.reference_designator);
    MemberAt(o, 13, 0);
    NullableStrOf(o, "metadata", i.metadata);
  }

  lemma ItemRefsRoundTrip(i: ItemEntry)
    ensures ParseItemRefs(EncodeItem(i).fields) == Some((i.manufacturer, i.supplier, i.category,
                                                         i.reference_designator, i.metadata))
  {
    ItemSourcesRoundTrip(i);
    ItemNotesRoundTrip(i);
  }

  lemma ItemAmountsRoundTrip(i: ItemEntry)
    ensures var o := EncodeItem(i).fields;
            NumField(o, "quantity") == Some(i.quantity) && NullableNumField(o, "unit_price") == Some(i.unit_price)
  {
    var o := EncodeItem(i).fields;
    MemberAt(o, 5, 0);
    NumOf(o, "quantity", i.quantity);
    MemberAt(o, 7, 0);
    NullableNumOf(o, "unit_price", i.unit_price);
  }

  lemma ItemFlagsRoundTrip(i: ItemEntry)
    ensures var o := EncodeItem(i).fields;
            BoolField(o, "is_spare") == Some(i.is_spare) && NumField(o, "sort_order") == Some(i.sort_order)
  {
    var o := EncodeItem(i).fields;
    MemberAt(o, 12, 0);
    MemberAt(o, 14, 0);
    NumOf(o, "sort_order", i.sort_order);
  }

  lemma ItemValuesRoundTrip(i: ItemEntry)
    ensures ParseItemValues(EncodeItem(i).fields) == Some((i.quantity, i.unit_price, i.is_spare, i.sort_order))
  {
    ItemAmountsRoundTrip(i);
    ItemFlagsRoundTrip(i);
  }

  lemma ItemRoundTrip(i: ItemEntry)
    ensures ParseItem(EncodeItem(i)) == Some(i)
  {
    ItemTextRoundTrip(i);
    ItemRefsRoundTrip(i);
    ItemValuesRoundTrip(i);
  }

  /** Parsing the encoding of each element of a list gives the list back. */
  lemma EachRoundTrip<T>(xs: seq<T>, enc: T -> Json, dec: Json -> Option<T>)
    requires forall x :: dec(enc(x)) == Some(x)
    ensures ParseEach(EncodeEach(xs, enc), dec) == Some(xs)
  {
    var js := EncodeEach(xs, enc);
    assert forall k :: 0 <= k < |js| ==> dec(js[k]) == Some(xs[k]);
    var r := ParseEach(js, dec);
    assert r.value == xs;
  }

  lemma FileHeaderRoundTrip(f: PackageFile)
    ensures var o := EncodeFile(f).fields;
            StrField(o, "format") == Some(f.format) && StrField(o, "version") == Some(f.version) &&
            Member(o, "metadata") == Some(EncodeMetadata(f.metadata)) &&
            Member(o, "job_project") == Some(JObj([("project_number", JStr(f.project_number))]))
  {
    var o := EncodeFile(f).fields;
    MemberAt(o, 0, 0);
    StrOf(o, "format", f.format);
    MemberAt(o, 1, 0);
    StrOf(o, "version", f.version);
    MemberAt(o, 2, 0);
    MemberAt(o, 3, 0);
  }

  lemma FilePackagesRoundTrip(f: PackageFile)
    ensures ArrayField(EncodeFile(f).fields, "packages", ParsePackage) == Some(f.packages)
  {
    MemberAt(EncodeFile(f).fields, 4, 0);
    forall p ensures ParsePackage(EncodePackage(p)) == Some(p) {
      PackageRoundTrip(p);
    }
    EachRoundTrip(f.packages, EncodePackage, ParsePackage);
  }

  lemma FileLocationsRoundTrip(f: PackageFile)
    ensures ArrayField(EncodeFile(f).fields, "locations", ParseLocation) == Some(f.locations)
  {
    MemberAt(EncodeFile(f).fields, 5, 0);
    forall l ensures ParseLocation(EncodeLocation(l)) == Some(l) {
      LocationRoundTrip(l);
    }
    EachRoundTrip(f.locations, EncodeLocation, ParseLocation);
  }

  lemma FileItemsRoundTrip(f: PackageFile)
    ensures ArrayField(EncodeFile(f).fields, "items", ParseItem) == Some(f.items)
  {
    MemberAt(EncodeFile(f).fields, 6, 0);
    forall i ensures ParseItem(EncodeItem(i)) == Some(i) {
      ItemRoundTrip(i);
    }
    EachRoundTrip(f.items, EncodeItem, ParseItem);
  }

  lemma HeaderRoundTrip(f: PackageFile)
    requires Valid(f)
    ensures ParseHeader(EncodeFile(f).fields) == Some((f.format, f.version, f.metadata, f.project_number))
  {
    FileHeaderRoundTrip(f);
    MetadataRoundTrip(f.metadata);
    MemberAt([("project_number", JStr(f.project_number))], 0, 0);
  }

  lemma BodyRoundTrip(f: PackageFile)
    ensures ParseBody(EncodeFile(f).fields) == Some((f.packages, f.locations, f.items))
  {
    FilePackagesRoundTrip(f);
    FileLocationsRoundTrip(f);
    FileItemsRoundTrip(f);
  }

  /**
   * A file the exporter builds passes the schema exactly when its two
   * literals are right, and then reads back as itself.
   */
  lemma FileRoundTrip(f: PackageFile)
    ensures ParseFile(EncodeFile(f)).Some? <==> Valid(f)
    ensures Valid(f) ==> ParseFile(EncodeFile(f)) == Some(f)
  {
    if Valid(f) {
      HeaderRoundTrip(f);
      BodyRoundTrip(f);
    } else {
      FileHeaderRoundTrip(f);
    }
  }

  /** Missing `exported_at` fails; missing `source_app_version` does not. */
  lemma MetadataFields(at: string)
    ensures ParseMetadata(JObj([("exported_at", JStr(at))])) == Some(FileMetadata(at, None))
    ensures ParseMetadata(JObj([("source_app_version", JStr(at))])).None?
    ensures ParseMetadata(JObj([("exported_at", JStr(at)), ("source_app_version", JNull)])).None?
  {
    MemberAt([("exported_at", JStr(at))], 0, 0);
    MemberAt([("exported_at", JStr(at)), ("source_app_version", JNull)], 0, 0);
    MemberAt([("exported_at", JStr(at)), ("source_app_version", JNull)], 1, 0);
    assert MemberFrom([("source_app_version", JStr(at))], "exported_at", 1) == None;
    assert MemberFrom([("exported_at", JStr(at))], "source_app_version", 1) == None;
  }

  /** `is_spare` must be a boolean: the SQLite 0/1 form is refused. */
  lemma SpareMustBeBoolean(i: ItemEntry, n: real)
    ensures ParseItem(JObj(EncodeItem(i).fields[12 := ("is_spare", JNum(n))])).None?
  {
    var o := EncodeItem(i).fields[12 := ("is_spare", JNum(n))];
    MemberAt(o, 12, 0);
  }
}
