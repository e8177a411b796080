// The parts importer (src/lib/parts-import.ts): rows mapped to catalogue
// parts, with manufacturers resolved or created and parts created or updated.

module PartsImport {
  import opened Common
  import opened PartTypes

  /** Which column holds each field; None is an unmapped field. */
  datatype PartsMapping = PartsMapping(
    manufacturer: Option<int>, partNumber: Option<int>, description: Option<int>,
    secondaryDescription: Option<int>, unit: Option<int>, category: Option<int>)

  datatype RowError = RowError(rowIndex: int, message: string)

  datatype ImportResult = ImportResult(created: nat, updated: nat, skipped: nat, errors: seq<RowError>)

  /** normalizeValue: null and undefined give ''; otherwise trimmed, each whitespace run one space. */
  function NormalizeValue(v: Option<string>): (r: string)
    ensures v.None? ==> r == ""
    ensures Collapsed(r)
    ensures v.Some? ==> (r == "" <==> Trim(v.value) == "")
  {
    match v
    case None => ""
    case Some(s) => NormalizeWhitespace(s)
  }

  /** Normalising a normalised value changes nothing. */
  lemma NormalizeValueIdempotent(v: Option<string>)
    ensures NormalizeValue(Some(NormalizeValue(v))) == NormalizeValue(v)
  {
    NormalizeWhitespaceFixed(NormalizeValue(v));
  }

  /**
   * `mapping.f !== undefined ? normalizeValue(row[headers[mapping.f]]) : ''`;
   * an index outside the headers reads the key "undefined".
   */
  function Cell(row: Record<string>, headers: seq<string>, col: Option<int>): (r: string)
    ensures col.None? ==> r == ""
    ensures Collapsed(r)
  {
    match col
    case None => ""
    case Some(c) => NormalizeValue(Get(row, if 0 <= c < |headers| then headers[c] else "undefined"))
  }

  // ---------------------------------------------------------------------
  // The catalogue the importer reads and writes
  // ---------------------------------------------------------------------

  datatype Catalogue = Catalogue(manufacturers: seq<Manufacturer>, categories: seq<Category>, parts: seq<Part>,
                                 nextId: int)

  /** The changes made to an existing part; None leaves a field alone. */
  datatype PartUpdates = PartUpdates(
    description: Option<string>, secondary_description: Option<Option<string>>, unit: Option<string>,
    category_id: Option<Option<int>>)

  /** manufacturers.create: a new manufacturer under the next id. */
  function AddManufacturer(c: Catalogue, name: string): (r: Catalogue)
    ensures r.manufacturers == c.manufacturers + [Manufacturer(c.nextId, name, None)]
    ensures r.categories == c.categories && r.parts == c.parts && r.nextId == c.nextId + 1
  {
    c.(manufacturers := c.manufacturers + [Manufacturer(c.nextId, name, None)], nextId := c.nextId + 1)
  }

  /** parts.create: a new part under the next id. */
  function AddPart(c: Catalogue, p: Part): (r: Catalogue)
    ensures r.parts == c.parts + [p.(id := c.nextId)]
    ensures r.manufacturers == c.manufacturers && r.categories == c.categories && r.nextId == c.nextId + 1
  {
    c.(parts := c.parts + [p.(id := c.nextId)], nextId := c.nextId + 1)
  }

  function ApplyUpdates(p: Part, u: PartUpdates): (r: Part)
    ensures r.id == p.id && r.part_number == p.part_number && r.manufacturer_id == p.manufacturer_id
    ensures r.description == (if u.description.Some? then u.description.value else p.description)
    ensures r.unit == (if u.unit.Some? then u.unit.value else p.unit)
  {
    p.(description := if u.description.Some? then u.description.value else p.description,
       secondary_description := if u.secondary_description.Some? then u.secondary_description.value
                                else p.secondary_description,
       unit := if u.unit.Some? then u.unit.value else p.unit,
       category_id := if u.category_id.Some? then u.category_id.value else p.category_id)
  }

  /** parts.update on the part at index k. */
  function UpdatePart(c: Catalogue, k: nat, u: PartUpdates): (r: Catalogue)
    requires k < |c.parts|
    ensures |r.parts| == |c.parts| && r.parts[k] == ApplyUpdates(c.parts[k], u)
    ensures forall j :: 0 <= j < |c.parts| && j != k ==> r.parts[j] == c.parts[j]
    ensures r.manufacturers == c.manufacturers && r.categories == c.categories && r.nextId == c.nextId
  {
    c.(parts := c.parts[k := ApplyUpdates(c.parts[k], u)])
  }

  /** parts.getByKey: the first part with this number and manufacturer. */
  function FindPart(parts: seq<Part>, partNumber: string, mfrId: int): (r: Option<nat>)
    ensures r.Some? ==> r.value < |parts| && parts[r.value].part_number == partNumber
                        && parts[r.value].manufacturer_id == mfrId
    ensures r.None? ==> forall j :: 0 <= j < |parts| ==>
                          !(parts[j].part_number == partNumber && parts[j].manufacturer_id == mfrId)
  {
    if parts == [] then None
    else if parts[0].part_number == partNumber && parts[0].manufacturer_id == mfrId then Some(0)
    else match FindPart(parts[1..], partNumber, mfrId)
      case None => None
      case Some(k) => Some(k + 1)
  }

  // ---------------------------------------------------------------------
  // One row
  // ---------------------------------------------------------------------

  /** What the loop carries from row to row: the catalogue, the manufacturer cache and the result. */
  datatype Acc = Acc(db: Catalogue, mfrs: map<string, int>, result: ImportResult)

  /** An error at 1-based row i + 1, the row counted as skipped. */
  function Fail(res: ImportResult, i: nat, message: string): (r: ImportResult)
    ensures r.skipped == res.skipped + 1 && r.created == res.created && r.updated == res.updated
    ensures r.errors == res.errors + [RowError(i + 1, message)]
  {
    res.(skipped := res.skipped + 1, errors := res.errors + [RowError(i + 1, message)])
  }

  /** `new Map(list.map(x => [x.name.toLowerCase(), x.id]))`: a later duplicate name wins. */
  function ManufacturerMap(ms: seq<Manufacturer>): (m: map<string, int>)
    ensures forall j :: 0 <= j < |ms| ==> ToLower(ms[j].name) in m
  {
    if ms == [] then map[] else ManufacturerMap(ms[..|ms| - 1])[ToLower(ms[|ms| - 1].name) := ms[|ms| - 1].id]
  }

  function CategoryMap(cs: seq<Category>): (m: map<string, int>)
  {
    if cs == [] then map[] else CategoryMap(cs[..|cs| - 1])[ToLower(cs[|cs| - 1].name) := cs[|cs| - 1].id]
  }

  /** The category id of a cell: null when the cell is empty or names no category (or a falsy id). */
  function CategoryId(cats: map<string, int>, raw: string): (r: Option<int>)
    ensures raw == "" ==> r.None?
    ensures r.Some? ==> ToLower(raw) in cats && r.value == cats[ToLower(raw)] && r.value != 0
  {
    if raw != "" && ToLower(raw) in cats && cats[ToLower(raw)] != 0 then Some(cats[ToLower(raw)]) else None
  }

  /** The update of an existing part: only non-empty cells, and the category only when it resolved. */
  function UpdatesFor(description: string, secondary: string, unit: string, categoryRaw: string,
                      categoryId: Option<int>): (u: PartUpdates)
    ensures u.description.Some? <==> description != ""
    ensures u.unit.Some? <==> unit != ""
    ensures u.category_id.Some? <==> categoryRaw != "" && categoryId.Some?
  {
    PartUpdates(
      if description != "" then Some(description) else None,
      if secondary != "" then Some(Some(secondary)) else None,
      if unit != "" then Some(unit) else None,
      if categoryRaw != "" && categoryId.Some? then Some(categoryId) else None)
  }

  predicate NoUpdates(u: PartUpdates)
  {
    u.description.None? && u.secondary_description.None? && u.unit.None? && u.category_id.None?
  }

  /** The part created for a new (part number, manufacturer) pair. */
  function NewPart(partNumber: string, mfrId: int, description: string, secondary: string,
                   categoryId: Option<int>, unit: string): (p: Part)
    ensures p.unit == (if unit == "" then "EA" else unit)
    ensures p.secondary_description.None? <==> secondary == ""
  {
    Part(0, partNumber, mfrId, description, if secondary == "" then None else Some(secondary), categoryId,
         if unit == "" then "EA" else unit)
  }

  /** The manufacturer id for a non-empty name: the cached one, or a new manufacturer added to the cache. */
  function Resolve(acc: Acc, name: string): (r: (Acc, int))
    ensures r.0.result == acc.result && r.0.db.categories == acc.db.categories && r.0.db.parts == acc.db.parts
  {
    var lower := ToLower(name);
    if lower in acc.mfrs && acc.mfrs[lower] != 0 then (acc, acc.mfrs[lower])
    else (acc.(db := AddManufacturer(acc.db, name), mfrs := acc.mfrs[lower := acc.db.nextId]), acc.db.nextId)
  }

  /** The body of the loop for row i (no database failure is modelled). */
  function RowStep(acc: Acc, cats: map<string, int>, row: Record<string>, i: nat, mapping: PartsMapping,
                   headers: seq<string>): Acc
  {
    var mRaw := Cell(row, headers, mapping.manufacturer);
    if mRaw == "" then acc.(result := Fail(acc.result, i, "Manufacturer is required"))
    else
      var (acc1, mfrId) := Resolve(acc, mRaw);
      acc1.(db := PartStep(acc1.db, acc1.result, mfrId, cats, row, i, mapping, headers).0,
            result := PartStep(acc1.db, acc1.result, mfrId, cats, row, i, mapping, headers).1)
  }

  /** The rest of the row once the manufacturer is known: check the part number, then update or create. */
  function PartStep(db: Catalogue, res: ImportResult, mfrId: int, cats: map<string, int>, row: Record<string>,
                    i: nat, mapping: PartsMapping, headers: seq<string>): (Catalogue, ImportResult)
  {
    var partNumber := Cell(row, headers, mapping.partNumber);
    if partNumber == "" then (db, Fail(res, i, "Part Number is required"))
    else
      var description := Cell(row, headers, mapping.description);
      var secondary := Cell(row, headers, mapping.secondaryDescription);
      var unit := Cell(row, headers, mapping.unit);
      var categoryRaw := Cell(row, headers, mapping.category);
      Upsert(db, res, i, partNumber, mfrId, description, secondary, unit, categoryRaw, CategoryId(cats, categoryRaw))
  }

  /** Update the existing (part number, manufacturer) part with the non-empty cells, or create it. */
  function Upsert(db: Catalogue, res: ImportResult, i: nat, partNumber: string, mfrId: int, description: string,
                  secondary: string, unit: string, categoryRaw: string, categoryId: Option<int>)
    : (Catalogue, ImportResult)
  {
    match FindPart(db.parts, partNumber, mfrId)
    case Some(k) =>
      var u := UpdatesFor(description, secondary, unit, categoryRaw, categoryId);
      if NoUpdates(u) then (db, res.(skipped := res.skipped + 1))
      else (UpdatePart(db, k, u), res.(updated := res.updated + 1))
    case None =>
      if description == "" then (db, Fail(res, i, "Description is required for new parts"))
      else (AddPart(db, NewPart(partNumber, mfrId, description, secondary, categoryId, unit)),
            res.(created := res.created + 1))
  }

  /** The loop over the rows, from the preloaded maps. */
  function ImportRows(acc: Acc, cats: map<string, int>, rows: seq<Record<string>>, mapping: PartsMapping,
                      headers: seq<string>): Acc
  {
    if rows == [] then acc
    else RowStep(ImportRows(acc, cats, rows[..|rows| - 1], mapping, headers), cats, rows[|rows| - 1], |rows| - 1,
                 mapping, headers)
  }

  /** importPartsFromRows: the final catalogue and result. */
  function ImportSpec(db: Catalogue, rows: seq<Record<string>>, mapping: PartsMapping, headers: seq<string>)
    : (Catalogue, ImportResult)
  {
    if mapping.partNumber.None? then (db, ImportResult(0, 0, 0, [RowError(0, "Part Number column is required")]))
    else
      var acc := ImportRows(Acc(db, ManufacturerMap(db.manufacturers), ImportResult(0, 0, 0, [])),
                            CategoryMap(db.categories), rows, mapping, headers);
      (acc.db, acc.result)
  }

  // ---------------------------------------------------------------------
  // Properties
  // ---------------------------------------------------------------------

  function Total(r: ImportResult): nat
  {
    r.created + r.updated + r.skipped
  }

  /** The result of one row: exactly one counter goes up, and an error only comes with a skip. */
  predicate CountsOneRow(before: ImportResult, after: ImportResult, i: nat)
  {
    Total(after) == Total(before) + 1 &&
    after.skipped >= before.skipped &&
    (after.errors == before.errors ||
     (after.skipped == before.skipped + 1 && |after.errors| == |before.errors| + 1 &&
      after.errors[..|before.errors|] == before.errors && after.errors[|before.errors|].rowIndex == i + 1))
  }

  lemma UpsertCounts(db: Catalogue, res: ImportResult, i: nat, partNumber: string, mfrId: int, description: string,
                     secondary: string, unit: string, categoryRaw: string, categoryId: Option<int>)
    ensures CountsOneRow(res, Upsert(db, res, i, partNumber, mfrId, description, secondary, unit, categoryRaw,
                                     categoryId).1, i)
  {
  }

  lemma RowStepCounts(acc: Acc, cats: map<string, int>, row: Record<string>, i: nat, mapping: PartsMapping,
                      headers: seq<string>)
    ensures CountsOneRow(acc.result, RowStep(acc, cats, row, i, mapping, headers).result, i)
  {
    var mRaw := Cell(row, headers, mapping.manufacturer);
    if mRaw != "" {
      var (acc1, mfrId) := Resolve(acc, mRaw);
      var partNumber := Cell(row, headers, mapping.partNumber);
      if partNumber != "" {
        var categoryRaw := Cell(row, headers, mapping.category);
        UpsertCounts(acc1.db, acc1.result, i, partNumber, mfrId, Cell(row, headers, mapping.description),
                     Cell(row, headers, mapping.secondaryDescription), Cell(row, headers, mapping.unit), categoryRaw,
                     CategoryId(cats, categoryRaw));
      }
    }
  }

  /** Errors name 1-based rows in 1..n, at most one per row, in row order. */
  predicate ErrorRows(errors: seq<RowError>, n: nat)
  {
    (forall k :: 0 <= k < |errors| ==> 1 <= errors[k].rowIndex <= n) &&
    (forall k, l :: 0 <= k < l < |errors| ==> errors[k].rowIndex < errors[l].rowIndex)
  }

  /**
   * Each row increments exactly one of created, updated and skipped, every
   * error carries its 1-based row number, and every errored row is counted
   * as skipped.
   */
  lemma {:induction false} ImportRowsCounts(acc: Acc, cats: map<string, int>, rows: seq<Record<string>>,
                                            mapping: PartsMapping, headers: seq<string>)
    requires acc.result == ImportResult(0, 0, 0, [])
    ensures Total(ImportRows(acc, cats, rows, mapping, headers).result) == |rows|
    ensures ErrorRows(ImportRows(acc, cats, rows, mapping, headers).result.errors, |rows|)
    ensures |ImportRows(acc, cats, rows, mapping, headers).result.errors|
            <= ImportRows(acc, cats, rows, mapping, headers).result.skipped
  {
    if rows != [] {
      var n := |rows| - 1;
      ImportRowsCounts(acc, cats, rows[..n], mapping, headers);
      var prev := ImportRows(acc, cats, rows[..n], mapping, headers);
      RowStepCounts(prev, cats, rows[n], n, mapping, headers);
      ErrorRowsStep(prev.result, ImportRows(acc, cats, rows, mapping, headers).result, n);
    }
  }

  lemma ErrorRowsStep(before: ImportResult, after: ImportResult, n: nat)
    requires ErrorRows(before.errors, n) && |before.errors| <= before.skipped
    requires CountsOneRow(before, after, n)
    ensures ErrorRows(after.errors, n + 1) && |after.errors| <= after.skipped
  {
    var errs := after.errors;
    if errs != before.errors {
      forall k, l | 0 <= k < l < |errs| ensures errs[k].rowIndex < errs[l].rowIndex {
        assert errs[k] == before.errors[k];
        if l < |before.errors| {
          assert errs[l] == before.errors[l];
        }
      }
      forall k | 0 <= k < |errs| ensures 1 <= errs[k].rowIndex <= n + 1 {
        if k < |before.errors| {
          assert errs[k] == before.errors[k];
        }
      }
    }
  }

  /** Without a part-number column nothing is written and the one error is at row 0. */
  lemma NoPartNumberColumn(db: Catalogue, rows: seq<Record<string>>, mapping: PartsMapping, headers: seq<string>)
    requires mapping.partNumber.None?
    ensures ImportSpec(db, rows, mapping, headers).0 == db
    ensures ImportSpec(db, rows, mapping, headers).1.errors == [RowError(0, "Part Number column is required")]
    ensures Total(ImportSpec(db, rows, mapping, headers).1) == 0
  {
  }

  /** The counters of importPartsFromRows add up to the number of rows. */
  lemma ImportCounts(db: Catalogue, rows: seq<Record<string>>, mapping: PartsMapping, headers: seq<string>)
    requires mapping.partNumber.Some?
    ensures Total(ImportSpec(db, rows, mapping, headers).1) == |rows|
    ensures ErrorRows(ImportSpec(db, rows, mapping, headers).1.errors, |rows|)
    ensures |ImportSpec(db, rows, mapping, headers).1.errors| <= ImportSpec(db, rows, mapping, headers).1.skipped
  {
    ImportRowsCounts(Acc(db, ManufacturerMap(db.manufacturers), ImportResult(0, 0, 0, [])),
                     CategoryMap(db.categories), rows, mapping, headers);
  }

  /** No category is ever created or changed. */
  lemma {:induction false} CategoriesUntouched(acc: Acc, cats: map<string, int>, rows: seq<Record<string>>,
                                               mapping: PartsMapping, headers: seq<string>)
    ensures ImportRows(acc, cats, rows, mapping, headers).db.categories == acc.db.categories
  {
    if rows != [] {
      var n := |rows| - 1;
      CategoriesUntouched(acc, cats, rows[..n], mapping, headers);
      RowStepCategories(ImportRows(acc, cats, rows[..n], mapping, headers), cats, rows[n], n, mapping, headers);
    }
  }

  lemma RowStepCategories(acc: Acc, cats: map<string, int>, row: Record<string>, i: nat, mapping: PartsMapping,
                          headers: seq<string>)
    ensures RowStep(acc, cats, row, i, mapping, headers).db.categories == acc.db.categories
  {
    var mRaw := Cell(row, headers, mapping.manufacturer);
    if mRaw != "" {
      var (acc1, mfrId) := Resolve(acc, mRaw);
      assert acc1.db.categories == acc.db.categories;
      var partNumber := Cell(row, headers, mapping.partNumber);
      if partNumber != "" {
        var categoryRaw := Cell(row, headers, mapping.category);
        UpsertKeepsManufacturers(acc1.db, acc1.result, i, partNumber, mfrId, Cell(row, headers, mapping.description),
                                 Cell(row, headers, mapping.secondaryDescription), Cell(row, headers, mapping.unit),
                                 categoryRaw, CategoryId(cats, categoryRaw));
      }
    }
  }

  /**
   * The manufacturer cache covers every manufacturer under its lower-cased
   * name with a truthy id, the lower-cased names are distinct, and ids to
   * come are positive.
   */
  predicate CacheInv(acc: Acc)
  {
    acc.db.nextId > 0 &&
    (forall j :: 0 <= j < |acc.db.manufacturers| ==>
       ToLower(acc.db.manufacturers[j].name) in acc.mfrs && acc.mfrs[ToLower(acc.db.manufacturers[j].name)] != 0) &&
    (forall j, k :: 0 <= j < k < |acc.db.manufacturers| ==>
       ToLower(acc.db.manufacturers[j].name) != ToLower(acc.db.manufacturers[k].name)) &&
    (forall key :: key in acc.mfrs ==> acc.mfrs[key] != 0 ==> acc.mfrs[key] > 0)
  }

  lemma ResolveKeepsCache(acc: Acc, name: string)
    requires CacheInv(acc)
    ensures CacheInv(Resolve(acc, name).0)
    ensures |Resolve(acc, name).0.db.manufacturers| <= |acc.db.manufacturers| + 1
  {
    var lower := ToLower(name);
    if !(lower in acc.mfrs && acc.mfrs[lower] != 0) {
      var ms := acc.db.manufacturers;
      var ms' := Resolve(acc, name).0.db.manufacturers;
      assert ms' == ms + [Manufacturer(acc.db.nextId, name, None)];
      forall j | 0 <= j < |ms| ensures ToLower(ms[j].name) != lower {
      }
      forall j, k | 0 <= j < k < |ms'| ensures ToLower(ms'[j].name) != ToLower(ms'[k].name) {
        if k == |ms| {
          assert ms'[j] == ms[j];
        } else {
          assert ms'[j] == ms[j] && ms'[k] == ms[k];
        }
      }
    }
  }

  lemma UpsertKeepsManufacturers(db: Catalogue, res: ImportResult, i: nat, partNumber: string, mfrId: int,
                                 description: string, secondary: string, unit: string, categoryRaw: string,
                                 categoryId: Option<int>)
    ensures var db' := Upsert(db, res, i, partNumber, mfrId, description, secondary, unit, categoryRaw, categoryId).0;
            db'.manufacturers == db.manufacturers && db'.categories == db.categories && db'.nextId >= db.nextId
  {
  }

  /**
   * The cache makes each manufacturer name, ignoring case, created at most
   * once: the loop keeps the lower-cased names of the manufacturers distinct.
   */
  lemma {:induction false} ManufacturersStayDistinct(acc: Acc, cats: map<string, int>, rows: seq<Record<string>>,
                                                     mapping: PartsMapping, headers: seq<string>)
    requires CacheInv(acc)
    ensures CacheInv(ImportRows(acc, cats, rows, mapping, headers))
  {
    if rows != [] {
      var n := |rows| - 1;
      ManufacturersStayDistinct(acc, cats, rows[..n], mapping, headers);
      var prev := ImportRows(acc, cats, rows[..n], mapping, headers);
      var mRaw := Cell(rows[n], headers, mapping.manufacturer);
      if mRaw != "" {
        ResolveKeepsCache(prev, mRaw);
        var (acc1, mfrId) := Resolve(prev, mRaw);
        var partNumber := Cell(rows[n], headers, mapping.partNumber);
        if partNumber != "" {
          var categoryRaw := Cell(rows[n], headers, mapping.category);
          UpsertKeepsManufacturers(acc1.db, acc1.result, n, partNumber, mfrId, Cell(rows[n], headers, mapping.description),
                     Cell(rows[n], headers, mapping.secondaryDescription), Cell(rows[n], headers, mapping.unit),
                     categoryRaw, CategoryId(cats, categoryRaw));
        }
      }
    }
  }

  // ---------------------------------------------------------------------
  // The database calls and the loop
  // ---------------------------------------------------------------------

  /** The catalogue tables the importer talks to, updated in place. */
  class CatalogueDb {
    var manufacturers: seq<Manufacturer>
    var categories: seq<Category>
    var parts: seq<Part>
    var nextId: int

    function Snapshot(): Catalogue
      reads this
    {
      Catalogue(manufacturers, categories, parts, nextId)
    }

    constructor (c: Catalogue)
      ensures Snapshot() == c
    {
      manufacturers := c.manufacturers;
      categories := c.categories;
      parts := c.parts;
      nextId := c.nextId;
    }

    method CreateManufacturer(name: string) returns (id: int)
      modifies this
      ensures Snapshot() == AddManufacturer(old(Snapshot()), name)
      ensures id == old(nextId)
    {
      id := nextId;
      manufacturers := manufacturers + [Manufacturer(id, name, None)];
      nextId := nextId + 1;
    }

    method CreatePart(p: Part) returns (id: int)
      modifies this
      ensures Snapshot() == AddPart(old(Snapshot()), p)
      ensures id == old(nextId)
    {
      id := nextId;
      parts := parts + [p.(id := id)];
      nextId := nextId + 1;
    }

    method Update(k: nat, u: PartUpdates)
      requires k < |parts|
      modifies this
      ensures Snapshot() == UpdatePart(old(Snapshot()), k, u)
    {
      parts := parts[k := ApplyUpdates(parts[k], u)];
    }
  }

  /** importPartsFromRows over the database object. */
  method ImportPartsFromRows(db: CatalogueDb, rows: seq<Record<string>>, mapping: PartsMapping, headers: seq<string>)
    returns (result: ImportResult)
    modifies db
    ensures (db.Snapshot(), result) == ImportSpec(old(db.Snapshot()), rows, mapping, headers)
  {
    if mapping.partNumber.None? {
      return ImportResult(0, 0, 0, [RowError(0, "Part Number column is required")]);
    }
    var mfrs := ManufacturerMap(db.manufacturers);
    var cats := CategoryMap(db.categories);
    result := ImportResult(0, 0, 0, []);
    ghost var start := Acc(db.Snapshot(), mfrs, result);
    var i := 0;
    while i < |rows|
      invariant 0 <= i <= |rows|
      invariant Acc(db.Snapshot(), mfrs, result) == ImportRows(start, cats, rows[..i], mapping, headers)
    {
      ImportRowsNext(start, cats, rows, i, mapping, headers);
      mfrs, result := ImportRow(db, mfrs, cats, rows[i], i, mapping, headers, result);
      i := i + 1;
    }
    assert rows[..i] == rows;
  }

  lemma ImportRowsNext(acc: Acc, cats: map<string, int>, rows: seq<Record<string>>, i: nat, mapping: PartsMapping,
                       headers: seq<string>)
    requires i < |rows|
    ensures ImportRows(acc, cats, rows[..i + 1], mapping, headers)
            == RowStep(ImportRows(acc, cats, rows[..i], mapping, headers), cats, rows[i], i, mapping, headers)
  {
    assert rows[..i + 1][..i] == rows[..i];
  }

  /** One pass of the loop: validate, resolve the manufacturer, then update or create the part. */
  method ImportRow(db: CatalogueDb, mfrs: map<string, int>, cats: map<string, int>, row: Record<string>, i: nat,
                   mapping: PartsMapping, headers: seq<string>, res: ImportResult)
    returns (mfrs': map<string, int>, res': ImportResult)
    modifies db
    ensures Acc(db.Snapshot(), mfrs', res') == RowStep(Acc(old(db.Snapshot()), mfrs, res), cats, row, i, mapping, headers)
  {
    mfrs' := mfrs;
    var mRaw := Cell(row, headers, mapping.manufacturer);
    if mRaw == "" {
      return mfrs, Fail(res, i, "Manufacturer is required");
    }
    var lower := ToLower(mRaw);
    var mfrId: int;
    if lower in mfrs && mfrs[lower] != 0 {
      mfrId := mfrs[lower];
    } else {
      mfrId := db.CreateManufacturer(mRaw);
      mfrs' := mfrs[lower := mfrId];
    }
    res' := ImportPart(db, res, mfrId, cats, row, i, mapping, headers);
  }

  /** The part half of a pass: the part-number check, then update or create. */
  method ImportPart(db: CatalogueDb, res: ImportResult, mfrId: int, cats: map<string, int>, row: Record<string>,
                    i: nat, mapping: PartsMapping, headers: seq<string>) returns (res': ImportResult)
    modifies db
    ensures (db.Snapshot(), res') == PartStep(old(db.Snapshot()), res, mfrId, cats, row, i, mapping, headers)
  {
    var partNumber := Cell(row, headers, mapping.partNumber);
    if partNumber == "" {
      return Fail(res, i, "Part Number is required");
    }
    var description := Cell(row, headers, mapping.description);
    var secondary := Cell(row, headers, mapping.secondaryDescription);
    var unit := Cell(row, headers, mapping.unit);
    var categoryRaw := Cell(row, headers, mapping.category);
    res' := UpsertPart(db, res, i, partNumber, mfrId, description, secondary, unit, categoryRaw,
                       CategoryId(cats, categoryRaw));
  }

  method UpsertPart(db: CatalogueDb, res: ImportResult, i: nat, partNumber: string, mfrId: int, description: string,
                    secondary: string, unit: string, categoryRaw: string, categoryId: Option<int>)
    returns (res': ImportResult)
    modifies db
    ensures (db.Snapshot(), res')
            == Upsert(old(db.Snapshot()), res, i, partNumber, mfrId, description, secondary, unit, categoryRaw, categoryId)
  {
    var existing := FindPart(db.parts, partNumber, mfrId);
    if existing.Some? {
      var u := UpdatesFor(description, secondary, unit, categoryRaw, categoryId);
      if NoUpdates(u) {
        res' := res.(skipped := res.skipped + 1);
      } else {
        db.Update(existing.value, u);
        res' := res.(updated := res.updated + 1);
      }
    } else if description == "" {
      res' := Fail(res, i, "Description is required for new parts");
    } else {
      var _ := db.CreatePart(NewPart(partNumber, mfrId, description, secondary, categoryId, unit));
      res' := res.(created := res.created + 1);
    }
  }
}
