// The in-browser database (src/lib/db/mock-client.ts): one JavaScript Map per
// table keyed by id, a counter per table that hands out ids, and the settings
// Map keyed by name. Creates, updates, deletes with their cascades, the bulk
// operations, item duplication, part search and name lookups.

module MockClient {
  import opened Common

  /** A stored record: the object's own keys and values. */
  type Row = map<string, JsValue>

  datatype TableName = JobProjects | Packages | Locations | Items | Exports | Manufacturers | Categories | Parts

  /** One Map and the counter `store.ids` keeps for it. */
  datatype Table = Table(rows: map<int, Row>, next: int)

  /** A settings row. */
  datatype Setting = Setting(key: string, value: Option<string>, updated_at: string)

  /** The `store` object. */
  datatype MockState = MockState(tables: map<TableName, Table>, settings: map<string, Setting>)

  /** `{ rowsAffected, lastInsertId }`. */
  datatype ExecResult = ExecResult(rowsAffected: int, lastInsertId: Option<int>)

  /** Every id handed out lies below the counter, and counters start at 1. */
  predicate IdsBelow(t: Table)
  {
    1 <= t.next && forall k :: k in t.rows ==> 1 <= k < t.next
  }

  /** Every table is present and keeps its ids below its counter. */
  predicate Valid(s: MockState)
  {
    forall n: TableName :: n in s.tables && IdsBelow(s.tables[n])
  }

  const EmptyTable := Table(map[], 1)

  lemma EveryName(tables: map<TableName, Table>, e: Table)
    requires tables == map[JobProjects := e, Packages := e, Locations := e, Items := e, Exports := e,
                           Manufacturers := e, Categories := e, Parts := e]
    ensures forall n: TableName :: n in tables && tables[n] == e
  {
    forall n: TableName
      ensures n in tables && tables[n] == e
    {
      match n
      case JobProjects =>
      case Packages =>
      case Locations =>
      case Items =>
      case Exports =>
      case Manufacturers =>
      case Categories =>
      case Parts =>
    }
  }

  /** The store with nothing in it and every counter at 1. */
  function Empty(): (s: MockState)
    ensures Valid(s)
  {
    var e := EmptyTable;
    var tables := map[JobProjects := e, Packages := e, Locations := e, Items := e, Exports := e,
                       Manufacturers := e, Categories := e, Parts := e];
    EveryName(tables, e);
    MockState(tables, map[])
  }

  // ---------------------------------------------------------------------
  // field helpers
  // ---------------------------------------------------------------------

  /** `record.key`: undefined when the key is missing. */
  function Field(row: Row, key: string): (v: JsValue)
    ensures key !in row ==> v == Undefined
  {
    if key in row then row[key] else Undefined
  }

  /** A text field as the code reads it; the types make these strings, anything else reads as ''. */
  function TextField(row: Row, key: string): (r: string)
    ensures Field(row, key).Str? ==> r == Field(row, key).s
  {
    match Field(row, key)
    case Str(s) => s
    case _ => ""
  }

  function IdValue(id: int): JsValue { Num(id as real) }

  /** `x ?? null`. */
  function OrNull(x: Option<string>): (v: JsValue)
    ensures x.None? <==> v == Null
  {
    match x
    case Some(s) => Str(s)
    case None => Null
  }

  /** `x || null` for an optional string: an empty string becomes null too. */
  function TextOrNull(x: Option<string>): (v: JsValue)
    ensures v == Null <==> x.None? || x.value == ""
  {
    if x.Some? && x.value != "" then Str(x.value) else Null
  }

  /** `x || null` for an optional id: 0 becomes null too. */
  function IdOrNull(x: Option<int>): (v: JsValue)
    ensures v == Null <==> x.None? || x.value == 0
  {
    if x.Some? && x.value != 0 then IdValue(x.value) else Null
  }

  /** `{ ...fields, created_at: now, updated_at: now }` (the id is added on insertion). */
  function Stamped(fields: Row, now: string): (r: Row)
    ensures r.Keys == fields.Keys + {"created_at", "updated_at"}
    ensures forall k :: k in fields && k != "created_at" && k != "updated_at" ==> r[k] == fields[k]
  {
    fields["created_at" := Str(now)]["updated_at" := Str(now)]
  }

  /** `record.project_id === owner`. */
  predicate OwnedBy(row: Row, owner: int)
  {
    Field(row, "project_id") == IdValue(owner)
  }

  // ---------------------------------------------------------------------
  // one table
  // ---------------------------------------------------------------------

  /** `const id = store.ids.t++; store.t.set(id, { ...row, id })`. */
  function Inserted(t: Table, row: Row): (r: Table)
    ensures r.next == t.next + 1
    ensures t.next in r.rows && r.rows[t.next] == row["id" := IdValue(t.next)]
    ensures forall k :: k in r.rows <==> k in t.rows || k == t.next
    ensures forall k :: k in t.rows && k != t.next ==> r.rows[k] == t.rows[k]
  {
    Table(t.rows[t.next := row["id" := IdValue(t.next)]], t.next + 1)
  }

  /** The id handed out is new, larger than every id present, and the table stays valid. */
  lemma InsertFresh(t: Table, row: Row)
    requires IdsBelow(t)
    ensures t.next !in t.rows
    ensures forall k :: k in t.rows ==> k < t.next
    ensures IdsBelow(Inserted(t, row))
    ensures forall k :: k in t.rows ==> Inserted(t, row).rows[k] == t.rows[k]
  {
  }

  /** Two creates in a row hand out strictly increasing ids. */
  lemma InsertIncreasing(t: Table, a: Row, b: Row)
    requires IdsBelow(t)
    ensures var t1 := Inserted(t, a); t.next < t1.next && t1.next !in t1.rows && t.next in t1.rows
  {
  }

  /** `{ ...record, created_at: now, updated_at: now }` for each record of a bulk create. */
  function StampedAll(records: seq<Row>, now: string): (r: seq<Row>)
    ensures |r| == |records| && forall i :: 0 <= i < |r| ==> r[i] == Stamped(records[i], now)
  {
    seq(|records|, i requires 0 <= i < |records| => Stamped(records[i], now))
  }

  /** One create per row, in order. */
  function InsertedAll(t: Table, rs: seq<Row>): (r: Table)
    decreases |rs|
    ensures r.next == t.next + |rs|
  {
    if rs == [] then t else Inserted(InsertedAll(t, rs[..|rs| - 1]), rs[|rs| - 1])
  }

  lemma InsertedAllStep(t: Table, rs: seq<Row>, i: nat)
    requires i < |rs|
    ensures InsertedAll(t, rs[..i + 1]) == Inserted(InsertedAll(t, rs[..i]), rs[i])
  {
    assert rs[..i + 1][..i] == rs[..i];
  }

  /** The results of `count` creates in a row starting at id `start`. */
  function Created(start: int, count: nat): (r: seq<ExecResult>)
    ensures |r| == count
  {
    if count == 0 then [] else Created(start, count - 1) + [ExecResult(1, Some(start + count - 1))]
  }

  lemma CreatedStep(start: int, count: nat)
    ensures Created(start, count + 1) == Created(start, count) + [ExecResult(1, Some(start + count))]
  {
  }

  /** The j-th result reports one row and the id `start + j`. */
  lemma {:induction false} CreatedIds(start: int, count: nat)
    ensures forall j :: 0 <= j < count ==> Created(start, count)[j] == ExecResult(1, Some(start + j))
  {
    if count > 0 {
      CreatedIds(start, count - 1);
    }
  }

  /** The i-th row gets id `next + i`, and the records already there are untouched. */
  lemma {:induction false} InsertedAllRows(t: Table, rs: seq<Row>)
    requires IdsBelow(t)
    ensures IdsBelow(InsertedAll(t, rs))
    ensures forall k :: k in InsertedAll(t, rs).rows <==> k in t.rows || t.next <= k < t.next + |rs|
    ensures forall i :: 0 <= i < |rs| ==> InsertedAll(t, rs).rows[t.next + i] == rs[i]["id" := IdValue(t.next + i)]
    ensures forall k :: k in t.rows ==> InsertedAll(t, rs).rows[k] == t.rows[k]
  {
    if rs != [] {
      var init := rs[..|rs| - 1];
      InsertedAllRows(t, init);
      var mid := InsertedAll(t, init);
      InsertFresh(mid, rs[|rs| - 1]);
      forall i | 0 <= i < |rs|
        ensures InsertedAll(t, rs).rows[t.next + i] == rs[i]["id" := IdValue(t.next + i)]
      {
        if i < |rs| - 1 {
          assert init[i] == rs[i];
        }
      }
    }
  }

  /** An update that merges `patch` into the record, when there is one. */
  function Merged(t: Table, id: int, patch: Row): (r: (Table, int))
    ensures id !in t.rows ==> r == (t, 0)
    ensures id in t.rows ==> r.1 == 1 && r.0.next == t.next && r.0.rows.Keys == t.rows.Keys &&
                             r.0.rows[id] == t.rows[id] + patch
    ensures forall k :: k in t.rows && k != id ==> r.0.rows[k] == t.rows[k]
  {
    if id in t.rows then (t.(rows := t.rows[id := t.rows[id] + patch]), 1) else (t, 0)
  }

  /** `store.t.delete(id)`, reporting whether the key was there. */
  function Removed(t: Table, id: int): (r: (Table, int))
    ensures r.1 == 1 <==> id in t.rows
    ensures r.1 == 0 <==> id !in t.rows
    ensures id !in r.0.rows && r.0.next == t.next
    ensures forall k :: k != id ==> (k in r.0.rows <==> k in t.rows) && (k in t.rows ==> r.0.rows[k] == t.rows[k])
  {
    (t.(rows := t.rows - {id}), if id in t.rows then 1 else 0)
  }

  /** What a cascade leaves of a Map: the records not owned by `owner`. */
  function WithoutOwned(rows: map<int, Row>, owner: int): (r: map<int, Row>)
    ensures forall k :: k in r <==> k in rows && !OwnedBy(rows[k], owner)
    ensures forall k :: k in r ==> r[k] == rows[k]
  {
    map k | k in rows && !OwnedBy(rows[k], owner) :: rows[k]
  }

  lemma WithoutOwnedKeepsIds(t: Table, owner: int)
    requires IdsBelow(t)
    ensures IdsBelow(t.(rows := WithoutOwned(t.rows, owner)))
  {
  }

  /** bulkDelete over one Map, id by id: what is left and how many deletes hit. */
  function BulkDeleted(rows: map<int, Row>, ids: seq<int>): (r: (map<int, Row>, nat))
    ensures forall k :: k in r.0 <==> k in rows && k !in ids
    ensures forall k :: k in r.0 ==> r.0[k] == rows[k]
  {
    if ids == [] then (rows, 0)
    else
      var rest := BulkDeleted(rows - {ids[0]}, ids[1..]);
      (rest.0, rest.1 + (if ids[0] in rows then 1 else 0))
  }

  /** The count bulkDelete reports is the number of records that went. */
  lemma {:induction false} BulkDeleteCount(rows: map<int, Row>, ids: seq<int>)
    ensures BulkDeleted(rows, ids).1 == |rows.Keys - BulkDeleted(rows, ids).0.Keys|
  {
    if ids != [] {
      var x := ids[0];
      var smaller := rows - {x};
      BulkDeleteCount(smaller, ids[1..]);
      var left := BulkDeleted(smaller, ids[1..]).0;
      assert BulkDeleted(rows, ids).0 == left;
      if x in rows {
        assert rows.Keys - left.Keys == {x} + (smaller.Keys - left.Keys);
        assert x !in smaller.Keys - left.Keys;
      } else {
        assert rows.Keys - left.Keys == smaller.Keys - left.Keys;
      }
    }
  }

  /** Listing every id twice deletes the same records and reports the same count. */
  lemma RepeatCountsOnce(rows: map<int, Row>, ids: seq<int>)
    ensures BulkDeleted(rows, ids + ids) == BulkDeleted(rows, ids)
  {
    var once := BulkDeleted(rows, ids);
    var twice := BulkDeleted(rows, ids + ids);
    assert twice.0 == once.0;
    BulkDeleteCount(rows, ids);
    BulkDeleteCount(rows, ids + ids);
  }

  /** `sort_order + 1` in JavaScript: null counts as 0, a boolean as 0 or 1, a string concatenates. */
  function PlusOne(v: JsValue): (r: JsValue)
    ensures v.Num? ==> r == Num(v.n + 1.0)
    ensures v == Null ==> r == Num(1.0)
  {
    match v
    case Num(n) => Num(n + 1.0)
    case Null => Num(1.0)
    case Bool(b) => Num(if b then 2.0 else 1.0)
    case Str(s) => Str(s + "1")
    case Undefined => Undefined
  }

  // ---------------------------------------------------------------------
  // the store: spec functions
  // ---------------------------------------------------------------------

  /** A create on table `n`, with the new id as `lastInsertId`. */
  function Create(s: MockState, n: TableName, row: Row): (r: (MockState, ExecResult))
    requires Valid(s)
    ensures Valid(r.0)
    ensures r.1 == ExecResult(1, Some(s.tables[n].next))
    ensures s.tables[n].next !in s.tables[n].rows
    ensures r.0.tables[n] == Inserted(s.tables[n], row) && r.0.settings == s.settings
    ensures forall m :: m != n ==> r.0.tables[m] == s.tables[m]
  {
    InsertFresh(s.tables[n], row);
    (s.(tables := s.tables[n := Inserted(s.tables[n], row)]), ExecResult(1, Some(s.tables[n].next)))
  }

  /** An update: rowsAffected 0 and nothing changed when the id is missing. */
  function Update(s: MockState, n: TableName, id: int, patch: Row): (r: (MockState, ExecResult))
    requires Valid(s)
    ensures Valid(r.0)
    ensures id !in s.tables[n].rows ==> r.0 == s && r.1.rowsAffected == 0
    ensures r.0.tables[n].rows.Keys == s.tables[n].rows.Keys
    ensures id in s.tables[n].rows ==> r.1.rowsAffected == 1 && r.0.tables[n].rows[id] == s.tables[n].rows[id] + patch
    ensures r.1.lastInsertId.None?
    ensures forall k :: k != id && k in s.tables[n].rows ==> r.0.tables[n].rows[k] == s.tables[n].rows[k]
    ensures forall m :: m != n ==> r.0.tables[m] == s.tables[m]
  {
    var (t, affected) := Merged(s.tables[n], id, patch);
    (s.(tables := s.tables[n := t]), ExecResult(affected, None))
  }

  /** A plain delete: rowsAffected 1 exactly when the key existed. */
  function Delete(s: MockState, n: TableName, id: int): (r: (MockState, ExecResult))
    requires Valid(s)
    ensures Valid(r.0)
    ensures r.1 == ExecResult(if id in s.tables[n].rows then 1 else 0, None)
    ensures id !in r.0.tables[n].rows && r.0.tables[n].next == s.tables[n].next && r.0.settings == s.settings
    ensures forall k :: k != id && k in s.tables[n].rows ==> k in r.0.tables[n].rows && r.0.tables[n].rows[k] == s.tables[n].rows[k]
    ensures forall k :: k in r.0.tables[n].rows ==> k in s.tables[n].rows
    ensures forall m :: m != n ==> r.0.tables[m] == s.tables[m]
  {
    var (t, affected) := Removed(s.tables[n], id);
    (s.(tables := s.tables[n := t]), ExecResult(affected, None))
  }

  /** The loop of a cascade: every record of table `n` whose project_id is `owner` goes. */
  function Dropped(s: MockState, n: TableName, owner: int): (r: MockState)
    requires Valid(s)
    ensures Valid(r) && r.settings == s.settings
    ensures r.tables[n].rows == WithoutOwned(s.tables[n].rows, owner) && r.tables[n].next == s.tables[n].next
    ensures forall m :: m != n ==> r.tables[m] == s.tables[m]
  {
    WithoutOwnedKeepsIds(s.tables[n], owner);
    s.(tables := s.tables[n := s.tables[n].(rows := WithoutOwned(s.tables[n].rows, owner))])
  }

  /** bomJobProjects.delete: the job project and its packages; locations and items stay. */
  function DeleteJobProject(s: MockState, id: int): (r: (MockState, ExecResult))
    requires Valid(s)
    ensures Valid(r.0)
    ensures r.1 == ExecResult(if id in s.tables[JobProjects].rows then 1 else 0, None)
    ensures id !in s.tables[JobProjects].rows ==> r.0 == s
  {
    if id !in s.tables[JobProjects].rows then (s, ExecResult(0, None))
    else (Dropped(Delete(s, JobProjects, id).0, Packages, id), ExecResult(1, None))
  }

  /** bomPackages.delete: the package, its locations and its items. */
  function DeletePackage(s: MockState, id: int): (r: (MockState, ExecResult))
    requires Valid(s)
    ensures Valid(r.0)
    ensures r.1 == ExecResult(if id in s.tables[Packages].rows then 1 else 0, None)
    ensures id !in s.tables[Packages].rows ==> r.0 == s
  {
    if id !in s.tables[Packages].rows then (s, ExecResult(0, None))
    else (Dropped(Dropped(Delete(s, Packages, id).0, Locations, id), Items, id), ExecResult(1, None))
  }

  /** The legacy bomProjects.delete: the package and its locations only. */
  function DeleteLegacyProject(s: MockState, id: int): (r: (MockState, ExecResult))
    requires Valid(s)
    ensures Valid(r.0)
    ensures r.1 == ExecResult(if id in s.tables[Packages].rows then 1 else 0, None)
    ensures id !in s.tables[Packages].rows ==> r.0 == s
  {
    if id !in s.tables[Packages].rows then (s, ExecResult(0, None))
    else (Dropped(Delete(s, Packages, id).0, Locations, id), ExecResult(1, None))
  }

  lemma JobProjectCascade(s: MockState, id: int)
    requires Valid(s) && id in s.tables[JobProjects].rows
    ensures var r := DeleteJobProject(s, id).0;
      id !in r.tables[JobProjects].rows &&
      (forall k :: k in r.tables[Packages].rows ==> !OwnedBy(r.tables[Packages].rows[k], id)) &&
      (forall k :: k in s.tables[Packages].rows && !OwnedBy(s.tables[Packages].rows[k], id) ==> k in r.tables[Packages].rows) &&
      r.tables[Locations] == s.tables[Locations] && r.tables[Items] == s.tables[Items]
  {
  }

  lemma PackageCascade(s: MockState, id: int)
    requires Valid(s) && id in s.tables[Packages].rows
    ensures var r := DeletePackage(s, id).0;
      id !in r.tables[Packages].rows &&
      (forall k :: k in r.tables[Locations].rows ==> !OwnedBy(r.tables[Locations].rows[k], id)) &&
      (forall k :: k in r.tables[Items].rows ==> !OwnedBy(r.tables[Items].rows[k], id)) &&
      r.tables[JobProjects] == s.tables[JobProjects]
  {
  }

  /** The legacy delete leaves the package's items behind. */
  lemma LegacyCascadeKeepsItems(s: MockState, id: int)
    requires Valid(s)
    ensures var r := DeleteLegacyProject(s, id).0;
      r.tables[Items] == s.tables[Items] &&
      forall k :: k in r.tables[Locations].rows ==> !OwnedBy(r.tables[Locations].rows[k], id) || id !in s.tables[Packages].rows
  {
  }

  /** bomItems.duplicate: a copy under a fresh id with sort_order one higher, or an error. */
  function Duplicate(s: MockState, id: int, now: string): (r: Result<(MockState, ExecResult)>)
    requires Valid(s)
    ensures r.Err? <==> id !in s.tables[Items].rows
    ensures r.Ok? ==> Valid(r.value.0) && s.tables[Items].next in r.value.0.tables[Items].rows
    ensures r.Ok? ==> var nid := s.tables[Items].next;
      r.value.1 == ExecResult(1, Some(nid)) && nid !in s.tables[Items].rows &&
      r.value.0.tables[Items].rows[nid]["id" := Undefined] ==
        Stamped(s.tables[Items].rows[id]["sort_order" := PlusOne(Field(s.tables[Items].rows[id], "sort_order"))], now)["id" := Undefined]
  {
    if id !in s.tables[Items].rows then Err("Item not found")
    else
      var item := s.tables[Items].rows[id];
      Ok(Create(s, Items, Stamped(item["sort_order" := PlusOne(Field(item, "sort_order"))], now)))
  }

  // ---------------------------------------------------------------------
  // row builders of the create calls
  // ---------------------------------------------------------------------

  function ManufacturerRow(name: string, code: Option<string>): Row
  {
    map["name" := Str(name), "code" := TextOrNull(code)]
  }

  function CategoryRow(name: string, parentId: Option<int>): Row
  {
    map["name" := Str(name), "parent_id" := IdOrNull(parentId)]
  }

  function JobProjectRow(projectNumber: string, now: string): Row
  {
    Stamped(map["project_number" := Str(projectNumber)], now)
  }

  function PackageRow(projectId: int, packageName: string, name: Option<string>, description: Option<string>,
                      version: string, now: string): Row
  {
    Stamped(map["project_id" := IdValue(projectId), "package_name" := Str(packageName), "name" := OrNull(name),
                "description" := OrNull(description), "version" := Str(version)], now)
  }

  function LocationRow(projectId: int, name: string, exportName: Option<string>, sortOrder: Option<int>,
                       now: string): Row
  {
    Stamped(map["project_id" := IdValue(projectId), "name" := Str(name), "export_name" := OrNull(exportName),
                "sort_order" := if sortOrder.Some? then IdValue(sortOrder.value) else Null], now)
  }

  function ExportRow(projectId: int, filename: string, format: string, version: string, locationId: Option<int>,
                     now: string): Row
  {
    map["project_id" := IdValue(projectId), "location_id" := IdOrNull(locationId), "filename" := Str(filename),
        "format" := Str(format), "version" := Str(version), "exported_at" := Str(now)]
  }

  // ---------------------------------------------------------------------
  // lookups
  // ---------------------------------------------------------------------

  /** The ids of a table in the order its Map yields them: ids are handed out increasing and never reused. */
  function Order(t: Table): (ks: seq<int>)
    requires IdsBelow(t)
    ensures forall k :: k in ks <==> k in t.rows
    ensures forall i, j :: 0 <= i < j < |ks| ==> ks[i] < ks[j]
  {
    AscendingIn(t.rows.Keys, 1, t.next)
  }

  /** The first record, in Map order, whose lowercased name equals the lowercased `name`. */
  function FirstNamed(rows: map<int, Row>, ks: seq<int>, lower: string): (r: Option<Row>)
    requires forall i :: 0 <= i < |ks| ==> ks[i] in rows
    ensures r.Some? ==> r.value in rows.Values && ToLower(TextField(r.value, "name")) == lower
    ensures r.None? ==> forall k :: k in ks ==> ToLower(TextField(rows[k], "name")) != lower
  {
    if ks == [] then None
    else if ToLower(TextField(rows[ks[0]], "name")) == lower then Some(rows[ks[0]])
    else FirstNamed(rows, ks[1..], lower)
  }

  /** manufacturers.getByName and categories.getByName. */
  function GetByName(s: MockState, n: TableName, name: string): (r: Option<Row>)
    requires Valid(s)
    ensures r.Some? ==> r.value in s.tables[n].rows.Values && ToLower(TextField(r.value, "name")) == ToLower(name)
    ensures r.None? ==> forall k :: k in s.tables[n].rows ==> ToLower(TextField(s.tables[n].rows[k], "name")) != ToLower(name)
  {
    FirstNamed(s.tables[n].rows, Order(s.tables[n]), ToLower(name))
  }

  /** Whether a part has the number, ignoring case, and exactly the manufacturer. */
  predicate HasKey(p: Row, lowerNumber: string, manufacturerId: int)
  {
    ToLower(TextField(p, "part_number")) == lowerNumber && Field(p, "manufacturer_id") == IdValue(manufacturerId)
  }

  /** The first part in Map order with that key. */
  function FirstWithKey(rows: map<int, Row>, ks: seq<int>, lowerNumber: string, manufacturerId: int): (r: Option<Row>)
    requires forall i :: 0 <= i < |ks| ==> ks[i] in rows
    ensures r.Some? ==> r.value in rows.Values && HasKey(r.value, lowerNumber, manufacturerId)
    ensures r.None? ==> forall k :: k in ks ==> !HasKey(rows[k], lowerNumber, manufacturerId)
  {
    if ks == [] then None
    else if HasKey(rows[ks[0]], lowerNumber, manufacturerId) then Some(rows[ks[0]])
    else FirstWithKey(rows, ks[1..], lowerNumber, manufacturerId)
  }

  /** parts.getByKey: null exactly when no part has that number, in any case, under that manufacturer. */
  function GetByKey(s: MockState, partNumber: string, manufacturerId: int): (r: Option<Row>)
    requires Valid(s)
    ensures r.Some? ==> r.value in s.tables[Parts].rows.Values && HasKey(r.value, ToLower(partNumber), manufacturerId)
    ensures r.None? ==> forall k :: k in s.tables[Parts].rows ==> !HasKey(s.tables[Parts].rows[k], ToLower(partNumber), manufacturerId)
  {
    FirstWithKey(s.tables[Parts].rows, Order(s.tables[Parts]), ToLower(partNumber), manufacturerId)
  }

  /** `term.toLowerCase().replace('*', '')`: only the first star goes. */
  function SearchTerm(term: string): (r: string)
    ensures |r| == |term| - (if '*' in term then 1 else 0)
    ensures CountChar(r, '*') == CountChar(term, '*') - (if '*' in term then 1 else 0)
  {
    var lower := ToLower(term);
    var i := IndexOf(lower, '*');
    StarKept(term);
    CountSplit(lower, i);
    if i < |lower| then lower[..i] + lower[i + 1..] else lower
  }

  lemma StarKept(s: string)
    ensures forall i :: 0 <= i < |s| ==> (ToLower(s)[i] == '*' <==> s[i] == '*')
    ensures CountChar(ToLower(s), '*') == CountChar(s, '*')
    ensures '*' in ToLower(s) <==> '*' in s
  {
    StarCount(s);
    if '*' in s {
      var i :| 0 <= i < |s| && s[i] == '*';
      assert ToLower(s)[i] == '*';
    }
    if '*' in ToLower(s) {
      var i :| 0 <= i < |ToLower(s)| && ToLower(s)[i] == '*';
      assert s[i] == '*';
    }
  }

  lemma {:induction false} StarCount(s: string)
    ensures CountChar(ToLower(s), '*') == CountChar(s, '*')
  {
    if s != [] {
      StarCount(s[1..]);
      assert ToLower(s)[1..] == ToLower(s[1..]);
    }
  }

  lemma {:induction false} CountSplit(s: string, i: nat)
    requires i <= |s| && (i < |s| ==> s[i] == '*') && forall j :: 0 <= j < i ==> s[j] != '*'
    ensures i < |s| ==> CountChar(s[..i] + s[i + 1..], '*') == CountChar(s, '*') - 1
    ensures i == |s| ==> '*' !in s
  {
    if i < |s| {
      CountConcat(s[..i], s[i + 1..]);
      CountConcat(s[..i], s[i..]);
      assert s[..i] + s[i..] == s;
      assert s[i..] == [s[i]] + s[i + 1..];
      CountConcat([s[i]], s[i + 1..]);
      CountNone(s[..i]);
    }
  }

  lemma {:induction false} CountConcat(a: string, b: string)
    ensures CountChar(a + b, '*') == CountChar(a, '*') + CountChar(b, '*')
  {
    if a != [] {
      assert (a + b)[1..] == a[1..] + b;
      CountConcat(a[1..], b);
    } else {
      assert a + b == b;
    }
  }

  lemma {:induction false} CountNone(a: string)
    requires forall j :: 0 <= j < |a| ==> a[j] != '*'
    ensures CountChar(a, '*') == 0
  {
    if a != [] {
      CountNone(a[1..]);
    }
  }

  /** Whether a part passes the search: the term in its number, description or maker's name, and the maker filter. */
  predicate Keeps(s: MockState, p: Row, lower: string, manufacturerIds: seq<int>)
    requires Valid(s)
  {
    var mfrs := s.tables[Manufacturers].rows;
    var mid := Field(p, "manufacturer_id");
    var mfrName := if mid.Num? && mid.n.Floor as real == mid.n && mid.n.Floor in mfrs
                   then ToLower(TextField(mfrs[mid.n.Floor], "name")) else "";
    (lower == "" || Includes(ToLower(TextField(p, "part_number")), lower) ||
      Includes(ToLower(TextField(p, "description")), lower) || Includes(mfrName, lower)) &&
    (manufacturerIds == [] || exists i :: 0 <= i < |manufacturerIds| && mid == IdValue(manufacturerIds[i]))
  }

  /** The parts that pass, in Map order. */
  function Kept(s: MockState, ks: seq<int>, lower: string, manufacturerIds: seq<int>): (r: seq<int>)
    requires Valid(s) && forall i :: 0 <= i < |ks| ==> ks[i] in s.tables[Parts].rows
    ensures forall k :: k in r <==> k in ks && Keeps(s, s.tables[Parts].rows[k], lower, manufacturerIds)
    ensures |r| <= |ks|
  {
    if ks == [] then []
    else
      var rest := Kept(s, ks[1..], lower, manufacturerIds);
      if Keeps(s, s.tables[Parts].rows[ks[0]], lower, manufacturerIds) then [ks[0]] + rest else rest
  }

  /** `.slice(0, limit)`: a negative limit counts back from the end. */
  function SliceEnd(len: nat, limit: int): (r: nat)
    ensures r <= len
    ensures 0 <= limit ==> r == if limit < len then limit else len
  {
    if limit >= 0 then (if limit < len then limit else len)
    else if len + limit > 0 then len + limit else 0
  }

  /** The part with its maker's name and code and its category's name joined in. */
  function Joined(s: MockState, p: Row): Row
    requires Valid(s)
  {
    var mid := Field(p, "manufacturer_id");
    var cid := Field(p, "category_id");
    var mfr: Option<Row> := if mid.Num? && mid.n.Floor as real == mid.n && mid.n.Floor in s.tables[Manufacturers].rows
                            then Some(s.tables[Manufacturers].rows[mid.n.Floor]) else None;
    var cat: Option<Row> := if cid.Num? && cid.n.Floor as real == cid.n && cid.n.Floor in s.tables[Categories].rows
                            then Some(s.tables[Categories].rows[cid.n.Floor]) else None;
    p["manufacturer_name" := Str(if mfr.Some? then TextField(mfr.value, "name") else "")]
     ["manufacturer_code" := if mfr.Some? && Truthy(Field(mfr.value, "code")) then Field(mfr.value, "code") else Null]
     ["category_name" := if cat.Some? && Truthy(Field(cat.value, "name")) then Field(cat.value, "name") else Null]
  }

  /** parts.search. */
  function Search(s: MockState, term: string, manufacturerIds: seq<int>, limit: int): (r: seq<int>)
    requires Valid(s)
    ensures forall k :: k in r ==> k in s.tables[Parts].rows &&
                                    Keeps(s, s.tables[Parts].rows[k], SearchTerm(term), manufacturerIds)
    ensures 0 <= limit ==> |r| == if limit < |Kept(s, Order(s.tables[Parts]), SearchTerm(term), manufacturerIds)|
                                  then limit else |Kept(s, Order(s.tables[Parts]), SearchTerm(term), manufacturerIds)|
  {
    var kept := Kept(s, Order(s.tables[Parts]), SearchTerm(term), manufacturerIds);
    kept[..SliceEnd(|kept|, limit)]
  }

  /** The rows parts.search returns, with the joins. */
  function SearchRows(s: MockState, term: string, manufacturerIds: seq<int>, limit: int): (r: seq<Row>)
    requires Valid(s)
    ensures |r| == |Search(s, term, manufacturerIds, limit)|
  {
    var ks := Search(s, term, manufacturerIds, limit);
    seq(|ks|, i requires 0 <= i < |ks| => Joined(s, s.tables[Parts].rows[ks[i]]))
  }

  /** With no term and no filter every part passes, up to the limit. */
  lemma SearchEverything(s: MockState, limit: int)
    requires Valid(s) && 0 <= limit
    ensures |Search(s, "", [], limit)| == if limit < |s.tables[Parts].rows| then limit else |s.tables[Parts].rows|
  {
    var ks := Order(s.tables[Parts]);
    var lower := SearchTerm("");
    assert lower == "";
    KeptAll(s, ks, lower);
    assert |ks| == |s.tables[Parts].rows| by { OrderLength(s.tables[Parts]); }
  }

  lemma {:induction false} KeptAll(s: MockState, ks: seq<int>, lower: string)
    requires Valid(s) && forall i :: 0 <= i < |ks| ==> ks[i] in s.tables[Parts].rows
    requires lower == ""
    ensures Kept(s, ks, lower, []) == ks
  {
    if ks != [] {
      KeptAll(s, ks[1..], lower);
    }
  }

  lemma OrderLength(t: Table)
    requires IdsBelow(t)
    ensures |Order(t)| == |t.rows|
  {
    var ks := Order(t);
    DistinctCard(ks);
    assert (set k | k in ks) == t.rows.Keys;
  }

  lemma {:induction false} DistinctCard(ks: seq<int>)
    requires forall i, j :: 0 <= i < j < |ks| ==> ks[i] < ks[j]
    ensures |set k | k in ks| == |ks|
  {
    if ks != [] {
      var tail := ks[1..];
      DistinctCard(tail);
      assert (set k | k in ks) == {ks[0]} + (set k | k in tail);
    }
  }

  /** A term without a star is only lowercased. */
  lemma StarlessTerm(term: string)
    requires '*' !in term
    ensures SearchTerm(term) == ToLower(term)
  {
    StarKept(term);
  }

  /** With no more parts than the limit, the search returns every part that passes. */
  lemma SearchUnderLimit(s: MockState, term: string, manufacturerIds: seq<int>, limit: int)
    requires Valid(s) && |s.tables[Parts].rows| <= limit
    ensures Search(s, term, manufacturerIds, limit) == Kept(s, Order(s.tables[Parts]), SearchTerm(term), manufacturerIds)
  {
    var kept := Kept(s, Order(s.tables[Parts]), SearchTerm(term), manufacturerIds);
    OrderLength(s.tables[Parts]);
    assert kept[..SliceEnd(|kept|, limit)] == kept;
  }

  /** A part whose number holds the term is found whatever the letter case of the term and the number. */
  lemma SearchByNumber(s: MockState, k: int, term: string)
    requires Valid(s) && k in s.tables[Parts].rows
    requires '*' !in term && Includes(ToLower(TextField(s.tables[Parts].rows[k], "part_number")), ToLower(term))
    requires |s.tables[Parts].rows| <= 50
    ensures k in Search(s, term, [], 50)
  {
    StarlessTerm(term);
    SearchUnderLimit(s, term, [], 50);
    assert Keeps(s, s.tables[Parts].rows[k], SearchTerm(term), []);
  }

  // ---------------------------------------------------------------------
  // settings
  // ---------------------------------------------------------------------

  /** settings.get: the stored value, or null for an absent key. */
  function SettingValue(s: MockState, key: string): (r: Option<string>)
    ensures key !in s.settings ==> r.None?
    ensures key in s.settings ==> r == s.settings[key].value
  {
    if key in s.settings then s.settings[key].value else None
  }

  lemma SettingRoundTrip(s: MockState, key: string, value: string, now: string, other: string)
    requires other != key
    ensures var s' := s.(settings := s.settings[key := Setting(key, Some(value), now)]);
      SettingValue(s', key) == Some(value) && SettingValue(s', other) == SettingValue(s, other)
  {
  }

  // ---------------------------------------------------------------------
  // the store object
  // ---------------------------------------------------------------------

  /** A key still to visit exists while the set of pending keys is not empty. */
  lemma PendingKey(pending: set<int>)
    requires pending != {}
    ensures exists k :: k in pending
  {
    if forall k :: k !in pending {
      assert false;
    }
  }

  /** The loop of a cascade over one Map: visit every key, deleting the records the owner owns. */
  method KeepUnowned(rows: map<int, Row>, owner: int) returns (kept: map<int, Row>)
    ensures kept == WithoutOwned(rows, owner)
  {
    kept := rows;
    var pending := rows.Keys;
    while pending != {}
      invariant pending <= rows.Keys
      invariant kept == map k | k in rows && (k in pending || !OwnedBy(rows[k], owner)) :: rows[k]
      decreases |pending|
    {
      PendingKey(pending);
      var k :| k in pending;
      if OwnedBy(rows[k], owner) {
        kept := kept - {k};
      }
      pending := pending - {k};
    }
  }

  /** The loop of a bulk create: one insertion per row, in order, collecting each result. */
  method InsertEach(t0: Table, rows: seq<Row>) returns (t: Table, results: seq<ExecResult>)
    requires IdsBelow(t0)
    ensures t == InsertedAll(t0, rows) && IdsBelow(t)
    ensures results == Created(t0.next, |rows|)
  {
    t := t0;
    results := [];
    var i := 0;
    while i < |rows|
      invariant 0 <= i <= |rows|
      invariant t == InsertedAll(t0, rows[..i]) && t.next == t0.next + i
      invariant results == Created(t0.next, i)
    {
      InsertedAllStep(t0, rows, i);
      CreatedStep(t0.next, i);
      var id := t.next;
      t := Table(t.rows[id := rows[i]["id" := IdValue(id)]], id + 1);
      results := results + [ExecResult(1, Some(id))];
      i := i + 1;
    }
    assert rows[..i] == rows;
    InsertedAllRows(t0, rows);
  }

  class MockDb {
    var state: MockState

    /** A store seeded with nothing: every Map empty, every counter at 1. */
    constructor ()
      ensures state == Empty() && Valid(state)
    {
      state := Empty();
    }

    /** The body shared by every `create`: take the counter, bump it, store the record under it. */
    method Insert(n: TableName, row: Row) returns (res: ExecResult)
      requires Valid(state)
      modifies this
      ensures Valid(state) && state.settings == old(state).settings
      ensures state.tables == old(state).tables[n := Inserted(old(state).tables[n], row)]
      ensures res == ExecResult(1, Some(old(state).tables[n].next))
    {
      InsertFresh(state.tables[n], row);
      var t := state.tables[n];
      var id := t.next;
      t := t.(next := id + 1);
      t := t.(rows := t.rows[id := row["id" := IdValue(id)]]);
      state := state.(tables := state.tables[n := t]);
      res := ExecResult(1, Some(id));
    }

    method CreateManufacturer(name: string, code: Option<string>) returns (res: ExecResult)
      requires Valid(state)
      modifies this
      ensures (state, res) == Create(old(state), Manufacturers, ManufacturerRow(name, code))
    {
      res := Insert(Manufacturers, ManufacturerRow(name, code));
    }

    method CreateCategory(name: string, parentId: Option<int>) returns (res: ExecResult)
      requires Valid(state)
      modifies this
      ensures (state, res) == Create(old(state), Categories, CategoryRow(name, parentId))
    {
      res := Insert(Categories, CategoryRow(name, parentId));
    }

    /** parts.create and bomItems.create: the caller's record, stamped. */
    method CreateRecord(n: TableName, fields: Row, now: string) returns (res: ExecResult)
      requires Valid(state) && (n == Parts || n == Items)
      modifies this
      ensures (state, res) == Create(old(state), n, Stamped(fields, now))
    {
      res := Insert(n, Stamped(fields, now));
    }

    method CreateJobProject(projectNumber: string, now: string) returns (res: ExecResult)
      requires Valid(state)
      modifies this
      ensures (state, res) == Create(old(state), JobProjects, JobProjectRow(projectNumber, now))
    {
      res := Insert(JobProjects, JobProjectRow(projectNumber, now));
    }

    /** bomPackages.create: `metadata ?? null` is stored besides the legacy fields. */
    method CreatePackage(projectId: int, packageName: string, name: Option<string>, description: Option<string>,
                         version: string, metadata: Option<string>, now: string) returns (res: ExecResult)
      requires Valid(state)
      modifies this
      ensures (state, res) == Create(old(state), Packages,
                                     PackageRow(projectId, packageName, name, description, version, now)
                                       ["metadata" := OrNull(metadata)])
    {
      res := Insert(Packages, PackageRow(projectId, packageName, name, description, version, now)
                                ["metadata" := OrNull(metadata)]);
    }

    /** The legacy bomProjects.create: a job project, then a package under it; the package id is returned. */
    method CreateLegacyProject(projectNumber: string, packageName: string, name: Option<string>,
                               description: Option<string>, version: string, now: string) returns (res: ExecResult)
      requires Valid(state)
      modifies this
      ensures var (s1, r1) := Create(old(state), JobProjects, JobProjectRow(projectNumber, now));
        (state, res) == Create(s1, Packages, PackageRow(r1.lastInsertId.value, packageName, name, description, version, now))
    {
      var jp := Insert(JobProjects, JobProjectRow(projectNumber, now));
      res := Insert(Packages, PackageRow(jp.lastInsertId.value, packageName, name, description, version, now));
    }

    method CreateLocation(projectId: int, name: string, exportName: Option<string>, sortOrder: Option<int>,
                          now: string) returns (res: ExecResult)
      requires Valid(state)
      modifies this
      ensures (state, res) == Create(old(state), Locations, LocationRow(projectId, name, exportName, sortOrder, now))
    {
      res := Insert(Locations, LocationRow(projectId, name, exportName, sortOrder, now));
    }

    method CreateExport(projectId: int, filename: string, format: string, version: string,
                        locationId: Option<int>, now: string) returns (res: ExecResult)
      requires Valid(state)
      modifies this
      ensures (state, res) == Create(old(state), Exports, ExportRow(projectId, filename, format, version, locationId, now))
    {
      res := Insert(Exports, ExportRow(projectId, filename, format, version, locationId, now));
    }

    /** The update shared by every table: merge the patch when the id is present. */
    method Patch(n: TableName, id: int, patch: Row) returns (res: ExecResult)
      requires Valid(state)
      modifies this
      ensures (state, res) == Update(old(state), n, id, patch)
    {
      var t := state.tables[n];
      if id in t.rows {
        state := state.(tables := state.tables[n := t.(rows := t.rows[id := t.rows[id] + patch])]);
        res := ExecResult(1, None);
      } else {
        res := ExecResult(0, None);
      }
    }

    /** manufacturers.update: name and `code || null`, no timestamp. */
    method UpdateManufacturer(id: int, name: string, code: Option<string>) returns (res: ExecResult)
      requires Valid(state)
      modifies this
      ensures (state, res) == Update(old(state), Manufacturers, id, ManufacturerRow(name, code))
    {
      res := Patch(Manufacturers, id, ManufacturerRow(name, code));
    }

    /** categories.update: name and `parentId || null`, no timestamp. */
    method UpdateCategory(id: int, name: string, parentId: Option<int>) returns (res: ExecResult)
      requires Valid(state)
      modifies this
      ensures (state, res) == Update(old(state), Categories, id, CategoryRow(name, parentId))
    {
      res := Patch(Categories, id, CategoryRow(name, parentId));
    }

    /** bomLocations.update: name, `exportName ?? null` and the timestamp. */
    method UpdateLocation(id: int, name: string, exportName: Option<string>, now: string) returns (res: ExecResult)
      requires Valid(state)
      modifies this
      ensures (state, res) == Update(old(state), Locations, id,
                                     map["name" := Str(name), "export_name" := OrNull(exportName), "updated_at" := Str(now)])
    {
      res := Patch(Locations, id, map["name" := Str(name), "export_name" := OrNull(exportName), "updated_at" := Str(now)]);
    }

    /** The updates that spread the caller's fields and then stamp updated_at. */
    method UpdateRecord(n: TableName, id: int, updates: Row, now: string) returns (res: ExecResult)
      requires Valid(state) && n in {JobProjects, Packages, Items, Parts}
      modifies this
      ensures (state, res) == Update(old(state), n, id, updates["updated_at" := Str(now)])
    {
      res := Patch(n, id, updates["updated_at" := Str(now)]);
    }

    /** The deletes without a cascade. */
    method Remove(n: TableName, id: int) returns (res: ExecResult)
      requires Valid(state) && n in {Manufacturers, Categories, Parts, Locations, Items, Exports}
      modifies this
      ensures (state, res) == Delete(old(state), n, id)
    {
      var t := state.tables[n];
      var present := id in t.rows;
      state := state.(tables := state.tables[n := t.(rows := t.rows - {id})]);
      res := ExecResult(if present then 1 else 0, None);
    }

    /** The loop a cascade runs: visit every record of a Map, deleting those the owner owns. */
    method DropOwned(n: TableName, owner: int)
      requires Valid(state)
      modifies this
      ensures state == Dropped(old(state), n, owner)
    {
      var t := state.tables[n];
      var kept := KeepUnowned(t.rows, owner);
      state := state.(tables := state.tables[n := t.(rows := kept)]);
    }

    method DeleteJobProjectCascade(id: int) returns (res: ExecResult)
      requires Valid(state)
      modifies this
      ensures (state, res) == DeleteJobProject(old(state), id)
    {
      var t := state.tables[JobProjects];
      if id !in t.rows {
        return ExecResult(0, None);
      }
      state := state.(tables := state.tables[JobProjects := t.(rows := t.rows - {id})]);
      DropOwned(Packages, id);
      res := ExecResult(1, None);
    }

    method DeletePackageCascade(id: int) returns (res: ExecResult)
      requires Valid(state)
      modifies this
      ensures (state, res) == DeletePackage(old(state), id)
    {
      var t := state.tables[Packages];
      if id !in t.rows {
        return ExecResult(0, None);
      }
      state := state.(tables := state.tables[Packages := t.(rows := t.rows - {id})]);
      DropOwned(Locations, id);
      DropOwned(Items, id);
      res := ExecResult(1, None);
    }

    method DeleteLegacyProjectCascade(id: int) returns (res: ExecResult)
      requires Valid(state)
      modifies this
      ensures (state, res) == DeleteLegacyProject(old(state), id)
    {
      var t := state.tables[Packages];
      if id !in t.rows {
        return ExecResult(0, None);
      }
      state := state.(tables := state.tables[Packages := t.(rows := t.rows - {id})]);
      DropOwned(Locations, id);
      res := ExecResult(1, None);
    }

    /** parts.deleteAll: the Map is cleared, the counter kept, and 1 is reported whatever was there. */
    method DeleteAllParts() returns (res: ExecResult)
      requires Valid(state)
      modifies this
      ensures state == old(state).(tables := old(state).tables[Parts := old(state).tables[Parts].(rows := map[])])
      ensures Valid(state) && res == ExecResult(1, None)
    {
      state := state.(tables := state.tables[Parts := state.tables[Parts].(rows := map[])]);
      res := ExecResult(1, None);
    }

    /** bomExports.deleteByProject deletes nothing and reports one row. */
    method DeleteExportsByProject(projectId: int) returns (res: ExecResult)
      ensures res == ExecResult(1, None)
    {
      res := ExecResult(1, None);
    }

    /** bomItems.bulkDelete: one delete per id, counting the hits. */
    method BulkDeleteItems(ids: seq<int>) returns (res: ExecResult)
      requires Valid(state)
      modifies this
      ensures var (left, count) := BulkDeleted(old(state).tables[Items].rows, ids);
        res == ExecResult(count, None) &&
        state == old(state).(tables := old(state).tables[Items := old(state).tables[Items].(rows := left)])
      ensures Valid(state)
    {
      var t := state.tables[Items];
      var rows := t.rows;
      var count := 0;
      var i := 0;
      while i < |ids|
        invariant 0 <= i <= |ids|
        invariant rows.Keys <= t.rows.Keys
        invariant BulkDeleted(rows, ids[i..]).0 == BulkDeleted(t.rows, ids).0
        invariant count + BulkDeleted(rows, ids[i..]).1 == BulkDeleted(t.rows, ids).1
      {
        assert ids[i..][1..] == ids[i + 1..];
        if ids[i] in rows {
          count := count + 1;
        }
        rows := rows - {ids[i]};
        i := i + 1;
      }
      assert ids[i..] == [];
      state := state.(tables := state.tables[Items := t.(rows := rows)]);
      res := ExecResult(count, None);
    }

    /** bomItems.duplicate: an error for a missing id, otherwise an insertion. */
    method DuplicateItem(id: int, now: string) returns (res: Result<ExecResult>)
      requires Valid(state)
      modifies this
      ensures var r := Duplicate(old(state), id, now);
        (r.Err? ==> res.Err? && state == old(state)) && (r.Ok? ==> res == Ok(r.value.1) && state == r.value.0)
    {
      var items := state.tables[Items].rows;
      if id !in items {
        return Err("Item not found");
      }
      var item := items[id];
      var copy := Stamped(item["sort_order" := PlusOne(Field(item, "sort_order"))], now);
      var r := Insert(Items, copy);
      res := Ok(r);
    }

    /** bomPackages.bulkCreate and bomLocations.bulkCreate: one stamped insertion per record, in order. */
    method BulkCreate(n: TableName, records: seq<Row>, now: string) returns (results: seq<ExecResult>)
      requires Valid(state) && (n == Packages || n == Locations)
      modifies this
      ensures Valid(state)
      ensures state == old(state).(tables := old(state).tables[n := InsertedAll(old(state).tables[n], StampedAll(records, now))])
      ensures results == Created(old(state).tables[n].next, |records|)
    {
      var t;
      t, results := InsertEach(state.tables[n], StampedAll(records, now));
      state := state.(tables := state.tables[n := t]);
    }

    /** bomItems.bulkCreate: the same insertions, but every result reads `{ rowsAffected: 1, lastInsertId: 0 }`. */
    method BulkCreateItems(records: seq<Row>, now: string) returns (results: seq<ExecResult>)
      requires Valid(state)
      modifies this
      ensures Valid(state)
      ensures state == old(state).(tables := old(state).tables[Items := InsertedAll(old(state).tables[Items], StampedAll(records, now))])
      ensures |results| == |records| && forall i :: 0 <= i < |results| ==> results[i] == ExecResult(1, Some(0))
    {
      var t, _ := InsertEach(state.tables[Items], StampedAll(records, now));
      state := state.(tables := state.tables[Items := t]);
      results := seq(|records|, _ => ExecResult(1, Some(0)));
    }

    /** settings.set: insert or overwrite the row. */
    method SetSetting(key: string, value: string, now: string) returns (res: ExecResult)
      modifies this
      ensures state == old(state).(settings := old(state).settings[key := Setting(key, Some(value), now)])
      ensures SettingValue(state, key) == Some(value) && res == ExecResult(1, None)
    {
      state := state.(settings := state.settings[key := Setting(key, Some(value), now)]);
      res := ExecResult(1, None);
    }

    /** settings.delete. */
    method DeleteSetting(key: string) returns (res: ExecResult)
      modifies this
      ensures state == old(state).(settings := old(state).settings - {key})
      ensures SettingValue(state, key).None?
      ensures res == ExecResult(if key in old(state).settings then 1 else 0, None)
    {
      var present := key in state.settings;
      state := state.(settings := state.settings - {key});
      res := ExecResult(if present then 1 else 0, None);
    }
  }
}
