// Export of a job project as a package file and import of a package file
// into the BOM tables (src/lib/project-package-io.ts). The database the
// importer talks to is a value: its tables, its id counters and the write
// calls that fail with an error other than a UNIQUE violation.

module ProjectPackageIo {
  import opened Common
  import opened BomTypes
  import opened ProjectPackage

  // =====================================================================
  // Export
  // =====================================================================

  /** A BOM item as `bomItems.getByProject` returns it: with its location's name, if that location exists. */
  datatype LocatedItem = LocatedItem(item: BomItem, location_name: Option<string>)

  /** One package of the job project with its locations and items. */
  datatype PackageData = PackageData(pkg: Package, locations: seq<Location>, items: seq<LocatedItem>)

  const JobProjectNotFound := "Job project not found"

  function PackageEntryOf(p: Package): PackageEntry
  {
    PackageEntry(p.package_name, p.name, p.description, p.version, p.metadata)
  }

  function LocationEntryOf(packageName: string, l: Location): LocationEntry
  {
    LocationEntry(packageName, l.name, l.export_name, l.sort_order as real)
  }

  /** `i.location_name || 'Unknown'`. */
  function LocationNameOr(n: Option<string>): (r: string)
    ensures r != ""
    ensures n.Some? && n.value != "" ==> r == n.value
    ensures n.None? || n.value == "" ==> r == "Unknown"
  {
    if n.Some? && n.value != "" then n.value else "Unknown"
  }

  /** The SQLite 0/1 flag as the file's boolean (`=== 1`). */
  function SpareOf(isSpare: int): (b: bool)
    ensures b <==> isSpare == 1
  {
    isSpare == 1
  }

  /** The file's boolean back as the SQLite flag (`? 1 : 0`). */
  function SpareFlag(b: bool): (f: int)
    ensures f == 0 || f == 1
    ensures SpareOf(f) == b
  {
    if b then 1 else 0
  }

  function ItemEntryOf(packageName: string, li: LocatedItem): ItemEntry
  {
    var d := li.item.data;
    ItemEntry(packageName, LocationNameOr(li.location_name), d.part_number, d.description, d.secondary_description,
              d.quantity, d.unit, d.unit_price, d.manufacturer, d.supplier, d.category, d.reference_designator,
              SpareOf(d.is_spare), li.item.metadata, d.sort_order as real)
  }

  function LocationsOf(p: PackageData): seq<LocationEntry>
  {
    seq(|p.locations|, k requires 0 <= k < |p.locations| => LocationEntryOf(p.pkg.package_name, p.locations[k]))
  }

  function ItemsOf(p: PackageData): seq<ItemEntry>
  {
    seq(|p.items|, k requires 0 <= k < |p.items| => ItemEntryOf(p.pkg.package_name, p.items[k]))
  }

  /** `xs.flatMap(f)`. */
  function FlatMap<A, B>(xs: seq<A>, f: A -> seq<B>): seq<B>
  {
    if xs == [] then [] else FlatMap(xs[..|xs| - 1], f) + f(xs[|xs| - 1])
  }

  /** An element of a flatMap comes from one of the pieces, and every piece's elements are in it. */
  lemma {:induction false} FlatMapMember<A, B>(xs: seq<A>, f: A -> seq<B>, e: B)
    ensures e in FlatMap(xs, f) <==> exists k :: 0 <= k < |xs| && e in f(xs[k])
  {
    if xs != [] {
      var n := |xs| - 1;
      FlatMapMember(xs[..n], f, e);
      if exists k :: 0 <= k < |xs| && e in f(xs[k]) {
        var k :| 0 <= k < |xs| && e in f(xs[k]);
        if k < n {
          assert xs[..n][k] == xs[k];
        }
      }
    }
  }

  /** `packageData.flatMap(p => p.locations.map(...))`. */
  function FlatLocations(data: seq<PackageData>): seq<LocationEntry>
  {
    FlatMap(data, LocationsOf)
  }

  /** `packageData.flatMap(p => p.items.map(...))`. */
  function FlatItems(data: seq<PackageData>): seq<ItemEntry>
  {
    FlatMap(data, ItemsOf)
  }

  function PackageEntries(data: seq<PackageData>): (r: seq<PackageEntry>)
    ensures |r| == |data| && forall k :: 0 <= k < |data| ==> r[k] == PackageEntryOf(data[k].pkg)
  {
    seq(|data|, k requires 0 <= k < |data| => PackageEntryOf(data[k].pkg))
  }

  /**
   * exportJobProjectToFile: `projectNumber` is the job project's number,
   * or nothing when the id is unknown; `exportedAt` is the clock reading.
   * The file it builds passes the schema and reads back as itself.
   */
  function ExportJobProject(projectNumber: Option<string>, data: seq<PackageData>, exportedAt: string)
    : (r: Result<PackageFile>)
    ensures projectNumber.None? ==> r == Err(JobProjectNotFound)
    ensures projectNumber.Some? ==> r.Ok? && Valid(r.value) && ParseFile(EncodeFile(r.value)) == Some(r.value)
    ensures r.Ok? ==> r.value.project_number == projectNumber.value
    ensures r.Ok? ==> r.value.metadata == FileMetadata(exportedAt, None)
  {
    if projectNumber.None? then Err(JobProjectNotFound)
    else
      var f := PackageFile(PackageFormat, PackageVersion, FileMetadata(exportedAt, None), projectNumber.value,
                           PackageEntries(data), FlatLocations(data), FlatItems(data));
      FileRoundTrip(f);
      Ok(f)
  }

  /** The entries of one package are its locations, each tagged with the package's name. */
  lemma LocationsOfMember(p: PackageData, e: LocationEntry)
    ensures e in LocationsOf(p) <==>
            exists j :: 0 <= j < |p.locations| && e == LocationEntryOf(p.pkg.package_name, p.locations[j])
    ensures e in LocationsOf(p) ==> e.package_name == p.pkg.package_name
  {
    if e in LocationsOf(p) {
      var j :| 0 <= j < |LocationsOf(p)| && LocationsOf(p)[j] == e;
      assert e == LocationEntryOf(p.pkg.package_name, p.locations[j]);
    }
    if exists j :: 0 <= j < |p.locations| && e == LocationEntryOf(p.pkg.package_name, p.locations[j]) {
      var j :| 0 <= j < |p.locations| && e == LocationEntryOf(p.pkg.package_name, p.locations[j]);
      assert LocationsOf(p)[j] == e;
    }
  }

  /** The entries of one package are its items, each tagged with the package's name. */
  lemma ItemsOfMember(p: PackageData, e: ItemEntry)
    ensures e in ItemsOf(p) <==>
            exists j :: 0 <= j < |p.items| && e == ItemEntryOf(p.pkg.package_name, p.items[j])
    ensures e in ItemsOf(p) ==> e.package_name == p.pkg.package_name
  {
    if e in ItemsOf(p) {
      var j :| 0 <= j < |ItemsOf(p)| && ItemsOf(p)[j] == e;
      assert e == ItemEntryOf(p.pkg.package_name, p.items[j]);
    }
    if exists j :: 0 <= j < |p.items| && e == ItemEntryOf(p.pkg.package_name, p.items[j]) {
      var j :| 0 <= j < |p.items| && e == ItemEntryOf(p.pkg.package_name, p.items[j]);
      assert ItemsOf(p)[j] == e;
    }
  }

  /** The exported locations are those of the packages, in package order, and nothing else. */
  lemma ExportedLocations(data: seq<PackageData>, e: LocationEntry)
    ensures e in FlatLocations(data) <==> exists k :: 0 <= k < |data| && e in LocationsOf(data[k])
  {
    FlatMapMember(data, LocationsOf, e);
  }

  /** The exported items are those of the packages, and nothing else. */
  lemma ExportedItems(data: seq<PackageData>, e: ItemEntry)
    ensures e in FlatItems(data) <==> exists k :: 0 <= k < |data| && e in ItemsOf(data[k])
  {
    FlatMapMember(data, ItemsOf, e);
  }

  // =====================================================================
  // The tables the importer writes
  // =====================================================================

  datatype PackageRow = PackageRow(
    project_id: int, package_name: string, name: Option<string>, description: Option<string>, version: string,
    metadata: Option<string>)

  datatype LocationRow = LocationRow(project_id: int, name: string, export_name: Option<string>, sort_order: real)

  datatype ItemRow = ItemRow(
    project_id: int,
    location_id: int,
    part_id: Option<int>,
    part_number: string,
    description: string,
    secondary_description: Option<string>,
    quantity: real,
    unit: string,
    unit_price: Option<real>,
    manufacturer: Option<string>,
    supplier: Option<string>,
    category: Option<string>,
    reference_designator: Option<string>,
    is_spare: int,
    metadata: Option<string>,
    sort_order: real)

  /**
   * The BOM tables with their next ids, the number of write calls made so
   * far and, by call number, the calls that fail with some other error.
   */
  datatype Db = Db(
    jobProjects: map<int, string>,
    packages: map<int, PackageRow>,
    locations: map<int, LocationRow>,
    items: seq<ItemRow>,
    nextJob: int,
    nextPackage: int,
    nextLocation: int,
    calls: nat,
    faults: map<nat, string>)

  /** The foreign keys: package → job project, location → package, item → package and location. */
  predicate Linked(db: Db)
  {
    (forall k :: k in db.packages ==> db.packages[k].project_id in db.jobProjects) &&
    (forall k :: k in db.locations ==> db.locations[k].project_id in db.packages) &&
    (forall i :: 0 <= i < |db.items| ==> db.items[i].project_id in db.packages && db.items[i].location_id in db.locations)
  }

  /** Linked, and every id handed out so far is positive and below the next one. */
  predicate Sound(db: Db)
  {
    Linked(db) && db.nextJob > 0 && db.nextPackage > 0 && db.nextLocation > 0 &&
    (forall k :: k in db.jobProjects ==> 0 < k < db.nextJob) &&
    (forall k :: k in db.packages ==> 0 < k < db.nextPackage) &&
    (forall k :: k in db.locations ==> 0 < k < db.nextLocation)
  }

  /** What the importer compares before and after: the four tables. */
  function Tables(db: Db): (map<int, string>, map<int, PackageRow>, map<int, LocationRow>, seq<ItemRow>)
  {
    (db.jobProjects, db.packages, db.locations, db.items)
  }

  /** The result of one insert: its id, a UNIQUE violation, or another error. */
  datatype Outcome = Inserted(id: int) | Duplicate | Failed(message: string)

  function Called(db: Db): (r: Db)
    ensures Tables(r) == Tables(db) && r.calls == db.calls + 1
  {
    db.(calls := db.calls + 1)
  }

  /** `bomJobProjects.create`: project numbers are unique. */
  function CreateJobProject(db: Db, number: string): (Db, Outcome)
  {
    if db.calls in db.faults then (Called(db), Failed(db.faults[db.calls]))
    else if number in db.jobProjects.Values then (Called(db), Duplicate)
    else (Called(db).(jobProjects := db.jobProjects[db.nextJob := number], nextJob := db.nextJob + 1), Inserted(db.nextJob))
  }

  predicate PackageNameTaken(db: Db, jobId: int, name: string)
  {
    exists k :: k in db.packages && db.packages[k].project_id == jobId && db.packages[k].package_name == name
  }

  /** `bomPackages.create`: package names are unique within a job project. */
  function CreatePackage(db: Db, jobId: int, e: PackageEntry, name: string): (Db, Outcome)
  {
    if db.calls in db.faults then (Called(db), Failed(db.faults[db.calls]))
    else if PackageNameTaken(db, jobId, name) then (Called(db), Duplicate)
    else
      var row := PackageRow(jobId, name, e.name, e.description, e.version, e.metadata);
      (Called(db).(packages := db.packages[db.nextPackage := row], nextPackage := db.nextPackage + 1),
       Inserted(db.nextPackage))
  }

  predicate LocationNameTaken(db: Db, packageId: int, name: string)
  {
    exists k :: k in db.locations && db.locations[k].project_id == packageId && db.locations[k].name == name
  }

  /** `bomLocations.create`: location names are unique within a package. */
  function CreateLocation(db: Db, packageId: int, e: LocationEntry, name: string): (Db, Outcome)
  {
    if db.calls in db.faults then (Called(db), Failed(db.faults[db.calls]))
    else if LocationNameTaken(db, packageId, name) then (Called(db), Duplicate)
    else
      var row := LocationRow(packageId, name, e.export_name, e.sort_order);
      (Called(db).(locations := db.locations[db.nextLocation := row], nextLocation := db.nextLocation + 1),
       Inserted(db.nextLocation))
  }

  /** `bomItems.bulkCreate`: all rows, or an error and none. */
  function BulkCreateItems(db: Db, rows: seq<ItemRow>): (Db, Option<string>)
  {
    if db.calls in db.faults then (Called(db), Some(db.faults[db.calls]))
    else (Called(db).(items := db.items + rows), None)
  }

  /** The items whose package is not in `gone`, in order. */
  function KeepItems(items: seq<ItemRow>, gone: set<int>): (r: seq<ItemRow>)
    ensures |r| <= |items|
  {
    if items == [] then []
    else
      var rest := KeepItems(items[..|items| - 1], gone);
      if items[|items| - 1].project_id in gone then rest else rest + [items[|items| - 1]]
  }

  /** The packages of job project `j`. */
  function PackagesOf(db: Db, j: int): set<int>
  {
    set k | k in db.packages && db.packages[k].project_id == j
  }

  /** What deleting job project `j` leaves: its packages, their locations and their items go with it. */
  function CascadeDelete(db: Db, j: int): Db
  {
    var gone := PackagesOf(db, j);
    Called(db).(
      jobProjects := db.jobProjects - {j},
      packages := map k | k in db.packages && k !in gone :: db.packages[k],
      locations := map k | k in db.locations && db.locations[k].project_id !in gone :: db.locations[k],
      items := KeepItems(db.items, gone))
  }

  /** `bomJobProjects.delete`: the cascade, or an error and no change. */
  function DeleteJobProject(db: Db, j: int): (Db, Option<string>)
  {
    if db.calls in db.faults then (Called(db), Some(db.faults[db.calls])) else (CascadeDelete(db, j), None)
  }

  // ---------------------------------------------------------------------
  // What one import adds, and why the rollback removes exactly that
  // ---------------------------------------------------------------------

  /** Package `p` belongs to job project `j`. */
  predicate Owned(db: Db, p: int, j: int)
  {
    p in db.packages && db.packages[p].project_id == j
  }

  /**
   * `after` is `before` plus job project `j` and only rows under it: old
   * rows are untouched and every new row hangs off `j`.
   */
  predicate Grown(before: Db, after: Db, j: int)
  {
    j !in before.jobProjects && j in after.jobProjects && after.jobProjects - {j} == before.jobProjects &&
    (forall k :: k in before.packages ==> k in after.packages && after.packages[k] == before.packages[k]) &&
    (forall k :: k in after.packages && k !in before.packages ==> after.packages[k].project_id == j) &&
    (forall k :: k in before.locations ==> k in after.locations && after.locations[k] == before.locations[k]) &&
    (forall k :: k in after.locations && k !in before.locations ==> Owned(after, after.locations[k].project_id, j)) &&
    |before.items| <= |after.items| && after.items[..|before.items|] == before.items &&
    (forall i :: |before.items| <= i < |after.items| ==> Owned(after, after.items[i].project_id, j))
  }

  lemma {:induction false} KeepItemsAppend(xs: seq<ItemRow>, ys: seq<ItemRow>, gone: set<int>)
    ensures KeepItems(xs + ys, gone) == KeepItems(xs, gone) + KeepItems(ys, gone)
    decreases |ys|
  {
    if ys == [] {
      assert xs + ys == xs;
    } else {
      var n := |ys| - 1;
      KeepItemsAppend(xs, ys[..n], gone);
      assert (xs + ys)[..|xs + ys| - 1] == xs + ys[..n];
    }
  }

  lemma {:induction false} KeepItemsAll(xs: seq<ItemRow>, gone: set<int>)
    requires forall i :: 0 <= i < |xs| ==> xs[i].project_id !in gone
    ensures KeepItems(xs, gone) == xs
  {
    if xs != [] {
      KeepItemsAll(xs[..|xs| - 1], gone);
    }
  }

  lemma {:induction false} KeepItemsNone(xs: seq<ItemRow>, gone: set<int>)
    requires forall i :: 0 <= i < |xs| ==> xs[i].project_id in gone
    ensures KeepItems(xs, gone) == []
  {
    if xs != [] {
      KeepItemsNone(xs[..|xs| - 1], gone);
    }
  }

  lemma RollbackPackages(before: Db, after: Db, j: int)
    requires Linked(before) && Grown(before, after, j)
    ensures CascadeDelete(after, j).packages == before.packages
  {
    var gone := PackagesOf(after, j);
    var r := CascadeDelete(after, j);
    forall k ensures (k in r.packages) == (k in before.packages) {
      if k !in after.packages {
      } else if k in before.packages {
        assert before.packages[k].project_id in before.jobProjects;
      } else {
        assert k in gone;
      }
    }
    assert r.packages.Keys == before.packages.Keys;
    forall k | k in before.packages ensures r.packages[k] == before.packages[k] {
      assert before.packages[k].project_id in before.jobProjects;
    }
  }

  lemma RollbackLocations(before: Db, after: Db, j: int)
    requires Linked(before) && Grown(before, after, j)
    ensures CascadeDelete(after, j).locations == before.locations
  {
    var gone := PackagesOf(after, j);
    var r := CascadeDelete(after, j);
    forall k ensures (k in r.locations) == (k in before.locations) {
      if k !in after.locations {
      } else if k in before.locations {
        var p := before.locations[k].project_id;
        assert p in before.packages;
        assert before.packages[p].project_id in before.jobProjects;
      } else {
        assert after.locations[k].project_id in gone;
      }
    }
    assert r.locations.Keys == before.locations.Keys;
    forall k | k in before.locations ensures r.locations[k] == before.locations[k] {
      var p := before.locations[k].project_id;
      assert p in before.packages;
      assert before.packages[p].project_id in before.jobProjects;
    }
  }

  lemma RollbackItems(before: Db, after: Db, j: int)
    requires Linked(before) && Grown(before, after, j)
    ensures CascadeDelete(after, j).items == before.items
  {
    var gone := PackagesOf(after, j);
    var n := |before.items|;
    var added := after.items[n..];
    assert after.items == before.items + added;
    KeepItemsAppend(before.items, added, gone);
    forall i | 0 <= i < n ensures before.items[i].project_id !in gone {
      var p := before.items[i].project_id;
      assert p in before.packages;
      assert before.packages[p].project_id in before.jobProjects;
    }
    KeepItemsAll(before.items, gone);
    forall i | 0 <= i < |added| ensures added[i].project_id in gone {
      assert added[i] == after.items[n + i];
    }
    KeepItemsNone(added, gone);
  }

  /**
   * The rollback: deleting the imported job project, with its cascade,
   * gives back exactly the tables from before the import.
   */
  lemma RollbackRestores(before: Db, after: Db, j: int)
    requires Linked(before) && Grown(before, after, j)
    ensures Tables(CascadeDelete(after, j)) == Tables(before)
  {
    RollbackPackages(before, after, j);
    RollbackLocations(before, after, j);
    RollbackItems(before, after, j);
  }

  /**
   * `s` to `t` adds only rows under job project `j`: old rows untouched,
   * new packages of `j`, new locations and items in packages of `j`.
   */
  predicate Extends(s: Db, t: Db, j: int)
  {
    t.jobProjects == s.jobProjects &&
    (forall k :: k in s.packages ==> k in t.packages && t.packages[k] == s.packages[k]) &&
    (forall k :: k in t.packages && k !in s.packages ==> t.packages[k].project_id == j) &&
    (forall k :: k in s.locations ==> k in t.locations && t.locations[k] == s.locations[k]) &&
    (forall k :: k in t.locations && k !in s.locations ==> Owned(t, t.locations[k].project_id, j)) &&
    |s.items| <= |t.items| && t.items[..|s.items|] == s.items &&
    (forall i :: |s.items| <= i < |t.items| ==> Owned(t, t.items[i].project_id, j))
  }

  lemma GrownExtends(db: Db, s: Db, t: Db, j: int)
    requires Grown(db, s, j) && Extends(s, t, j)
    ensures Grown(db, t, j)
  {
    assert t.items[..|db.items|] == s.items[..|db.items|];
    forall i | |db.items| <= i < |t.items| ensures Owned(t, t.items[i].project_id, j) {
      if i < |s.items| {
        assert t.items[i] == s.items[i];
      }
    }
  }

  // =====================================================================
  // Import
  // =====================================================================

  /** Why an import stops: the file, a name with no free suffix, or a database error. */
  datatype ImportError = InvalidFile | NamesExhausted(message: string) | Database(message: string)

  datatype Attempt<T> = Done(value: T) | Stopped(error: ImportError)

  const InvalidPackageFile := "Invalid project package file"
  const MaxAttempts := 100
  const JobNamesExhausted := "Could not create unique job project name after 100 attempts"

  function PackageNamesExhausted(name: string): string
  {
    "Could not create unique package name for " + name + " after 100 attempts"
  }

  function LocationNamesExhausted(name: string): string
  {
    "Could not create unique location name for " + name + " after 100 attempts"
  }

  /** The name tried on attempt `n`: the original, then `name (import n)`. */
  function Suffixed(base: string, n: nat): (r: string)
    ensures n == 0 ==> r == base
    ensures |base| < |r| <==> n > 0
  {
    if n == 0 then base else base + " (import " + NatToString(n) + ")"
  }

  /** Different attempts try different names. */
  lemma SuffixedInjective(base: string, m: nat, n: nat)
    requires Suffixed(base, m) == Suffixed(base, n)
    ensures m == n
  {
    if m > 0 && n > 0 {
      var a := Suffixed(base, m);
      var b := Suffixed(base, n);
      var pre := |base + " (import "|;
      assert a[pre..|a| - 1] == NatToString(m);
      assert b[pre..|b| - 1] == NatToString(n);
      NatToStringRoundTrip(m);
      NatToStringRoundTrip(n);
    }
  }

  /** The error an import stops with comes from the database or from running out of suffixes. */
  predicate Explained(db: Db, e: ImportError)
  {
    e.NamesExhausted? || (e.Database? && e.message in db.faults.Values)
  }

  /** A new job project, and nothing else, is what `Grown` allows. */
  lemma JobCreatedGrown(db: Db, db': Db, name: string)
    requires Sound(db)
    requires db' == db.(calls := db'.calls, jobProjects := db.jobProjects[db.nextJob := name], nextJob := db.nextJob + 1)
    ensures Grown(db, db', db.nextJob) && Sound(db')
  {
    assert db'.jobProjects - {db.nextJob} == db.jobProjects;
  }

  /** The job project create loop: the first free name among `number`, `number (import 1)`, … `(import 100)`. */
  method CreateJobProjectUnique(db: Db, number: string) returns (db': Db, r: Attempt<int>, ghost n: nat)
    ensures db'.faults == db.faults
    ensures r.Done? ==> n <= MaxAttempts && r.value == db.nextJob
    ensures r.Done? ==> db' == db.(calls := db'.calls, jobProjects := db.jobProjects[r.value := Suffixed(number, n)],
                                   nextJob := db.nextJob + 1)
    ensures r.Done? ==> (forall m :: 0 <= m < n ==> Suffixed(number, m) in db.jobProjects.Values) &&
                        Suffixed(number, n) !in db.jobProjects.Values
    ensures r.Stopped? ==> db' == db.(calls := db'.calls) && Explained(db, r.error)
    ensures r.Stopped? && r.error.NamesExhausted? ==>
              r.error.message == JobNamesExhausted &&
              forall m :: 0 <= m <= MaxAttempts ==> Suffixed(number, m) in db.jobProjects.Values
  {
    db' := db;
    n := 0;
    var attempt := 0;
    var name := number;
    while true
      invariant db' == db.(calls := db'.calls)
      invariant attempt <= MaxAttempts && name == Suffixed(number, attempt)
      invariant forall m :: 0 <= m < attempt ==> Suffixed(number, m) in db.jobProjects.Values
      decreases MaxAttempts - attempt
    {
      var step := CreateJobProject(db', name);
      db' := step.0;
      match step.1
      case Inserted(id) =>
        n := attempt;
        r := Done(id);
        return;
      case Failed(message) =>
        r := Stopped(Database(message));
        return;
      case Duplicate =>
        attempt := attempt + 1;
        name := Suffixed(number, attempt);
        if attempt > MaxAttempts {
          r := Stopped(NamesExhausted(JobNamesExhausted));
          return;
        }
    }
  }

  /** The row `bomPackages.create` stores for entry `e` under name `name`. */
  function PackageRowOf(jobId: int, e: PackageEntry, name: string): PackageRow
  {
    PackageRow(jobId, name, e.name, e.description, e.version, e.metadata)
  }

  /** One package create loop: the first name among `e.package_name (import n)` free in job project `jobId`. */
  method CreatePackageUnique(db: Db, jobId: int, e: PackageEntry) returns (db': Db, r: Attempt<int>, ghost n: nat)
    ensures db'.faults == db.faults
    ensures r.Done? ==> n <= MaxAttempts && r.value == db.nextPackage
    ensures r.Done? ==> db' == db.(calls := db'.calls,
                                   packages := db.packages[r.value := PackageRowOf(jobId, e, Suffixed(e.package_name, n))],
                                   nextPackage := db.nextPackage + 1)
    ensures r.Done? ==> (forall m :: 0 <= m < n ==> PackageNameTaken(db, jobId, Suffixed(e.package_name, m))) &&
                        !PackageNameTaken(db, jobId, Suffixed(e.package_name, n))
    ensures r.Stopped? ==> db' == db.(calls := db'.calls) && Explained(db, r.error)
    ensures r.Stopped? && r.error.NamesExhausted? ==>
              r.error.message == PackageNamesExhausted(e.package_name) &&
              forall m :: 0 <= m <= MaxAttempts ==> PackageNameTaken(db, jobId, Suffixed(e.package_name, m))
  {
    db' := db;
    n := 0;
    var attempt := 0;
    var name := e.package_name;
    while true
      invariant db' == db.(calls := db'.calls)
      invariant attempt <= MaxAttempts && name == Suffixed(e.package_name, attempt)
      invariant forall m :: 0 <= m < attempt ==> PackageNameTaken(db, jobId, Suffixed(e.package_name, m))
      decreases MaxAttempts - attempt
    {
      var step := CreatePackage(db', jobId, e, name);
      db' := step.0;
      match step.1
      case Inserted(id) =>
        n := attempt;
        r := Done(id);
        return;
      case Failed(message) =>
        r := Stopped(Database(message));
        return;
      case Duplicate =>
        attempt := attempt + 1;
        name := Suffixed(e.package_name, attempt);
        if attempt > MaxAttempts {
          r := Stopped(NamesExhausted(PackageNamesExhausted(e.package_name)));
          return;
        }
    }
  }

  /** The row `bomLocations.create` stores for entry `e` under name `name`. */
  function LocationRowOf(packageId: int, e: LocationEntry, name: string): LocationRow
  {
    LocationRow(packageId, name, e.export_name, e.sort_order)
  }

  /** One location create loop: the first name among `e.name (import n)` free in package `packageId`. */
  method CreateLocationUnique(db: Db, packageId: int, e: LocationEntry) returns (db': Db, r: Attempt<int>, ghost n: nat)
    ensures db'.faults == db.faults
    ensures r.Done? ==> n <= MaxAttempts && r.value == db.nextLocation
    ensures r.Done? ==> db' == db.(calls := db'.calls,
                                   locations := db.locations[r.value := LocationRowOf(packageId, e, Suffixed(e.name, n))],
                                   nextLocation := db.nextLocation + 1)
    ensures r.Done? ==> (forall m :: 0 <= m < n ==> LocationNameTaken(db, packageId, Suffixed(e.name, m))) &&
                        !LocationNameTaken(db, packageId, Suffixed(e.name, n))
    ensures r.Stopped? ==> db' == db.(calls := db'.calls) && Explained(db, r.error)
    ensures r.Stopped? && r.error.NamesExhausted? ==>
              r.error.message == LocationNamesExhausted(e.name) &&
              forall m :: 0 <= m <= MaxAttempts ==> LocationNameTaken(db, packageId, Suffixed(e.name, m))
  {
    db' := db;
    n := 0;
    var attempt := 0;
    var name := e.name;
    while true
      invariant db' == db.(calls := db'.calls)
      invariant attempt <= MaxAttempts && name == Suffixed(e.name, attempt)
      invariant forall m :: 0 <= m < attempt ==> LocationNameTaken(db, packageId, Suffixed(e.name, m))
      decreases MaxAttempts - attempt
    {
      var step := CreateLocation(db', packageId, e, name);
      db' := step.0;
      match step.1
      case Inserted(id) =>
        n := attempt;
        r := Done(id);
        return;
      case Failed(message) =>
        r := Stopped(Database(message));
        return;
      case Duplicate =>
        attempt := attempt + 1;
        name := Suffixed(e.name, attempt);
        if attempt > MaxAttempts {
          r := Stopped(NamesExhausted(LocationNamesExhausted(e.name)));
          return;
        }
    }
  }

  /** The package names of `entries`. */
  function PackageNames(entries: seq<PackageEntry>): set<string>
  {
    set k | 0 <= k < |entries| :: entries[k].package_name
  }

  lemma PackageNamesStep(entries: seq<PackageEntry>, i: nat)
    requires i < |entries|
    ensures PackageNames(entries[..i + 1]) == PackageNames(entries[..i]) + {entries[i].package_name}
  {
    var a := entries[..i + 1];
    var b := entries[..i];
    forall x | x in PackageNames(a) ensures x in PackageNames(b) + {entries[i].package_name} {
      var k :| 0 <= k < |a| && a[k].package_name == x;
      if k < i {
        assert b[k] == a[k];
      }
    }
    forall x | x in PackageNames(b) ensures x in PackageNames(a) {
      var k :| 0 <= k < |b| && b[k].package_name == x;
      assert a[k] == b[k];
    }
    assert a[i] == entries[i];
  }

  /** Package `id` is one this import created under job project `j`. */
  predicate NewPackage(s: Db, t: Db, id: int, j: int)
  {
    id in t.packages && id !in s.packages && t.packages[id].project_id == j
  }

  /** The packages `s` to `t` added have ids from `s`'s counter to `t`'s. */
  predicate NewPackagesIn(s: Db, t: Db)
  {
    s.nextPackage <= t.nextPackage &&
    forall k :: k in t.packages && k !in s.packages ==> s.nextPackage <= k < t.nextPackage
  }

  lemma PackageAddedSound(t: Db, t': Db, row: PackageRow)
    requires Sound(t) && row.project_id in t.jobProjects
    requires t' == t.(calls := t'.calls, packages := t.packages[t.nextPackage := row], nextPackage := t.nextPackage + 1)
    ensures Sound(t')
  {
  }

  /** Adding a package of job project `j` keeps the growth under `j`. */
  lemma PackageAdded(s: Db, t: Db, t': Db, j: int, row: PackageRow)
    requires Sound(t) && Extends(s, t, j) && NewPackagesIn(s, t) && j in t.jobProjects && row.project_id == j
    requires t' == t.(calls := t'.calls, packages := t.packages[t.nextPackage := row], nextPackage := t.nextPackage + 1)
    ensures Sound(t') && Extends(s, t', j) && NewPackagesIn(s, t') && NewPackage(s, t', t.nextPackage, j)
    ensures forall id :: NewPackage(s, t, id, j) ==> NewPackage(s, t', id, j) && t'.packages[id] == t.packages[id]
  {
    PackageAddedSound(t, t', row);
  }

  /**
   * Where the package loop stands: only packages of `j` added, the other
   * tables untouched, and `ids` maps each name in `names` to a new package.
   */
  predicate PackagesSoFar(db: Db, t: Db, j: int, ids: map<string, int>, names: set<string>)
  {
    Sound(t) && Extends(db, t, j) && t.faults == db.faults && NewPackagesIn(db, t) &&
    t.locations == db.locations && t.items == db.items && t.nextLocation == db.nextLocation && t.nextJob == db.nextJob &&
    ids.Keys == names && forall p :: p in ids ==> NewPackage(db, t, ids[p], j)
  }

  lemma PackagesStep(db: Db, t: Db, t': Db, j: int, ids: map<string, int>, names: set<string>, name: string, row: PackageRow)
    requires PackagesSoFar(db, t, j, ids, names) && j in t.jobProjects && row.project_id == j
    requires t' == t.(calls := t'.calls, packages := t.packages[t.nextPackage := row], nextPackage := t.nextPackage + 1)
    ensures PackagesSoFar(db, t', j, ids[name := t.nextPackage], names + {name})
  {
    PackageAdded(db, t, t', j, row);
  }

  /** The package loop: every package of the file, each under the first free name; ids keyed by the file's names. */
  method CreatePackages(db: Db, jobId: int, entries: seq<PackageEntry>) returns (db': Db, r: Attempt<map<string, int>>)
    requires Sound(db) && jobId in db.jobProjects
    ensures r.Done? ==> PackagesSoFar(db, db', jobId, r.value, PackageNames(entries))
    ensures r.Stopped? ==> PackagesSoFar(db, db', jobId, map[], {}) && Explained(db, r.error)
  {
    db' := db;
    var ids: map<string, int> := map[];
    var i := 0;
    while i < |entries|
      invariant 0 <= i <= |entries| && jobId in db'.jobProjects
      invariant PackagesSoFar(db, db', jobId, ids, PackageNames(entries[..i]))
    {
      var before := db';
      var out;
      ghost var n;
      db', out, n := CreatePackageUnique(db', jobId, entries[i]);
      if out.Stopped? {
        r := Stopped(out.error);
        return;
      }
      PackagesStep(db, before, db', jobId, ids, PackageNames(entries[..i]), entries[i].package_name,
                   PackageRowOf(jobId, entries[i], Suffixed(entries[i].package_name, n)));
      PackageNamesStep(entries, i);
      ids := ids[entries[i].package_name := out.value];
      i := i + 1;
    }
    assert entries[..i] == entries;
    r := Done(ids);
  }

  /** Location `id` is one this import created in package `p`. */
  predicate NewLocation(s: Db, t: Db, id: int, p: int)
  {
    id in t.locations && id !in s.locations && t.locations[id].project_id == p
  }

  /** The locations `s` to `t` added have ids from `s`'s counter to `t`'s. */
  predicate NewLocationsIn(s: Db, t: Db)
  {
    s.nextLocation <= t.nextLocation &&
    forall k :: k in t.locations && k !in s.locations ==> s.nextLocation <= k < t.nextLocation
  }

  /** `locationIdMap[p][n] = id`, creating `locationIdMap[p]` first if need be. */
  function AddLocationId(ids: map<string, map<string, int>>, p: string, n: string, id: int): map<string, map<string, int>>
  {
    ids[p := (if p in ids then ids[p] else map[])[n := id]]
  }

  /** Some location entry among `done` is named `n` in package `p`. */
  predicate LocationListed(done: seq<LocationEntry>, p: string, n: string)
  {
    exists i :: 0 <= i < |done| && done[i].package_name == p && done[i].name == n
  }

  /**
   * Where the location loop stands after the entries `done`: only locations
   * in the new packages added, `ids[p][n]` for exactly the listed locations
   * whose package was created.
   */
  predicate LocationsSoFar(db: Db, t: Db, j: int, pkgIds: map<string, int>, ids: map<string, map<string, int>>,
                           done: seq<LocationEntry>)
  {
    Sound(t) && Extends(db, t, j) && t.faults == db.faults && NewLocationsIn(db, t) &&
    t.packages == db.packages && t.items == db.items && t.nextPackage == db.nextPackage && t.nextJob == db.nextJob &&
    ids.Keys <= pkgIds.Keys &&
    (forall p, n :: p in ids && n in ids[p] ==> NewLocation(db, t, ids[p][n], pkgIds[p]) && LocationListed(done, p, n)) &&
    (forall i :: 0 <= i < |done| && done[i].package_name in pkgIds ==>
                   done[i].package_name in ids && done[i].name in ids[done[i].package_name])
  }

  lemma LocationAddedSound(t: Db, t': Db, row: LocationRow)
    requires Sound(t) && row.project_id in t.packages
    requires t' == t.(calls := t'.calls, locations := t.locations[t.nextLocation := row], nextLocation := t.nextLocation + 1)
    ensures Sound(t')
  {
  }

  lemma LocationAdded(db: Db, t: Db, t': Db, j: int, row: LocationRow)
    requires Sound(t) && Extends(db, t, j) && NewLocationsIn(db, t) && Owned(t, row.project_id, j)
    requires t' == t.(calls := t'.calls, locations := t.locations[t.nextLocation := row], nextLocation := t.nextLocation + 1)
    ensures Sound(t') && Extends(db, t', j) && NewLocationsIn(db, t') && NewLocation(db, t', t.nextLocation, row.project_id)
    ensures forall id, p :: NewLocation(db, t, id, p) ==> NewLocation(db, t', id, p)
  {
    LocationAddedSound(t, t', row);
  }

  lemma LocationsCalled(db: Db, t: Db, t': Db, j: int, pkgIds: map<string, int>, ids: map<string, map<string, int>>,
                        done: seq<LocationEntry>)
    requires LocationsSoFar(db, t, j, pkgIds, ids, done) && t' == t.(calls := t'.calls)
    ensures LocationsSoFar(db, t', j, map[], map[], [])
  {
  }

  lemma LocationsStep(db: Db, t: Db, t': Db, j: int, pkgIds: map<string, int>, ids: map<string, map<string, int>>,
                      done: seq<LocationEntry>, e: LocationEntry, row: LocationRow)
    requires LocationsSoFar(db, t, j, pkgIds, ids, done)
    requires e.package_name in pkgIds && row.project_id == pkgIds[e.package_name] && Owned(t, row.project_id, j)
    requires t' == t.(calls := t'.calls, locations := t.locations[t.nextLocation := row], nextLocation := t.nextLocation + 1)
    ensures LocationsSoFar(db, t', j, pkgIds, AddLocationId(ids, e.package_name, e.name, t.nextLocation), done + [e])
  {
    LocationAdded(db, t, t', j, row);
    var ids' := AddLocationId(ids, e.package_name, e.name, t.nextLocation);
    var done' := done + [e];
    forall p, n | p in ids' && n in ids'[p]
      ensures NewLocation(db, t', ids'[p][n], pkgIds[p]) && LocationListed(done', p, n)
    {
      if p == e.package_name && n == e.name {
        assert done'[|done|] == e;
      } else {
        assert p in ids && n in ids[p] && ids'[p][n] == ids[p][n];
        var i :| 0 <= i < |done| && done[i].package_name == p && done[i].name == n;
        assert done'[i] == done[i];
      }
    }
    forall i | 0 <= i < |done'| && done'[i].package_name in pkgIds
      ensures done'[i].package_name in ids' && done'[i].name in ids'[done'[i].package_name]
    {
      if i < |done| {
        assert done'[i] == done[i];
      }
    }
  }

  lemma LocationsSkip(db: Db, t: Db, j: int, pkgIds: map<string, int>, ids: map<string, map<string, int>>,
                      done: seq<LocationEntry>, e: LocationEntry)
    requires LocationsSoFar(db, t, j, pkgIds, ids, done) && e.package_name !in pkgIds
    ensures LocationsSoFar(db, t, j, pkgIds, ids, done + [e])
  {
    var done' := done + [e];
    forall p, n | p in ids && n in ids[p] ensures LocationListed(done', p, n) {
      var i :| 0 <= i < |done| && done[i].package_name == p && done[i].name == n;
      assert done'[i] == done[i];
    }
    forall i | 0 <= i < |done'| && done'[i].package_name in pkgIds
      ensures done'[i].package_name in ids && done'[i].name in ids[done'[i].package_name]
    {
      assert done'[i] == done[i];
    }
  }

  /**
   * The location loop: each location whose package was created, under the
   * first free name in that package; the others are skipped. Ids are keyed
   * by the file's package and location names.
   */
  method CreateLocations(db: Db, jobId: int, pkgIds: map<string, int>, entries: seq<LocationEntry>)
    returns (db': Db, r: Attempt<map<string, map<string, int>>>)
    requires Sound(db) && forall p :: p in pkgIds ==> Owned(db, pkgIds[p], jobId)
    ensures r.Done? ==> LocationsSoFar(db, db', jobId, pkgIds, r.value, entries)
    ensures r.Stopped? ==> LocationsSoFar(db, db', jobId, map[], map[], []) && Explained(db, r.error)
  {
    db' := db;
    var ids: map<string, map<string, int>> := map[];
    var i := 0;
    while i < |entries|
      invariant 0 <= i <= |entries|
      invariant LocationsSoFar(db, db', jobId, pkgIds, ids, entries[..i])
    {
      assert entries[..i + 1] == entries[..i] + [entries[i]];
      var out;
      db', out := CreateLocationEntry(db, db', jobId, pkgIds, ids, entries[..i], entries[i]);
      if out.Stopped? {
        r := Stopped(out.error);
        return;
      }
      ids := out.value;
      i := i + 1;
    }
    assert entries[..i] == entries;
    r := Done(ids);
  }

  /** One pass of the location loop: skip an entry of an unknown package, otherwise create the location. */
  method CreateLocationEntry(db: Db, t: Db, jobId: int, pkgIds: map<string, int>, ids: map<string, map<string, int>>,
                             done: seq<LocationEntry>, e: LocationEntry)
    returns (t': Db, r: Attempt<map<string, map<string, int>>>)
    requires (forall p :: p in pkgIds ==> Owned(db, pkgIds[p], jobId)) && LocationsSoFar(db, t, jobId, pkgIds, ids, done)
    ensures r.Done? ==> LocationsSoFar(db, t', jobId, pkgIds, r.value, done + [e])
    ensures r.Stopped? ==> LocationsSoFar(db, t', jobId, map[], map[], []) && Explained(db, r.error)
  {
    if e.package_name !in pkgIds {
      LocationsSkip(db, t, jobId, pkgIds, ids, done, e);
      return t, Done(ids);
    }
    var packageId := pkgIds[e.package_name];
    assert Owned(t, packageId, jobId);
    var out;
    ghost var n;
    t', out, n := CreateLocationUnique(t, packageId, e);
    if out.Stopped? {
      LocationsCalled(db, t, t', jobId, pkgIds, ids, done);
      return t', Stopped(out.error);
    }
    LocationsStep(db, t, t', jobId, pkgIds, ids, done, e, LocationRowOf(packageId, e, Suffixed(e.name, n)));
    r := Done(AddLocationId(ids, e.package_name, e.name, out.value));
  }

  // ---------------------------------------------------------------------
  // Items
  // ---------------------------------------------------------------------

  /** The row the importer stores for item entry `e` in package `packageId` at location `locationId`. */
  function ImportedRow(e: ItemEntry, packageId: int, locationId: int): ItemRow
  {
    ItemRow(packageId, locationId, None, e.part_number, e.description, e.secondary_description, e.quantity, e.unit,
            e.unit_price, e.manufacturer, e.supplier, e.category, e.reference_designator, SpareFlag(e.is_spare),
            e.metadata, e.sort_order)
  }

  /** The row for `e`, or nothing when its package or its location was not created (the item is skipped). */
  function PlanItem(e: ItemEntry, pkgIds: map<string, int>, locIds: map<string, map<string, int>>): Option<ItemRow>
  {
    if e.package_name in pkgIds && e.package_name in locIds && e.location_name in locIds[e.package_name] then
      Some(ImportedRow(e, pkgIds[e.package_name], locIds[e.package_name][e.location_name]))
    else None
  }

  /** The rows of the items not skipped, in file order. */
  function Planned(entries: seq<ItemEntry>, pkgIds: map<string, int>, locIds: map<string, map<string, int>>)
    : seq<ItemRow>
  {
    if entries == [] then []
    else
      var rest := Planned(entries[..|entries| - 1], pkgIds, locIds);
      var last := PlanItem(entries[|entries| - 1], pkgIds, locIds);
      if last.Some? then rest + [last.value] else rest
  }

  /** The rows of package `pid`, in order. */
  function RowsOf(rows: seq<ItemRow>, pid: int): (r: seq<ItemRow>)
    ensures forall i :: 0 <= i < |r| ==> r[i].project_id == pid
  {
    if rows == [] then []
    else
      var rest := RowsOf(rows[..|rows| - 1], pid);
      if rows[|rows| - 1].project_id == pid then rest + [rows[|rows| - 1]] else rest
  }

  /** `itemsByPackage`: the planned rows, one list per package id, each in file order. */
  function Grouped(entries: seq<ItemEntry>, pkgIds: map<string, int>, locIds: map<string, map<string, int>>)
    : map<int, seq<ItemRow>>
  {
    if entries == [] then map[]
    else
      var g := Grouped(entries[..|entries| - 1], pkgIds, locIds);
      var last := PlanItem(entries[|entries| - 1], pkgIds, locIds);
      if last.None? then g
      else
        var pid := last.value.project_id;
        g[pid := (if pid in g then g[pid] else []) + [last.value]]
  }

  /** The group of each package is that package's planned rows, and only packages with rows have a group. */
  lemma {:induction false} GroupedRows(entries: seq<ItemEntry>, pkgIds: map<string, int>,
                                       locIds: map<string, map<string, int>>, pid: int)
    ensures pid in Grouped(entries, pkgIds, locIds) <==> RowsOf(Planned(entries, pkgIds, locIds), pid) != []
    ensures pid in Grouped(entries, pkgIds, locIds) ==>
              Grouped(entries, pkgIds, locIds)[pid] == RowsOf(Planned(entries, pkgIds, locIds), pid)
  {
    if entries != [] {
      GroupedRows(entries[..|entries| - 1], pkgIds, locIds, pid);
    }
  }

  /** The grouping loop. */
  method GroupItems(entries: seq<ItemEntry>, pkgIds: map<string, int>, locIds: map<string, map<string, int>>)
    returns (groups: map<int, seq<ItemRow>>)
    ensures groups == Grouped(entries, pkgIds, locIds)
  {
    groups := map[];
    var i := 0;
    while i < |entries|
      invariant 0 <= i <= |entries|
      invariant groups == Grouped(entries[..i], pkgIds, locIds)
    {
      assert entries[..i + 1][..i] == entries[..i];
      var e := entries[i];
      if e.package_name in pkgIds && e.package_name in locIds && e.location_name in locIds[e.package_name] {
        var packageId := pkgIds[e.package_name];
        if packageId !in groups {
          groups := groups[packageId := []];
        }
        groups := groups[packageId := groups[packageId] + [ImportedRow(e, packageId, locIds[e.package_name][e.location_name])]];
      }
      i := i + 1;
    }
    assert entries[..i] == entries;
  }

  /** The group of `pid`, or none. */
  function GroupOf(groups: map<int, seq<ItemRow>>, pid: int): seq<ItemRow>
  {
    if pid in groups then groups[pid] else []
  }

  /** The groups of the ids in `order`, one after the other. */
  function Chained(order: seq<int>, groups: map<int, seq<ItemRow>>): seq<ItemRow>
  {
    if order == [] then [] else Chained(order[..|order| - 1], groups) + GroupOf(groups, order[|order| - 1])
  }

  lemma {:induction false} RowsOfAppend(a: seq<ItemRow>, b: seq<ItemRow>, pid: int)
    ensures RowsOf(a + b, pid) == RowsOf(a, pid) + RowsOf(b, pid)
    decreases |b|
  {
    if b == [] {
      assert a + b == a;
    } else {
      var n := |b| - 1;
      RowsOfAppend(a, b[..n], pid);
      assert (a + b)[..|a + b| - 1] == a + b[..n];
    }
  }

  lemma {:induction false} RowsOfOne(rows: seq<ItemRow>, q: int, pid: int)
    requires forall i :: 0 <= i < |rows| ==> rows[i].project_id == q
    ensures RowsOf(rows, pid) == if q == pid then rows else []
  {
    if rows != [] {
      RowsOfOne(rows[..|rows| - 1], q, pid);
    }
  }

  /** Every group holds rows of its own package only. */
  predicate GroupsOwn(groups: map<int, seq<ItemRow>>)
  {
    forall q, i :: q in groups && 0 <= i < |groups[q]| ==> groups[q][i].project_id == q
  }

  predicate Distinct(order: seq<int>)
  {
    forall a, b :: 0 <= a < b < |order| ==> order[a] != order[b]
  }

  /** Chaining distinct groups keeps each package's rows together and in order. */
  lemma {:induction false} ChainedRows(order: seq<int>, groups: map<int, seq<ItemRow>>, pid: int)
    requires GroupsOwn(groups) && Distinct(order)
    ensures RowsOf(Chained(order, groups), pid) == if pid in order then GroupOf(groups, pid) else []
  {
    if order != [] {
      var n := |order| - 1;
      var q := order[n];
      assert Distinct(order[..n]);
      ChainedRows(order[..n], groups, pid);
      RowsOfAppend(Chained(order[..n], groups), GroupOf(groups, q), pid);
      RowsOfOne(GroupOf(groups, q), q, pid);
      assert order == order[..n] + [q];
      if q == pid {
        assert pid !in order[..n];
      }
    }
  }

  /** The planned items, and only they, have a group; each group holds its package's rows. */
  lemma GroupedOwn(entries: seq<ItemEntry>, pkgIds: map<string, int>, locIds: map<string, map<string, int>>)
    ensures GroupsOwn(Grouped(entries, pkgIds, locIds))
  {
    var g: map<int, seq<ItemRow>> := Grouped(entries, pkgIds, locIds);
    forall q: int, i: int | q in g && 0 <= i < |g[q]| ensures g[q][i].project_id == q {
      GroupedRows(entries, pkgIds, locIds, q);
    }
  }

  /** Rows that may be stored: in a package of job project `j`, at an existing location. */
  predicate RowsFit(db: Db, rows: seq<ItemRow>, j: int)
  {
    forall i :: 0 <= i < |rows| ==> Owned(db, rows[i].project_id, j) && rows[i].location_id in db.locations
  }

  predicate GroupsFit(db: Db, groups: map<int, seq<ItemRow>>, j: int)
  {
    forall q :: q in groups ==> RowsFit(db, groups[q], j)
  }

  lemma {:induction false} ChainedFit(db: Db, order: seq<int>, groups: map<int, seq<ItemRow>>, j: int)
    requires GroupsFit(db, groups, j)
    ensures RowsFit(db, Chained(order, groups), j)
  {
    if order != [] {
      ChainedFit(db, order[..|order| - 1], groups, j);
    }
  }

  lemma ItemsAdded(db: Db, t: Db, j: int, rows: seq<ItemRow>)
    requires Sound(db) && RowsFit(db, rows, j)
    requires t == db.(calls := t.calls, items := db.items + rows)
    ensures Sound(t) && Extends(db, t, j)
  {
    assert t.items[..|db.items|] == db.items;
    forall i | |db.items| <= i < |t.items| ensures Owned(t, t.items[i].project_id, j) && t.items[i].location_id in t.locations {
      assert t.items[i] == rows[i - |db.items|];
    }
  }

  /** The bulk insert loop: the non-empty group of each id of `order`, one `bulkCreate` per group. */
  method InsertItems(db: Db, order: seq<int>, groups: map<int, seq<ItemRow>>) returns (db': Db, err: Option<string>)
    ensures db'.faults == db.faults
    ensures err.None? ==> db' == db.(calls := db'.calls, items := db.items + Chained(order, groups))
    ensures err.Some? ==> err.value in db.faults.Values &&
                          exists i :: 0 <= i <= |order| && db' == db.(calls := db'.calls, items := db.items + Chained(order[..i], groups))
  {
    db' := db;
    var i := 0;
    while i < |order|
      invariant 0 <= i <= |order|
      invariant db' == db.(calls := db'.calls, items := db.items + Chained(order[..i], groups))
    {
      assert order[..i + 1][..i] == order[..i];
      var rows := GroupOf(groups, order[i]);
      if |rows| > 0 {
        var step := BulkCreateItems(db', rows);
        db' := step.0;
        if step.1.Some? {
          err := step.1;
          return;
        }
      }
      i := i + 1;
    }
    assert order[..i] == order;
    err := None;
  }

  lemma {:induction false} GroupedKeys(entries: seq<ItemEntry>, pkgIds: map<string, int>,
                                       locIds: map<string, map<string, int>>)
    ensures forall q :: q in Grouped(entries, pkgIds, locIds) ==> q in pkgIds.Values
  {
    if entries != [] {
      GroupedKeys(entries[..|entries| - 1], pkgIds, locIds);
    }
  }

  lemma {:induction false} GroupedFit(db: Db, j: int, entries: seq<ItemEntry>, pkgIds: map<string, int>,
                                      locIds: map<string, map<string, int>>)
    requires forall p :: p in pkgIds ==> Owned(db, pkgIds[p], j)
    requires forall p, n :: p in locIds && n in locIds[p] ==> locIds[p][n] in db.locations
    ensures GroupsFit(db, Grouped(entries, pkgIds, locIds), j)
  {
    if entries != [] {
      GroupedFit(db, j, entries[..|entries| - 1], pkgIds, locIds);
    }
  }

  /** The id counters of `t` are at least those of `s`. */
  predicate Counted(s: Db, t: Db)
  {
    s.nextJob <= t.nextJob && s.nextPackage <= t.nextPackage && s.nextLocation <= t.nextLocation
  }

  lemma ExtendsTrans(a: Db, b: Db, c: Db, j: int)
    requires Extends(a, b, j) && Extends(b, c, j)
    ensures Extends(a, c, j)
  {
    assert c.items[..|a.items|] == b.items[..|a.items|];
    forall i | |a.items| <= i < |c.items| ensures Owned(c, c.items[i].project_id, j) {
      if i < |b.items| {
        assert c.items[i] == b.items[i];
      }
    }
  }

  /**
   * What a completed import put under job project `j`, seen from `s`:
   * one new package per package name of the file, the locations of the
   * file whose package exists, and, for every package id, the planned
   * rows of that package in file order.
   */
  ghost predicate Contents(s: Db, t: Db, j: int, f: PackageFile, pkgIds: map<string, int>,
                           locIds: map<string, map<string, int>>)
  {
    pkgIds.Keys == PackageNames(f.packages) &&
    (forall p :: p in pkgIds ==> NewPackage(s, t, pkgIds[p], j)) &&
    (forall p, n :: p in locIds && n in locIds[p] ==>
                      p in pkgIds && NewLocation(s, t, locIds[p][n], pkgIds[p]) && LocationListed(f.locations, p, n)) &&
    (forall i :: 0 <= i < |f.locations| && f.locations[i].package_name in pkgIds ==>
                   f.locations[i].package_name in locIds && f.locations[i].name in locIds[f.locations[i].package_name]) &&
    |s.items| <= |t.items| &&
    forall pid :: RowsOf(t.items[|s.items|..], pid) == RowsOf(Planned(f.items, pkgIds, locIds), pid)
  }

  /** The items of the bulk insert: each package's planned rows, in file order, and nothing else. */
  lemma InsertedRows(entries: seq<ItemEntry>, pkgIds: map<string, int>, locIds: map<string, map<string, int>>,
                     lo: int, hi: int, pid: int)
    requires forall p :: p in pkgIds ==> lo <= pkgIds[p] < hi
    ensures var g := Grouped(entries, pkgIds, locIds);
            RowsOf(Chained(AscendingIn(g.Keys, lo, hi), g), pid) == RowsOf(Planned(entries, pkgIds, locIds), pid)
  {
    var g := Grouped(entries, pkgIds, locIds);
    var order := AscendingIn(g.Keys, lo, hi);
    GroupedOwn(entries, pkgIds, locIds);
    GroupedKeys(entries, pkgIds, locIds);
    GroupedRows(entries, pkgIds, locIds, pid);
    ChainedRows(order, g, pid);
    if pid in g {
      assert pid in pkgIds.Values;
      assert pid in order;
    }
  }

  lemma AfterPackages(s: Db, s2: Db, j: int, ids: map<string, int>, names: set<string>)
    requires PackagesSoFar(s, s2, j, ids, names)
    ensures Sound(s2) && Extends(s, s2, j) && s2.faults == s.faults && Counted(s, s2)
    ensures s2.locations == s.locations && s2.items == s.items
    ensures forall p :: p in ids ==> Owned(s2, ids[p], j) && s.nextPackage <= ids[p] < s2.nextPackage
  {
  }

  lemma AfterLocations(s: Db, s2: Db, s3: Db, j: int, pkgIds: map<string, int>, locIds: map<string, map<string, int>>,
                       done: seq<LocationEntry>)
    requires Extends(s, s2, j) && Counted(s, s2) && s2.faults == s.faults
    requires LocationsSoFar(s2, s3, j, pkgIds, locIds, done)
    ensures Sound(s3) && Extends(s, s3, j) && Counted(s, s3) && s3.faults == s.faults
    ensures s3.packages == s2.packages && s3.items == s2.items && s3.nextPackage == s2.nextPackage
    ensures forall p, n :: p in locIds && n in locIds[p] ==> locIds[p][n] in s3.locations
  {
    ExtendsTrans(s, s2, s3, j);
  }

  /** The last step of the import: the items are in, so the contents are complete. */
  lemma AfterItems(s: Db, s2: Db, s3: Db, s4: Db, j: int, f: PackageFile, pkgIds: map<string, int>,
                   locIds: map<string, map<string, int>>)
    requires PackagesSoFar(s, s2, j, pkgIds, PackageNames(f.packages))
    requires LocationsSoFar(s2, s3, j, pkgIds, locIds, f.locations)
    requires var g := Grouped(f.items, pkgIds, locIds);
             s4 == s3.(calls := s4.calls, items := s3.items + Chained(AscendingIn(g.Keys, s.nextPackage, s2.nextPackage), g))
    ensures Contents(s, s4, j, f, pkgIds, locIds)
  {
    var g := Grouped(f.items, pkgIds, locIds);
    var order := AscendingIn(g.Keys, s.nextPackage, s2.nextPackage);
    assert s4.items[|s.items|..] == Chained(order, g);
    forall pid ensures RowsOf(s4.items[|s.items|..], pid) == RowsOf(Planned(f.items, pkgIds, locIds), pid) {
      InsertedRows(f.items, pkgIds, locIds, s.nextPackage, s2.nextPackage, pid);
    }
  }

  /** Packages, then locations, then items, after the job project `jobId` exists. */
  method ImportContents(s: Db, jobId: int, f: PackageFile)
    returns (t: Db, err: Option<ImportError>, pkgIds: map<string, int>, locIds: map<string, map<string, int>>)
    requires Sound(s) && jobId in s.jobProjects
    ensures Sound(t) && Extends(s, t, jobId) && t.faults == s.faults && Counted(s, t)
    ensures err.Some? ==> Explained(s, err.value)
    ensures err.None? ==> Contents(s, t, jobId, f, pkgIds, locIds)
  {
    pkgIds := map[];
    locIds := map[];
    var s2, pkgOut := CreatePackages(s, jobId, f.packages);
    t := s2;
    if pkgOut.Stopped? {
      AfterPackages(s, s2, jobId, map[], {});
      err := Some(pkgOut.error);
      return;
    }
    pkgIds := pkgOut.value;
    AfterPackages(s, s2, jobId, pkgIds, PackageNames(f.packages));
    var s3, locOut := CreateLocations(s2, jobId, pkgIds, f.locations);
    t := s3;
    if locOut.Stopped? {
      AfterLocations(s, s2, s3, jobId, map[], map[], []);
      err := Some(locOut.error);
      return;
    }
    locIds := locOut.value;
    AfterLocations(s, s2, s3, jobId, pkgIds, locIds, f.locations);
    t, err := ImportItems(s, s2, s3, jobId, f, pkgIds, locIds);
  }

  /** The item stage of importProjectPackage: group the entries by package, then bulk-insert package by package. */
  method ImportItems(s: Db, s2: Db, s3: Db, jobId: int, f: PackageFile, pkgIds: map<string, int>,
                     locIds: map<string, map<string, int>>)
    returns (s4: Db, err: Option<ImportError>)
    requires PackagesSoFar(s, s2, jobId, pkgIds, PackageNames(f.packages))
    requires LocationsSoFar(s2, s3, jobId, pkgIds, locIds, f.locations)
    requires Sound(s3) && Extends(s, s3, jobId) && Counted(s, s3) && s3.faults == s.faults
    requires forall p, n :: p in locIds && n in locIds[p] ==> locIds[p][n] in s3.locations
    ensures Sound(s4) && Extends(s, s4, jobId) && s4.faults == s.faults && Counted(s, s4)
    ensures err.Some? ==> Explained(s, err.value)
    ensures err.None? ==> Contents(s, s4, jobId, f, pkgIds, locIds)
  {
    var groups := GroupItems(f.items, pkgIds, locIds);
    GroupedFit(s3, jobId, f.items, pkgIds, locIds);
    var order := AscendingIn(groups.Keys, s.nextPackage, s2.nextPackage);
    var bulkErr;
    s4, bulkErr := InsertItems(s3, order, groups);
    if bulkErr.None? {
      assert order[..|order|] == order;
    }
    InsertedFit(s3, s4, jobId, order, groups);
    ExtendsTrans(s, s3, s4, jobId);
    if bulkErr.Some? {
      err := Some(Database(bulkErr.value));
      return;
    }
    AfterItems(s, s2, s3, s4, jobId, f, pkgIds, locIds);
    err := None;
  }

  /** Whatever prefix of the groups the bulk insert got through fits the job project. */
  lemma InsertedFit(db: Db, t: Db, j: int, order: seq<int>, groups: map<int, seq<ItemRow>>)
    requires Sound(db) && GroupsFit(db, groups, j)
    requires exists i :: 0 <= i <= |order| && t == db.(calls := t.calls, items := db.items + Chained(order[..i], groups))
    ensures Sound(t) && Extends(db, t, j)
    ensures t == db.(calls := t.calls, items := t.items)
  {
    var i :| 0 <= i <= |order| && t == db.(calls := t.calls, items := db.items + Chained(order[..i], groups));
    ChainedFit(db, order[..i], groups, j);
    ItemsAdded(db, t, j, Chained(order[..i], groups));
  }

  /** Rows the rollback could not remove: what some job project `j` added is still there. */
  ghost predicate Leftover(db: Db, t: Db)
  {
    exists j :: Grown(db, t, j)
  }

  lemma SoundFromTables(db: Db, t: Db)
    requires Sound(db) && Tables(t) == Tables(db) && Counted(db, t)
    ensures Sound(t)
  {
  }

  /** `rollback`: delete the new job project; a failed delete is swallowed. */
  method Rollback(db: Db, t: Db, j: int) returns (t': Db)
    requires Sound(db) && Sound(t) && Grown(db, t, j) && Counted(db, t)
    ensures Sound(t') && t'.faults == t.faults
    ensures Tables(t') == Tables(db) || Leftover(db, t')
  {
    var step := DeleteJobProject(t, j);
    t' := step.0;
    if step.1.None? {
      RollbackRestores(db, t, j);
      SoundFromTables(db, t');
    } else {
      assert Grown(db, t', j);
    }
  }

  lemma ContentsRebase(db: Db, s: Db, t: Db, j: int, f: PackageFile, pkgIds: map<string, int>,
                       locIds: map<string, map<string, int>>)
    requires s.packages == db.packages && s.locations == db.locations && s.items == db.items
    requires Contents(s, t, j, f, pkgIds, locIds)
    ensures Contents(db, t, j, f, pkgIds, locIds)
  {
  }

  /** The job project is named after the file's project number, suffixed if that was taken. */
  ghost predicate NamedAfter(name: string, number: string)
  {
    exists n :: 0 <= n <= MaxAttempts && name == Suffixed(number, n)
  }

  /**
   * importJobProjectFromFile: `content` is the file's JSON, or nothing when
   * it is not JSON. An unreadable file changes nothing; a failure after the
   * job project exists rolls the import back; a completed import adds one
   * job project with the file's contents under it.
   */
  method ImportJobProjectFromFile(db: Db, content: Option<Json>)
    returns (db': Db, r: Attempt<int>, pkgIds: map<string, int>, locIds: map<string, map<string, int>>)
    requires Sound(db)
    ensures Sound(db') && db'.faults == db.faults
    ensures content.None? || ParseFile(content.value).None? ==> db' == db && r == Stopped(InvalidFile)
    ensures r.Stopped? && r.error != InvalidFile ==> Explained(db, r.error)
    ensures r.Stopped? ==> Tables(db') == Tables(db) || Leftover(db, db')
    ensures r.Done? ==> content.Some? && ParseFile(content.value).Some? && Grown(db, db', r.value)
    ensures r.Done? ==> NamedAfter(db'.jobProjects[r.value], ParseFile(content.value).value.project_number)
    ensures r.Done? ==> Contents(db, db', r.value, ParseFile(content.value).value, pkgIds, locIds)
  {
    pkgIds := map[];
    locIds := map[];
    db' := db;
    if content.None? {
      r := Stopped(InvalidFile);
      return;
    }
    var parsed := ParseFile(content.value);
    if parsed.None? {
      r := Stopped(InvalidFile);
      return;
    }
    var f := parsed.value;
    var jobOut;
    ghost var n;
    db', jobOut, n := CreateJobProjectUnique(db, f.project_number);
    if jobOut.Stopped? {
      r := Stopped(jobOut.error);
      return;
    }
    var jobId := jobOut.value;
    JobCreatedGrown(db, db', Suffixed(f.project_number, n));
    var s := db';
    var err;
    db', err, pkgIds, locIds := ImportContents(s, jobId, f);
    GrownExtends(db, s, db', jobId);
    if err.Some? {
      db' := Rollback(db, db', jobId);
      r := Stopped(err.value);
      return;
    }
    ContentsRebase(db, s, db', jobId, f, pkgIds, locIds);
    assert db'.jobProjects[jobId] == Suffixed(f.project_number, n);
    r := Done(jobId);
  }

  // ---------------------------------------------------------------------
  // Which items an import keeps, and what it stores for them
  // ---------------------------------------------------------------------

  /** A row is planned exactly when some entry of the file plans it. */
  lemma {:induction false} PlannedMember(entries: seq<ItemEntry>, pkgIds: map<string, int>, locIds: map<string, map<string, int>>,
                      row: ItemRow)
    ensures row in Planned(entries, pkgIds, locIds) <==>
            exists i :: 0 <= i < |entries| && PlanItem(entries[i], pkgIds, locIds) == Some(row)
    decreases |entries|
  {
    if entries != [] {
      var n := |entries| - 1;
      PlannedMember(entries[..n], pkgIds, locIds, row);
      if exists i :: 0 <= i < |entries| && PlanItem(entries[i], pkgIds, locIds) == Some(row) {
        var i :| 0 <= i < |entries| && PlanItem(entries[i], pkgIds, locIds) == Some(row);
        if i < n {
          assert entries[..n][i] == entries[i];
        }
      }
      if row in Planned(entries[..n], pkgIds, locIds) {
        var i :| 0 <= i < n && PlanItem(entries[..n][i], pkgIds, locIds) == Some(row);
        assert entries[..n][i] == entries[i];
      }
    }
  }

  /**
   * After a completed import, an item of the file is stored exactly when
   * its package is among the file's packages and its location is listed
   * in that package.
   */
  lemma ItemKept(s: Db, t: Db, j: int, f: PackageFile, pkgIds: map<string, int>,
                 locIds: map<string, map<string, int>>, e: ItemEntry)
    requires Contents(s, t, j, f, pkgIds, locIds)
    ensures PlanItem(e, pkgIds, locIds).Some? <==>
            e.package_name in PackageNames(f.packages) && LocationListed(f.locations, e.package_name, e.location_name)
  {
    if e.package_name in PackageNames(f.packages) && LocationListed(f.locations, e.package_name, e.location_name) {
      var i :| 0 <= i < |f.locations| && f.locations[i].package_name == e.package_name &&
               f.locations[i].name == e.location_name;
    }
  }

  /** A stored row read back as a BOM item, with a whole sort order. */
  function StoredItem(id: int, row: ItemRow): BomItem
  {
    BomItem(id, ItemData(row.project_id, row.location_id, row.part_id, row.part_number, row.description,
                         row.secondary_description, row.quantity, row.unit, row.unit_price, row.manufacturer,
                         row.supplier, row.category, row.reference_designator, row.is_spare, row.sort_order.Floor),
            row.metadata)
  }

  /** Importing an item and exporting it again gives back the file's entry. */
  lemma ImportThenExport(e: ItemEntry, packageId: int, locationId: int, id: int)
    requires e.location_name != "" && e.sort_order == e.sort_order.Floor as real
    ensures ItemEntryOf(e.package_name, LocatedItem(StoredItem(id, ImportedRow(e, packageId, locationId)), Some(e.location_name))) == e
  {
  }

  /**
   * Exporting an item and importing it again gives back its columns, with
   * no catalogue link and the spare flag as 0 or 1.
   */
  lemma ExportThenImport(packageName: string, li: LocatedItem, packageId: int, locationId: int)
    ensures var d := li.item.data;
            var row := ImportedRow(ItemEntryOf(packageName, li), packageId, locationId);
            row.part_id.None? && row.is_spare == (if d.is_spare == 1 then 1 else 0) &&
            row.part_number == d.part_number && row.description == d.description &&
            row.secondary_description == d.secondary_description && row.quantity == d.quantity && row.unit == d.unit &&
            row.unit_price == d.unit_price && row.manufacturer == d.manufacturer && row.supplier == d.supplier &&
            row.category == d.category && row.reference_designator == d.reference_designator &&
            row.metadata == li.item.metadata && row.sort_order == d.sort_order as real
  {
  }
}
