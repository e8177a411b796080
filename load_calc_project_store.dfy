// The load-calculation project store (src/stores/load-calc-project-store.ts):
// the selected project, BOM location and voltage table, the lists shown for
// them, and the validation and calculation of the current table.  As in the
// BOM store, every database call is named in a Request, what the database
// answers is a parameter, and each action is a function from the state before
// to an Effect: the state after, the calls made in order, and the toasts shown.
// No action rethrows: each catches its own failures and shows a toast.

module LoadCalcProjectStore {
  import opened Common
  import opened Calculations
  import opened Validation
  import BomStore

  type Failure = BomStore.Failure
  type Answer<T> = BomStore.Answer<T>
  type Location = BomStore.Location
  type Package = BomStore.Package
  type JobProject = BomStore.JobProject

  /** A load-calculation project; `bom_package_id` links it to a BOM package. */
  datatype Project = Project(id: int, name: string, bom_package_id: Option<int>)

  /** A voltage table; SQLite hands `is_locked` back as 0/1, so it is kept as read. */
  datatype VoltageTable = VoltageTable(
    id: int, project_id: int, location_id: Option<int>, voltage_type: string, is_locked: JsValue)

  /** `bomPackageInfo`: the linked package's name and its job project's number. */
  datatype PackageInfo = PackageInfo(jobProjectNumber: string, packageName: string)

  /** A report row, as the report queries return it. */
  type Row = map<string, JsValue>

  datatype ReportData = ReportData(heat: seq<Row>, loading: seq<Row>, balance: seq<Row>)

  /** The database calls the store makes, named after the client's tables and methods. */
  datatype Request =
    | ProjectsGetAll
    | ProjectsGetById(id: int)
    | ProjectsDelete(id: int)
    | ProjectsSetPackage(id: int, link: Option<int>)
    | LocationsByProject(packageId: int)
    | LocationsCreate(packageId: int, locationName: string)
    | LocationsDelete(id: int)
    | VoltageTablesByProject(projectId: int)
    | VoltageTablesSetLock(id: int, locked: bool)
    | VoltageTablesGetById(id: int)
    | VoltageTablesDelete(id: int)
    | LineItemsByTable(tableId: int)
    | LineItemsCreate(item: LineItem)
    | LineItemsUpdate(id: int, updates: map<string, JsValue>)
    | LineItemsDelete(id: int)
    | PackagesGetById(id: int)
    | JobProjectsGetById(id: int)
    | ResultsUpsert(projectId: int, tableId: int, totalWatts: real, totalAmperes: real, totalBtu: real)
    | ReportsFor(projectId: int)

  datatype LoadCalcState = LoadCalcState(
    currentProject: Option<Project>,
    currentLocation: Option<Location>,
    currentVoltageTable: Option<VoltageTable>,
    projects: seq<Project>,
    locations: seq<Location>,
    voltageTables: seq<VoltageTable>,
    lineItems: seq<LineItem>,
    calculationResult: Option<TableResult>,
    validationIssues: seq<Issue>,
    isCalculating: bool,
    bomPackageInfo: Option<PackageInfo>,
    reportData: Option<ReportData>)

  /** The state after one action, the calls it made in order, and the toasts it showed. */
  datatype Effect = Effect(state: LoadCalcState, calls: seq<Request>, toasts: seq<Toast>)

  const Initial := LoadCalcState(None, None, None, [], [], [], [], None, [], false, None, None)

  /** `project?.bom_package_id` as a condition: no project, null and 0 are all falsy. */
  predicate Linked(p: Option<Project>)
  {
    p.Some? && BomStore.Chosen(p.value.bom_package_id)
  }

  function PackageOf(p: Option<Project>): int
    requires Linked(p)
  {
    p.value.bom_package_id.value
  }

  /** One effect after another: the second starts from the first's state. */
  function Then(a: Effect, b: Effect): Effect
  {
    Effect(b.state, a.calls + b.calls, a.toasts + b.toasts)
  }

  /** A toast shown after an effect, leaving its state and calls as they are. */
  function Show(e: Effect, t: Toast): Effect
  {
    Effect(e.state, e.calls, e.toasts + [t])
  }

  // ---------------------------------------------------------------------
  // fetches: each stores what it read or shows its failure toast; none throws
  // ---------------------------------------------------------------------

  function FetchProjects(s: LoadCalcState, r: Answer<seq<Project>>): (e: Effect)
    ensures e.calls == [ProjectsGetAll]
    ensures r.Got? ==> e.state == s.(projects := r.value) && e.toasts == []
    ensures r.Threw? ==> e.state == s && e.toasts == [ErrorToast("Failed to load projects")]
  {
    match r
    case Got(v) => Effect(s.(projects := v), [ProjectsGetAll], [])
    case Threw(_) => Effect(s, [ProjectsGetAll], [ErrorToast("Failed to load projects")])
  }

  function FetchLocations(s: LoadCalcState, packageId: int, r: Answer<seq<Location>>): (e: Effect)
    ensures e.calls == [LocationsByProject(packageId)]
    ensures r.Got? ==> e.state == s.(locations := r.value) && e.toasts == []
    ensures r.Threw? ==> e.state == s && e.toasts == [ErrorToast("Failed to load locations")]
  {
    match r
    case Got(v) => Effect(s.(locations := v), [LocationsByProject(packageId)], [])
    case Threw(_) => Effect(s, [LocationsByProject(packageId)], [ErrorToast("Failed to load locations")])
  }

  function FetchVoltageTables(s: LoadCalcState, projectId: int, r: Answer<seq<VoltageTable>>): (e: Effect)
    ensures e.calls == [VoltageTablesByProject(projectId)]
    ensures r.Got? ==> e.state == s.(voltageTables := r.value) && e.toasts == []
    ensures r.Threw? ==> e.state == s && e.toasts == [ErrorToast("Failed to load voltage tables")]
  {
    match r
    case Got(v) => Effect(s.(voltageTables := v), [VoltageTablesByProject(projectId)], [])
    case Threw(_) => Effect(s, [VoltageTablesByProject(projectId)], [ErrorToast("Failed to load voltage tables")])
  }

  function FetchLineItems(s: LoadCalcState, tableId: int, r: Answer<seq<LineItem>>): (e: Effect)
    ensures e.calls == [LineItemsByTable(tableId)]
    ensures r.Got? ==> e.state == s.(lineItems := r.value) && e.toasts == []
    ensures r.Threw? ==> e.state == s && e.toasts == [ErrorToast("Failed to load line items")]
  {
    match r
    case Got(v) => Effect(s.(lineItems := v), [LineItemsByTable(tableId)], [])
    case Threw(_) => Effect(s, [LineItemsByTable(tableId)], [ErrorToast("Failed to load line items")])
  }

  // ---------------------------------------------------------------------
  // BOM package info
  // ---------------------------------------------------------------------

  /**
   * resolveBomPackageInfo: no link clears the info; otherwise the package and
   * then its job project are read, and the info is set only when the package
   * exists.  A failed read is swallowed and keeps the info as it was.
   */
  function ResolveBomPackageInfo(s: LoadCalcState, pkg: Answer<Option<Package>>, job: Answer<Option<JobProject>>): (e: Effect)
    ensures e.toasts == []
    ensures e.state.(bomPackageInfo := s.bomPackageInfo) == s
    ensures !Linked(s.currentProject) ==> e.state.bomPackageInfo.None? && e.calls == []
    ensures Linked(s.currentProject) ==> |e.calls| >= 1 && e.calls[0] == PackagesGetById(PackageOf(s.currentProject))
    ensures Linked(s.currentProject) && pkg.Got? && pkg.value.Some? && job.Got? ==>
      e.state.bomPackageInfo == Some(PackageInfo(
        if job.value.Some? then job.value.value.project_number else "Unknown", pkg.value.value.package_name))
    ensures Linked(s.currentProject) && !(pkg.Got? && pkg.value.Some? && job.Got?) ==>
      e.state.bomPackageInfo == s.bomPackageInfo
  {
    if !Linked(s.currentProject) then Effect(s.(bomPackageInfo := None), [], [])
    else
      var id := PackageOf(s.currentProject);
      match pkg
      case Threw(_) => Effect(s, [PackagesGetById(id)], [])
      case Got(None) => Effect(s, [PackagesGetById(id)], [])
      case Got(Some(p)) =>
        var calls := [PackagesGetById(id), JobProjectsGetById(p.project_id)];
        match job
        case Threw(_) => Effect(s, calls, [])
        case Got(j) =>
          var number := if j.Some? then j.value.project_number else "Unknown";
          Effect(s.(bomPackageInfo := Some(PackageInfo(number, p.package_name))), calls, [])
  }

  // ---------------------------------------------------------------------
  // selection
  // ---------------------------------------------------------------------

  /** What selecting a project reads: its locations, its tables, then the package info. */
  datatype ProjectReads = ProjectReads(
    locations: Answer<seq<Location>>,
    tables: Answer<seq<VoltageTable>>,
    pkg: Answer<Option<Package>>,
    job: Answer<Option<JobProject>>)

  /** The first `set` of selectProject: the project, and everything under it emptied. */
  function Reselected(s: LoadCalcState, p: Option<Project>): LoadCalcState
  {
    s.(currentProject := p, currentLocation := None, currentVoltageTable := None,
       locations := [], voltageTables := [], lineItems := [], bomPackageInfo := None, reportData := None)
  }

  /**
   * selectProject: reset, then for a project load its locations (only when it
   * is linked to a package), its voltage tables and its package info.
   */
  function SelectProject(s: LoadCalcState, p: Option<Project>, rd: ProjectReads): Effect
  {
    var s1 := Reselected(s, p);
    if p.None? then Effect(s1, [], [])
    else
      var e1 := if Linked(p) then FetchLocations(s1, PackageOf(p), rd.locations) else Effect(s1, [], []);
      var e2 := Then(e1, FetchVoltageTables(e1.state, p.value.id, rd.tables));
      Then(e2, ResolveBomPackageInfo(e2.state, rd.pkg, rd.job))
  }

  /**
   * Selecting a project clears the location, table, line items and reports
   * and keeps the calculation state; a null project makes no call and leaves
   * every list empty; a project reads its locations only when linked, then
   * its tables, then the package info.
   */
  lemma SelectProjectResets(s: LoadCalcState, p: Option<Project>, rd: ProjectReads)
    ensures var t := SelectProject(s, p, rd).state;
      t.currentProject == p && t.currentLocation.None? && t.currentVoltageTable.None? && t.lineItems == [] &&
      t.reportData.None? && t.projects == s.projects && t.calculationResult == s.calculationResult &&
      t.validationIssues == s.validationIssues && t.isCalculating == s.isCalculating
    ensures p.None? ==> SelectProject(s, p, rd) == Effect(Reselected(s, None), [], [])
    ensures p.None? ==> (var t := SelectProject(s, p, rd).state;
      t.locations == [] && t.voltageTables == [] && t.bomPackageInfo.None?)
    ensures p.Some? && Linked(p) ==> (var e := SelectProject(s, p, rd);
      |e.calls| >= 3 && e.calls[..2] == [LocationsByProject(PackageOf(p)), VoltageTablesByProject(p.value.id)] &&
      e.calls[2] == PackagesGetById(PackageOf(p)) &&
      e.state.locations == (if rd.locations.Got? then rd.locations.value else []))
    ensures p.Some? && !Linked(p) ==> (var e := SelectProject(s, p, rd);
      e.calls == [VoltageTablesByProject(p.value.id)] && e.state.locations == [] && e.state.bomPackageInfo.None?)
    ensures p.Some? ==> SelectProject(s, p, rd).state.voltageTables == (if rd.tables.Got? then rd.tables.value else [])
  {
    if p.Some? {
      var s1 := Reselected(s, p);
      var e1 := if Linked(p) then FetchLocations(s1, PackageOf(p), rd.locations) else Effect(s1, [], []);
      var e2 := Then(e1, FetchVoltageTables(e1.state, p.value.id, rd.tables));
      var e3 := ResolveBomPackageInfo(e2.state, rd.pkg, rd.job);
      assert e2.state.currentProject == p;
      if Linked(p) {
        assert e2.calls == [LocationsByProject(PackageOf(p)), VoltageTablesByProject(p.value.id)];
        assert (e2.calls + e3.calls)[..2] == e2.calls;
      } else {
        assert e2.calls == [VoltageTablesByProject(p.value.id)];
      }
    }
  }

  /** selectLocation: the location, with no table and no line items. */
  function SelectLocation(s: LoadCalcState, location: Option<Location>): LoadCalcState
  {
    s.(currentLocation := location, currentVoltageTable := None, lineItems := [])
  }

  /** selectVoltageTable: the table with the calculation cleared, then its line items. */
  function SelectVoltageTable(s: LoadCalcState, table: Option<VoltageTable>, items: Answer<seq<LineItem>>): Effect
  {
    var s1 := s.(currentVoltageTable := table, lineItems := [], calculationResult := None, validationIssues := []);
    if table.None? then Effect(s1, [], []) else FetchLineItems(s1, table.value.id, items)
  }

  /**
   * Selecting a location drops the table and the line items and keeps the
   * project; selecting a table drops the old line items, result and issues,
   * and shows only the new table's items.
   */
  lemma SelectionClears(s: LoadCalcState, location: Option<Location>, table: Option<VoltageTable>, items: Answer<seq<LineItem>>)
    ensures var t := SelectLocation(s, location);
      t.currentLocation == location && t.currentVoltageTable.None? && t.lineItems == [] &&
      t.currentProject == s.currentProject && t.locations == s.locations && t.voltageTables == s.voltageTables
    ensures var e := SelectVoltageTable(s, table, items);
      e.state.currentVoltageTable == table && e.state.calculationResult.None? && e.state.validationIssues == [] &&
      e.state.currentLocation == s.currentLocation && e.state.currentProject == s.currentProject
    ensures table.None? ==> (SelectVoltageTable(s, table, items).calls == [] &&
      SelectVoltageTable(s, table, items).state.lineItems == [])
    ensures table.Some? ==> (SelectVoltageTable(s, table, items).calls == [LineItemsByTable(table.value.id)] &&
      SelectVoltageTable(s, table, items).state.lineItems == (if items.Got? then items.value else []))
  {
  }

  // ---------------------------------------------------------------------
  // deletes: the current project, location or table is deselected
  // ---------------------------------------------------------------------

  /** The write an action begins with; a failed write shows the action's failure toast. */
  function Written(s: LoadCalcState, write: Request, failed: Option<Failure>, failMessage: string): Effect
  {
    Effect(s, [write], if failed.Some? then [ErrorToast(failMessage)] else [])
  }

  predicate IsCurrentProject(s: LoadCalcState, id: int)
  {
    s.currentProject.Some? && s.currentProject.value.id == id
  }

  predicate IsCurrentLocation(s: LoadCalcState, id: int)
  {
    s.currentLocation.Some? && s.currentLocation.value.id == id
  }

  predicate IsCurrentTable(s: LoadCalcState, id: int)
  {
    s.currentVoltageTable.Some? && s.currentVoltageTable.value.id == id
  }

  /** deleteProject: delete, reload the list, and select nothing when it was current. */
  function DeleteProject(s: LoadCalcState, id: int, failed: Option<Failure>, reload: Answer<seq<Project>>): Effect
  {
    var w := Written(s, ProjectsDelete(id), failed, "Failed to delete project");
    if failed.Some? then w
    else
      var e1 := Then(w, FetchProjects(s, reload));
      var e2 := if IsCurrentProject(e1.state, id) then Effect(Reselected(e1.state, None), e1.calls, e1.toasts) else e1;
      Show(e2, SuccessToast("Project deleted"))
  }

  /** deleteLocation: delete, reload the linked package's locations, and drop the location when it was current. */
  function DeleteLocation(s: LoadCalcState, id: int, failed: Option<Failure>, reload: Answer<seq<Location>>): Effect
  {
    var w := Written(s, LocationsDelete(id), failed, "Failed to delete location");
    if failed.Some? then w
    else
      var e1 := if Linked(s.currentProject) then Then(w, FetchLocations(s, PackageOf(s.currentProject), reload)) else w;
      var e2 := if IsCurrentLocation(e1.state, id) then Effect(e1.state.(currentLocation := None), e1.calls, e1.toasts) else e1;
      Show(e2, SuccessToast("Location deleted"))
  }

  /** deleteVoltageTable: delete, reload the project's tables, and drop the table when it was current. */
  function DeleteVoltageTable(s: LoadCalcState, id: int, failed: Option<Failure>, reload: Answer<seq<VoltageTable>>): Effect
  {
    var w := Written(s, VoltageTablesDelete(id), failed, "Failed to delete table");
    if failed.Some? then w
    else
      var e1 := if s.currentProject.Some? then Then(w, FetchVoltageTables(s, s.currentProject.value.id, reload)) else w;
      var e2 := if IsCurrentTable(e1.state, id) then Effect(e1.state.(currentVoltageTable := None), e1.calls, e1.toasts) else e1;
      Show(e2, SuccessToast("Voltage table deleted"))
  }

  /**
   * A successful delete of the current project selects nothing, exactly as
   * selectProject(null) does; deleting another project keeps the selection.
   * A failed delete changes nothing.
   */
  lemma ProjectDeletionDeselects(s: LoadCalcState, id: int, projects: Answer<seq<Project>>, rd: ProjectReads)
    ensures var t := DeleteProject(s, id, None, projects).state;
      IsCurrentProject(s, id) ==> t == SelectProject(s.(projects := t.projects), None, rd).state
    ensures var t := DeleteProject(s, id, None, projects).state;
      !IsCurrentProject(s, id) ==> t == s.(projects := t.projects)
    ensures forall f: Failure :: DeleteProject(s, id, Some(f), projects).state == s
  {
    var e1 := Then(Written(s, ProjectsDelete(id), None, "Failed to delete project"), FetchProjects(s, projects));
    assert e1.state == s.(projects := e1.state.projects);
    SelectProjectResets(e1.state, None, rd);
  }

  /** A successful delete of the current location leaves no location; the table and project stay. */
  lemma LocationDeletionDeselects(s: LoadCalcState, id: int, locations: Answer<seq<Location>>)
    ensures var t := DeleteLocation(s, id, None, locations).state;
      (IsCurrentLocation(s, id) ==> t.currentLocation.None?) &&
      (!IsCurrentLocation(s, id) ==> t.currentLocation == s.currentLocation) &&
      t.currentVoltageTable == s.currentVoltageTable && t.currentProject == s.currentProject
    ensures forall f: Failure :: DeleteLocation(s, id, Some(f), locations).state == s
  {
  }

  /** A successful delete of the current table leaves no table; the location and project stay. */
  lemma TableDeletionDeselects(s: LoadCalcState, id: int, tables: Answer<seq<VoltageTable>>)
    ensures var t := DeleteVoltageTable(s, id, None, tables).state;
      (IsCurrentTable(s, id) ==> t.currentVoltageTable.None?) &&
      (!IsCurrentTable(s, id) ==> t.currentVoltageTable == s.currentVoltageTable) &&
      t.currentLocation == s.currentLocation && t.currentProject == s.currentProject
    ensures forall f: Failure :: DeleteVoltageTable(s, id, Some(f), tables).state == s
  {
  }

  // ---------------------------------------------------------------------
  // table lock
  // ---------------------------------------------------------------------

  /** The table with `is_locked` made a boolean by JavaScript truthiness (`Boolean(x)`). */
  function Normalized(t: VoltageTable): (r: VoltageTable)
    ensures r.is_locked.Bool? && (r.is_locked.b <==> Truthy(t.is_locked))
    ensures r.(is_locked := t.is_locked) == t
  {
    t.(is_locked := Bool(Truthy(t.is_locked)))
  }

  function LockToast(isLocked: bool): string
  {
    if isLocked then "Table locked" else "Table unlocked"
  }

  /**
   * toggleTableLock: write the flag, reload the project's tables, and when the
   * table is current read it back and keep it with a boolean flag.
   */
  function ToggleTableLock(s: LoadCalcState, id: int, isLocked: bool, failed: Option<Failure>,
                           tables: Answer<seq<VoltageTable>>, updated: Answer<Option<VoltageTable>>): Effect
  {
    var w := Written(s, VoltageTablesSetLock(id, isLocked), failed, "Failed to update lock status");
    if failed.Some? then w
    else
      var e1 := if s.currentProject.Some? then Then(w, FetchVoltageTables(s, s.currentProject.value.id, tables)) else w;
      if !IsCurrentTable(e1.state, id) then Show(e1, SuccessToast(LockToast(isLocked)))
      else
        var e2 := Effect(e1.state, e1.calls + [VoltageTablesGetById(id)], e1.toasts);
        match updated
        case Threw(_) => Show(e2, ErrorToast("Failed to update lock status"))
        case Got(None) => Show(e2, SuccessToast(LockToast(isLocked)))
        case Got(Some(t)) => Show(Effect(e2.state.(currentVoltageTable := Some(Normalized(t))), e2.calls, e2.toasts),
                                  SuccessToast(LockToast(isLocked)))
  }

  /**
   * When the toggled table is current and reads back, the current table is
   * the row read with a boolean `is_locked` that is true exactly when the
   * stored value is truthy; any other table stays as it was.
   */
  lemma LockStoredAsBoolean(s: LoadCalcState, id: int, isLocked: bool, tables: Answer<seq<VoltageTable>>, t: VoltageTable)
    ensures IsCurrentTable(s, id) ==>
      (var c := ToggleTableLock(s, id, isLocked, None, tables, BomStore.Got(Some(t))).state.currentVoltageTable;
       c.Some? && c.value.is_locked.Bool? && (c.value.is_locked.b <==> Truthy(t.is_locked)) &&
       c.value.(is_locked := t.is_locked) == t)
    ensures !IsCurrentTable(s, id) ==>
      ToggleTableLock(s, id, isLocked, None, tables, BomStore.Got(Some(t))).state.currentVoltageTable == s.currentVoltageTable
  {
  }

  // ---------------------------------------------------------------------
  // validation and calculation
  // ---------------------------------------------------------------------

  /** The number of issues with severity error. */
  function ErrorCount(issues: seq<Issue>): (r: nat)
    ensures r <= |issues|
    ensures r > 0 <==> HasErrors(issues)
  {
    if issues == [] then 0
    else (if issues[0].severity == Error then 1 else 0) + ErrorCount(issues[1..])
  }

  /** The result of validateAndCalculate with the effect it had. */
  datatype Calculated = Calculated(effect: Effect, ok: bool)

  predicate Calculable(s: LoadCalcState)
  {
    s.currentVoltageTable.Some? && s.currentProject.Some? && s.lineItems != []
  }

  /** The issues validateLineItems reports for the current table's items. */
  function IssuesOf(s: LoadCalcState): seq<Issue>
    requires s.currentVoltageTable.Some?
  {
    AllIssues(s.lineItems, IsThreePhase(s.currentVoltageTable.value.voltage_type))
  }

  /**
   * validateAndCalculate: with a table, a project and line items, validate;
   * errors stop there; otherwise calculate (which reads part specifications
   * and may fail), show the result, and cache the totals.  `computed` is what
   * calculateTableResults gave; `upsertFailed` what the cache write threw.
   */
  function ValidateAndCalculate(s: LoadCalcState, computed: Answer<TableResult>, upsertFailed: Option<Failure>): Calculated
  {
    if !Calculable(s) then Calculated(Effect(s, [], [ErrorToast("No line items to calculate")]), false)
    else
      var issues := IssuesOf(s);
      var s1 := s.(isCalculating := true, validationIssues := issues, calculationResult := None);
      if HasErrors(issues) then
        Calculated(Effect(s1.(isCalculating := false), [],
          [ErrorToast("Validation failed: " + IntToString(ErrorCount(issues)) + " error(s)")]), false)
      else
        match computed
        case Threw(_) => Calculated(Effect(s1.(isCalculating := false), [], [ErrorToast("Calculation failed")]), false)
        case Got(r) =>
          var s2 := s1.(calculationResult := Some(r), isCalculating := false);
          var upsert := ResultsUpsert(s.currentProject.value.id, s.currentVoltageTable.value.id,
                                      r.totalWatts, r.totalAmperes, r.totalBtu);
          if upsertFailed.Some? then Calculated(Effect(s2, [upsert], [ErrorToast("Calculation failed")]), false)
          else Calculated(Effect(s2, [upsert], [SuccessToast("Calculations complete")]), true)
  }

  /** Without a table, a project or line items nothing is computed or called, and the answer is false. */
  lemma CalculateGuards(s: LoadCalcState, computed: Answer<TableResult>, upsertFailed: Option<Failure>)
    ensures !Calculable(s) ==> (ValidateAndCalculate(s, computed, upsertFailed) ==
      Calculated(Effect(s, [], [ErrorToast("No line items to calculate")]), false))
    ensures ValidateAndCalculate(s, computed, upsertFailed).ok ==> Calculable(s)
  {
  }

  /**
   * Validation errors stop the calculation: the issues are stored, there is
   * no result, nothing is cached, and the answer is false.  Errors arise
   * exactly when some line item has a bad quantity or utilisation, so
   * warnings alone never block.
   */
  lemma ValidationErrorsBlock(s: LoadCalcState, computed: Answer<TableResult>, upsertFailed: Option<Failure>)
    requires Calculable(s)
    ensures HasErrors(IssuesOf(s)) <==> AnyBlocking(s.lineItems)
    ensures AnyBlocking(s.lineItems) ==> (var c := ValidateAndCalculate(s, computed, upsertFailed);
      !c.ok && c.effect.calls == [] && c.effect.state.validationIssues == IssuesOf(s) &&
      c.effect.state.calculationResult.None? && !c.effect.state.isCalculating)
    ensures AnyBlocking(s.lineItems) ==> (var c := ValidateAndCalculate(s, computed, upsertFailed);
      c.effect.toasts == [ErrorToast("Validation failed: " + IntToString(ErrorCount(IssuesOf(s))) + " error(s)")] &&
      ErrorCount(IssuesOf(s)) >= 1)
  {
    ErrorsIffBadItem(s.lineItems, IsThreePhase(s.currentVoltageTable.value.voltage_type));
  }

  /**
   * When no item blocks and the calculation answers, the result is stored and
   * its totals are cached for the current project and table; the answer is
   * true exactly when the cache write succeeds.
   */
  lemma CalculationStored(s: LoadCalcState, r: TableResult, upsertFailed: Option<Failure>)
    requires Calculable(s) && !AnyBlocking(s.lineItems)
    ensures var c := ValidateAndCalculate(s, BomStore.Got(r), upsertFailed);
      c.effect.state.calculationResult == Some(r) && c.effect.state.validationIssues == IssuesOf(s) &&
      !c.effect.state.isCalculating && (c.ok <==> upsertFailed.None?) &&
      c.effect.calls == [ResultsUpsert(s.currentProject.value.id, s.currentVoltageTable.value.id,
                                       r.totalWatts, r.totalAmperes, r.totalBtu)]
  {
    ErrorsIffBadItem(s.lineItems, IsThreePhase(s.currentVoltageTable.value.voltage_type));
  }

  /** clearCalculation. */
  function ClearCalculation(s: LoadCalcState): (t: LoadCalcState)
    ensures t.calculationResult.None? && t.validationIssues == []
    ensures t.(calculationResult := s.calculationResult, validationIssues := s.validationIssues) == s
  {
    s.(calculationResult := None, validationIssues := [])
  }

  // ---------------------------------------------------------------------
  // line items of the current table
  // ---------------------------------------------------------------------

  /** A line-item write, then the current table's items reloaded. */
  function LineItemWrite(s: LoadCalcState, write: Request, failed: Option<Failure>, reload: Answer<seq<LineItem>>,
                         done: seq<Toast>, failMessage: string): Effect
  {
    var w := Written(s, write, failed, failMessage);
    if failed.Some? then w
    else
      var e1 := if s.currentVoltageTable.Some? then Then(w, FetchLineItems(s, s.currentVoltageTable.value.id, reload)) else w;
      Effect(e1.state, e1.calls, e1.toasts + done)
  }

  function AddLineItem(s: LoadCalcState, item: LineItem, failed: Option<Failure>, reload: Answer<seq<LineItem>>): Effect
  {
    LineItemWrite(s, LineItemsCreate(item), failed, reload, [SuccessToast("Added to project")], "Failed to add item")
  }

  /** updateLineItem shows no toast on success. */
  function UpdateLineItem(s: LoadCalcState, id: int, updates: map<string, JsValue>, failed: Option<Failure>,
                          reload: Answer<seq<LineItem>>): Effect
  {
    LineItemWrite(s, LineItemsUpdate(id, updates), failed, reload, [], "Failed to update item")
  }

  function DeleteLineItem(s: LoadCalcState, id: int, failed: Option<Failure>, reload: Answer<seq<LineItem>>): Effect
  {
    LineItemWrite(s, LineItemsDelete(id), failed, reload, [SuccessToast("Line item deleted")], "Failed to delete item")
  }

  /**
   * A successful line-item write reloads the current table's items, and only
   * them; without a current table, or when the write fails, the items shown
   * stay as they were.  Nothing but the line items changes.
   */
  lemma LineItemWritesReload(s: LoadCalcState, write: Request, failed: Option<Failure>, reload: Answer<seq<LineItem>>,
                             done: seq<Toast>, failMessage: string)
    ensures var e := LineItemWrite(s, write, failed, reload, done, failMessage);
      e.state.(lineItems := s.lineItems) == s && |e.calls| >= 1 && e.calls[0] == write
    ensures var e := LineItemWrite(s, write, failed, reload, done, failMessage);
      failed.None? && s.currentVoltageTable.Some? ==>
        e.calls == [write, LineItemsByTable(s.currentVoltageTable.value.id)] &&
        e.state.lineItems == (if reload.Got? then reload.value else s.lineItems)
    ensures var e := LineItemWrite(s, write, failed, reload, done, failMessage);
      failed.Some? || s.currentVoltageTable.None? ==> e.calls == [write] && e.state == s
    ensures failed.Some? ==> LineItemWrite(s, write, failed, reload, done, failMessage).toasts == [ErrorToast(failMessage)]
  {
  }

  // ---------------------------------------------------------------------
  // BOM package link and locations
  // ---------------------------------------------------------------------

  /** What linking reads after the write: the project, its locations, the package info and the project list. */
  datatype LinkReads = LinkReads(
    updated: Answer<Option<Project>>,
    locations: Answer<seq<Location>>,
    pkg: Answer<Option<Package>>,
    job: Answer<Option<JobProject>>,
    projects: Answer<seq<Project>>)

  /**
   * linkToPackage: with a current project, store the link, read the project
   * back, and when it exists make it current and load the package's
   * locations, the package info and the project list.
   */
  function LinkToPackage(s: LoadCalcState, packageId: int, failed: Option<Failure>, rd: LinkReads): Effect
  {
    if s.currentProject.None? then Effect(s, [], [])
    else
      var id := s.currentProject.value.id;
      var w := Written(s, ProjectsSetPackage(id, Some(packageId)), failed, "Failed to link to BOM package");
      if failed.Some? then w
      else
        var calls := [ProjectsSetPackage(id, Some(packageId)), ProjectsGetById(id)];
        match rd.updated
        case Threw(_) => Effect(s, calls, [ErrorToast("Failed to link to BOM package")])
        case Got(None) => Effect(s, calls, [])
        case Got(Some(u)) =>
          var e := Relinked(s.(currentProject := Some(u)), packageId, rd);
          Effect(e.state, calls + e.calls, e.toasts)
  }

  /** What linkToPackage does once the linked project is current: the reloads and the success toast. */
  function Relinked(s: LoadCalcState, packageId: int, rd: LinkReads): Effect
  {
    var e1 := FetchLocations(s, packageId, rd.locations);
    var e2 := Then(e1, ResolveBomPackageInfo(e1.state, rd.pkg, rd.job));
    var e3 := Then(e2, FetchProjects(e2.state, rd.projects));
    Show(e3, SuccessToast("Linked to BOM package"))
  }

  /**
   * unlinkFromPackage: with a current project, clear the link, read the
   * project back, and when it exists make it current with no locations, no
   * location and no package info, then reload the project list.
   */
  function UnlinkFromPackage(s: LoadCalcState, failed: Option<Failure>, updated: Answer<Option<Project>>,
                             projects: Answer<seq<Project>>): Effect
  {
    if s.currentProject.None? then Effect(s, [], [])
    else
      var id := s.currentProject.value.id;
      var w := Written(s, ProjectsSetPackage(id, None), failed, "Failed to unlink from BOM package");
      if failed.Some? then w
      else
        var calls := [ProjectsSetPackage(id, None), ProjectsGetById(id)];
        match updated
        case Threw(_) => Effect(s, calls, [ErrorToast("Failed to unlink from BOM package")])
        case Got(None) => Effect(s, calls, [])
        case Got(Some(u)) =>
          var e1 := Effect(s.(currentProject := Some(u), locations := [], currentLocation := None, bomPackageInfo := None), calls, []);
          Show(Then(e1, FetchProjects(e1.state, projects)), SuccessToast("Unlinked from BOM package"))
  }

  /** createLocation: only for a linked project; create it on the package, then reload the package's locations. */
  function CreateLocation(s: LoadCalcState, name: string, failed: Option<Failure>, reload: Answer<seq<Location>>): Effect
  {
    if !Linked(s.currentProject) then
      Effect(s, [], [ErrorToast("Project must be linked to a BOM package to manage locations")])
    else
      var pkg := PackageOf(s.currentProject);
      var w := Written(s, LocationsCreate(pkg, name), failed, "Failed to create location");
      if failed.Some? then w
      else Show(Then(w, FetchLocations(s, pkg, reload)), SuccessToast("Location created"))
  }

  /** syncLocations: only for a linked project; reload the package's locations. */
  function SyncLocations(s: LoadCalcState, reload: Answer<seq<Location>>): Effect
  {
    if !Linked(s.currentProject) then Effect(s, [], [ErrorToast("Project must be linked to a BOM package")])
    else Show(FetchLocations(s, PackageOf(s.currentProject), reload), SuccessToast("Locations synced from BOM"))
  }

  /**
   * Creating or syncing locations of a project that is not linked (no
   * project, a null package or package 0) makes no call and changes nothing;
   * a linked project works on its own package's locations.
   */
  lemma LocationGuards(s: LoadCalcState, name: string, failed: Option<Failure>, reload: Answer<seq<Location>>)
    ensures !Linked(s.currentProject) ==>
      CreateLocation(s, name, failed, reload) == Effect(s, [], [ErrorToast("Project must be linked to a BOM package to manage locations")])
    ensures !Linked(s.currentProject) ==>
      SyncLocations(s, reload) == Effect(s, [], [ErrorToast("Project must be linked to a BOM package")])
    ensures Linked(s.currentProject) ==>
      SyncLocations(s, reload).calls == [LocationsByProject(PackageOf(s.currentProject))]
    ensures Linked(s.currentProject) && failed.None? ==>
      CreateLocation(s, name, failed, reload).calls ==
        [LocationsCreate(PackageOf(s.currentProject), name), LocationsByProject(PackageOf(s.currentProject))]
  {
  }

  /**
   * A successful unlink leaves no locations, no current location and no
   * package info; a successful link reads the new package's locations.
   * Without a current project neither does anything.
   */
  lemma LinkUnlink(s: LoadCalcState, failed: Option<Failure>, updated: Project, projects: Answer<seq<Project>>,
                   packageId: int, rd: LinkReads)
    ensures s.currentProject.Some? ==> (var t := UnlinkFromPackage(s, None, BomStore.Got(Some(updated)), projects).state;
      t.currentProject == Some(updated) && t.locations == [] && t.currentLocation.None? && t.bomPackageInfo.None?)
    ensures s.currentProject.Some? && rd.updated == BomStore.Got(Some(updated)) ==>
      (var e := LinkToPackage(s, packageId, None, rd);
       |e.calls| >= 3 && e.calls[2] == LocationsByProject(packageId) && e.state.currentProject == Some(updated))
    ensures s.currentProject.None? ==> UnlinkFromPackage(s, failed, BomStore.Got(Some(updated)), projects) == Effect(s, [], [])
    ensures s.currentProject.None? ==> LinkToPackage(s, packageId, failed, rd) == Effect(s, [], [])
  {
  }

  // ---------------------------------------------------------------------
  // reports
  // ---------------------------------------------------------------------

  /** generateReports: the three report queries for the current project, all or nothing. */
  function GenerateReports(s: LoadCalcState, r: Answer<ReportData>): (e: Effect)
    ensures s.currentProject.None? ==> e == Effect(s, [], [])
    ensures s.currentProject.Some? ==> e.calls == [ReportsFor(s.currentProject.value.id)]
    ensures e.state.(reportData := s.reportData) == s
    ensures e.state.reportData != s.reportData ==> s.currentProject.Some? && r.Got? && e.state.reportData == Some(r.value)
    ensures s.currentProject.Some? && r.Threw? ==> e.toasts == [ErrorToast("Failed to generate reports")]
  {
    if s.currentProject.None? then Effect(s, [], [])
    else
      var call := [ReportsFor(s.currentProject.value.id)];
      match r
      case Got(data) => Effect(s.(reportData := Some(data)), call, [])
      case Threw(_) => Effect(s, call, [ErrorToast("Failed to generate reports")])
  }

  /** refreshReports: generate, then always announce the refresh. */
  function RefreshReports(s: LoadCalcState, r: Answer<ReportData>): (e: Effect)
    ensures e.state == GenerateReports(s, r).state && e.calls == GenerateReports(s, r).calls
    ensures |e.toasts| >= 1 && e.toasts[|e.toasts| - 1] == SuccessToast("Reports refreshed")
  {
    Show(GenerateReports(s, r), SuccessToast("Reports refreshed"))
  }

  // ---------------------------------------------------------------------
  // the store: each action updates the state by successive `set` calls
  // ---------------------------------------------------------------------

  class Store {
    var state: LoadCalcState

    constructor ()
      ensures state == Initial
    {
      state := Initial;
    }

    method LoadProjects(r: Answer<seq<Project>>) returns (calls: seq<Request>, toasts: seq<Toast>)
      modifies this
      ensures Effect(state, calls, toasts) == FetchProjects(old(state), r)
    {
      calls, toasts := [ProjectsGetAll], [];
      if r.Got? {
        state := state.(projects := r.value);
      } else {
        toasts := [ErrorToast("Failed to load projects")];
      }
    }

    method LoadLocations(packageId: int, r: Answer<seq<Location>>) returns (calls: seq<Request>, toasts: seq<Toast>)
      modifies this
      ensures Effect(state, calls, toasts) == FetchLocations(old(state), packageId, r)
    {
      calls, toasts := [LocationsByProject(packageId)], [];
      if r.Got? {
        state := state.(locations := r.value);
      } else {
        toasts := [ErrorToast("Failed to load locations")];
      }
    }

    method LoadVoltageTables(projectId: int, r: Answer<seq<VoltageTable>>) returns (calls: seq<Request>, toasts: seq<Toast>)
      modifies this
      ensures Effect(state, calls, toasts) == FetchVoltageTables(old(state), projectId, r)
    {
      calls, toasts := [VoltageTablesByProject(projectId)], [];
      if r.Got? {
        state := state.(voltageTables := r.value);
      } else {
        toasts := [ErrorToast("Failed to load voltage tables")];
      }
    }

    method LoadLineItems(tableId: int, r: Answer<seq<LineItem>>) returns (calls: seq<Request>, toasts: seq<Toast>)
      modifies this
      ensures Effect(state, calls, toasts) == FetchLineItems(old(state), tableId, r)
    {
      calls, toasts := [LineItemsByTable(tableId)], [];
      if r.Got? {
        state := state.(lineItems := r.value);
      } else {
        toasts := [ErrorToast("Failed to load line items")];
      }
    }

    method ResolvePackageInfo(pkg: Answer<Option<Package>>, job: Answer<Option<JobProject>>) returns (calls: seq<Request>)
      modifies this
      ensures Effect(state, calls, []) == ResolveBomPackageInfo(old(state), pkg, job)
    {
      if !Linked(state.currentProject) {
        state := state.(bomPackageInfo := None);
        return [];
      }
      calls := [PackagesGetById(PackageOf(state.currentProject))];
      if pkg.Threw? || pkg.value.None? {
        return;
      }
      var p := pkg.value.value;
      calls := calls + [JobProjectsGetById(p.project_id)];
      if job.Got? {
        var number := if job.value.Some? then job.value.value.project_number else "Unknown";
        state := state.(bomPackageInfo := Some(PackageInfo(number, p.package_name)));
      }
    }

    method ChooseProject(p: Option<Project>, rd: ProjectReads) returns (calls: seq<Request>, toasts: seq<Toast>)
      modifies this
      ensures Effect(state, calls, toasts) == SelectProject(old(state), p, rd)
    {
      state := Reselected(state, p);
      calls, toasts := [], [];
      if p.None? {
        return;
      }
      if Linked(p) {
        calls, toasts := LoadLocations(PackageOf(p), rd.locations);
      }
      var c, m := LoadVoltageTables(p.value.id, rd.tables);
      calls, toasts := calls + c, toasts + m;
      c := ResolvePackageInfo(rd.pkg, rd.job);
      calls := calls + c;
      assert toasts + [] == toasts;
    }

    method ChooseLocation(location: Option<Location>)
      modifies this
      ensures state == SelectLocation(old(state), location)
    {
      state := state.(currentLocation := location, currentVoltageTable := None, lineItems := []);
    }

    method ChooseVoltageTable(table: Option<VoltageTable>, items: Answer<seq<LineItem>>)
      returns (calls: seq<Request>, toasts: seq<Toast>)
      modifies this
      ensures Effect(state, calls, toasts) == SelectVoltageTable(old(state), table, items)
    {
      state := state.(currentVoltageTable := table, lineItems := [], calculationResult := None, validationIssues := []);
      calls, toasts := [], [];
      if table.Some? {
        calls, toasts := LoadLineItems(table.value.id, items);
      }
    }

    method RemoveProject(id: int, failed: Option<Failure>, reload: Answer<seq<Project>>)
      returns (calls: seq<Request>, toasts: seq<Toast>)
      modifies this
      ensures Effect(state, calls, toasts) == DeleteProject(old(state), id, failed, reload)
    {
      calls := [ProjectsDelete(id)];
      if failed.Some? {
        return calls, [ErrorToast("Failed to delete project")];
      }
      var c, m := LoadProjects(reload);
      calls, toasts := calls + c, m;
      if IsCurrentProject(state, id) {
        state := Reselected(state, None);
      }
      toasts := toasts + [SuccessToast("Project deleted")];
    }

    method RemoveLocation(id: int, failed: Option<Failure>, reload: Answer<seq<Location>>)
      returns (calls: seq<Request>, toasts: seq<Toast>)
      modifies this
      ensures Effect(state, calls, toasts) == DeleteLocation(old(state), id, failed, reload)
    {
      calls, toasts := [LocationsDelete(id)], [];
      if failed.Some? {
        return calls, [ErrorToast("Failed to delete location")];
      }
      if Linked(state.currentProject) {
        var c, m := LoadLocations(PackageOf(state.currentProject), reload);
        calls, toasts := calls + c, m;
      }
      if IsCurrentLocation(state, id) {
        state := state.(currentLocation := None);
      }
      toasts := toasts + [SuccessToast("Location deleted")];
    }

    method RemoveVoltageTable(id: int, failed: Option<Failure>, reload: Answer<seq<VoltageTable>>)
      returns (calls: seq<Request>, toasts: seq<Toast>)
      modifies this
      ensures Effect(state, calls, toasts) == DeleteVoltageTable(old(state), id, failed, reload)
    {
      calls, toasts := [VoltageTablesDelete(id)], [];
      if failed.Some? {
        return calls, [ErrorToast("Failed to delete table")];
      }
      if state.currentProject.Some? {
        var c, m := LoadVoltageTables(state.currentProject.value.id, reload);
        calls, toasts := calls + c, m;
      }
      if IsCurrentTable(state, id) {
        state := state.(currentVoltageTable := None);
      }
      toasts := toasts + [SuccessToast("Voltage table deleted")];
    }

    method SetTableLock(id: int, isLocked: bool, failed: Option<Failure>,
                        tables: Answer<seq<VoltageTable>>, updated: Answer<Option<VoltageTable>>)
      returns (calls: seq<Request>, toasts: seq<Toast>)
      modifies this
      ensures Effect(state, calls, toasts) == ToggleTableLock(old(state), id, isLocked, failed, tables, updated)
    {
      calls, toasts := [VoltageTablesSetLock(id, isLocked)], [];
      if failed.Some? {
        return calls, [ErrorToast("Failed to update lock status")];
      }
      if state.currentProject.Some? {
        var c, m := LoadVoltageTables(state.currentProject.value.id, tables);
        calls, toasts := calls + c, m;
      }
      if IsCurrentTable(state, id) {
        calls := calls + [VoltageTablesGetById(id)];
        if updated.Threw? {
          return calls, toasts + [ErrorToast("Failed to update lock status")];
        }
        if updated.value.Some? {
          state := state.(currentVoltageTable := Some(Normalized(updated.value.value)));
        }
      }
      toasts := toasts + [SuccessToast(LockToast(isLocked))];
    }

    /**
     * validateAndCalculate, running the validation and the calculation
     * themselves; `computed` is what the calculation gave, or the failure to
     * read the part specifications (also returned when it did not run).
     */
    method Calculate(specs: Answer<SpecTable>, upsertFailed: Option<Failure>)
      returns (ok: bool, computed: Answer<TableResult>, calls: seq<Request>, toasts: seq<Toast>)
      modifies this
      ensures Calculated(Effect(state, calls, toasts), ok) == ValidateAndCalculate(old(state), computed, upsertFailed)
      ensures computed.Got? ==> specs.Got? && old(state).currentVoltageTable.Some? &&
                                computed.value == TableResultOf(old(state).lineItems, old(state).currentVoltageTable.value.voltage_type, specs.value)
      ensures computed.Got? ==> computed.value.itemCount == |old(state).lineItems|
      ensures specs.Got? && Calculable(old(state)) && !HasErrors(IssuesOf(old(state))) ==> computed.Got?
    {
      computed := BomStore.Threw(if specs.Threw? then specs.failure else BomStore.OtherValue);
      if state.currentVoltageTable.None? || state.currentProject.None? || |state.lineItems| == 0 {
        return false, computed, [], [ErrorToast("No line items to calculate")];
      }
      var table, project, items := state.currentVoltageTable.value, state.currentProject.value, state.lineItems;
      state := state.(isCalculating := true, validationIssues := [], calculationResult := None);
      var issues := ValidateLineItems(items, table.voltage_type);
      state := state.(validationIssues := issues);
      calls := [];
      if HasErrors(issues) {
        state := state.(isCalculating := false);
        return false, computed, calls, [ErrorToast("Validation failed: " + IntToString(ErrorCount(issues)) + " error(s)")];
      }
      if specs.Threw? {
        state := state.(isCalculating := false);
        return false, computed, calls, [ErrorToast("Calculation failed")];
      }
      var r := CalculateTableResults(items, table.voltage_type, specs.value);
      computed := BomStore.Got(r);
      state := state.(calculationResult := Some(r), isCalculating := false);
      calls := [ResultsUpsert(project.id, table.id, r.totalWatts, r.totalAmperes, r.totalBtu)];
      if upsertFailed.Some? {
        state := state.(isCalculating := false);
        return false, computed, calls, [ErrorToast("Calculation failed")];
      }
      ok, toasts := true, [SuccessToast("Calculations complete")];
    }

    method ClearCalculationAction()
      modifies this
      ensures state == ClearCalculation(old(state))
    {
      state := state.(calculationResult := None, validationIssues := []);
    }

    method Link(packageId: int, failed: Option<Failure>, rd: LinkReads) returns (calls: seq<Request>, toasts: seq<Toast>)
      modifies this
      ensures Effect(state, calls, toasts) == LinkToPackage(old(state), packageId, failed, rd)
    {
      if state.currentProject.None? {
        return [], [];
      }
      var id := state.currentProject.value.id;
      calls, toasts := [ProjectsSetPackage(id, Some(packageId))], [];
      if failed.Some? {
        return calls, [ErrorToast("Failed to link to BOM package")];
      }
      calls := calls + [ProjectsGetById(id)];
      if rd.updated.Threw? {
        return calls, [ErrorToast("Failed to link to BOM package")];
      }
      if rd.updated.value.None? {
        return;
      }
      state := state.(currentProject := rd.updated.value);
      ghost var linked := state;
      assert linked == old(state).(currentProject := Some(rd.updated.value.value));
      var c, m := Reload(packageId, rd);
      ghost var e := Relinked(linked, packageId, rd);
      assert e == Effect(state, c, m);
      calls, toasts := calls + c, m;
    }

    method Reload(packageId: int, rd: LinkReads) returns (calls: seq<Request>, toasts: seq<Toast>)
      modifies this
      ensures Effect(state, calls, toasts) == Relinked(old(state), packageId, rd)
    {
      calls, toasts := LoadLocations(packageId, rd.locations);
      var c := ResolvePackageInfo(rd.pkg, rd.job);
      calls := calls + c;
      assert toasts + [] == toasts;
      var m;
      c, m := LoadProjects(rd.projects);
      calls, toasts := calls + c, toasts + m + [SuccessToast("Linked to BOM package")];
    }

    method Unlink(failed: Option<Failure>, updated: Answer<Option<Project>>, projects: Answer<seq<Project>>)
      returns (calls: seq<Request>, toasts: seq<Toast>)
      modifies this
      ensures Effect(state, calls, toasts) == UnlinkFromPackage(old(state), failed, updated, projects)
    {
      if state.currentProject.None? {
        return [], [];
      }
      var id := state.currentProject.value.id;
      calls, toasts := [ProjectsSetPackage(id, None)], [];
      if failed.Some? {
        return calls, [ErrorToast("Failed to unlink from BOM package")];
      }
      calls := calls + [ProjectsGetById(id)];
      if updated.Threw? {
        return calls, [ErrorToast("Failed to unlink from BOM package")];
      }
      if updated.value.None? {
        return;
      }
      state := state.(currentProject := updated.value, locations := [], currentLocation := None, bomPackageInfo := None);
      var c, m := LoadProjects(projects);
      calls, toasts := calls + c, m + [SuccessToast("Unlinked from BOM package")];
    }

    method AddLocation(name: string, failed: Option<Failure>, reload: Answer<seq<Location>>)
      returns (calls: seq<Request>, toasts: seq<Toast>)
      modifies this
      ensures Effect(state, calls, toasts) == CreateLocation(old(state), name, failed, reload)
    {
      if !Linked(state.currentProject) {
        return [], [ErrorToast("Project must be linked to a BOM package to manage locations")];
      }
      var pkg := PackageOf(state.currentProject);
      calls := [LocationsCreate(pkg, name)];
      if failed.Some? {
        return calls, [ErrorToast("Failed to create location")];
      }
      var c, m := LoadLocations(pkg, reload);
      calls, toasts := calls + c, m + [SuccessToast("Location created")];
    }

    method Sync(reload: Answer<seq<Location>>) returns (calls: seq<Request>, toasts: seq<Toast>)
      modifies this
      ensures Effect(state, calls, toasts) == SyncLocations(old(state), reload)
    {
      if !Linked(state.currentProject) {
        return [], [ErrorToast("Project must be linked to a BOM package")];
      }
      calls, toasts := LoadLocations(PackageOf(state.currentProject), reload);
      toasts := toasts + [SuccessToast("Locations synced from BOM")];
    }
  }
}
