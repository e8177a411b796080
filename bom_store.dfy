// The BOM store (src/stores/bom-store.ts): the selected job project, package
// ("scope"), location and the items shown, with the actions that change them.
// Every database call is named in a Request the action issues; what the
// database answers is a parameter. Each action is a function from the state
// before to an Effect: the state after, the calls made, and what it rethrows.

module BomStore {
  import opened Common

  /** What an awaited call threw: an Error with a message, or some other value. */
  datatype Failure = ErrorObject(message: string) | OtherValue

  /** What an awaited read gave back. */
  datatype Answer<T> = Got(value: T) | Threw(failure: Failure)

  /** `error instanceof Error ? error.message : fallback`. */
  function MessageOf(f: Failure, fallback: string): (r: string)
    ensures f.ErrorObject? ==> r == f.message
    ensures f.OtherValue? ==> r == fallback
  {
    match f
    case ErrorObject(m) => m
    case OtherValue => fallback
  }

  datatype JobProject = JobProject(id: int, project_number: string)

  /** A package; the columns the store never reads are kept as they came. */
  datatype Package = Package(id: int, project_id: int, package_name: string, rest: map<string, JsValue>)

  /** `currentScope`: the package with its job project's number. */
  datatype Scope = Scope(pkg: Package, project_number: string)

  datatype Location = Location(id: int, name: string)

  /** An item is a plain record: updates are spread over it key by key. */
  type Item = map<string, JsValue>

  /** The database calls the store makes, named after the client's tables and methods. */
  datatype Request =
    | JobProjectsGetAll
    | JobProjectsDelete(id: int)
    | JobProjectsGetById(id: int)
    | PackagesByProject(projectId: int)
    | PackagesDelete(id: int)
    | PackagesGetById(id: int)
    | SettingsSet(key: string, value: string)
    | LocationsByProject(packageId: int)
    | ItemsByProject(packageId: int, locationId: Option<int>)
    | ItemsCreate(item: Item)
    | ItemsUpdate(target: JsValue, updates: Item)
    | ItemsDelete(itemId: int)
    | ItemsBulkDelete(ids: seq<int>)
    | ItemsDuplicate(itemId: int)
    | ItemsBulkCreate(items: seq<Item>)

  datatype BomState = BomState(
    jobProjects: seq<JobProject>,
    packages: seq<Package>,
    currentJobProjectId: Option<int>,
    currentScopePackageId: Option<int>,
    currentScope: Option<Scope>,
    locations: seq<Location>,
    currentLocationId: Option<int>,
    items: seq<Item>,
    loading: bool,
    error: Option<string>,
    pendingWrites: int,
    searchTerm: string,
    selectedItemIds: seq<int>)

  /** The state after one action, the calls it made in order, and what it rethrew. */
  datatype Effect = Effect(state: BomState, calls: seq<Request>, thrown: Option<Failure>)

  const Initial := BomState([], [], None, None, None, [], None, [], false, None, 0, "", [])

  /** A `number | null` id used as a condition: null and 0 are both falsy. */
  predicate Chosen(id: Option<int>)
  {
    id.Some? && id.value != 0
  }

  /** Nothing happens: the state is kept and no call is made. */
  function Nothing(s: BomState): (e: Effect)
    ensures e.state == s && e.calls == [] && e.thrown.None?
  {
    Effect(s, [], None)
  }

  // ---------------------------------------------------------------------
  // loads: each raises loading and clears the error, then stores the answer
  // or the message
  // ---------------------------------------------------------------------

  function LoadJobProjects(s: BomState, r: Answer<seq<JobProject>>): (t: BomState)
    ensures !t.loading && t.currentScopePackageId == s.currentScopePackageId && t.currentJobProjectId == s.currentJobProjectId
    ensures r.Got? ==> t.jobProjects == r.value && t.error.None?
    ensures r.Threw? ==> t.jobProjects == s.jobProjects && t.error == Some(MessageOf(r.failure, "Failed to load job projects"))
  {
    var s1 := s.(loading := true, error := None);
    match r
    case Got(v) => s1.(jobProjects := v, loading := false)
    case Threw(f) => s1.(error := Some(MessageOf(f, "Failed to load job projects")), loading := false)
  }

  /** loadPackages also makes the project current when the read succeeds. */
  function LoadPackages(s: BomState, projectId: int, r: Answer<seq<Package>>): (t: BomState)
    ensures !t.loading && t.currentScopePackageId == s.currentScopePackageId && t.items == s.items
    ensures r.Got? ==> t.packages == r.value && t.currentJobProjectId == Some(projectId) && t.error.None?
    ensures r.Threw? ==> t.packages == s.packages && t.currentJobProjectId == s.currentJobProjectId
  {
    var s1 := s.(loading := true, error := None);
    match r
    case Got(v) => s1.(packages := v, currentJobProjectId := Some(projectId), loading := false)
    case Threw(f) => s1.(error := Some(MessageOf(f, "Failed to load packages")), loading := false)
  }

  function LoadItems(s: BomState, r: Answer<seq<Item>>): (t: BomState)
    ensures !t.loading && t.currentScopePackageId == s.currentScopePackageId && t.currentLocationId == s.currentLocationId
    ensures t.pendingWrites == s.pendingWrites && t.selectedItemIds == s.selectedItemIds
    ensures r.Got? ==> t.items == r.value && t.error.None?
    ensures r.Threw? ==> t.items == s.items && t.error == Some(MessageOf(r.failure, "Failed to load items"))
  {
    var s1 := s.(loading := true, error := None);
    match r
    case Got(v) => s1.(items := v, loading := false)
    case Threw(f) => s1.(error := Some(MessageOf(f, "Failed to load items")), loading := false)
  }

  /**
   * loadLocations: store the locations; when there are some and no location is current,
   * select the first and load its items; otherwise empty the items.
   */
  function LoadLocations(s: BomState, packageId: int, r: Answer<seq<Location>>, items: Answer<seq<Item>>): (e: Effect)
    ensures e.thrown.None? && e.state.currentScopePackageId == s.currentScopePackageId
    ensures e.state.pendingWrites == s.pendingWrites
    ensures r.Got? && r.value != [] && !Chosen(s.currentLocationId) ==>
      e.state.currentLocationId == Some(r.value[0].id) &&
      e.calls == [LocationsByProject(packageId), ItemsByProject(packageId, Some(r.value[0].id))]
    ensures r.Got? && (r.value == [] || Chosen(s.currentLocationId)) ==>
      e.state.items == [] && e.state.currentLocationId == s.currentLocationId
  {
    var s1 := s.(loading := true, error := None);
    match r
    case Threw(f) =>
      Effect(s1.(error := Some(MessageOf(f, "Failed to load locations")), loading := false), [LocationsByProject(packageId)], None)
    case Got(locs) =>
      var s2 := s1.(locations := locs, loading := false);
      if |locs| > 0 && !Chosen(s2.currentLocationId) then
        var first := locs[0].id;
        Effect(LoadItems(s2.(currentLocationId := Some(first)), items),
               [LocationsByProject(packageId), ItemsByProject(packageId, Some(first))], None)
      else
        Effect(s2.(items := []), [LocationsByProject(packageId)], None)
  }

  // ---------------------------------------------------------------------
  // scope
  // ---------------------------------------------------------------------

  /** clearScope: no package, scope, locations, items or current location. */
  function ClearScope(s: BomState): (t: BomState)
    ensures t.currentScopePackageId.None? && t.currentScope.None? && t.locations == [] && t.items == [] && t.currentLocationId.None?
    ensures t.(currentScopePackageId := s.currentScopePackageId, currentScope := s.currentScope, locations := s.locations,
               items := s.items, currentLocationId := s.currentLocationId) == s
  {
    s.(currentScopePackageId := None, currentScope := None, locations := [], items := [], currentLocationId := None)
  }

  /** The fields deleting the current job project empties: the scope, and the packages. */
  function ClearJobProject(s: BomState): (t: BomState)
    ensures t.currentJobProjectId.None? && t.packages == []
    ensures t.currentScopePackageId.None? && t.currentScope.None? && t.locations == [] && t.items == [] && t.currentLocationId.None?
  {
    ClearScope(s).(currentJobProjectId := None, packages := [])
  }

  /** ensureScopeSelected. */
  function ScopeSelected(s: BomState): (b: bool)
    ensures b <==> s.currentScopePackageId != None
  {
    s.currentScopePackageId != None
  }

  /** How waiting for the pending writes ended: they settled, or five seconds passed first. */
  datatype Flush = Settled | TimedOut

  const FlushAbortMessage := "Pending writes did not complete; scope switch aborted"

  /** flushPendingWrites, given how the wait ended: a time-out only records the message. */
  function Flushed(s: BomState, flush: Flush): (t: BomState)
    ensures flush.Settled? ==> t == s
    ensures flush.TimedOut? ==> t == s.(error := Some(FlushAbortMessage))
  {
    if flush.TimedOut? then s.(error := Some(FlushAbortMessage)) else s
  }

  /** What setScope fetched from the database, in order. */
  datatype ScopeReads = ScopeReads(
    pkg: Answer<Option<Package>>,
    jobProject: Answer<Option<JobProject>>,
    persist: Option<Failure>,
    locations: Answer<seq<Location>>,
    items: Answer<seq<Item>>)

  /** setScope after the flush: fetch the package and its job project, switch, persist, load. */
  function SwitchScope(s: BomState, packageId: int, fetched: ScopeReads): (e: Effect)
    ensures e.thrown.None? && e.state.pendingWrites == s.pendingWrites
    ensures fetched.pkg.Got? && fetched.pkg.value.Some? && fetched.jobProject.Got? && fetched.jobProject.value.Some? ==>
      e.state.currentScopePackageId == Some(packageId) &&
      e.state.currentScope == Some(Scope(fetched.pkg.value.value, fetched.jobProject.value.value.project_number)) &&
      e.state.currentJobProjectId == Some(fetched.pkg.value.value.project_id) &&
      e.state.selectedItemIds == [] && e.state.searchTerm == ""
    ensures !(fetched.pkg.Got? && fetched.pkg.value.Some? && fetched.jobProject.Got? && fetched.jobProject.value.Some?) ==>
      e.state == s.(error := e.state.error) && e.state.error.Some?
  {
    var fetch := [PackagesGetById(packageId)];
    match fetched.pkg
    case Threw(f) => Effect(s.(error := Some(MessageOf(f, "Failed to set scope"))), fetch, None)
    case Got(None) => Effect(s.(error := Some("Package not found")), fetch, None)
    case Got(Some(pkg)) =>
      var fetch2 := fetch + [JobProjectsGetById(pkg.project_id)];
      match fetched.jobProject
      case Threw(f) => Effect(s.(error := Some(MessageOf(f, "Failed to set scope"))), fetch2, None)
      case Got(None) => Effect(s.(error := Some("Job project not found")), fetch2, None)
      case Got(Some(jp)) =>
        var s1 := s.(currentScopePackageId := Some(packageId), currentScope := Some(Scope(pkg, jp.project_number)),
                     currentJobProjectId := Some(pkg.project_id), currentLocationId := None,
                     selectedItemIds := [], searchTerm := "");
        var save := fetch2 + [SettingsSet("bom.active_package_id", IntToString(packageId))];
        if fetched.persist.Some? then
          Effect(s1.(error := Some(MessageOf(fetched.persist.value, "Failed to set scope"))), save, None)
        else
          var loaded := LoadLocations(s1, packageId, fetched.locations, fetched.items);
          Effect(loaded.state, save + loaded.calls, None)
  }

  /**
   * setScope as written: a falsy id clears the scope; otherwise wait for the pending writes
   * and switch, whether or not the wait timed out.
   */
  function SetScopeAsWritten(s: BomState, packageId: Option<int>, flush: Flush, fetched: ScopeReads): (e: Effect)
    ensures !Chosen(packageId) ==> e == Effect(ClearScope(s), [], None)
    ensures Chosen(packageId) ==> e == SwitchScope(Flushed(s, flush), packageId.value, fetched)
  {
    if !Chosen(packageId) then Effect(ClearScope(s), [], None)
    else SwitchScope(Flushed(s, flush), packageId.value, fetched)
  }

  /**
   * setScope as its flush evidently intends: when the pending writes did not settle, the
   * switch is abandoned and only the message is recorded.
   */
  function SetScope(s: BomState, packageId: Option<int>, flush: Flush, fetched: ScopeReads): (e: Effect)
    ensures !Chosen(packageId) ==> e.state == ClearScope(s) && e.calls == []
    ensures Chosen(packageId) && flush.TimedOut? ==> e.state == s.(error := Some(FlushAbortMessage)) && e.calls == []
    ensures Chosen(packageId) && flush.Settled? ==> e == SetScopeAsWritten(s, packageId, flush, fetched)
  {
    if !Chosen(packageId) then Effect(ClearScope(s), [], None)
    else if flush.TimedOut? then Effect(Flushed(s, flush), [], None)
    else SwitchScope(s, packageId.value, fetched)
  }

  /** As written, a timed-out flush does not stop the switch, and its message is lost once the locations load. */
  lemma TimedOutSwitchStillHappens(s: BomState, packageId: int, fetched: ScopeReads)
    requires packageId != 0
    requires fetched.pkg.Got? && fetched.pkg.value.Some? && fetched.jobProject.Got? && fetched.jobProject.value.Some?
    requires fetched.persist.None? && fetched.locations.Got? && fetched.items.Got?
    ensures var e := SetScopeAsWritten(s, Some(packageId), TimedOut, fetched);
      e.state.currentScopePackageId == Some(packageId) && e.state.error != Some(FlushAbortMessage)
  {
    var e := SetScopeAsWritten(s, Some(packageId), TimedOut, fetched);
    var pkg := fetched.pkg.value.value;
    var s1 := Flushed(s, TimedOut).(currentScopePackageId := Some(packageId),
                                    currentScope := Some(Scope(pkg, fetched.jobProject.value.value.project_number)),
                                    currentJobProjectId := Some(pkg.project_id), currentLocationId := None,
                                    selectedItemIds := [], searchTerm := "");
    assert e.state == LoadLocations(s1, packageId, fetched.locations, fetched.items).state;
  }

  /** With the correction, a timed-out flush leaves the scope, locations and items as they were. */
  lemma TimedOutKeepsScope(s: BomState, packageId: Option<int>, fetched: ScopeReads)
    requires Chosen(packageId)
    ensures var e := SetScope(s, packageId, TimedOut, fetched);
      e.state.currentScopePackageId == s.currentScopePackageId && e.state.currentScope == s.currentScope &&
      e.state.items == s.items && e.state.locations == s.locations && e.state.error == Some(FlushAbortMessage)
  {
  }

  /** A successful switch starts the new scope with no selection, no search and no current location until one loads. */
  lemma SwitchResets(s: BomState, packageId: int, fetched: ScopeReads)
    requires packageId != 0
    requires fetched.pkg.Got? && fetched.pkg.value.Some? && fetched.jobProject.Got? && fetched.jobProject.value.Some?
    requires fetched.persist.None? && fetched.locations.Got? && fetched.locations.value == []
    ensures var e := SetScope(s, Some(packageId), Settled, fetched);
      e.state.currentScopePackageId == Some(packageId) && e.state.selectedItemIds == [] && e.state.searchTerm == "" &&
      e.state.currentLocationId.None? && e.state.items == [] && e.state.locations == []
  {
  }

  // ---------------------------------------------------------------------
  // deleting the current job project or package
  // ---------------------------------------------------------------------

  /** deleteJobProject: delete, reload the list, and clear everything under it when it was current. */
  function DeleteJobProject(s: BomState, id: int, deleted: Option<Failure>, reload: Answer<seq<JobProject>>): (e: Effect)
    ensures deleted.Some? ==> (e.thrown == deleted && e.calls == [JobProjectsDelete(id)] &&
      e.state == s.(loading := false, error := Some(MessageOf(deleted.value, "Failed to delete job project"))))
    ensures deleted.None? ==> e.thrown.None? && e.calls == [JobProjectsDelete(id), JobProjectsGetAll] && !e.state.loading
  {
    var s1 := s.(loading := true, error := None);
    if deleted.Some? then
      Effect(s1.(error := Some(MessageOf(deleted.value, "Failed to delete job project")), loading := false), [JobProjectsDelete(id)], deleted)
    else
      var s2 := LoadJobProjects(s1, reload);
      var s3 := if s2.currentJobProjectId == Some(id) then ClearJobProject(s2) else s2;
      Effect(s3.(loading := false), [JobProjectsDelete(id), JobProjectsGetAll], None)
  }

  /** Deleting the current job project empties its packages and the scope under it; deleting another keeps them. */
  lemma JobProjectDeletionClears(s: BomState, id: int, reload: Answer<seq<JobProject>>)
    ensures var t := DeleteJobProject(s, id, None, reload).state;
      s.currentJobProjectId == Some(id) ==>
        t.currentJobProjectId.None? && t.packages == [] && t.currentScopePackageId.None? && t.currentScope.None? &&
        t.locations == [] && t.items == [] && t.currentLocationId.None?
    ensures var t := DeleteJobProject(s, id, None, reload).state;
      s.currentJobProjectId != Some(id) ==>
        t.currentJobProjectId == s.currentJobProjectId && t.packages == s.packages &&
        t.currentScopePackageId == s.currentScopePackageId && t.items == s.items
  {
  }

  /** deletePackage: delete, reload the current project's packages, and clear the scope when it was this package. */
  function DeletePackage(s: BomState, packageId: int, deleted: Option<Failure>, reload: Answer<seq<Package>>): (e: Effect)
    ensures deleted.Some? ==> (e.thrown == deleted && e.calls == [PackagesDelete(packageId)] &&
      e.state == s.(loading := false, error := Some(MessageOf(deleted.value, "Failed to delete package"))))
    ensures deleted.None? ==> (e.thrown.None? && !e.state.loading &&
      e.calls == [PackagesDelete(packageId)] + (if Chosen(s.currentJobProjectId) then [PackagesByProject(s.currentJobProjectId.value)] else []))
  {
    var s1 := s.(loading := true, error := None);
    if deleted.Some? then
      Effect(s1.(error := Some(MessageOf(deleted.value, "Failed to delete package")), loading := false), [PackagesDelete(packageId)], deleted)
    else
      var project := s1.currentJobProjectId;
      var s2 := if Chosen(project) then LoadPackages(s1, project.value, reload) else s1;
      var calls := [PackagesDelete(packageId)] + (if Chosen(project) then [PackagesByProject(project.value)] else []);
      var s3 := if s2.currentScopePackageId == Some(packageId) then ClearScope(s2) else s2;
      Effect(s3.(loading := false), calls, None)
  }

  /** Deleting the package in scope clears the scope; deleting another leaves scope, locations and items alone. */
  lemma PackageDeletionClears(s: BomState, packageId: int, reload: Answer<seq<Package>>)
    ensures var t := DeletePackage(s, packageId, None, reload).state;
      s.currentScopePackageId == Some(packageId) ==>
        t.currentScopePackageId.None? && t.currentScope.None? && t.locations == [] && t.items == [] && t.currentLocationId.None?
    ensures var t := DeletePackage(s, packageId, None, reload).state;
      s.currentScopePackageId != Some(packageId) ==>
        t.currentScopePackageId == s.currentScopePackageId && t.currentScope == s.currentScope &&
        t.locations == s.locations && t.items == s.items && t.currentLocationId == s.currentLocationId
  {
  }

  // ---------------------------------------------------------------------
  // current location
  // ---------------------------------------------------------------------

  /**
   * setCurrentLocationId: with a scope and a location the items are reloaded (not awaited),
   * and loadItems has already raised the loading flag and cleared the error before its first
   * await; otherwise the items are emptied.
   */
  function SetCurrentLocationId(s: BomState, locationId: Option<int>): (e: Effect)
    ensures e.state.currentLocationId == locationId && e.thrown.None?
    ensures e.state.currentScopePackageId == s.currentScopePackageId && e.state.pendingWrites == s.pendingWrites
    ensures !Chosen(locationId) ==> e.state.items == [] && e.calls == [] && e.state.error == s.error
    ensures Chosen(locationId) && !Chosen(s.currentScopePackageId) ==>
      e.state.items == [] && e.calls == [] && e.state.error == s.error
    ensures Chosen(locationId) && Chosen(s.currentScopePackageId) ==>
      e.state.items == s.items && e.state.error.None? && e.state.loading &&
      e.calls == [ItemsByProject(s.currentScopePackageId.value, locationId)]
  {
    var s1 := s.(currentLocationId := locationId);
    if Chosen(s1.currentScopePackageId) && Chosen(locationId) then
      Effect(s1.(loading := true, error := None), [ItemsByProject(s1.currentScopePackageId.value, locationId)], None)
    else
      Effect(s1.(items := []), [], None)
  }

  // ---------------------------------------------------------------------
  // item actions
  // ---------------------------------------------------------------------

  /** The guard of every item action: a package in scope and a current location, both truthy. */
  predicate InScope(s: BomState)
  {
    Chosen(s.currentScopePackageId) && Chosen(s.currentLocationId)
  }

  /** The scope captured when an item action starts, used when it ends. */
  datatype Ticket = Ticket(packageId: int, locationId: int)

  function TicketOf(s: BomState): Ticket
    requires InScope(s)
  {
    Ticket(s.currentScopePackageId.value, s.currentLocationId.value)
  }

  /** `{ ...item, project_id, location_id }`. */
  function Scoped(item: Item, t: Ticket): (r: Item)
    ensures "project_id" in r && "location_id" in r
    ensures r["project_id"] == Num(t.packageId as real) && r["location_id"] == Num(t.locationId as real)
    ensures forall k :: k in item && k != "project_id" && k != "location_id" ==> k in r && r[k] == item[k]
  {
    item["project_id" := Num(t.packageId as real)]["location_id" := Num(t.locationId as real)]
  }

  /** `Math.max(0, pendingWrites - 1)`. */
  function Settle(p: int): (r: int)
    ensures r >= 0 && (p >= 1 ==> r == p - 1)
  {
    if p - 1 > 0 then p - 1 else 0
  }

  /** The awaited write, then the reload; a failure records its message, stops and is rethrown. */
  function WriteThenReload(s: BomState, write: Request, t: Ticket, failed: Option<Failure>, reload: Answer<seq<Item>>,
                           fallback: string): (e: Effect)
    ensures failed.Some? ==> (e.thrown == failed && e.calls == [write] &&
      e.state == s.(error := Some(MessageOf(failed.value, fallback)), loading := false))
    ensures failed.None? ==> (e.thrown.None? && e.calls == [write, ItemsByProject(t.packageId, Some(t.locationId))] &&
      e.state == LoadItems(s, reload).(loading := false))
  {
    if failed.Some? then Effect(s.(error := Some(MessageOf(failed.value, fallback)), loading := false), [write], failed)
    else Effect(LoadItems(s, reload).(loading := false), [write, ItemsByProject(t.packageId, Some(t.locationId))], None)
  }

  /** createItem, up to the write: count it as pending and raise loading. */
  function BeginCreateItem(s: BomState, item: Item): (e: Effect)
    ensures !InScope(s) ==> e == Nothing(s)
    ensures InScope(s) ==> e.state.pendingWrites == s.pendingWrites + 1 && e.calls == [ItemsCreate(Scoped(item, TicketOf(s)))]
  {
    if !InScope(s) then Nothing(s)
    else Effect(s.(pendingWrites := s.pendingWrites + 1, loading := true, error := None), [ItemsCreate(Scoped(item, TicketOf(s)))], None)
  }

  /** createItem, after the write: reload on success, record on failure; either way one write fewer is pending. */
  function FinishCreateItem(s: BomState, t: Ticket, item: Item, failed: Option<Failure>, reload: Answer<seq<Item>>): (e: Effect)
    ensures e.state.pendingWrites == Settle(s.pendingWrites) && e.thrown == failed
  {
    var e := if failed.Some? then Effect(s.(error := Some(MessageOf(failed.value, "Failed to create item")), loading := false), [], failed)
             else Effect(LoadItems(s, reload).(loading := false), [ItemsByProject(t.packageId, Some(t.locationId))], None);
    e.(state := e.state.(pendingWrites := Settle(e.state.pendingWrites)))
  }

  /** `items.map(item => item.id === id ? { ...item, ...updates } : item)`. */
  function Merged(items: seq<Item>, id: JsValue, updates: Item): (r: seq<Item>)
    ensures |r| == |items|
    ensures forall i :: 0 <= i < |items| ==> r[i] == if "id" in items[i] && items[i]["id"] == id then items[i] + updates else items[i]
  {
    seq(|items|, i requires 0 <= i < |items| => if "id" in items[i] && items[i]["id"] == id then items[i] + updates else items[i])
  }

  /** updateItem, up to the write: merge the updates into the matching item at once and count the write. */
  function BeginUpdateItem(s: BomState, id: int, updates: Item): (e: Effect)
    ensures !InScope(s) ==> e == Nothing(s)
    ensures InScope(s) ==> (e.state == s.(items := Merged(s.items, Num(id as real), updates), pendingWrites := s.pendingWrites + 1) &&
      e.calls == [ItemsUpdate(Num(id as real), updates)])
  {
    if !InScope(s) then Nothing(s)
    else Effect(s.(items := Merged(s.items, Num(id as real), updates), pendingWrites := s.pendingWrites + 1),
                [ItemsUpdate(Num(id as real), updates)], None)
  }

  /** updateItem, after the write: on failure reload the captured scope to revert and record the message. */
  function FinishUpdateItem(s: BomState, t: Ticket, failed: Option<Failure>, reload: Answer<seq<Item>>): (e: Effect)
    ensures e.state.pendingWrites == Settle(s.pendingWrites) && e.thrown == failed
    ensures failed.None? ==> e.state == s.(pendingWrites := Settle(s.pendingWrites)) && e.calls == []
  {
    if failed.None? then Effect(s.(pendingWrites := Settle(s.pendingWrites)), [], None)
    else
      var s1 := LoadItems(s, reload).(error := Some(MessageOf(failed.value, "Failed to update item")));
      Effect(s1.(pendingWrites := Settle(s1.pendingWrites)), [ItemsByProject(t.packageId, Some(t.locationId))], failed)
  }

  /** The optimistic update changes exactly the items carrying the id, and each by the updates alone. */
  lemma OptimisticUpdate(s: BomState, id: int, updates: Item)
    requires InScope(s)
    ensures var items := BeginUpdateItem(s, id, updates).state.items;
      |items| == |s.items| &&
      (forall i :: 0 <= i < |items| && !("id" in s.items[i] && s.items[i]["id"] == Num(id as real)) ==> items[i] == s.items[i]) &&
      (forall i, k :: 0 <= i < |items| && "id" in s.items[i] && s.items[i]["id"] == Num(id as real) && k in updates ==>
         k in items[i] && items[i][k] == updates[k]) &&
      (forall i, k :: 0 <= i < |items| && k in s.items[i] && k !in updates ==> k in items[i] && items[i][k] == s.items[i][k])
  {
  }

  function DeleteItem(s: BomState, id: int, failed: Option<Failure>, reload: Answer<seq<Item>>): (e: Effect)
    ensures !InScope(s) ==> e == Nothing(s)
    ensures InScope(s) ==> |e.calls| >= 1 && e.calls[0] == ItemsDelete(id) && e.thrown == failed
  {
    if !InScope(s) then Nothing(s)
    else WriteThenReload(s.(loading := true, error := None), ItemsDelete(id), TicketOf(s), failed, reload, "Failed to delete item")
  }

  /** bulkDeleteItems: as deleteItem, and a success also clears the selection. */
  function BulkDeleteItems(s: BomState, ids: seq<int>, failed: Option<Failure>, reload: Answer<seq<Item>>): (e: Effect)
    ensures !InScope(s) ==> e == Nothing(s)
    ensures InScope(s) ==> |e.calls| >= 1 && e.calls[0] == ItemsBulkDelete(ids) && e.thrown == failed
    ensures InScope(s) && failed.None? ==> e.state.selectedItemIds == []
    ensures InScope(s) && failed.Some? ==> e.state.selectedItemIds == s.selectedItemIds
  {
    if !InScope(s) then Nothing(s)
    else
      var e := WriteThenReload(s.(loading := true, error := None), ItemsBulkDelete(ids), TicketOf(s), failed, reload, "Failed to delete items");
      if failed.None? then e.(state := e.state.(selectedItemIds := [])) else e
  }

  function DuplicateItem(s: BomState, id: int, failed: Option<Failure>, reload: Answer<seq<Item>>): (e: Effect)
    ensures !InScope(s) ==> e == Nothing(s)
    ensures InScope(s) ==> |e.calls| >= 1 && e.calls[0] == ItemsDuplicate(id) && e.thrown == failed
  {
    if !InScope(s) then Nothing(s)
    else WriteThenReload(s.(loading := true, error := None), ItemsDuplicate(id), TicketOf(s), failed, reload, "Failed to duplicate item")
  }

  /** bulkImportItems: every item is moved into the current package and location before the bulk create. */
  function BulkImportItems(s: BomState, items: seq<Item>, failed: Option<Failure>, reload: Answer<seq<Item>>): (e: Effect)
    ensures !InScope(s) ==> e == Nothing(s)
    ensures InScope(s) ==> (e.thrown == failed && |e.calls| >= 1 && e.calls[0].ItemsBulkCreate? && |e.calls[0].items| == |items| &&
      forall i :: 0 <= i < |items| ==> e.calls[0].items[i] == Scoped(items[i], TicketOf(s)))
  {
    if !InScope(s) then Nothing(s)
    else
      var t := TicketOf(s);
      var scoped := seq(|items|, i requires 0 <= i < |items| => Scoped(items[i], t));
      WriteThenReload(s.(loading := true, error := None), ItemsBulkCreate(scoped), t, failed, reload, "Failed to import items")
  }

  /** Out of scope, no item action changes anything or calls the database. */
  lemma GuardedActions(s: BomState, id: int, ids: seq<int>, item: Item, items: seq<Item>, updates: Item,
                       failed: Option<Failure>, reload: Answer<seq<Item>>)
    requires !InScope(s)
    ensures BeginCreateItem(s, item) == Nothing(s) && BeginUpdateItem(s, id, updates) == Nothing(s)
    ensures DeleteItem(s, id, failed, reload) == Nothing(s) && BulkDeleteItems(s, ids, failed, reload) == Nothing(s)
    ensures DuplicateItem(s, id, failed, reload) == Nothing(s) && BulkImportItems(s, items, failed, reload) == Nothing(s)
  {
  }

  // ---------------------------------------------------------------------
  // moveItem
  // ---------------------------------------------------------------------

  function SortOrder(item: Item): JsValue
  {
    if "sort_order" in item then item["sort_order"] else Undefined
  }

  predicate HasId(item: Item, id: JsValue)
  {
    "id" in item && item["id"] == id
  }

  /** `items.findIndex(item => item.id === id)`, or -1. */
  function FindIndex(items: seq<Item>, id: JsValue): (r: int)
    ensures -1 <= r < |items|
    ensures r >= 0 ==> HasId(items[r], id) && forall j :: 0 <= j < r ==> !HasId(items[j], id)
    ensures r == -1 ==> forall j :: 0 <= j < |items| ==> !HasId(items[j], id)
  {
    if items == [] then -1
    else if HasId(items[0], id) then 0
    else
      var k := FindIndex(items[1..], id);
      if k == -1 then -1 else k + 1
  }

  /** The neighbour a move goes to: one up or one down. */
  function Target(index: int, up: bool): int
  {
    if up then index - 1 else index + 1
  }

  /** Whether moveItem does anything: the id is present and the neighbour exists. */
  predicate Movable(items: seq<Item>, id: int, up: bool)
  {
    var index := FindIndex(items, Num(id as real));
    index != -1 && 0 <= Target(index, up) < |items|
  }

  /**
   * moveItem: swap the sort_order of the item and its neighbour with two concurrent updates,
   * then reload when in scope; a failure records its message and is not rethrown.
   */
  function MoveItem(s: BomState, id: int, up: bool, failed: Option<Failure>, reload: Answer<seq<Item>>): (e: Effect)
    ensures !Movable(s.items, id, up) ==> e == Nothing(s)
    ensures Movable(s.items, id, up) ==>
      var index := FindIndex(s.items, Num(id as real));
      var target := Target(index, up);
      |e.calls| >= 2 && e.calls[..2] == [ItemsUpdate(s.items[index]["id"], map["sort_order" := SortOrder(s.items[target])]),
                       ItemsUpdate(if "id" in s.items[target] then s.items[target]["id"] else Undefined,
                                   map["sort_order" := SortOrder(s.items[index])])]
    ensures e.thrown.None?
  {
    var index := FindIndex(s.items, Num(id as real));
    if index == -1 then Nothing(s)
    else
      var target := Target(index, up);
      if target < 0 || target >= |s.items| then Nothing(s)
      else
        var current := s.items[index];
        var neighbour := s.items[target];
        var writes := [ItemsUpdate(current["id"], map["sort_order" := SortOrder(neighbour)]),
                       ItemsUpdate(if "id" in neighbour then neighbour["id"] else Undefined, map["sort_order" := SortOrder(current)])];
        if failed.Some? then
          Effect(s.(error := Some(MessageOf(failed.value, "Failed to move item"))), writes, None)
        else if InScope(s) then
          Effect(LoadItems(s, reload), writes + [ItemsByProject(s.currentScopePackageId.value, s.currentLocationId)], None)
        else
          Effect(s, writes, None)
  }

  /** Every item carries an id, and no two share one. */
  predicate KeyedItems(items: seq<Item>)
  {
    (forall i :: 0 <= i < |items| ==> "id" in items[i]) &&
    (forall i, j :: 0 <= i < j < |items| ==> items[i]["id"] != items[j]["id"])
  }

  /** The item list after an update request is applied to every item carrying its id. */
  function Applied(items: seq<Item>, r: Request): (t: seq<Item>)
    requires r.ItemsUpdate?
    ensures |t| == |items|
  {
    Merged(items, r.target, r.updates)
  }

  /**
   * Applied to the items it read, moveItem's two writes exchange the two sort orders and
   * change nothing else.
   */
  lemma MoveSwapsSortOrder(s: BomState, id: int, up: bool, failed: Option<Failure>, reload: Answer<seq<Item>>)
    requires KeyedItems(s.items) && Movable(s.items, id, up)
    ensures var e := MoveItem(s, id, up, failed, reload);
      var index := FindIndex(s.items, Num(id as real));
      var target := Target(index, up);
      var after := Applied(Applied(s.items, e.calls[0]), e.calls[1]);
      SortOrder(after[index]) == SortOrder(s.items[target]) && SortOrder(after[target]) == SortOrder(s.items[index]) &&
      (forall i :: 0 <= i < |s.items| && i != index && i != target ==> after[i] == s.items[i]) &&
      (forall k :: k != "sort_order" && k in s.items[index] ==> k in after[index] && after[index][k] == s.items[index][k]) &&
      (forall k :: k != "sort_order" && k in s.items[target] ==> k in after[target] && after[target][k] == s.items[target][k])
  {
    var e := MoveItem(s, id, up, failed, reload);
    var index := FindIndex(s.items, Num(id as real));
    var target := Target(index, up);
    MoveWrites(s, id, up, failed, reload);
    var after := Applied(Applied(s.items, e.calls[0]), e.calls[1]);
    assert after[index] == s.items[index] + map["sort_order" := SortOrder(s.items[target])];
    assert after[target] == s.items[target] + map["sort_order" := SortOrder(s.items[index])];
  }

  /** The two writes of a move, applied: each of the two items gets the other's sort_order. */
  lemma MoveWrites(s: BomState, id: int, up: bool, failed: Option<Failure>, reload: Answer<seq<Item>>)
    requires KeyedItems(s.items) && Movable(s.items, id, up)
    ensures var e := MoveItem(s, id, up, failed, reload);
      var index := FindIndex(s.items, Num(id as real));
      var target := Target(index, up);
      Applied(Applied(s.items, e.calls[0]), e.calls[1]) ==
        s.items[index := s.items[index] + map["sort_order" := SortOrder(s.items[target])]]
               [target := s.items[target] + map["sort_order" := SortOrder(s.items[index])]]
  {
    var e := MoveItem(s, id, up, failed, reload);
    var index := FindIndex(s.items, Num(id as real));
    var target := Target(index, up);
    var u0 := map["sort_order" := SortOrder(s.items[target])];
    var u1 := map["sort_order" := SortOrder(s.items[index])];
    assert e.calls[0] == ItemsUpdate(s.items[index]["id"], u0);
    assert e.calls[1] == ItemsUpdate(s.items[target]["id"], u1);
    MergeOne(s.items, index, u0);
    var mid := s.items[index := s.items[index] + u0];
    assert KeyedItems(mid) by {
      assert forall i :: 0 <= i < |mid| ==> "id" in mid[i] && mid[i]["id"] == s.items[i]["id"];
    }
    MergeOne(mid, target, u1);
  }

  /** In keyed items, an update by an item's id changes that item alone. */
  lemma MergeOne(items: seq<Item>, i: int, updates: Item)
    requires KeyedItems(items) && 0 <= i < |items| && "id" !in updates
    ensures Merged(items, items[i]["id"], updates) == items[i := items[i] + updates]
  {
  }

  // ---------------------------------------------------------------------
  // the pending-writes counter
  // ---------------------------------------------------------------------

  /** A write starting (createItem or updateItem passing its guard) or finishing (its `finally`). */
  datatype WriteEvent = Start | Finish

  /** The counter after a sequence of events, from 0. */
  function Pending(events: seq<WriteEvent>): (r: int)
    ensures r >= 0
  {
    if events == [] then 0
    else
      var p := Pending(events[..|events| - 1]);
      if events[|events| - 1].Start? then p + 1 else Settle(p)
  }

  function Starts(events: seq<WriteEvent>): (r: nat)
  {
    if events == [] then 0 else Starts(events[..|events| - 1]) + (if events[|events| - 1].Start? then 1 else 0)
  }

  function Finishes(events: seq<WriteEvent>): (r: nat)
  {
    if events == [] then 0 else Finishes(events[..|events| - 1]) + (if events[|events| - 1].Finish? then 1 else 0)
  }

  /** Every write finishes after it starts: no prefix has more finishes than starts. */
  predicate WellNested(events: seq<WriteEvent>)
  {
    forall n :: 0 <= n <= |events| ==> Finishes(events[..n]) <= Starts(events[..n])
  }

  /** When writes finish only after they start, the counter is exactly the number in flight. */
  lemma {:induction false} PendingCountsInFlight(events: seq<WriteEvent>)
    requires WellNested(events)
    ensures Pending(events) == Starts(events) - Finishes(events)
  {
    if events != [] {
      var init := events[..|events| - 1];
      assert WellNested(init) by {
        forall n | 0 <= n <= |init|
          ensures Finishes(init[..n]) <= Starts(init[..n])
        {
          assert init[..n] == events[..n];
        }
      }
      PendingCountsInFlight(init);
      assert events[..|events|] == events;
    }
  }

  /** The store's counter follows its events: a guarded start adds one, a finish settles. */
  lemma PendingFollowsEvents(s: BomState, item: Item, id: int, updates: Item, t: Ticket,
                             failed: Option<Failure>, reload: Answer<seq<Item>>)
    requires InScope(s)
    ensures BeginCreateItem(s, item).state.pendingWrites == s.pendingWrites + 1
    ensures BeginUpdateItem(s, id, updates).state.pendingWrites == s.pendingWrites + 1
    ensures FinishCreateItem(s, t, item, failed, reload).state.pendingWrites == Settle(s.pendingWrites)
    ensures FinishUpdateItem(s, t, failed, reload).state.pendingWrites == Settle(s.pendingWrites)
  {
  }

  // ---------------------------------------------------------------------
  // the store
  // ---------------------------------------------------------------------

  /** The zustand store: each `set` replaces the state by a copy with some keys overwritten. */
  class Store {
    var state: BomState

    constructor ()
      ensures state == Initial
    {
      state := Initial;
    }

    method ClearScopeAction()
      modifies this
      ensures state == ClearScope(old(state))
    {
      state := state.(currentScopePackageId := None, currentScope := None, locations := [], items := [], currentLocationId := None);
    }

    method EnsureScopeSelected() returns (b: bool)
      ensures b == ScopeSelected(state)
    {
      b := state.currentScopePackageId != None;
    }

    method SetCurrentLocation(locationId: Option<int>) returns (calls: seq<Request>)
      modifies this
      ensures (state, calls) == (SetCurrentLocationId(old(state), locationId).state, SetCurrentLocationId(old(state), locationId).calls)
    {
      state := state.(currentLocationId := locationId);
      var packageId := state.currentScopePackageId;
      if Chosen(packageId) && Chosen(locationId) {
        state := state.(loading := true, error := None);
        calls := [ItemsByProject(packageId.value, locationId)];
      } else {
        state := state.(items := []);
        calls := [];
      }
    }

    method Scope(packageId: Option<int>, flush: Flush, fetched: ScopeReads) returns (calls: seq<Request>)
      modifies this
      ensures state == SetScope(old(state), packageId, flush, fetched).state
      ensures calls == SetScope(old(state), packageId, flush, fetched).calls
    {
      if !Chosen(packageId) {
        ClearScopeAction();
        return [];
      }
      if flush.TimedOut? {
        state := state.(error := Some(FlushAbortMessage));
        return [];
      }
      var e := SwitchScope(state, packageId.value, fetched);
      state := e.state;
      calls := e.calls;
    }

    method RemoveJobProject(id: int, deleted: Option<Failure>, reload: Answer<seq<JobProject>>)
      returns (calls: seq<Request>, thrown: Option<Failure>)
      modifies this
      ensures Effect(state, calls, thrown) == DeleteJobProject(old(state), id, deleted, reload)
    {
      state := state.(loading := true, error := None);
      if deleted.Some? {
        state := state.(error := Some(MessageOf(deleted.value, "Failed to delete job project")), loading := false);
        return [JobProjectsDelete(id)], deleted;
      }
      state := LoadJobProjects(state, reload);
      if state.currentJobProjectId == Some(id) {
        state := state.(currentJobProjectId := None, packages := [], currentScopePackageId := None, currentScope := None,
                        locations := [], items := [], currentLocationId := None);
      }
      state := state.(loading := false);
      calls, thrown := [JobProjectsDelete(id), JobProjectsGetAll], None;
    }

    method RemovePackage(packageId: int, deleted: Option<Failure>, reload: Answer<seq<Package>>)
      returns (calls: seq<Request>, thrown: Option<Failure>)
      modifies this
      ensures Effect(state, calls, thrown) == DeletePackage(old(state), packageId, deleted, reload)
    {
      state := state.(loading := true, error := None);
      if deleted.Some? {
        state := state.(error := Some(MessageOf(deleted.value, "Failed to delete package")), loading := false);
        return [PackagesDelete(packageId)], deleted;
      }
      calls := [PackagesDelete(packageId)];
      var project := state.currentJobProjectId;
      if Chosen(project) {
        state := LoadPackages(state, project.value, reload);
        calls := calls + [PackagesByProject(project.value)];
      }
      if state.currentScopePackageId == Some(packageId) {
        ClearScopeAction();
      }
      state := state.(loading := false);
      thrown := None;
    }

    method StartCreateItem(item: Item) returns (ticket: Option<Ticket>, calls: seq<Request>)
      modifies this
      ensures state == BeginCreateItem(old(state), item).state && calls == BeginCreateItem(old(state), item).calls
      ensures ticket.Some? <==> InScope(old(state))
      ensures ticket.Some? ==> ticket.value == TicketOf(old(state))
    {
      if !InScope(state) {
        return None, [];
      }
      ticket := Some(TicketOf(state));
      calls := [ItemsCreate(Scoped(item, ticket.value))];
      state := state.(pendingWrites := state.pendingWrites + 1, loading := true, error := None);
    }

    method EndCreateItem(t: Ticket, item: Item, failed: Option<Failure>, reload: Answer<seq<Item>>)
      returns (calls: seq<Request>, thrown: Option<Failure>)
      modifies this
      ensures Effect(state, calls, thrown) == FinishCreateItem(old(state), t, item, failed, reload)
    {
      if failed.Some? {
        state := state.(error := Some(MessageOf(failed.value, "Failed to create item")), loading := false);
        calls, thrown := [], failed;
      } else {
        state := LoadItems(state, reload);
        state := state.(loading := false);
        calls, thrown := [ItemsByProject(t.packageId, Some(t.locationId))], None;
      }
      state := state.(pendingWrites := if state.pendingWrites - 1 > 0 then state.pendingWrites - 1 else 0);
    }

    method StartUpdateItem(id: int, updates: Item) returns (ticket: Option<Ticket>, calls: seq<Request>)
      modifies this
      ensures state == BeginUpdateItem(old(state), id, updates).state && calls == BeginUpdateItem(old(state), id, updates).calls
      ensures ticket.Some? <==> InScope(old(state))
      ensures ticket.Some? ==> ticket.value == TicketOf(old(state))
    {
      if !InScope(state) {
        return None, [];
      }
      ticket := Some(TicketOf(state));
      state := state.(items := Merged(state.items, Num(id as real), updates), pendingWrites := state.pendingWrites + 1);
      calls := [ItemsUpdate(Num(id as real), updates)];
    }

    method EndUpdateItem(t: Ticket, failed: Option<Failure>, reload: Answer<seq<Item>>)
      returns (calls: seq<Request>, thrown: Option<Failure>)
      modifies this
      ensures Effect(state, calls, thrown) == FinishUpdateItem(old(state), t, failed, reload)
    {
      calls, thrown := [], failed;
      if failed.Some? {
        state := LoadItems(state, reload);
        state := state.(error := Some(MessageOf(failed.value, "Failed to update item")));
        calls := [ItemsByProject(t.packageId, Some(t.locationId))];
      }
      state := state.(pendingWrites := if state.pendingWrites - 1 > 0 then state.pendingWrites - 1 else 0);
    }

    method Move(id: int, up: bool, failed: Option<Failure>, reload: Answer<seq<Item>>) returns (calls: seq<Request>)
      modifies this
      ensures state == MoveItem(old(state), id, up, failed, reload).state
      ensures calls == MoveItem(old(state), id, up, failed, reload).calls
    {
      var items := state.items;
      var index := FindIndex(items, Num(id as real));
      if index == -1 {
        return [];
      }
      var target := if up then index - 1 else index + 1;
      if target < 0 || target >= |items| {
        return [];
      }
      var current := items[index];
      var neighbour := items[target];
      calls := [ItemsUpdate(current["id"], map["sort_order" := SortOrder(neighbour)]),
                ItemsUpdate(if "id" in neighbour then neighbour["id"] else Undefined, map["sort_order" := SortOrder(current)])];
      if failed.Some? {
        state := state.(error := Some(MessageOf(failed.value, "Failed to move item")));
        return;
      }
      if Chosen(state.currentScopePackageId) && Chosen(state.currentLocationId) {
        calls := calls + [ItemsByProject(state.currentScopePackageId.value, state.currentLocationId)];
        state := LoadItems(state, reload);
      }
    }

    method RemoveItems(ids: seq<int>, failed: Option<Failure>, reload: Answer<seq<Item>>)
      returns (calls: seq<Request>, thrown: Option<Failure>)
      modifies this
      ensures Effect(state, calls, thrown) == BulkDeleteItems(old(state), ids, failed, reload)
    {
      if !InScope(state) {
        return [], None;
      }
      var t := TicketOf(state);
      state := state.(loading := true, error := None);
      if failed.Some? {
        state := state.(error := Some(MessageOf(failed.value, "Failed to delete items")), loading := false);
        return [ItemsBulkDelete(ids)], failed;
      }
      state := LoadItems(state, reload);
      state := state.(selectedItemIds := [], loading := false);
      calls, thrown := [ItemsBulkDelete(ids), ItemsByProject(t.packageId, Some(t.locationId))], None;
    }
  }
}
