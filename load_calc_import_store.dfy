// The load-calculation import wizard store (src/stores/load-calc-import-store.ts):
// an uploaded sheet, its headers and rows, the field-to-column mappings being
// edited, and the saved mapping templates.

module LoadCalcImportStore {
  import opened Common

  /** `ImportStep`. */
  datatype ImportStep = Upload | Mapping | Preview | Complete

  /** A row as `sheet_to_json` returns it: column name to cell text. */
  type Row = map<string, string>

  /** `MappingTemplate`. */
  datatype Template = Template(id: string, name: string, mappings: map<string, string>, createdAt: string)

  /** The store's fields; the uploaded `File` is represented by its name. */
  datatype ImportState = ImportState(
    step: ImportStep,
    file: Option<string>,
    headers: seq<string>,
    rows: seq<Row>,
    mappings: map<string, string>,
    templates: seq<Template>,
    isLoading: bool)

  /** The initial state, with the templates found in local storage. */
  function Initial(stored: seq<Template>): (r: ImportState)
    ensures r.templates == stored && r.step == Upload && r.mappings == map[]
  {
    ImportState(Upload, None, [], [], map[], stored, false)
  }

  // ---------------------------------------------------------------------
  // setMapping
  // ---------------------------------------------------------------------

  /** setMapping: a null column removes the field, any other column assigns it. */
  function MappingSet(m: map<string, string>, field: string, column: Option<string>): (r: map<string, string>)
    ensures column.None? ==> field !in r
    ensures column.Some? ==> field in r && r[field] == column.value
    ensures forall k :: k != field ==> (k in r <==> k in m) && (k in r ==> r[k] == m[k])
  {
    match column
    case None => m - {field}
    case Some(c) => m[field := c]
  }

  /** Assigning a column and then clearing it again forgets the field and nothing else. */
  lemma SetThenClear(m: map<string, string>, field: string, c: string)
    ensures MappingSet(MappingSet(m, field, Some(c)), field, None) == m - {field}
  {
  }

  /** The last assignment to a field wins. */
  lemma SetTwice(m: map<string, string>, field: string, c: string, d: string)
    ensures MappingSet(MappingSet(m, field, Some(c)), field, Some(d)) == MappingSet(m, field, Some(d))
  {
  }

  // ---------------------------------------------------------------------
  // templates
  // ---------------------------------------------------------------------

  predicate HasId(ts: seq<Template>, id: string)
  {
    exists i :: 0 <= i < |ts| && ts[i].id == id
  }

  lemma HasIdTail(ts: seq<Template>, id: string)
    requires ts != [] && ts[0].id != id
    ensures HasId(ts, id) <==> HasId(ts[1..], id)
  {
    if HasId(ts, id) {
      var i :| 0 <= i < |ts| && ts[i].id == id;
      assert ts[1..][i - 1] == ts[i];
    }
    if HasId(ts[1..], id) {
      var i :| 0 <= i < |ts[1..]| && ts[1..][i].id == id;
      assert ts[i + 1] == ts[1..][i];
    }
  }

  /** `templates.find(t => t.id === id)`. */
  function Find(ts: seq<Template>, id: string): (r: Option<Template>)
    ensures r.None? <==> !HasId(ts, id)
    ensures r.Some? ==> r.value in ts && r.value.id == id
  {
    if ts == [] then None
    else if ts[0].id == id then Some(ts[0])
    else
      HasIdTail(ts, id);
      Find(ts[1..], id)
  }

  /** The template found is the first one with that id. */
  lemma {:induction false} FindFirst(ts: seq<Template>, id: string)
    requires HasId(ts, id)
    ensures exists i :: 0 <= i < |ts| && ts[i] == Find(ts, id).value && forall j :: 0 <= j < i ==> ts[j].id != id
  {
    if ts[0].id != id {
      HasIdTail(ts, id);
      FindFirst(ts[1..], id);
      var i :| 0 <= i < |ts[1..]| && ts[1..][i] == Find(ts[1..], id).value && forall j :: 0 <= j < i ==> ts[1..][j].id != id;
      assert ts[i + 1] == Find(ts, id).value;
      forall j | 0 <= j < i + 1
        ensures ts[j].id != id
      {
        if j > 0 { assert ts[j] == ts[1..][j - 1]; }
      }
    } else {
      assert ts[0] == Find(ts, id).value;
    }
  }

  /** `templates.filter(t => t.id !== id)`. */
  function WithoutId(ts: seq<Template>, id: string): (r: seq<Template>)
    ensures |r| <= |ts|
    ensures forall t :: t in r <==> t in ts && t.id != id
    ensures !HasId(r, id)
  {
    if ts == [] then []
    else (if ts[0].id == id then [] else [ts[0]]) + WithoutId(ts[1..], id)
  }

  /** Removing an id that is not there gives the list back unchanged. */
  lemma {:induction false} WithoutAbsentId(ts: seq<Template>, id: string)
    requires !HasId(ts, id)
    ensures WithoutId(ts, id) == ts
  {
    if ts != [] {
      assert !HasId(ts[1..], id) by {
        forall i | 0 <= i < |ts[1..]|
          ensures ts[1..][i].id != id
        {
          assert ts[1..][i] == ts[i + 1];
        }
      }
      WithoutAbsentId(ts[1..], id);
      assert [ts[0]] + ts[1..] == ts;
    }
  }

  /** Filtering distributes over an appended template. */
  lemma {:induction false} WithoutIdAppend(ts: seq<Template>, t: Template, id: string)
    ensures WithoutId(ts + [t], id) == WithoutId(ts, id) + (if t.id == id then [] else [t])
  {
    var tail := if t.id == id then [] else [t];
    var whole := ts + [t];
    if ts == [] {
      assert whole[1..] == [];
      assert WithoutId(whole, id) == tail + WithoutId([], id);
    } else {
      var head := if ts[0].id == id then [] else [ts[0]];
      assert whole[0] == ts[0];
      assert whole[1..] == ts[1..] + [t];
      var rest := WithoutId(ts[1..], id);
      WithoutIdAppend(ts[1..], t, id);
      assert WithoutId(whole, id) == head + (rest + tail);
      SeqAssoc(head, rest, tail);
    }
  }

  /** saveTemplate: the new template, holding the current mappings, goes last. */
  function Saved(s: ImportState, id: string, name: string, createdAt: string): (r: ImportState)
    ensures |r.templates| == |s.templates| + 1
    ensures r.templates[..|s.templates|] == s.templates
    ensures r.templates[|s.templates|] == Template(id, name, s.mappings, createdAt)
    ensures r == s.(templates := r.templates)
  {
    s.(templates := s.templates + [Template(id, name, s.mappings, createdAt)])
  }

  /** loadTemplate: an unknown id changes nothing, a known one copies its mappings. */
  function Loaded(s: ImportState, id: string): (r: ImportState)
    ensures !HasId(s.templates, id) ==> r == s
    ensures HasId(s.templates, id) ==> r == s.(mappings := Find(s.templates, id).value.mappings)
  {
    match Find(s.templates, id)
    case None => s
    case Some(t) => s.(mappings := t.mappings)
  }

  /** deleteTemplate. */
  function Deleted(s: ImportState, id: string): (r: ImportState)
    ensures r == s.(templates := r.templates)
    ensures !HasId(r.templates, id)
    ensures forall t :: t in r.templates <==> t in s.templates && t.id != id
  {
    s.(templates := WithoutId(s.templates, id))
  }

  /**
   * A template saved under a fresh id brings back the mappings it was saved
   * with, whatever mappings have been edited since.
   */
  lemma {:induction false} SaveThenLoad(s: ImportState, id: string, name: string, createdAt: string,
                                       edited: map<string, string>)
    requires !HasId(s.templates, id)
    ensures Loaded(Saved(s, id, name, createdAt).(mappings := edited), id).mappings == s.mappings
  {
    var ts := s.templates + [Template(id, name, s.mappings, createdAt)];
    assert ts[..|s.templates|] == s.templates;
    FindAfter(s.templates, Template(id, name, s.mappings, createdAt));
  }

  lemma {:induction false} FindAfter(ts: seq<Template>, t: Template)
    requires !HasId(ts, t.id)
    ensures Find(ts + [t], t.id) == Some(t)
  {
    if ts == [] {
      assert ([] + [t])[0] == t;
    } else {
      assert (ts + [t])[0] == ts[0];
      assert ts[0].id != t.id;
      assert (ts + [t])[1..] == ts[1..] + [t];
      assert !HasId(ts[1..], t.id) by {
        forall i | 0 <= i < |ts[1..]|
          ensures ts[1..][i].id != t.id
        {
          assert ts[1..][i] == ts[i + 1];
        }
      }
      FindAfter(ts[1..], t);
    }
  }

  /** Saving under a fresh id and deleting that id gives back the templates as they were. */
  lemma SaveThenDelete(s: ImportState, id: string, name: string, createdAt: string)
    requires !HasId(s.templates, id)
    ensures Deleted(Saved(s, id, name, createdAt), id) == s
  {
    WithoutIdAppend(s.templates, Template(id, name, s.mappings, createdAt), id);
    WithoutAbsentId(s.templates, id);
  }

  // ---------------------------------------------------------------------
  // setFile and reset
  // ---------------------------------------------------------------------

  /** The first row's cells, trimmed, with the empty ones dropped. */
  function CleanHeaders(raw: seq<string>): (r: seq<string>)
    ensures |r| <= |raw|
    ensures forall h :: h in r ==> h != "" && NoEdgeSpace(h)
  {
    if raw == [] then []
    else
      var h := Trim(raw[0]);
      if h == "" then CleanHeaders(raw[1..]) else [h] + CleanHeaders(raw[1..])
  }

  /** Exactly the non-blank cells survive, trimmed. */
  lemma {:induction false} CleanHeadersMembers(raw: seq<string>, h: string)
    ensures h in CleanHeaders(raw) <==> h != "" && exists j :: 0 <= j < |raw| && Trim(raw[j]) == h
  {
    if h in CleanHeaders(raw) {
      CleanHeaderFrom(raw, h);
    }
    if h != "" && exists j :: 0 <= j < |raw| && Trim(raw[j]) == h {
      var j :| 0 <= j < |raw| && Trim(raw[j]) == h;
      CleanHeaderKept(raw, j);
    }
  }

  lemma {:induction false} CleanHeaderFrom(raw: seq<string>, h: string)
    requires h in CleanHeaders(raw)
    ensures exists j :: 0 <= j < |raw| && Trim(raw[j]) == h
  {
    var first := Trim(raw[0]);
    var tail := raw[1..];
    if first != h {
      assert h in CleanHeaders(tail);
      CleanHeaderFrom(tail, h);
      var j :| 0 <= j < |tail| && Trim(tail[j]) == h;
      assert raw[j + 1] == tail[j];
    }
  }

  lemma {:induction false} CleanHeaderKept(raw: seq<string>, j: nat)
    requires j < |raw| && Trim(raw[j]) != ""
    ensures Trim(raw[j]) in CleanHeaders(raw)
  {
    var tail := raw[1..];
    if j > 0 {
      assert tail[j - 1] == raw[j];
      CleanHeaderKept(tail, j - 1);
    }
  }

  /** What the spreadsheet reader made of the file: nothing, or the sheet as rows of cells and as records. */
  datatype SheetRead =
    | Unreadable
    | Sheet(cells: seq<seq<string>>, records: seq<Row>)

  /** setFile, once the read has settled. */
  function FileSet(s: ImportState, name: string, read: SheetRead): (r: ImportState)
    ensures !r.isLoading
    ensures read.Unreadable? || read.cells == [] ==> r == s.(file := None, isLoading := false)
    ensures read.Sheet? && read.cells != [] ==>
      r == s.(file := Some(name), headers := CleanHeaders(read.cells[0]), rows := read.records,
               step := Mapping, mappings := map[], isLoading := false)
  {
    match read
    case Unreadable => s.(isLoading := false, file := None)
    case Sheet(cells, records) =>
      if cells == [] then s.(isLoading := false, file := None)
      else s.(file := Some(name), headers := CleanHeaders(cells[0]), rows := records,
              step := Mapping, mappings := map[], isLoading := false)
  }

  /** reset: back to the upload step with nothing loaded; the templates stay. */
  function ResetState(s: ImportState): (r: ImportState)
    ensures r == Initial(s.templates)
  {
    s.(step := Upload, file := None, headers := [], rows := [], mappings := map[], isLoading := false)
  }

  /** A loaded file's headers are all usable column names. */
  lemma LoadedHeadersClean(s: ImportState, name: string, cells: seq<seq<string>>, records: seq<Row>)
    requires cells != []
    ensures var r := FileSet(s, name, Sheet(cells, records));
      r.step == Mapping && r.mappings == map[] && r.rows == records &&
      forall h :: h in r.headers ==> h != "" && NoEdgeSpace(h)
  {
  }

  /** A failed read keeps the step, the mappings and the templates. */
  lemma FailedReadKeeps(s: ImportState, name: string)
    ensures var r := FileSet(s, name, Unreadable);
      r.step == s.step && r.mappings == s.mappings && r.templates == s.templates && r.file.None?
  {
  }

  /** An empty sheet is refused like an unreadable file. */
  lemma EmptySheetRefused(s: ImportState, name: string, records: seq<Row>)
    ensures FileSet(s, name, Sheet([], records)) == FileSet(s, name, Unreadable)
  {
  }

  /** Two resets are one reset, and a reset forgets everything but the templates. */
  lemma ResetForgets(s: ImportState, t: ImportState)
    requires s.templates == t.templates
    ensures ResetState(s) == ResetState(t) == ResetState(ResetState(s))
  {
  }

  // ---------------------------------------------------------------------
  // the store
  // ---------------------------------------------------------------------

  /** The zustand store: every `set` replaces the state by a copy with some keys overwritten. */
  class Store {
    var state: ImportState

    constructor (stored: seq<Template>)
      ensures state == Initial(stored)
    {
      state := ImportState(Upload, None, [], [], map[], stored, false);
    }

    method SetStep(step: ImportStep)
      modifies this
      ensures state == old(state).(step := step)
    {
      state := state.(step := step);
    }

    /** setFile: loading is raised first and lowered when the read has settled. */
    method SetFile(name: string, read: SheetRead)
      modifies this
      ensures state == FileSet(old(state), name, read)
    {
      state := state.(isLoading := true);
      if read.Unreadable? || read.cells == [] {
        state := state.(isLoading := false, file := None);
        return;
      }
      var headers := CleanHeaders(read.cells[0]);
      state := state.(file := Some(name), headers := headers, rows := read.records,
                      step := Mapping, mappings := map[], isLoading := false);
    }

    method Reset()
      modifies this
      ensures state == ResetState(old(state))
    {
      state := state.(step := Upload, file := None, headers := [], rows := [], mappings := map[], isLoading := false);
    }

    /** setMapping: copy the mappings, then delete or assign the key. */
    method SetMapping(field: string, column: Option<string>)
      modifies this
      ensures state == old(state).(mappings := MappingSet(old(state).mappings, field, column))
    {
      var m := state.mappings;
      if column.None? {
        m := m - {field};
      } else {
        m := m[field := column.value];
      }
      state := state.(mappings := m);
    }

    /** saveTemplate; the id and the timestamp are supplied by the caller. */
    method SaveTemplate(name: string, id: string, createdAt: string)
      modifies this
      ensures state == Saved(old(state), id, name, createdAt)
    {
      var t := Template(id, name, state.mappings, createdAt);
      state := state.(templates := state.templates + [t]);
    }

    method LoadTemplate(id: string)
      modifies this
      ensures state == Loaded(old(state), id)
    {
      var found := Find(state.templates, id);
      if found.Some? {
        state := state.(mappings := found.value.mappings);
      }
    }

    method DeleteTemplate(id: string)
      modifies this
      ensures state == Deleted(old(state), id)
    {
      var kept := WithoutId(state.templates, id);
      state := state.(templates := kept);
    }
  }
}
