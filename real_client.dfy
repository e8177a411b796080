// The SQLite client (src/lib/db/real-client.ts): what it sends to the database.
// The database itself is a foreign call; the model covers the statements the
// client builds (SQL and bind values) and the results it assembles, for the
// dynamic update builders, the batched bulk inserts, the parts search and the
// item bulk delete and duplicate.

module RealClient {
  import opened Common
  import MockClient

  // ---------------------------------------------------------------------
  // statements
  // ---------------------------------------------------------------------

  /**
   * A piece of SQL: literal text (which never holds a `?`), one `?` placeholder, the column
   * list of an INSERT, or the fixed SELECT of the parts search (kept by name: its text
   * only matters when the statement is rendered).
   */
  datatype Piece = Text(s: string) | Mark | Into(table: string, columns: seq<string>) | PartsSelect

  type Sql = seq<Piece>

  /** A statement and the values bound to its placeholders, in order. */
  datatype Statement = Statement(sql: Sql, params: seq<JsValue>)

  /** `{ rowsAffected, lastInsertId }`. */
  datatype ExecResult = ExecResult(rowsAffected: int, lastInsertId: Option<int>)

  /** What a call does: answer at once without touching the database, or send one statement. */
  datatype Call = Done(result: ExecResult) | Send(stmt: Statement)

  /** The SQL text one piece spells. */
  function PieceText(p: Piece): string
  {
    match p
    case Text(s) => s
    case Mark => "?"
    case Into(t, cs) => "INSERT INTO " + t + " (" + Join(cs, ", ") + ") VALUES "
    case PartsSelect => SearchBase()
  }

  /** The SQL text the statement spells. */
  function Render(q: Sql): string
    decreases |q|
  {
    if |q| == 0 then "" else PieceText(q[0]) + Render(q[1..])
  }

  /** The number of placeholders. */
  function Marks(q: Sql): (r: nat)
    ensures r <= |q|
  {
    if q == [] then 0 else (if q[0].Mark? then 1 else 0) + Marks(q[1..])
  }

  lemma {:induction false} MarksAppend(a: Sql, b: Sql)
    ensures Marks(a + b) == Marks(a) + Marks(b)
  {
    if a != [] {
      assert (a + b)[1..] == a[1..] + b;
      MarksAppend(a[1..], b);
    } else {
      assert a + b == b;
    }
  }

  /** Whether the statement binds exactly one value per placeholder. */
  predicate Balanced(st: Statement)
  {
    Marks(st.sql) == |st.params|
  }

  /** `items.join(sep)` over SQL fragments. */
  function Listed(items: seq<Sql>, sep: string): Sql
  {
    if items == [] then []
    else if |items| == 1 then items[0]
    else items[0] + [Text(sep)] + Listed(items[1..], sep)
  }

  /** `n` copies of one fragment. */
  function Copies(n: nat, x: Sql): (r: seq<Sql>)
    ensures |r| == n && forall i :: 0 <= i < n ==> r[i] == x
  {
    seq(n, _ => x)
  }

  /** Joining `n` copies of a fragment gives `n` times its placeholders. */
  lemma {:induction false} ListedCopies(n: nat, x: Sql, sep: string)
    ensures Marks(Listed(Copies(n, x), sep)) == n * Marks(x)
  {
    if n > 1 {
      assert Copies(n, x)[1..] == Copies(n - 1, x);
      ListedCopies(n - 1, x, sep);
      MarksAppend(x + [Text(sep)], Listed(Copies(n - 1, x), sep));
      MarksAppend(x, [Text(sep)]);
      assert Marks([Text(sep)]) == 0;
      assert (n - 1) * Marks(x) + Marks(x) == n * Marks(x);
    } else if n == 1 {
      assert Listed(Copies(n, x), sep) == x;
    }
  }

  /** `ids.map(() => '?').join(sep)`. */
  function MarkList(n: nat, sep: string): (r: Sql)
    ensures Marks(r) == n
  {
    ListedCopies(n, [Mark], sep);
    Listed(Copies(n, [Mark]), sep)
  }

  /** Numbers as bind values. */
  function Nums(ids: seq<int>): (r: seq<JsValue>)
    ensures |r| == |ids| && forall i :: 0 <= i < |ids| ==> r[i] == Num(ids[i] as real)
  {
    seq(|ids|, i requires 0 <= i < |ids| => Num(ids[i] as real))
  }

  // ---------------------------------------------------------------------
  // the dynamic update builders
  // ---------------------------------------------------------------------

  /** The caller's partial record: a key that is absent or undefined is not to be changed. */
  type Updates = map<string, JsValue>

  /** `updates.c !== undefined`. */
  predicate Given(u: Updates, c: string)
  {
    c in u && u[c] != Undefined
  }

  /** `c = ?`. */
  function Assign(c: string): Sql
  {
    [Text(c + " = "), Mark]
  }

  const Stamp: Sql := [Text("updated_at = CURRENT_TIMESTAMP")]

  /** The columns the update will set, in the table's fixed order. */
  function GivenColumns(columns: seq<string>, u: Updates): (r: seq<string>)
    ensures |r| <= |columns|
    ensures forall i :: 0 <= i < |r| ==> r[i] in columns && Given(u, r[i])
    ensures forall c :: c in columns && Given(u, c) ==> c in r
  {
    if columns == [] then []
    else if Given(u, columns[0]) then [columns[0]] + GivenColumns(columns[1..], u)
    else GivenColumns(columns[1..], u)
  }

  /** The `fields` and `values` arrays after the chain of `if (updates.c !== undefined)` pushes. */
  function SetFields(columns: seq<string>, u: Updates): (r: (seq<Sql>, seq<JsValue>))
  {
    if columns == [] then ([], [])
    else
      var rest := SetFields(columns[1..], u);
      if Given(u, columns[0]) then ([Assign(columns[0])] + rest.0, [u[columns[0]]] + rest.1) else rest
  }

  /** `fields[i]` is `g[i] = ?` and `values[i]` is the caller's value for `g[i]`. */
  predicate FieldsFor(fields: seq<Sql>, values: seq<JsValue>, g: seq<string>, u: Updates)
  {
    |fields| == |g| == |values| &&
    forall i :: 0 <= i < |g| ==> fields[i] == Assign(g[i]) && g[i] in u && values[i] == u[g[i]]
  }

  lemma FieldsForCons(c: string, fields: seq<Sql>, values: seq<JsValue>, g: seq<string>, u: Updates)
    requires FieldsFor(fields, values, g, u) && Given(u, c)
    ensures FieldsFor([Assign(c)] + fields, [u[c]] + values, [c] + g, u)
  {
    var f', v', g' := [Assign(c)] + fields, [u[c]] + values, [c] + g;
    forall i | 0 <= i < |g'| ensures f'[i] == Assign(g'[i]) && g'[i] in u && v'[i] == u[g'[i]] {
      if i > 0 {
        assert f'[i] == fields[i - 1] && g'[i] == g[i - 1] && v'[i] == values[i - 1];
      }
    }
  }

  /** One `c = ?` and one value per given column, in column order. */
  lemma {:induction false} SetFieldsGiven(columns: seq<string>, u: Updates)
    ensures FieldsFor(SetFields(columns, u).0, SetFields(columns, u).1, GivenColumns(columns, u), u)
  {
    if columns != [] {
      SetFieldsGiven(columns[1..], u);
      var rest := SetFields(columns[1..], u);
      var g := GivenColumns(columns[1..], u);
      if Given(u, columns[0]) {
        FieldsForCons(columns[0], rest.0, rest.1, g, u);
        assert SetFields(columns, u) == ([Assign(columns[0])] + rest.0, [u[columns[0]]] + rest.1);
        assert GivenColumns(columns, u) == [columns[0]] + g;
      } else {
        assert SetFields(columns, u) == rest && GivenColumns(columns, u) == g;
      }
    }
  }

  /** The placeholders of the SET list: one per given column. */
  lemma {:induction false} SetListMarks(fields: seq<Sql>)
    requires forall i :: 0 <= i < |fields| ==> Marks(fields[i]) == 1
    ensures Marks(Listed(fields, ", ")) == |fields|
  {
    if |fields| > 1 {
      SetListMarks(fields[1..]);
      MarksAppend(fields[0] + [Text(", ")], Listed(fields[1..], ", "));
      MarksAppend(fields[0], [Text(", ")]);
    }
  }

  /** `UPDATE t SET ... WHERE id = ?`, or rowsAffected 0 without SQL when nothing is given. */
  function UpdateCall(table: string, columns: seq<string>, u: Updates, id: int): (r: Call)
    ensures r.Done? <==> forall c :: c in columns ==> !Given(u, c)
    ensures r.Done? ==> r.result == ExecResult(0, Some(0))
    ensures r.Send? ==> |r.stmt.params| == |GivenColumns(columns, u)| + 1 && r.stmt.params[|r.stmt.params| - 1] == Num(id as real)
  {
    var (fields, values) := SetFields(columns, u);
    SetFieldsGiven(columns, u);
    if |fields| == 0 then
      assert GivenColumns(columns, u) == [];
      Done(ExecResult(0, Some(0)))
    else
      assert columns != [] && GivenColumns(columns, u)[0] in columns;
      Send(Statement([Text("UPDATE " + table + " SET ")] + Listed(fields + [Stamp], ", ") + [Text(" WHERE id = "), Mark],
                     values + [Num(id as real)]))
  }

  /** Every update sent binds one value per placeholder: the given values, then the id. */
  lemma UpdateBalanced(table: string, columns: seq<string>, u: Updates, id: int)
    ensures var r := UpdateCall(table, columns, u, id);
      r.Send? ==> Balanced(r.stmt) && r.stmt.params[..|r.stmt.params| - 1] == SetFields(columns, u).1
  {
    var (fields, values) := SetFields(columns, u);
    SetFieldsGiven(columns, u);
    var r := UpdateCall(table, columns, u, id);
    if r.Send? {
      var all := fields + [Stamp];
      forall i | 0 <= i < |fields|
        ensures Marks(fields[i]) == 1
      {
        assert fields[i] == Assign(GivenColumns(columns, u)[i]);
      }
      ListedWithStamp(fields);
      MarksAppend([Text("UPDATE " + table + " SET ")], Listed(all, ", "));
      MarksAppend([Text("UPDATE " + table + " SET ")] + Listed(all, ", "), [Text(" WHERE id = "), Mark]);
      assert r.stmt.params[..|r.stmt.params| - 1] == values;
    }
  }

  lemma {:induction false} ListedWithStamp(fields: seq<Sql>)
    requires forall i :: 0 <= i < |fields| ==> Marks(fields[i]) == 1
    ensures Marks(Listed(fields + [Stamp], ", ")) == |fields|
  {
    if fields == [] {
      assert [] + [Stamp] == [Stamp];
    } else {
      assert (fields + [Stamp])[1..] == fields[1..] + [Stamp];
      ListedWithStamp(fields[1..]);
      MarksAppend(fields[0] + [Text(", ")], Listed(fields[1..] + [Stamp], ", "));
      MarksAppend(fields[0], [Text(", ")]);
    }
  }

  // The columns each builder checks, in the order it checks them.
  function PartColumns(): seq<string>
  {
    ["part_number", "manufacturer_id", "description", "secondary_description", "category_id", "unit"]
  }

  function JobProjectColumns(): seq<string>
  {
    ["project_number"]
  }

  function PackageColumns(): seq<string>
  {
    ["package_name", "name", "description", "version", "metadata"]
  }

  function LegacyProjectColumns(): seq<string>
  {
    ["project_number", "package_name", "name", "description", "version", "metadata"]
  }

  function ItemUpdateColumns(): seq<string>
  {
    ["part_number", "description", "secondary_description", "quantity", "unit", "unit_price",
     "manufacturer", "supplier", "category", "reference_designator", "is_spare", "location_id",
     "sort_order", "metadata"]
  }

  /** The update builder: walk the table's columns, pushing `c = ?` and the value for each given one. */
  method BuildUpdate(table: string, columns: seq<string>, u: Updates, id: int) returns (call: Call)
    ensures call == UpdateCall(table, columns, u, id)
  {
    var fields: seq<Sql> := [];
    var values: seq<JsValue> := [];
    var i := 0;
    while i < |columns|
      invariant 0 <= i <= |columns|
      invariant fields + SetFields(columns[i..], u).0 == SetFields(columns, u).0
      invariant values + SetFields(columns[i..], u).1 == SetFields(columns, u).1
    {
      assert columns[i..][1..] == columns[i + 1..];
      if Given(u, columns[i]) {
        fields := fields + [Assign(columns[i])];
        values := values + [u[columns[i]]];
      }
      i := i + 1;
    }
    assert columns[i..] == [];
    assert fields == SetFields(columns, u).0 && values == SetFields(columns, u).1;
    if |fields| == 0 {
      return Done(ExecResult(0, Some(0)));
    }
    fields := fields + [Stamp];
    values := values + [Num(id as real)];
    call := Send(Statement([Text("UPDATE " + table + " SET ")] + Listed(fields, ", ") + [Text(" WHERE id = "), Mark], values));
  }

  // ---------------------------------------------------------------------
  // batched bulk inserts
  // ---------------------------------------------------------------------

  const MaxParams := 999

  /** `Math.floor(SQLITE_MAX_PARAMS / COLUMNS_PER_ROW)`. */
  function BatchRows(columns: nat): (r: nat)
    requires 0 < columns <= MaxParams
    ensures 0 < r && r * columns <= MaxParams
  {
    MaxParams / columns
  }

  lemma BatchSizes()
    ensures BatchRows(6) == 166 && BatchRows(4) == 249 && BatchRows(16) == 62
  {
  }

  /** The consecutive slices `xs.slice(i, min(i + size, n))` for i = 0, size, 2·size, … */
  function Chunks<T>(xs: seq<T>, size: nat): (r: seq<seq<T>>)
    requires size > 0
    decreases |xs|
  {
    if xs == [] then [] else if |xs| <= size then [xs] else [xs[..size]] + Chunks(xs[size..], size)
  }

  /** Concatenation of a list of lists, in order. */
  function Flatten<T>(xss: seq<seq<T>>): (r: seq<T>)
  {
    if xss == [] then [] else Flatten(xss[..|xss| - 1]) + xss[|xss| - 1]
  }

  lemma {:induction false} FlattenAppend<T>(a: seq<seq<T>>, b: seq<seq<T>>)
    ensures Flatten(a + b) == Flatten(a) + Flatten(b)
    decreases |b|
  {
    if b == [] {
      assert a + b == a;
    } else {
      var init := b[..|b| - 1];
      assert (a + b)[..|a + b| - 1] == a + init;
      FlattenAppend(a, init);
    }
  }

  /** The batches cover the input exactly, in order, without overlap. */
  lemma {:induction false} ChunksCover<T>(xs: seq<T>, size: nat)
    requires size > 0
    ensures Flatten(Chunks(xs, size)) == xs
    decreases |xs|
  {
    if xs != [] && |xs| > size {
      ChunksCover(xs[size..], size);
      FlattenAppend([xs[..size]], Chunks(xs[size..], size));
      assert Flatten([xs[..size]]) == xs[..size] by {
        assert [xs[..size]][..0] == [];
      }
      assert xs[..size] + xs[size..] == xs;
    } else if xs != [] {
      assert [xs][..0] == [];
    }
  }

  /** Every batch holds between one and `size` rows, and all but the last exactly `size`. */
  lemma {:induction false} ChunkSizes<T>(xs: seq<T>, size: nat)
    requires size > 0
    ensures forall c :: c in Chunks(xs, size) ==> 0 < |c| <= size
    ensures forall i :: 0 <= i < |Chunks(xs, size)| - 1 ==> |Chunks(xs, size)[i]| == size
    decreases |xs|
  {
    if xs != [] && |xs| > size {
      ChunkSizes(xs[size..], size);
      var rest := Chunks(xs[size..], size);
      assert Chunks(xs, size) == [xs[..size]] + rest;
      forall i | 0 <= i < |Chunks(xs, size)| - 1
        ensures |Chunks(xs, size)[i]| == size
      {
        if i > 0 {
          assert Chunks(xs, size)[i] == rest[i - 1];
        }
      }
    }
  }

  /** The step of the batch loop: the batch at offset i, then the batches after it. */
  lemma ChunksStep<T>(xs: seq<T>, i: nat, size: nat)
    requires size > 0 && i < |xs|
    ensures var j := if i + size < |xs| then i + size else |xs|;
      Chunks(xs[i..], size) == [xs[i..j]] + Chunks(xs[j..], size)
  {
    var j := if i + size < |xs| then i + size else |xs|;
    if |xs[i..]| <= size {
      assert xs[i..] == xs[i..j];
      assert xs[j..] == [];
    } else {
      assert xs[i..][..size] == xs[i..j];
      assert xs[i..][size..] == xs[j..];
    }
  }

  /** `(?, ?, …, ?)` for one row of `n` columns. */
  function RowMarks(n: nat): (r: Sql)
    ensures Marks(r) == n
  {
    MarksAppend([Text("(")], MarkList(n, ", "));
    MarksAppend([Text("(")] + MarkList(n, ", "), [Text(")")]);
    [Text("(")] + MarkList(n, ", ") + [Text(")")]
  }

  /** `INSERT INTO t (c1, …) VALUES (?, …), (?, …)` with the rows' values in order. */
  function InsertStatement(table: string, columns: seq<string>, batch: seq<seq<JsValue>>): (r: Statement)
    ensures Marks(r.sql) == |batch| * |columns|
  {
    var head := [Into(table, columns)];
    ListedCopies(|batch|, RowMarks(|columns|), ", ");
    MarksAppend(head, Listed(Copies(|batch|, RowMarks(|columns|)), ", "));
    Statement(head + Listed(Copies(|batch|, RowMarks(|columns|)), ", "), Flatten(batch))
  }

  /** Rows of exactly `n` values each. */
  predicate Rows(rows: seq<seq<JsValue>>, n: nat)
  {
    forall i :: 0 <= i < |rows| ==> |rows[i]| == n
  }

  lemma {:induction false} FlattenLength(rows: seq<seq<JsValue>>, n: nat)
    requires Rows(rows, n)
    ensures |Flatten(rows)| == |rows| * n
  {
    if rows != [] {
      FlattenLength(rows[..|rows| - 1], n);
      assert (|rows| - 1) * n + n == |rows| * n;
    }
  }

  /** An insert of well-formed rows binds one value per placeholder, and at most 999 of them when it is a batch. */
  lemma InsertBalanced(table: string, columns: seq<string>, batch: seq<seq<JsValue>>)
    requires Rows(batch, |columns|)
    ensures Balanced(InsertStatement(table, columns, batch))
    ensures 0 < |columns| <= MaxParams && |batch| <= BatchRows(|columns|) ==> |InsertStatement(table, columns, batch).params| <= MaxParams
  {
    FlattenLength(batch, |columns|);
    if 0 < |columns| <= MaxParams && |batch| <= BatchRows(|columns|) {
      assert |batch| * |columns| <= BatchRows(|columns|) * |columns|;
    }
  }

  /** An insert of one row binds exactly that row's values. */
  lemma SingleInsert(table: string, columns: seq<string>, row: seq<JsValue>)
    requires |row| == |columns|
    ensures InsertStatement(table, columns, [row]).params == row
    ensures Balanced(InsertStatement(table, columns, [row]))
  {
    assert [row][..0] == [];
    InsertBalanced(table, columns, [row]);
  }

  /** The statements sent for a list of batches, one each, in order. */
  function Inserts(table: string, columns: seq<string>, batches: seq<seq<seq<JsValue>>>): (r: seq<Statement>)
    ensures |r| == |batches| && forall i :: 0 <= i < |batches| ==> r[i] == InsertStatement(table, columns, batches[i])
  {
    seq(|batches|, i requires 0 <= i < |batches| => InsertStatement(table, columns, batches[i]))
  }

  lemma InsertsAppend(table: string, columns: seq<string>, batches: seq<seq<seq<JsValue>>>, b: seq<seq<JsValue>>)
    ensures Inserts(table, columns, batches + [b]) == Inserts(table, columns, batches) + [InsertStatement(table, columns, b)]
  {
  }

  /** `results.push({ rowsAffected: batch.length, lastInsertId: undefined })` per batch. */
  function Affected<T>(batches: seq<seq<T>>): (r: seq<ExecResult>)
    ensures |r| == |batches| && forall i :: 0 <= i < |batches| ==> r[i] == ExecResult(|batches[i]|, None)
  {
    seq(|batches|, i requires 0 <= i < |batches| => ExecResult(|batches[i]|, None))
  }

  lemma AffectedAppend<T>(batches: seq<seq<T>>, b: seq<T>)
    ensures Affected(batches + [b]) == Affected(batches) + [ExecResult(|b|, None)]
  {
  }

  function TotalAffected(rs: seq<ExecResult>): int
  {
    if rs == [] then 0 else TotalAffected(rs[..|rs| - 1]) + rs[|rs| - 1].rowsAffected
  }

  /** The rowsAffected of the batches add up to the number of rows. */
  lemma {:induction false} AffectedTotal<T>(batches: seq<seq<T>>)
    ensures TotalAffected(Affected(batches)) == |Flatten(batches)|
  {
    if batches != [] {
      var init := batches[..|batches| - 1];
      AffectedTotal(init);
      assert Affected(batches)[..|batches| - 1] == Affected(init);
    }
  }

  lemma ChunksAffected<T>(xs: seq<T>, size: nat)
    requires size > 0
    ensures TotalAffected(Affected(Chunks(xs, size))) == |xs|
  {
    AffectedTotal(Chunks(xs, size));
    ChunksCover(xs, size);
  }

  /** One batch's values, pushed row by row. */
  method BatchValues(batch: seq<seq<JsValue>>) returns (values: seq<JsValue>)
    ensures values == Flatten(batch)
  {
    values := [];
    var j := 0;
    while j < |batch|
      invariant 0 <= j <= |batch|
      invariant values == Flatten(batch[..j])
    {
      assert batch[..j + 1][..j] == batch[..j];
      values := values + batch[j];
      j := j + 1;
    }
    assert batch[..j] == batch;
  }

  /** bomPackages.bulkCreate and bomLocations.bulkCreate: nothing for no rows, otherwise one insert per batch. */
  method BulkInsert(table: string, columns: seq<string>, rows: seq<seq<JsValue>>)
    returns (sent: seq<Statement>, results: seq<ExecResult>)
    requires 0 < |columns| <= MaxParams
    ensures sent == Inserts(table, columns, Chunks(rows, BatchRows(|columns|)))
    ensures results == Affected(Chunks(rows, BatchRows(|columns|)))
    ensures rows == [] ==> sent == [] && results == []
  {
    sent := [];
    results := [];
    if |rows| == 0 {
      return;
    }
    var size := BatchRows(|columns|);
    ghost var batches: seq<seq<seq<JsValue>>> := [];
    var i := 0;
    while i < |rows|
      invariant 0 <= i
      invariant batches + Chunks(rows[if i < |rows| then i else |rows|..], size) == Chunks(rows, size)
      invariant sent == Inserts(table, columns, batches) && results == Affected(batches)
      decreases |rows| - i
    {
      var end := if i + size < |rows| then i + size else |rows|;
      var batch := rows[i..end];
      ChunksStep(rows, i, size);
      var values := BatchValues(batch);
      sent := sent + [Statement([Into(table, columns)] +
                                  Listed(Copies(|batch|, RowMarks(|columns|)), ", "), values)];
      results := results + [ExecResult(|batch|, None)];
      batches := batches + [batch];
      i := i + size;
      assert (if i < |rows| then i else |rows|) == end;
    }
    assert rows[|rows|..] == [];
  }

  function PackageInsertColumns(): (r: seq<string>)
    ensures |r| == 6
  {
    ["project_id", "package_name", "name", "description", "version", "metadata"]
  }

  function LocationInsertColumns(): (r: seq<string>)
    ensures |r| == 4
  {
    ["project_id", "name", "export_name", "sort_order"]
  }

  /** bomPackages.bulkCreate: batches of 166 six-value rows, each batch one statement of at most 996 values. */
  method BulkCreatePackages(packages: seq<seq<JsValue>>) returns (sent: seq<Statement>, results: seq<ExecResult>)
    ensures sent == Inserts("bom_packages", PackageInsertColumns(), Chunks(packages, 166))
    ensures results == Affected(Chunks(packages, 166))
  {
    BatchSizes();
    sent, results := BulkInsert("bom_packages", PackageInsertColumns(), packages);
  }

  /** bomLocations.bulkCreate: batches of 249 four-value rows. */
  method BulkCreateLocations(locations: seq<seq<JsValue>>) returns (sent: seq<Statement>, results: seq<ExecResult>)
    ensures sent == Inserts("bom_locations", LocationInsertColumns(), Chunks(locations, 249))
    ensures results == Affected(Chunks(locations, 249))
  {
    BatchSizes();
    sent, results := BulkInsert("bom_locations", LocationInsertColumns(), locations);
  }

  /** The 16 columns of bom_items, sort_order last. */
  function ItemColumns(): (r: seq<string>)
    ensures |r| == 16 && r[15] == "sort_order"
  {
    ["project_id", "location_id", "part_id", "part_number", "description",
     "secondary_description", "quantity", "unit", "unit_price", "manufacturer",
     "supplier", "category", "reference_designator", "is_spare", "metadata", "sort_order"]
  }

  /** `(lastItem[0]?.max_order ?? 0) + 1`: MAX over no rows is null. */
  function StartOrder(maxOrder: Option<int>): (r: int)
    ensures maxOrder.None? ==> r == 1
    ensures maxOrder.Some? ==> r == maxOrder.value + 1
  {
    (if maxOrder.Some? then maxOrder.value else 0) + 1
  }

  /** The rows with their incoming sort_order replaced by start, start + 1, … */
  function Ordered(items: seq<seq<JsValue>>, start: int): (r: seq<seq<JsValue>>)
    requires Rows(items, 16)
    ensures |r| == |items| && Rows(r, 16)
    ensures forall k :: 0 <= k < |items| ==> r[k] == items[k][..15] + [Num((start + k) as real)]
  {
    seq(|items|, k requires 0 <= k < |items| => items[k][..15] + [Num((start + k) as real)])
  }

  /** `SELECT MAX(sort_order) … WHERE project_id = ?` for the first item's project. */
  function MaxOrderQuery(projectId: JsValue): (r: Statement)
    ensures Balanced(r)
  {
    Statement([Text("SELECT MAX(sort_order) as max_order FROM bom_items WHERE project_id = "), Mark], [projectId])
  }

  /** One batch's values with sort_order start + j for its j-th row. */
  method OrderedValues(batch: seq<seq<JsValue>>, startOrder: int) returns (values: seq<JsValue>)
    requires Rows(batch, 16)
    ensures values == Flatten(Ordered(batch, startOrder))
  {
    values := [];
    var j := 0;
    while j < |batch|
      invariant 0 <= j <= |batch|
      invariant values == Flatten(Ordered(batch, startOrder)[..j])
    {
      assert Ordered(batch, startOrder)[..j + 1][..j] == Ordered(batch, startOrder)[..j];
      values := values + (batch[j][..15] + [Num((startOrder + j) as real)]);
      j := j + 1;
    }
    assert Ordered(batch, startOrder)[..j] == Ordered(batch, startOrder);
  }

  /** The insert of one batch of items, numbered from startOrder. */
  method ItemBatch(batch: seq<seq<JsValue>>, startOrder: int) returns (st: Statement)
    requires Rows(batch, 16)
    ensures st == InsertStatement("bom_items", ItemColumns(), Ordered(batch, startOrder))
  {
    var values := OrderedValues(batch, startOrder);
    st := Statement([Into("bom_items", ItemColumns())] + Listed(Copies(|batch|, RowMarks(16)), ", "), values);
  }

  /** The step of the items batch loop: the batch at offset i, numbered from start + i, then the rest. */
  lemma ItemsStep(items: seq<seq<JsValue>>, start: int, i: nat, size: nat)
    requires Rows(items, 16) && size > 0 && i < |items|
    ensures var j := if i + size < |items| then i + size else |items|;
      Chunks(Ordered(items, start)[i..], size) == [Ordered(items[i..j], start + i)] + Chunks(Ordered(items, start)[j..], size)
  {
    var j := if i + size < |items| then i + size else |items|;
    ChunksStep(Ordered(items, start), i, size);
    assert Ordered(items[i..j], start + i) == Ordered(items, start)[i..j];
  }

  /** The batch loop of bomItems.bulkCreate, sort_order running on from startOrder. */
  method ItemBatches(items: seq<seq<JsValue>>, startOrder: int) returns (inserts: seq<Statement>, results: seq<ExecResult>)
    requires Rows(items, 16)
    ensures inserts == Inserts("bom_items", ItemColumns(), Chunks(Ordered(items, startOrder), BatchRows(16)))
    ensures results == Affected(Chunks(Ordered(items, startOrder), BatchRows(16)))
  {
    inserts := [];
    results := [];
    var order := startOrder;
    ghost var start := startOrder;
    ghost var all := Ordered(items, start);
    var size := BatchRows(|ItemColumns()|);
    ghost var batches: seq<seq<seq<JsValue>>> := [];
    var i := 0;
    while i < |items|
      invariant 0 <= i
      invariant order == start + (if i < |items| then i else |items|)
      invariant batches + Chunks(all[if i < |items| then i else |items|..], size) == Chunks(all, size)
      invariant inserts == Inserts("bom_items", ItemColumns(), batches)
      invariant results == Affected(batches)
      decreases |items| - i
    {
      var end := if i + size < |items| then i + size else |items|;
      var batch := items[i..end];
      ItemsStep(items, start, i, size);
      ghost var next := Ordered(batch, order);
      assert Chunks(all[i..], size) == [next] + Chunks(all[end..], size);
      assert (batches + [next]) + Chunks(all[end..], size) == batches + Chunks(all[i..], size);
      var st := ItemBatch(batch, order);
      InsertsAppend("bom_items", ItemColumns(), batches, next);
      AffectedAppend(batches, next);
      inserts := inserts + [st];
      results := results + [ExecResult(|batch|, None)];
      batches := batches + [next];
      i := i + size;
      order := order + |batch|;
      assert (if i < |items| then i else |items|) == end;
    }
    assert all[|items|..] == [];
  }

  /**
   * bomItems.bulkCreate: nothing for no items; otherwise the MAX query, then one insert per
   * batch of 62, the rows numbered on from the highest sort_order already in the project.
   */
  method BulkCreateItems(items: seq<seq<JsValue>>, maxOrder: Option<int>)
    returns (sent: seq<Statement>, results: seq<ExecResult>)
    requires Rows(items, 16)
    ensures items == [] ==> sent == [] && results == []
    ensures items != [] ==>
      sent == [MaxOrderQuery(items[0][0])] +
              Inserts("bom_items", ItemColumns(), Chunks(Ordered(items, StartOrder(maxOrder)), BatchRows(16)))
    ensures results == Affected(Chunks(Ordered(items, StartOrder(maxOrder)), BatchRows(16)))
  {
    sent := [];
    results := [];
    if |items| == 0 {
      return;
    }
    var inserts;
    inserts, results := ItemBatches(items, StartOrder(maxOrder));
    sent := [MaxOrderQuery(items[0][0])] + inserts;
  }

  /** Row k of `rows` is item k with its first fifteen values kept and sort_order start + k. */
  predicate NumberedFrom(rows: seq<seq<JsValue>>, items: seq<seq<JsValue>>, start: int)
  {
    |rows| == |items| &&
    forall k :: 0 <= k < |items| ==>
      |items[k]| == 16 && |rows[k]| == 16 && rows[k][..15] == items[k][..15] && rows[k][15] == Num((start + k) as real)
  }

  lemma OrderedRows(items: seq<seq<JsValue>>, start: int)
    requires Rows(items, 16)
    ensures NumberedFrom(Ordered(items, start), items, start)
  {
    var ordered := Ordered(items, start);
    forall k | 0 <= k < |items|
      ensures |ordered[k]| == 16 && ordered[k][..15] == items[k][..15] && ordered[k][15] == Num((start + k) as real)
    {
      assert ordered[k] == items[k][..15] + [Num((start + k) as real)];
    }
  }

  /** Across all batches, in order, the k-th row sent is the k-th item with sort_order start + k, whatever it came with. */
  lemma ItemsNumberedOnward(items: seq<seq<JsValue>>, maxOrder: Option<int>)
    requires Rows(items, 16)
    ensures Flatten(Chunks(Ordered(items, StartOrder(maxOrder)), BatchRows(16))) == Ordered(items, StartOrder(maxOrder))
    ensures NumberedFrom(Flatten(Chunks(Ordered(items, StartOrder(maxOrder)), BatchRows(16))), items, StartOrder(maxOrder))
  {
    var ordered := Ordered(items, StartOrder(maxOrder));
    ChunksCover(ordered, BatchRows(16));
    OrderedRows(items, StartOrder(maxOrder));
  }

  // ---------------------------------------------------------------------
  // parts.search, bulkDelete, duplicate
  // ---------------------------------------------------------------------

  function SearchBase(): string
  {
    "SELECT p.*, m.name as manufacturer_name, " +
    "m.code as manufacturer_code, c.name as category_name " +
    "FROM parts p " +
    "JOIN manufacturers m ON p.manufacturer_id = m.id " +
    "LEFT JOIN categories c ON p.category_id = c.id " +
    "WHERE 1=1"
  }

  /** `term.trim().length > 0`. */
  predicate HasTerm(term: string)
  {
    Trim(term) != ""
  }

  /** The full-text match on the part, or the LIKE on the manufacturer's name. */
  function TermFilter(): (r: Sql)
    ensures Marks(r) == 2
  {
    var a := [Text(" AND (p.id IN (SELECT rowid FROM parts_fts WHERE parts_fts MATCH "), Mark];
    var b := [Text(") OR m.name LIKE "), Mark];
    assert Marks(a) == 1 && Marks(b) == 1 && Marks([Text(")")]) == 0 by {
      assert a[1..] == [Mark] && b[1..] == [Mark];
    }
    MarksAppend(a, b);
    MarksAppend(a + b, [Text(")")]);
    a + b + [Text(")")]
  }

  /** `AND p.manufacturer_id IN (?, ?, …)` for n ids. */
  function ManufacturerFilter(n: nat): (r: Sql)
    ensures Marks(r) == n
  {
    MarksAppend([Text(" AND p.manufacturer_id IN (")], MarkList(n, ", "));
    MarksAppend([Text(" AND p.manufacturer_id IN (")] + MarkList(n, ", "), [Text(")")]);
    [Text(" AND p.manufacturer_id IN (")] + MarkList(n, ", ") + [Text(")")]
  }

  /** `ORDER BY p.part_number LIMIT ?`. */
  function LimitClause(): (r: Sql)
    ensures Marks(r) == 1
  {
    assert [Text(" ORDER BY p.part_number LIMIT "), Mark][1..] == [Mark];
    [Text(" ORDER BY p.part_number LIMIT "), Mark]
  }

  /** The statement parts.search sends. */
  function SearchStatement(term: string, manufacturerIds: seq<int>, limit: int): (r: Statement)
    ensures |r.params| == (if HasTerm(term) then 2 else 0) + |manufacturerIds| + 1
    ensures HasTerm(term) ==> r.params[..2] == [Str(term + "*"), Str("%" + term + "%")]
    ensures r.params[|r.params| - 1] == Num(limit as real)
  {
    var termSql := if HasTerm(term) then TermFilter() else [];
    var termParams := if HasTerm(term) then [Str(term + "*"), Str("%" + term + "%")] else [];
    var mfrSql := if |manufacturerIds| > 0 then ManufacturerFilter(|manufacturerIds|) else [];
    Statement([PartsSelect] + termSql + mfrSql + LimitClause(),
              termParams + Nums(manufacturerIds) + [Num(limit as real)])
  }

  /** The search binds one value per placeholder, and the manufacturer ids sit between the term values and the limit. */
  lemma SearchBalanced(term: string, manufacturerIds: seq<int>, limit: int)
    ensures Balanced(SearchStatement(term, manufacturerIds, limit))
    ensures var p := SearchStatement(term, manufacturerIds, limit).params; var off := if HasTerm(term) then 2 else 0;
      p[off..off + |manufacturerIds|] == Nums(manufacturerIds)
  {
    SearchMarks(term, manufacturerIds, limit);
    SearchIdsPlaced(term, manufacturerIds, limit);
  }

  lemma SearchMarks(term: string, manufacturerIds: seq<int>, limit: int)
    ensures Balanced(SearchStatement(term, manufacturerIds, limit))
  {
    var termSql: Sql := if HasTerm(term) then TermFilter() else [];
    var mfrSql: Sql := if |manufacturerIds| > 0 then ManufacturerFilter(|manufacturerIds|) else [];
    assert Marks([PartsSelect]) == 0;
    MarksAppend([PartsSelect], termSql);
    MarksAppend([PartsSelect] + termSql, mfrSql);
    MarksAppend([PartsSelect] + termSql + mfrSql, LimitClause());
  }

  lemma SearchIdsPlaced(term: string, manufacturerIds: seq<int>, limit: int)
    ensures var p := SearchStatement(term, manufacturerIds, limit).params; var off := if HasTerm(term) then 2 else 0;
      p[off..off + |manufacturerIds|] == Nums(manufacturerIds)
  {
    var termParams := if HasTerm(term) then [Str(term + "*"), Str("%" + term + "%")] else [];
    var p := termParams + Nums(manufacturerIds) + [Num(limit as real)];
    assert SearchStatement(term, manufacturerIds, limit).params == p;
    assert p[|termParams|..|termParams| + |manufacturerIds|] == Nums(manufacturerIds);
  }

  /** bomItems.bulkDelete: `DELETE … WHERE id IN (?,?,…)` with the ids. */
  function BulkDeleteStatement(ids: seq<int>): (r: Statement)
    ensures Balanced(r) && r.params == Nums(ids)
  {
    MarksAppend([Text("DELETE FROM bom_items WHERE id IN (")], MarkList(|ids|, ","));
    MarksAppend([Text("DELETE FROM bom_items WHERE id IN (")] + MarkList(|ids|, ","), [Text(")")]);
    Statement([Text("DELETE FROM bom_items WHERE id IN (")] + MarkList(|ids|, ",") + [Text(")")], Nums(ids))
  }

  /** bomItems.duplicate: an error when getById found nothing, otherwise the create of a copy one place lower. */
  function DuplicateCall(found: Option<seq<JsValue>>): (r: Result<Statement>)
    requires found.Some? ==> |found.value| == 16
    ensures r.Err? <==> found.None?
    ensures r.Ok? ==> Balanced(r.value) && |r.value.params| == 16
    ensures r.Ok? ==> r.value.params[..15] == found.value[..15] && r.value.params[15] == MockClient.PlusOne(found.value[15])
  {
    if found.None? then Err("Item not found")
    else
      var row := found.value[..15] + [MockClient.PlusOne(found.value[15])];
      SingleInsert("bom_items", ItemColumns(), row);
      var st := InsertStatement("bom_items", ItemColumns(), [row]);
      Ok(st)
  }
}
