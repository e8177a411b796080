// Pre-calculation checks on the line items of one voltage table
// (src/lib/load-calc/validation.ts).

module Validation {
  import opened Common
  import opened Calculations

  datatype Severity = Error | Warning

  /** The line-item field an issue is about. */
  datatype Field = Qty | UtilizationPct | PhaseAssignment | WattageOverride

  function FieldName(f: Field): string
  {
    match f
    case Qty => "qty"
    case UtilizationPct => "utilization_pct"
    case PhaseAssignment => "phase_assignment"
    case WattageOverride => "wattage_override"
  }

  /**
   * A validation issue.  Its message text is determined by the field and the
   * row label, so the record keeps the label and derives the text.
   */
  datatype Issue = Issue(lineItemId: int, field: Field, row: string, severity: Severity)
  {
    function message(): string { Message(field, row) }
  }

  /** `manual_part_number || description || id`, the row label in messages. */
  function RowLabel(item: LineItem): string
  {
    if item.manual_part_number.Some? && item.manual_part_number.value != "" then item.manual_part_number.value
    else if item.description.Some? && item.description.value != "" then item.description.value
    else IntToString(item.id)
  }

  predicate BadQty(item: LineItem) { item.qty <= 0.0 }

  predicate BadUtilization(item: LineItem) { item.utilization_pct < 0.0 || item.utilization_pct > 1.0 }

  /** A failure of one of the two checks that raise errors. */
  predicate Blocking(item: LineItem) { BadQty(item) || BadUtilization(item) }

  predicate MissingPhase(item: LineItem, threePhase: bool) { threePhase && item.phase_assignment.None? }

  predicate MissingWattage(item: LineItem)
  {
    !HasPart(item) && !(item.wattage_override.Some? && item.wattage_override.value > 0.0)
  }

  /** The message text of each check, ending with the row label. */
  function Message(f: Field, row: string): string
  {
    match f
    case Qty => "Quantity must be greater than 0 (row: " + row + ")"
    case UtilizationPct => "Utilization must be between 0% and 100% (row: " + row + ")"
    case PhaseAssignment => "Phase assignment required for 3-phase table (row: " + row + ")"
    case WattageOverride => "Manual entry has no wattage specified (row: " + row + ")"
  }

  /** Bad quantities and utilisations are errors; the other checks warn. */
  function SeverityOf(f: Field): Severity
  {
    if f == Qty || f == UtilizationPct then Error else Warning
  }

  /** The issue a failed check records for an item. */
  function IssueFor(item: LineItem, f: Field): (r: Issue)
    ensures r.lineItemId == item.id && r.field == f && r.severity == SeverityOf(f)
  {
    Issue(item.id, f, RowLabel(item), SeverityOf(f))
  }

  /** hasErrors: some issue has severity error. */
  function HasErrors(issues: seq<Issue>): (r: bool)
    ensures r <==> exists k :: 0 <= k < |issues| && issues[k].severity == Error
  {
    if issues == [] then false
    else
      assert forall k :: 1 <= k < |issues| ==> issues[k] == issues[1..][k - 1];
      issues[0].severity == Error || HasErrors(issues[1..])
  }

  lemma {:induction false} HasErrorsAppend(a: seq<Issue>, b: seq<Issue>)
    ensures HasErrors(a + b) <==> HasErrors(a) || HasErrors(b)
  {
    if a != [] {
      assert (a + b)[1..] == a[1..] + b;
      HasErrorsAppend(a[1..], b);
    } else {
      assert a + b == b;
    }
  }

  function When(c: bool, i: Issue): (r: seq<Issue>)
    ensures forall f :: Raises(r, f) <==> c && i.field == f
    ensures HasErrors(r) <==> c && i.severity == Error
    ensures forall k :: 0 <= k < |r| ==> r[k] == i
  {
    if c then (assert [i][1..] == []; [i]) else []
  }

  /** Some issue of `r` is about field `f`. */
  predicate Raises(r: seq<Issue>, f: Field)
  {
    r != [] && (r[0].field == f || Raises(r[1..], f))
  }

  lemma {:induction false} RaisesAppend(a: seq<Issue>, b: seq<Issue>, f: Field)
    ensures Raises(a + b, f) <==> Raises(a, f) || Raises(b, f)
  {
    if a != [] {
      assert (a + b)[1..] == a[1..] + b;
      RaisesAppend(a[1..], b, f);
    } else {
      assert a + b == b;
    }
  }

  /** The issues raised for one item, in the order the checks run. */
  function ItemIssues(item: LineItem, threePhase: bool): (r: seq<Issue>)
    ensures |r| <= 4
    ensures forall k :: 0 <= k < |r| ==> r[k].lineItemId == item.id
  {
    When(BadQty(item), IssueFor(item, Qty))
    + When(BadUtilization(item), IssueFor(item, UtilizationPct))
    + When(MissingPhase(item, threePhase), IssueFor(item, PhaseAssignment))
    + When(MissingWattage(item), IssueFor(item, WattageOverride))
  }

  /** Each check raises its issue exactly when its condition holds. */
  lemma ItemIssuesRaise(item: LineItem, threePhase: bool, f: Field)
    ensures Raises(ItemIssues(item, threePhase), f) <==>
            match f
            case Qty => BadQty(item)
            case UtilizationPct => BadUtilization(item)
            case PhaseAssignment => MissingPhase(item, threePhase)
            case WattageOverride => MissingWattage(item)
  {
    var a := When(BadQty(item), IssueFor(item, Qty));
    var b := When(BadUtilization(item), IssueFor(item, UtilizationPct));
    var c := When(MissingPhase(item, threePhase), IssueFor(item, PhaseAssignment));
    var d := When(MissingWattage(item), IssueFor(item, WattageOverride));
    RaisesAppend(a, b, f);
    RaisesAppend(a + b, c, f);
    RaisesAppend(a + b + c, d, f);
  }

  /** An item's issues contain an error iff its quantity or utilisation is bad. */
  lemma ItemIssuesErrors(item: LineItem, threePhase: bool)
    ensures HasErrors(ItemIssues(item, threePhase)) <==> Blocking(item)
  {
    var a := When(BadQty(item), IssueFor(item, Qty));
    var b := When(BadUtilization(item), IssueFor(item, UtilizationPct));
    var c := When(MissingPhase(item, threePhase), IssueFor(item, PhaseAssignment));
    var d := When(MissingWattage(item), IssueFor(item, WattageOverride));
    HasErrorsAppend(a, b);
    HasErrorsAppend(a + b, c);
    HasErrorsAppend(a + b + c, d);
  }

  /** All issues, item by item. */
  function AllIssues(items: seq<LineItem>, threePhase: bool): (r: seq<Issue>)
  {
    if items == [] then [] else AllIssues(items[..|items| - 1], threePhase) + ItemIssues(items[|items| - 1], threePhase)
  }

  /** The four checks of validateLineItems on one item, pushing as they fail. */
  method CheckItem(item: LineItem, threePhase: bool) returns (found: seq<Issue>)
    ensures found == ItemIssues(item, threePhase)
  {
    found := [];
    if item.qty <= 0.0 {
      found := found + [IssueFor(item, Qty)];
    }
    assert found == When(BadQty(item), IssueFor(item, Qty));
    ghost var before := found;
    if item.utilization_pct < 0.0 || item.utilization_pct > 1.0 {
      found := found + [IssueFor(item, UtilizationPct)];
    }
    assert found == before + When(BadUtilization(item), IssueFor(item, UtilizationPct));
    before := found;
    if threePhase && item.phase_assignment.None? {
      found := found + [IssueFor(item, PhaseAssignment)];
    }
    assert found == before + When(MissingPhase(item, threePhase), IssueFor(item, PhaseAssignment));
    before := found;
    var hasOverrideWattage := item.wattage_override.Some? && item.wattage_override.value > 0.0;
    var isManualEntry := !HasPart(item);
    if isManualEntry && !hasOverrideWattage {
      found := found + [IssueFor(item, WattageOverride)];
    }
    assert found == before + When(MissingWattage(item), IssueFor(item, WattageOverride));
  }

  /** validateLineItems: the loop over the items, in order. */
  method ValidateLineItems(items: seq<LineItem>, voltageType: string) returns (issues: seq<Issue>)
    ensures issues == AllIssues(items, IsThreePhase(voltageType))
    ensures items == [] ==> issues == []
  {
    issues := [];
    var threePhase := IsThreePhase(voltageType);
    var i := 0;
    while i < |items|
      invariant 0 <= i <= |items|
      invariant issues == AllIssues(items[..i], threePhase)
    {
      var found := CheckItem(items[i], threePhase);
      issues := issues + found;
      assert items[..i + 1][..i] == items[..i];
      i := i + 1;
    }
    assert items[..i] == items;
  }

  /** The ids of the items, collected item by item. */
  function Ids(items: seq<LineItem>): (r: set<int>)
    ensures forall j :: 0 <= j < |items| ==> items[j].id in r
  {
    if items == [] then {} else Ids(items[..|items| - 1]) + {items[|items| - 1].id}
  }

  /** Every issue carries the id of an item of the input. */
  lemma {:induction false} IssuesNameItems(items: seq<LineItem>, threePhase: bool)
    ensures forall k :: 0 <= k < |AllIssues(items, threePhase)| ==> AllIssues(items, threePhase)[k].lineItemId in Ids(items)
  {
    if items != [] {
      var init := items[..|items| - 1];
      var last := items[|items| - 1];
      IssuesNameItems(init, threePhase);
      var pre := AllIssues(init, threePhase);
      var post := ItemIssues(last, threePhase);
      var ids := Ids(items);
      assert Ids(init) <= ids && last.id in ids;
      assert NamedIn(pre, ids) && NamedIn(post, ids);
      NamedInAppend(pre, post, ids);
      assert pre + post == AllIssues(items, threePhase);
    }
  }

  /** Every issue of the list names an id of the set. */
  predicate NamedIn(r: seq<Issue>, ids: set<int>)
  {
    forall k :: 0 <= k < |r| ==> r[k].lineItemId in ids
  }

  lemma NamedInAppend(a: seq<Issue>, b: seq<Issue>, ids: set<int>)
    requires NamedIn(a, ids) && NamedIn(b, ids)
    ensures NamedIn(a + b, ids)
  {
    forall k | 0 <= k < |a + b| ensures (a + b)[k].lineItemId in ids {
      if k >= |a| {
        assert (a + b)[k] == b[k - |a|];
      }
    }
  }

  /**
   * Only a bad quantity or utilisation blocks the calculation: the
   * validation result has errors iff some item has one of them.
   */
  lemma {:induction false} ErrorsIffBadItem(items: seq<LineItem>, threePhase: bool)
    ensures HasErrors(AllIssues(items, threePhase)) <==> AnyBlocking(items)
  {
    if items != [] {
      var n := |items| - 1;
      ErrorsIffBadItem(items[..n], threePhase);
      HasErrorsAppend(AllIssues(items[..n], threePhase), ItemIssues(items[n], threePhase));
      ItemIssuesErrors(items[n], threePhase);
      AnyBlockingSnoc(items);
    }
  }

  /** Some item blocks the calculation. */
  predicate AnyBlocking(items: seq<LineItem>)
  {
    exists j :: 0 <= j < |items| && Blocking(items[j])
  }

  lemma AnyBlockingSnoc(items: seq<LineItem>)
    requires items != []
    ensures AnyBlocking(items) <==> AnyBlocking(items[..|items| - 1]) || Blocking(items[|items| - 1])
  {
    var init := items[..|items| - 1];
    if AnyBlocking(items) {
      var j :| 0 <= j < |items| && Blocking(items[j]);
      if j < |init| {
        assert init[j] == items[j];
      }
    }
    if AnyBlocking(init) {
      var j :| 0 <= j < |init| && Blocking(init[j]);
      assert init[j] == items[j];
    }
  }
}
