// Electrical load calculations for one voltage table
// (src/lib/load-calc/calculations.ts).  Arithmetic is exact over `real`;
// `Math.round(x * 100) / 100` is `Common.Round2`.  The part-electrical lookup
// `partsElectrical.getByPartAndVoltageType` is an input map.

module Calculations {
  import opened Common

  datatype Phase = L1 | L2 | L3 | N | UNK

  datatype LineItem = LineItem(
    id: int,
    voltage_table_id: int,
    part_id: Option<int>,
    manual_part_number: Option<string>,
    description: Option<string>,
    qty: real,
    utilization_pct: real,
    amperage_override: Option<real>,
    wattage_override: Option<real>,
    heat_dissipation_override: Option<real>,
    power_group: Option<string>,
    phase_assignment: Option<Phase>)

  /** A part_electrical row; a null column is `None`. */
  datatype ElecSpec = ElecSpec(wattage: Option<real>, amperage: Option<real>, heat_dissipation_btu: Option<real>)

  /** part_electrical rows keyed by (part id, voltage type). */
  type SpecTable = map<(int, string), ElecSpec>

  datatype Resolved = Resolved(lineItem: LineItem, wattage: real, amperage: real, heatBtu: real)

  datatype PhaseLoading = PhaseLoading(l1: real, l2: real, l3: real)

  datatype TableResult = TableResult(
    totalWatts: real, totalAmperes: real, totalBtu: real,
    phaseLoading: PhaseLoading, balancePct: Option<real>, itemCount: nat)

  const BtuPerWatt: real := 3.412

  /** `Number(x) || 0` for a nullable numeric column. */
  function NumberOrZero(x: Option<real>): real
  {
    if x.Some? then x.value else 0.0
  }

  predicate HasPart(item: LineItem) { item.part_id.Some? && item.part_id.value != 0 }

  /** resolveLineItem: overrides win over the catalogue specification. */
  function ResolveLineItem(item: LineItem, voltageType: string, specs: SpecTable): (r: Resolved)
    ensures r.lineItem == item
    ensures item.wattage_override.Some? ==> r.wattage == item.wattage_override.value
    ensures item.amperage_override.Some? ==> r.amperage == item.amperage_override.value
    ensures item.heat_dissipation_override.Some? ==> r.heatBtu == item.heat_dissipation_override.value
    ensures item.wattage_override.None? ==>
              r.wattage == (if HasPart(item) && (item.part_id.value, voltageType) in specs
                            then NumberOrZero(specs[(item.part_id.value, voltageType)].wattage) else 0.0)
    ensures item.amperage_override.None? ==>
              r.amperage == (if HasPart(item) && (item.part_id.value, voltageType) in specs
                             then NumberOrZero(specs[(item.part_id.value, voltageType)].amperage) else 0.0)
    ensures item.heat_dissipation_override.None? ==>
              r.heatBtu == (if HasPart(item) && (item.part_id.value, voltageType) in specs
                            then NumberOrZero(specs[(item.part_id.value, voltageType)].heat_dissipation_btu) else 0.0)
  {
    var spec := if HasPart(item) && (item.part_id.value, voltageType) in specs
                then Some(specs[(item.part_id.value, voltageType)]) else None;
    var w := if spec.Some? then NumberOrZero(spec.value.wattage) else 0.0;
    var a := if spec.Some? then NumberOrZero(spec.value.amperage) else 0.0;
    var h := if spec.Some? then NumberOrZero(spec.value.heat_dissipation_btu) else 0.0;
    Resolved(item,
             if item.wattage_override.Some? then item.wattage_override.value else w,
             if item.amperage_override.Some? then item.amperage_override.value else a,
             if item.heat_dissipation_override.Some? then item.heat_dissipation_override.value else h)
  }

  /** An item with neither a part nor overrides resolves to zeros. */
  lemma ResolveUnlinkedIsZero(item: LineItem, voltageType: string, specs: SpecTable)
    requires !HasPart(item)
    requires item.wattage_override.None? && item.amperage_override.None? && item.heat_dissipation_override.None?
    ensures var r := ResolveLineItem(item, voltageType, specs);
            r.wattage == 0.0 && r.amperage == 0.0 && r.heatBtu == 0.0
  {
  }

  // ---------------------------------------------------------------------
  // Unrounded sums, defined over the prefix so that a left-to-right loop
  // extends them one element at a time.
  // ---------------------------------------------------------------------

  function WattsOf(r: Resolved): real { r.lineItem.qty * r.lineItem.utilization_pct * r.wattage }

  function AmpsOf(r: Resolved): real { r.lineItem.qty * r.lineItem.utilization_pct * r.amperage }

  /** The heat of one item: its BTU figure when positive, else watts × 3.412. */
  function BtuOf(r: Resolved): real
  {
    if r.heatBtu > 0.0 then r.lineItem.qty * r.lineItem.utilization_pct * r.heatBtu
    else r.lineItem.qty * r.lineItem.utilization_pct * r.wattage * BtuPerWatt
  }

  function WattsSum(rs: seq<Resolved>): real
  {
    if rs == [] then 0.0 else WattsSum(rs[..|rs| - 1]) + WattsOf(rs[|rs| - 1])
  }

  function AmpsSum(rs: seq<Resolved>): real
  {
    if rs == [] then 0.0 else AmpsSum(rs[..|rs| - 1]) + AmpsOf(rs[|rs| - 1])
  }

  function BtuSum(rs: seq<Resolved>): real
  {
    if rs == [] then 0.0 else BtuSum(rs[..|rs| - 1]) + BtuOf(rs[|rs| - 1])
  }

  /** Watts contributed by items assigned to phase `p`. */
  function PhaseSum(rs: seq<Resolved>, p: Phase): real
  {
    if rs == [] then 0.0
    else PhaseSum(rs[..|rs| - 1], p)
         + (if rs[|rs| - 1].lineItem.phase_assignment == Some(p) then WattsOf(rs[|rs| - 1]) else 0.0)
  }

  /** Watts of items with no L1/L2/L3 assignment (N, UNK or none). */
  function UnphasedSum(rs: seq<Resolved>): real
  {
    if rs == [] then 0.0
    else UnphasedSum(rs[..|rs| - 1])
         + (if rs[|rs| - 1].lineItem.phase_assignment in {Some(L1), Some(L2), Some(L3)}
            then 0.0 else WattsOf(rs[|rs| - 1]))
  }

  /** Watts split across phases add up to the table total. */
  lemma {:induction false} PhasesPartitionWatts(rs: seq<Resolved>)
    ensures PhaseSum(rs, L1) + PhaseSum(rs, L2) + PhaseSum(rs, L3) + UnphasedSum(rs) == WattsSum(rs)
  {
    if rs != [] { PhasesPartitionWatts(rs[..|rs| - 1]); }
  }

  /** N and UNK items never contribute to a phase. */
  lemma {:induction false} NeutralContributesNothing(rs: seq<Resolved>)
    requires forall i :: 0 <= i < |rs| ==> rs[i].lineItem.phase_assignment !in {Some(L1), Some(L2), Some(L3)}
    ensures PhaseSum(rs, L1) == 0.0 && PhaseSum(rs, L2) == 0.0 && PhaseSum(rs, L3) == 0.0
    ensures UnphasedSum(rs) == WattsSum(rs)
  {
    if rs != [] { NeutralContributesNothing(rs[..|rs| - 1]); }
  }

  predicate Physical(r: Resolved)
  {
    r.lineItem.qty >= 0.0 && 0.0 <= r.lineItem.utilization_pct <= 1.0
    && r.wattage >= 0.0 && r.amperage >= 0.0 && r.heatBtu >= 0.0
  }

  /** Non-negative inputs give non-negative totals. */
  lemma {:induction false} SumsNonNegative(rs: seq<Resolved>)
    requires forall i :: 0 <= i < |rs| ==> Physical(rs[i])
    ensures WattsSum(rs) >= 0.0 && AmpsSum(rs) >= 0.0 && BtuSum(rs) >= 0.0
    ensures PhaseSum(rs, L1) >= 0.0 && PhaseSum(rs, L2) >= 0.0 && PhaseSum(rs, L3) >= 0.0
  {
    if rs != [] {
      SumsNonNegative(rs[..|rs| - 1]);
      var r := rs[|rs| - 1];
      assert Physical(r);
      assert r.lineItem.qty * r.lineItem.utilization_pct >= 0.0;
      assert r.lineItem.qty * r.lineItem.utilization_pct * r.wattage >= 0.0;
      assert r.lineItem.qty * r.lineItem.utilization_pct * r.amperage >= 0.0;
      assert r.lineItem.qty * r.lineItem.utilization_pct * r.heatBtu >= 0.0;
    }
  }

  /** Rounding to cents keeps 0 at 0 and non-negative values non-negative. */
  lemma Round2NonNegative(x: real)
    requires x >= 0.0
    ensures Round2(x) >= 0.0
  {
  }

  // ---------------------------------------------------------------------
  // The accumulating loops of the source.
  // ---------------------------------------------------------------------

  /** calculateHeat. */
  method CalculateHeat(rs: seq<Resolved>) returns (total: real)
    ensures total == Round2(BtuSum(rs))
    ensures rs == [] ==> total == 0.0
  {
    var acc := 0.0;
    var i := 0;
    while i < |rs|
      invariant 0 <= i <= |rs|
      invariant acc == BtuSum(rs[..i])
    {
      var r := rs[i];
      if r.heatBtu > 0.0 {
        acc := acc + r.lineItem.qty * r.lineItem.utilization_pct * r.heatBtu;
      } else {
        acc := acc + r.lineItem.qty * r.lineItem.utilization_pct * r.wattage * BtuPerWatt;
      }
      assert rs[..i + 1][..i] == rs[..i];
      i := i + 1;
    }
    assert rs[..i] == rs;
    total := Round2(acc);
  }

  /** calculateTotalWatts. */
  method CalculateTotalWatts(rs: seq<Resolved>) returns (total: real)
    ensures total == Round2(WattsSum(rs))
    ensures rs == [] ==> total == 0.0
  {
    var acc := 0.0;
    var i := 0;
    while i < |rs|
      invariant 0 <= i <= |rs|
      invariant acc == WattsSum(rs[..i])
    {
      acc := acc + rs[i].lineItem.qty * rs[i].lineItem.utilization_pct * rs[i].wattage;
      assert rs[..i + 1][..i] == rs[..i];
      i := i + 1;
    }
    assert rs[..i] == rs;
    total := Round2(acc);
  }

  /** calculateTotalAmperes. */
  method CalculateTotalAmperes(rs: seq<Resolved>) returns (total: real)
    ensures total == Round2(AmpsSum(rs))
    ensures rs == [] ==> total == 0.0
  {
    var acc := 0.0;
    var i := 0;
    while i < |rs|
      invariant 0 <= i <= |rs|
      invariant acc == AmpsSum(rs[..i])
    {
      acc := acc + rs[i].lineItem.qty * rs[i].lineItem.utilization_pct * rs[i].amperage;
      assert rs[..i + 1][..i] == rs[..i];
      i := i + 1;
    }
    assert rs[..i] == rs;
    total := Round2(acc);
  }

  /** calculatePhaseLoading: each L1/L2/L3 item adds to its own phase only. */
  method CalculatePhaseLoading(rs: seq<Resolved>) returns (loading: PhaseLoading)
    ensures loading == PhaseLoading(Round2(PhaseSum(rs, L1)), Round2(PhaseSum(rs, L2)), Round2(PhaseSum(rs, L3)))
  {
    var a, b, c := 0.0, 0.0, 0.0;
    var i := 0;
    while i < |rs|
      invariant 0 <= i <= |rs|
      invariant a == PhaseSum(rs[..i], L1) && b == PhaseSum(rs[..i], L2) && c == PhaseSum(rs[..i], L3)
    {
      var w := rs[i].lineItem.qty * rs[i].lineItem.utilization_pct * rs[i].wattage;
      match rs[i].lineItem.phase_assignment {
        case Some(L1) => a := a + w;
        case Some(L2) => b := b + w;
        case Some(L3) => c := c + w;
        case _ =>
      }
      assert rs[..i + 1][..i] == rs[..i];
      i := i + 1;
    }
    assert rs[..i] == rs;
    loading := PhaseLoading(Round2(a), Round2(b), Round2(c));
  }

  function Max3(a: real, b: real, c: real): (m: real)
    ensures m >= a && m >= b && m >= c && (m == a || m == b || m == c)
  {
    Max(Max(a, b), c)
  }

  function Min3(a: real, b: real, c: real): (m: real)
    ensures m <= a && m <= b && m <= c && (m == a || m == b || m == c)
  {
    Min(Min(a, b), c)
  }

  /** calculateBalance: imbalance (max − min) / max as a percentage. */
  function CalculateBalance(p: PhaseLoading): (r: Option<real>)
    ensures r.None? <==> Max3(p.l1, p.l2, p.l3) == 0.0
    ensures r.Some? ==> r.value == Round2((Max3(p.l1, p.l2, p.l3) - Min3(p.l1, p.l2, p.l3)) / Max3(p.l1, p.l2, p.l3) * 100.0)
  {
    var mx := Max3(p.l1, p.l2, p.l3);
    var mn := Min3(p.l1, p.l2, p.l3);
    if mx == 0.0 then None
    else
      assert (((mx - mn) / mx * 10000.0 + 0.5).Floor as real) / 100.0
             == Round2((mx - mn) / mx * 100.0);
      Some((((mx - mn) / mx * 10000.0 + 0.5).Floor as real) / 100.0)
  }

  /** For non-negative loads the imbalance is a percentage in [0, 100]. */
  lemma BalanceInRange(p: PhaseLoading)
    requires p.l1 >= 0.0 && p.l2 >= 0.0 && p.l3 >= 0.0
    ensures CalculateBalance(p).Some? ==> 0.0 <= CalculateBalance(p).value <= 100.0
  {
    var mx := Max3(p.l1, p.l2, p.l3);
    var mn := Min3(p.l1, p.l2, p.l3);
    if mx != 0.0 {
      var x := (mx - mn) / mx * 100.0;
      assert mx > 0.0 && 0.0 <= mx - mn <= mx;
      var q := (mx - mn) / mx;
      FractionAtMostOne(mx - mn, mx);
      assert 0.0 <= x <= 100.0;
      var k := (x * 100.0 + 0.5).Floor;
      assert 0 <= k <= 10000;
    }
  }

  lemma FractionAtMostOne(a: real, b: real)
    requires b > 0.0 && 0.0 <= a <= b
    ensures 0.0 <= a / b <= 1.0
  {
    var q := a / b;
    assert q * b == a;
    assert (1.0 - q) * b == b - a;
  }

  /** Equal loads on all three phases are perfectly balanced. */
  lemma BalancedPhases(w: real)
    requires w > 0.0
    ensures CalculateBalance(PhaseLoading(w, w, w)) == Some(0.0)
  {
  }

  /** isThreePhase. */
  function IsThreePhase(voltageType: string): (r: bool)
    ensures r <==> Contains(voltageType, "3PH")
  {
    Includes(voltageType, "3PH")
  }

  /**
   * What calculateTableResults returns, stated on the specification sums:
   * the rounded totals and phase loads of the resolved items, a balance only
   * for three-phase types, and the item count.
   */
  function TableResultOf(lineItems: seq<LineItem>, voltageType: string, specs: SpecTable): (r: TableResult)
    ensures r.itemCount == |lineItems|
    ensures !Contains(voltageType, "3PH") ==> r.balancePct.None?
  {
    var rs := seq(|lineItems|, i requires 0 <= i < |lineItems| => ResolveLineItem(lineItems[i], voltageType, specs));
    var phaseLoading := PhaseLoading(Round2(PhaseSum(rs, L1)), Round2(PhaseSum(rs, L2)), Round2(PhaseSum(rs, L3)));
    TableResult(Round2(WattsSum(rs)), Round2(AmpsSum(rs)), Round2(BtuSum(rs)), phaseLoading,
                if IsThreePhase(voltageType) then CalculateBalance(phaseLoading) else None, |lineItems|)
  }

  /** calculateTableResults. */
  method CalculateTableResults(lineItems: seq<LineItem>, voltageType: string, specs: SpecTable)
    returns (r: TableResult)
    ensures r == TableResultOf(lineItems, voltageType, specs)
    ensures var rs := seq(|lineItems|, i requires 0 <= i < |lineItems| => ResolveLineItem(lineItems[i], voltageType, specs));
            r.totalWatts == Round2(WattsSum(rs)) && r.totalAmperes == Round2(AmpsSum(rs))
            && r.totalBtu == Round2(BtuSum(rs))
            && r.phaseLoading == PhaseLoading(Round2(PhaseSum(rs, L1)), Round2(PhaseSum(rs, L2)), Round2(PhaseSum(rs, L3)))
    ensures r.balancePct == (if IsThreePhase(voltageType) then CalculateBalance(r.phaseLoading) else None)
    ensures !Contains(voltageType, "3PH") ==> r.balancePct.None?
    ensures r.itemCount == |lineItems|
  {
    var rs := seq(|lineItems|, i requires 0 <= i < |lineItems| => ResolveLineItem(lineItems[i], voltageType, specs));
    var totalWatts := CalculateTotalWatts(rs);
    var totalAmperes := CalculateTotalAmperes(rs);
    var totalBtu := CalculateHeat(rs);
    var phaseLoading := CalculatePhaseLoading(rs);
    var balancePct := if IsThreePhase(voltageType) then CalculateBalance(phaseLoading) else None;
    r := TableResult(totalWatts, totalAmperes, totalBtu, phaseLoading, balancePct, |lineItems|);
  }
}
