/** The tax engine: allocation of a calculation base across the progressive brackets, the
    redutor abatement, and the per-method calculation detail
    (src/services/irrf-calculator.ts:52-131). */
module TaxEngine {
  import opened Wrappers
  import opened RealOps
  import opened TaxTable

  /** The interval one bracket covers, from the previous limit up to the bracket's own limit
      (`None`: no upper end). It holds what the source renders as the bracket's `range` label. */
  datatype BracketRange = BracketRange(from: real, to: Option<real>)

  datatype BracketAllocation = BracketAllocation(
    range: BracketRange,
    rate: real,
    allocatedAmount: real,
    taxAmount: real)

  /** The remark the explanation appends in the formula tier. */
  datatype ReductionNote = NoNote | CappedAtGrossTax | NegativeClampedToZero

  /** Which income tier produced the abatement, with the figures the explanation text quotes. */
  datatype ReductionExplanation =
    | TotalExemption(income: real)
    | Formula(income: real, formulaValue: real, note: ReductionNote)
    | NotApplicable(income: real)

  datatype ReductionResult = ReductionResult(value: real, explanation: ReductionExplanation)

  datatype CalculationDetail = CalculationDetail(
    baseCalculation: real,
    brackets: seq<BracketAllocation>,
    grossTax: real,
    reductionValue: real,
    reductionExplanation: ReductionExplanation,
    netTax: real,
    effectiveRate: real,
    deductions: real,
    exemption65Value: real)

  // ---------------------------------------------------------------------------
  // Redutor
  // ---------------------------------------------------------------------------

  /** The redutor for income `rt` and gross tax `ib`: the whole gross tax up to 5000.00, the
      clamped linear formula up to 7350.00, nothing above. */
  function CalculateReduction(rt: real, ib: real): (r: ReductionResult)
    ensures ib >= 0.0 ==> 0.0 <= r.value <= ib
    ensures r.explanation.income == rt
    ensures r.value > 0.0 ==> rt <= REDUTOR_PHASE_OUT_LIMIT
  {
    if rt <= REDUTOR_FULL_LIMIT then
      ReductionResult(ib, TotalExemption(rt))
    else if rt <= REDUTOR_PHASE_OUT_LIMIT then
      var formulaValue := REDUTOR_INTERCEPT - REDUTOR_SLOPE * rt;
      var finalValue := Min(Max(formulaValue, 0.0), ib);
      // the later assignment of the note wins in the source
      var note :=
        if formulaValue < 0.0 then NegativeClampedToZero
        else if formulaValue > ib then CappedAtGrossTax
        else NoNote;
      ReductionResult(finalValue, Formula(rt, formulaValue, note))
    else
      ReductionResult(0.0, NotApplicable(rt))
  }

  /** The tier boundaries: 5000.00 still abates the whole tax, 5000.01 and 7350.00 fall in the
      formula tier, 7350.01 gets nothing. */
  lemma ReductionTierBoundaries(ib: real)
    requires ib >= 0.0
    ensures CalculateReduction(5000.00, ib) == ReductionResult(ib, TotalExemption(5000.00))
    ensures CalculateReduction(5000.01, ib).explanation.Formula?
    ensures CalculateReduction(5000.01, ib).value == Min(312.89366855, ib)
    ensures CalculateReduction(7350.00, ib).explanation.Formula?
    ensures CalculateReduction(7350.00, ib).value == Min(0.00425, ib)
    ensures CalculateReduction(7350.01, ib) == ReductionResult(0.0, NotApplicable(7350.01))
  {
  }

  /** Inside the formula tier the formula is never negative (it is 0.00425 at 7350.00), so the
      zero floor and its note never apply. */
  lemma FormulaPositiveInItsTier(rt: real, ib: real)
    requires REDUTOR_FULL_LIMIT < rt <= REDUTOR_PHASE_OUT_LIMIT
    ensures CalculateReduction(rt, ib).explanation.formulaValue >= 0.00425
    ensures CalculateReduction(rt, ib).explanation.note != NegativeClampedToZero
    ensures ib >= 0.0 ==> CalculateReduction(rt, ib).value == Min(REDUTOR_INTERCEPT - REDUTOR_SLOPE * rt, ib)
  {
    var f := REDUTOR_INTERCEPT - REDUTOR_SLOPE * rt;
    assert REDUTOR_SLOPE * rt <= REDUTOR_SLOPE * REDUTOR_PHASE_OUT_LIMIT;
    assert f >= 0.00425;
  }

  /** For a fixed gross tax, a higher income never gets a larger abatement. */
  lemma ReductionNonIncreasingInIncome(rt1: real, rt2: real, ib: real)
    requires rt1 <= rt2
    requires ib >= 0.0
    ensures CalculateReduction(rt2, ib).value <= CalculateReduction(rt1, ib).value
  {
    if REDUTOR_FULL_LIMIT < rt1 && rt2 <= REDUTOR_PHASE_OUT_LIMIT {
      assert REDUTOR_SLOPE * rt1 <= REDUTOR_SLOPE * rt2;
    }
  }

  /** Tax left after the abatement, floored at zero. */
  function NetOf(rt: real, ib: real): real
  {
    Max(0.0, ib - CalculateReduction(rt, ib).value)
  }

  /** For a fixed income, more gross tax never means less net tax. */
  lemma NetOfMonotone(rt: real, ib1: real, ib2: real)
    requires 0.0 <= ib1 <= ib2
    ensures NetOf(rt, ib1) <= NetOf(rt, ib2)
  {
    if REDUTOR_FULL_LIMIT < rt <= REDUTOR_PHASE_OUT_LIMIT {
      FormulaPositiveInItsTier(rt, ib1);
      FormulaPositiveInItsTier(rt, ib2);
    }
  }

  // ---------------------------------------------------------------------------
  // Bracket allocation
  // ---------------------------------------------------------------------------

  /** The part of `base` that falls in a bracket starting at `bottom` with upper limit `limit`. */
  function AllocatedIn(base: real, bottom: real, limit: Option<real>): (a: real)
    ensures 0.0 <= a <= Max(0.0, base - bottom)
    ensures limit.Some? && bottom <= limit.value ==> a <= limit.value - bottom
    ensures limit.None? ==> a == Max(0.0, base - bottom)
  {
    if base > bottom then
      // Math.min(base, Infinity) is base itself
      var ceiling := match limit case None => base case Some(l) => Min(base, l);
      Max(0.0, ceiling - bottom)
    else
      0.0
  }

  /** A larger base puts at least as much into every bracket. */
  lemma AllocatedInMonotone(base1: real, base2: real, bottom: real, limit: Option<real>)
    requires base1 <= base2
    ensures AllocatedIn(base1, bottom, limit) <= AllocatedIn(base2, bottom, limit)
  {
  }

  /** Where the next bracket starts: the unbounded tier leaves the previous limit in place. */
  function NextBottom(bottom: real, limit: Option<real>): real
  {
    match limit
    case None => bottom
    case Some(l) => l
  }

  /** The allocation of `base` across the brackets `t`, the first of which starts at `bottom`:
      one entry per bracket, in table order. */
  function AllocationsFrom(base: real, t: seq<TaxBracket>, bottom: real): (r: seq<BracketAllocation>)
    decreases |t|
    ensures |r| == |t|
    ensures forall k :: 0 <= k < |t| ==>
              && r[k].rate == t[k].rate
              && r[k].range.to == t[k].limit
              && r[k].allocatedAmount == AllocatedIn(base, r[k].range.from, t[k].limit)
              && r[k].taxAmount == TaxOn(r[k].allocatedAmount, t[k].rate)
    ensures |t| > 0 ==> r[0].range.from == bottom
  {
    if t == [] then
      []
    else
      var b := t[0];
      var allocatedAmount := AllocatedIn(base, bottom, b.limit);
      [BracketAllocation(BracketRange(bottom, b.limit), b.rate, allocatedAmount, TaxOn(allocatedAmount, b.rate))]
        + AllocationsFrom(base, t[1..], NextBottom(bottom, b.limit))
  }

  /** One step of the allocation: the first bracket's entry, then the rest from its limit on. */
  lemma AllocationsFromStep(base: real, t: seq<TaxBracket>, bottom: real)
    requires t != []
    ensures var a := AllocatedIn(base, bottom, t[0].limit);
      AllocationsFrom(base, t, bottom) ==
        [BracketAllocation(BracketRange(bottom, t[0].limit), t[0].rate, a, TaxOn(a, t[0].rate))]
          + AllocationsFrom(base, t[1..], NextBottom(bottom, t[0].limit))
  {
  }

  /** The loop step of `CalculateTax`: appending bracket `i`'s entry to the entries already
      built and starting the remaining brackets at its limit leaves the whole allocation, and
      the gross tax still to add, as they were. */
  lemma AllocationLoopStep(
    base: real, t: seq<TaxBracket>, i: nat, bottom: real,
    done: seq<BracketAllocation>, accumulated: real, all: seq<BracketAllocation>)
    requires i < |t|
    requires done + AllocationsFrom(base, t[i..], bottom) == all
    requires accumulated + SumTax(AllocationsFrom(base, t[i..], bottom)) == SumTax(all)
    ensures var a := AllocatedIn(base, bottom, t[i].limit);
      var entry := BracketAllocation(BracketRange(bottom, t[i].limit), t[i].rate, a, TaxOn(a, t[i].rate));
      var rest := AllocationsFrom(base, t[i + 1..], NextBottom(bottom, t[i].limit));
      && (done + [entry]) + rest == all
      && (accumulated + entry.taxAmount) + SumTax(rest) == SumTax(all)
  {
    var a := AllocatedIn(base, bottom, t[i].limit);
    var entry := BracketAllocation(BracketRange(bottom, t[i].limit), t[i].rate, a, TaxOn(a, t[i].rate));
    var rest := AllocationsFrom(base, t[i + 1..], NextBottom(bottom, t[i].limit));
    AllocationsFromStep(base, t[i..], bottom);
    assert t[i..][1..] == t[i + 1..];
    assert AllocationsFrom(base, t[i..], bottom) == [entry] + rest;
    assert ([entry] + rest)[1..] == rest;
    assert (done + [entry]) + rest == done + ([entry] + rest);
  }

  lemma SumTaxOfFive(s: seq<BracketAllocation>)
    requires |s| == 5
    ensures SumTax(s) == s[0].taxAmount + s[1].taxAmount + s[2].taxAmount + s[3].taxAmount + s[4].taxAmount
  {
    var s1 := s[1..];
    var s2 := s1[1..];
    var s3 := s2[1..];
    var s4 := s3[1..];
    assert s1[0] == s[1] && s2[0] == s[2] && s3[0] == s[3] && s4[0] == s[4];
    assert s4[1..] == [];
    assert SumTax(s4) == s[4].taxAmount;
    assert SumTax(s3) == s[3].taxAmount + SumTax(s4);
    assert SumTax(s2) == s[2].taxAmount + SumTax(s3);
    assert SumTax(s1) == s[1].taxAmount + SumTax(s2);
    assert SumTax(s) == s[0].taxAmount + SumTax(s1);
  }

  /** The tax one bracket contributes: its allocated amount times its rate. */
  function TaxOn(amount: real, rate: real): real
  {
    amount * rate
  }

  function SumAllocated(s: seq<BracketAllocation>): real
  {
    if s == [] then 0.0 else s[0].allocatedAmount + SumAllocated(s[1..])
  }

  function SumTax(s: seq<BracketAllocation>): real
  {
    if s == [] then 0.0 else s[0].taxAmount + SumTax(s[1..])
  }

  /** Over a well-formed run of limits the brackets tile the line: each starts where the previous
      one ends, each receives between zero and its width, and none is skipped. */
  lemma {:induction false} AllocationsTile(base: real, t: seq<TaxBracket>, bottom: real)
    requires LimitsAbove(t, bottom)
    ensures forall k :: 0 <= k < |t| - 1 ==>
              t[k].limit.Some? && AllocationsFrom(base, t, bottom)[k + 1].range.from == t[k].limit.value
    ensures forall k :: 0 <= k < |t| && t[k].limit.Some? ==>
              AllocationsFrom(base, t, bottom)[k].range.from < t[k].limit.value
    decreases |t|
  {
    var r := AllocationsFrom(base, t, bottom);
    if t[0].limit.Some? {
      var l := t[0].limit.value;
      var tail := t[1..];
      var rest := AllocationsFrom(base, tail, l);
      AllocationsTile(base, tail, l);
      assert r[1..] == rest;
      forall k | 0 <= k < |t| - 1
        ensures t[k].limit.Some? && r[k + 1].range.from == t[k].limit.value
      {
        if k > 0 {
          assert t[k] == tail[k - 1];
        }
      }
      forall k | 0 <= k < |t| && t[k].limit.Some?
        ensures r[k].range.from < t[k].limit.value
      {
        if k > 0 {
          assert t[k] == tail[k - 1];
        }
      }
    }
  }

  /** Each bracket of a well-formed table receives between zero and its width. */
  lemma AllocationWithinWidth(base: real, t: seq<TaxBracket>, bottom: real, k: nat)
    requires LimitsAbove(t, bottom)
    requires k < |t|
    ensures var a := AllocationsFrom(base, t, bottom)[k];
      && a.range.to == t[k].limit
      && (a.range.to.Some? ==> 0.0 <= a.allocatedAmount <= a.range.to.value - a.range.from)
  {
    AllocationsTile(base, t, bottom);
  }

  /** Over a well-formed run of limits, the allocated amounts add up to the part of `base`
      above `bottom`: nothing is counted twice and nothing is lost. */
  lemma {:induction false} AllocationsSumToBase(base: real, t: seq<TaxBracket>, bottom: real)
    requires LimitsAbove(t, bottom)
    ensures SumAllocated(AllocationsFrom(base, t, bottom)) == Max(0.0, base - bottom)
    decreases |t|
  {
    var r := AllocationsFrom(base, t, bottom);
    match t[0].limit
    case None =>
      assert r[1..] == [];
    case Some(l) =>
      AllocationsSumToBase(base, t[1..], l);
      assert r[1..] == AllocationsFrom(base, t[1..], l);
  }

  lemma TaxOnMonotone(a1: real, a2: real, rate: real)
    requires 0.0 <= a1 <= a2 && 0.0 <= rate
    ensures 0.0 <= TaxOn(a1, rate) <= TaxOn(a2, rate)
  {
    var d := a2 - a1;
    assert d * rate >= 0.0;
    assert a1 * rate >= 0.0;
    assert a2 * rate == a1 * rate + d * rate;
  }

  lemma TaxOnAtMost(a: real, rate: real, top: real)
    requires 0.0 <= a && rate <= top
    ensures TaxOn(a, rate) <= top * a
  {
    assert a * (top - rate) >= 0.0;
  }

  /** With non-negative rates the gross tax is non-negative and grows with the base. */
  lemma {:induction false} SumTaxMonotone(base1: real, base2: real, t: seq<TaxBracket>, bottom: real)
    requires forall i :: 0 <= i < |t| ==> 0.0 <= t[i].rate
    requires base1 <= base2
    ensures 0.0 <= SumTax(AllocationsFrom(base1, t, bottom))
    ensures SumTax(AllocationsFrom(base1, t, bottom)) <= SumTax(AllocationsFrom(base2, t, bottom))
    decreases |t|
  {
    if t != [] {
      var r1 := AllocationsFrom(base1, t, bottom);
      var r2 := AllocationsFrom(base2, t, bottom);
      var next := NextBottom(bottom, t[0].limit);
      SumTaxMonotone(base1, base2, t[1..], next);
      assert r1[1..] == AllocationsFrom(base1, t[1..], next);
      assert r2[1..] == AllocationsFrom(base2, t[1..], next);
      AllocatedInMonotone(base1, base2, bottom, t[0].limit);
      TaxOnMonotone(r1[0].allocatedAmount, r2[0].allocatedAmount, t[0].rate);
    }
  }

  /** When no rate exceeds `top`, the tax of a list of allocations is at most `top` times
      their allocated total. */
  lemma {:induction false} SumTaxAtMostTopRate(s: seq<BracketAllocation>, top: real)
    requires forall i :: 0 <= i < |s| ==>
               && s[i].rate <= top
               && 0.0 <= s[i].allocatedAmount
               && s[i].taxAmount == TaxOn(s[i].allocatedAmount, s[i].rate)
    ensures SumTax(s) <= top * SumAllocated(s)
  {
    if s == [] {
      assert top * 0.0 == 0.0;
    } else {
      var rest := s[1..];
      SumTaxAtMostTopRate(rest, top);
      var a := s[0].allocatedAmount;
      TaxOnAtMost(a, s[0].rate, top);
      var restAllocated := SumAllocated(rest);
      assert top * (a + restAllocated) == top * a + top * restAllocated;
    }
  }

  // ---------------------------------------------------------------------------
  // The engine
  // ---------------------------------------------------------------------------

  /** Gross tax on `base` under the 2026 table. */
  function GrossTax(base: real): real
  {
    SumTax(AllocationsFrom(base, BRACKETS, 0.0))
  }

  /** What `calculateTax(base, grossSalary)` returns. The deduction fields are left at zero for
      the caller to fill in. */
  function TaxDetail(base: real, grossSalary: real): (d: CalculationDetail)
    ensures d.baseCalculation == base && |d.brackets| == |BRACKETS|
    ensures base >= 0.0 ==> SumAllocated(d.brackets) == base
    ensures d.grossTax == SumTax(d.brackets) >= 0.0
    ensures 0.0 <= d.reductionValue <= d.grossTax
    ensures 0.0 <= d.netTax == d.grossTax - d.reductionValue
    ensures grossSalary <= REDUTOR_FULL_LIMIT ==> d.netTax == 0.0
    ensures grossSalary > REDUTOR_PHASE_OUT_LIMIT ==> d.netTax == d.grossTax
    ensures grossSalary > 0.0 ==> d.effectiveRate * grossSalary == d.netTax
    ensures grossSalary <= 0.0 ==> d.effectiveRate == 0.0
    ensures d.deductions == 0.0 && d.exemption65Value == 0.0
  {
    var brackets := AllocationsFrom(base, BRACKETS, 0.0);
    BracketsWellFormed();
    SumTaxMonotone(base, base, BRACKETS, 0.0);
    AllocationsSumToBase(base, BRACKETS, 0.0);
    var grossTax := SumTax(brackets);
    var redutor := CalculateReduction(grossSalary, grossTax);
    var netTax := Max(0.0, grossTax - redutor.value);
    CalculationDetail(
      base, brackets, grossTax, redutor.value, redutor.explanation, netTax,
      if grossSalary > 0.0 then netTax / grossSalary else 0.0,
      0.0, 0.0)
  }

  /** The figures of a calculation detail in terms of the gross tax of its base. */
  lemma TaxDetailFigures(base: real, grossSalary: real)
    ensures var d := TaxDetail(base, grossSalary);
      && d.grossTax == GrossTax(base)
      && d.reductionValue == CalculateReduction(grossSalary, GrossTax(base)).value
      && d.netTax == NetOf(grossSalary, GrossTax(base))
  {
  }

  /** The bracket loop of `calculateTax`: walks the table once with a running previous limit,
      appending one allocation per bracket and accumulating the gross tax. */
  method CalculateTax(baseCalculation: real, grossSalary: real) returns (detail: CalculationDetail)
    ensures detail == TaxDetail(baseCalculation, grossSalary)
  {
    var accumulatedTax := 0.0;
    var bracketDetails: seq<BracketAllocation> := [];
    var previousLimit := 0.0;
    ghost var all := AllocationsFrom(baseCalculation, BRACKETS, 0.0);

    for i := 0 to |BRACKETS|
      invariant bracketDetails + AllocationsFrom(baseCalculation, BRACKETS[i..], previousLimit) == all
      invariant accumulatedTax + SumTax(AllocationsFrom(baseCalculation, BRACKETS[i..], previousLimit)) == SumTax(all)
    {
      var bracket := BRACKETS[i];
      var limit := bracket.limit;
      var bottom := previousLimit;
      var allocatedAmount := AllocatedIn(baseCalculation, bottom, limit);
      var taxInBracket := TaxOn(allocatedAmount, bracket.rate);
      var entry := BracketAllocation(BracketRange(previousLimit, limit), bracket.rate, allocatedAmount, taxInBracket);
      AllocationLoopStep(baseCalculation, BRACKETS, i, previousLimit, bracketDetails, accumulatedTax, all);
      accumulatedTax := accumulatedTax + taxInBracket;
      bracketDetails := bracketDetails + [entry];
      if limit.Some? {
        previousLimit := limit.value;
      }
      assert previousLimit == NextBottom(bottom, limit);
    }

    assert BRACKETS[|BRACKETS|..] == [];
    assert bracketDetails == all && accumulatedTax == SumTax(all);
    var redutor := CalculateReduction(grossSalary, accumulatedTax);
    var netTax := Max(0.0, accumulatedTax - redutor.value);
    detail := CalculationDetail(
      baseCalculation, bracketDetails, accumulatedTax, redutor.value, redutor.explanation, netTax,
      if grossSalary > 0.0 then netTax / grossSalary else 0.0,
      0.0, 0.0);
  }

  // ---------------------------------------------------------------------------
  // Properties of the 2026 table
  // ---------------------------------------------------------------------------

  /** The itemised gross tax of the 2026 table in closed form, one linear piece per bracket. */
  lemma GrossTaxClosedForm(base: real)
    ensures GrossTax(base) ==
      if base <= 2428.80 then 0.0
      else if base <= 2826.65 then 0.075 * base - 182.16
      else if base <= 3751.05 then 0.15 * base - 394.15875
      else if base <= 4664.68 then 0.225 * base - 675.4875
      else 0.275 * base - 908.7215
  {
    var t0 := BRACKETS;
    var t1 := t0[1..];
    var t2 := t1[1..];
    var t3 := t2[1..];
    var t4 := t3[1..];
    AllocationsFromStep(base, t0, 0.0);
    AllocationsFromStep(base, t1, 2428.80);
    AllocationsFromStep(base, t2, 2826.65);
    AllocationsFromStep(base, t3, 3751.05);
    AllocationsFromStep(base, t4, 4664.68);
    assert t4[1..] == [];
    var a0 := AllocatedIn(base, 0.0, Some(2428.80));
    var a1 := AllocatedIn(base, 2428.80, Some(2826.65));
    var a2 := AllocatedIn(base, 2826.65, Some(3751.05));
    var a3 := AllocatedIn(base, 3751.05, Some(4664.68));
    var a4 := AllocatedIn(base, 4664.68, None);
    SumTaxOfFive(AllocationsFrom(base, t0, 0.0));
    assert GrossTax(base) == TaxOn(a0, 0.0) + TaxOn(a1, 0.075) + TaxOn(a2, 0.15) + TaxOn(a3, 0.225) + TaxOn(a4, 0.275);
  }

  /** The single-bracket shortcut the published table is meant for: find the first bracket whose
      limit the base does not exceed and take rate × base − deduction. The engine never uses it. */
  function ShortcutTax(base: real, t: seq<TaxBracket>): real
    requires t != []
    decreases |t|
  {
    if |t| == 1 || t[0].limit.None? || base <= t[0].limit.value then
      TaxOn(base, t[0].rate) - t[0].deduction
    else
      ShortcutTax(base, t[1..])
  }

  /** The shortcut is exact in the first two brackets and otherwise within 0.0075 of the
      itemised gross tax: the published deductions are rounded to the cent. */
  lemma ShortcutWithinCent(base: real)
    ensures base <= 2826.65 ==> GrossTax(base) == ShortcutTax(base, BRACKETS)
    ensures Abs(GrossTax(base) - ShortcutTax(base, BRACKETS)) <= 0.0075
  {
    GrossTaxClosedForm(base);
    var t := BRACKETS;
    assert t[1..][1..][1..][1..] == [t[4]];
  }

  /** A base of 3000.00 puts 2428.80 in the zero bracket, 397.85 at 7.5% and 173.35 at 15%, for a
      gross tax of 55.84125; the rounded shortcut gives 55.84. */
  lemma Base3000Example()
    ensures var r := AllocationsFrom(3000.00, BRACKETS, 0.0);
      && r[0].allocatedAmount == 2428.80
      && r[1].allocatedAmount == 397.85
      && r[2].allocatedAmount == 173.35
      && r[3].allocatedAmount == 0.0
      && r[4].allocatedAmount == 0.0
    ensures GrossTax(3000.00) == 55.84125
    ensures ShortcutTax(3000.00, BRACKETS) == 55.84
  {
    GrossTaxClosedForm(3000.00);
    AllocationsTile(3000.00, BRACKETS, 0.0);
  }

  /** Each entry of `calculateTax`'s bracket list covers the interval from the previous limit to
      its own, starting at zero; it carries its bracket's rate and between zero and its width. */
  lemma TaxDetailBrackets(base: real, grossSalary: real)
    ensures var d := TaxDetail(base, grossSalary);
      && d.brackets[0].range.from == 0.0
      && (forall k :: 0 <= k < |BRACKETS| ==>
            && d.brackets[k].rate == BRACKETS[k].rate
            && d.brackets[k].range.to == BRACKETS[k].limit
            && (d.brackets[k].range.to.Some? ==>
                  0.0 <= d.brackets[k].allocatedAmount <= d.brackets[k].range.to.value - d.brackets[k].range.from))
      && (forall k :: 0 <= k < |BRACKETS| - 1 ==> d.brackets[k + 1].range.from == d.brackets[k].range.to.value)
  {
    BracketsWellFormed();
    AllocationsTile(base, BRACKETS, 0.0);
  }

  /** The gross tax never exceeds the top marginal rate applied to the whole base. */
  lemma GrossTaxAtMostTopRate(base: real)
    requires base >= 0.0
    ensures 0.0 <= GrossTax(base) <= TOP_RATE * base
  {
    var r := AllocationsFrom(base, BRACKETS, 0.0);
    BracketsWellFormed();
    SumTaxMonotone(base, base, BRACKETS, 0.0);
    SumTaxAtMostTopRate(r, TOP_RATE);
    AllocationsSumToBase(base, BRACKETS, 0.0);
  }

  /** For a fixed gross salary, a larger calculation base never lowers the net tax. */
  lemma NetTaxMonotoneInBase(base1: real, base2: real, grossSalary: real)
    requires base1 <= base2
    ensures TaxDetail(base1, grossSalary).netTax <= TaxDetail(base2, grossSalary).netTax
  {
    BracketsWellFormed();
    SumTaxMonotone(base1, base2, BRACKETS, 0.0);
    SumTaxMonotone(base2, base2, BRACKETS, 0.0);
    NetOfMonotone(grossSalary, GrossTax(base1), GrossTax(base2));
  }

  lemma RatioAtMost(rate: real, g: real, net: real, cap: real)
    requires g > 0.0 && rate * g == net && 0.0 <= net <= cap * g
    ensures 0.0 <= rate <= cap
  {
  }

  /** When the base does not exceed the gross salary, the effective rate lies between zero and
      the top marginal rate. */
  lemma EffectiveRateOfDetail(base: real, grossSalary: real)
    requires 0.0 <= base <= grossSalary
    ensures 0.0 <= TaxDetail(base, grossSalary).effectiveRate <= TOP_RATE
  {
    var d := TaxDetail(base, grossSalary);
    GrossTaxAtMostTopRate(base);
    if grossSalary > 0.0 {
      assert TOP_RATE * base <= TOP_RATE * grossSalary;
      RatioAtMost(d.effectiveRate, grossSalary, d.netTax, TOP_RATE);
    }
  }
}
