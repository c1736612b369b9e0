/** The comparison of the full (itemised deductions) and the simplified (flat deduction) methods
    for one taxpayer (src/services/irrf-calculator.ts:1-8, 33-38 and 133-163). */
module Comparator {
  import opened RealOps
  import opened TaxTable
  import opened TaxEngine

  /** What the form supplies. Every field is a plain number in the source (`dependents`
      included), so the counts are reals here too. */
  datatype CalculationInput = CalculationInput(
    grossSalary: real,
    dependents: real,
    alimony: real,
    socialSecurity: real,
    otherDeductions: real,
    isRetiree65Plus: bool)

  datatype Method = Full | Simplified

  datatype ComparisonResult = ComparisonResult(
    full: CalculationDetail,
    simplified: CalculationDetail,
    bestMethod: Method,
    savings: real)

  /** All four deduction inputs (dependents, alimony, social security, other deductions) are
      non-negative. */
  predicate NonNegativeDeductions(input: CalculationInput)
  {
    && input.dependents >= 0.0
    && input.alimony >= 0.0
    && input.socialSecurity >= 0.0
    && input.otherDeductions >= 0.0
  }

  function Exemption65(input: CalculationInput): real
  {
    if input.isRetiree65Plus then EXEMPTION_65_PLUS else 0.0
  }

  function LegalDeductions(input: CalculationInput): real
  {
    input.alimony + input.dependents * DEPENDENT_DEDUCTION
  }

  /** Calculation base of the full method: income net of social security, other deductions and
      the 65+ exemption, clamped at zero, then net of alimony and dependents, clamped again. */
  function FullBase(input: CalculationInput): (b: real)
    ensures b >= 0.0
    ensures NonNegativeDeductions(input) ==> b <= Max(0.0, input.grossSalary - Exemption65(input))
    ensures NonNegativeDeductions(input) && b > 0.0 ==>
              b == input.grossSalary - input.socialSecurity - input.otherDeductions
                   - Exemption65(input) - LegalDeductions(input)
    ensures LegalDeductions(input) >= 0.0 ==>
              b == Max(0.0, input.grossSalary - input.socialSecurity - input.otherDeductions
                            - Exemption65(input) - LegalDeductions(input))
  {
    var rtRaw := input.grossSalary - input.socialSecurity - input.otherDeductions;
    var baseForFull := Max(0.0, rtRaw - Exemption65(input));
    Max(0.0, baseForFull - LegalDeductions(input))
  }

  /** Calculation base of the simplified method: income net of the 65+ exemption, clamped at
      zero, then net of the flat 607.20 deduction, clamped again. */
  function SimplifiedBase(input: CalculationInput): (b: real)
    ensures b >= 0.0
    ensures b <= Max(0.0, input.grossSalary - Exemption65(input))
    ensures b > 0.0 ==> b == input.grossSalary - Exemption65(input) - SIMPLIFIED_DEDUCTION
    ensures b == Max(0.0, input.grossSalary - Exemption65(input) - SIMPLIFIED_DEDUCTION)
  {
    var grossAfterExemption := Max(0.0, input.grossSalary - Exemption65(input));
    Max(0.0, grossAfterExemption - SIMPLIFIED_DEDUCTION)
  }

  function NetTaxOf(r: ComparisonResult, m: Method): real
  {
    match m
    case Full => r.full.netTax
    case Simplified => r.simplified.netTax
  }

  function Other(m: Method): Method
  {
    match m
    case Full => Simplified
    case Simplified => Full
  }

  /** What `calculateIRRF(input)` returns. */
  function Compare(input: CalculationInput): (r: ComparisonResult)
    ensures r.full.baseCalculation == FullBase(input)
    ensures r.simplified.baseCalculation == SimplifiedBase(input)
    ensures r.full.(deductions := 0.0, exemption65Value := 0.0) == TaxDetail(FullBase(input), input.grossSalary)
    ensures r.simplified.(deductions := 0.0, exemption65Value := 0.0) == TaxDetail(SimplifiedBase(input), input.grossSalary)
    ensures r.full.deductions ==
              LegalDeductions(input) + input.socialSecurity + input.otherDeductions + Exemption65(input)
    ensures r.simplified.deductions == SIMPLIFIED_DEDUCTION + Exemption65(input)
    ensures r.full.exemption65Value == r.simplified.exemption65Value == Exemption65(input)
    ensures r.full.reductionExplanation.income == r.simplified.reductionExplanation.income == input.grossSalary
    ensures r.bestMethod == Full <==> r.full.netTax <= r.simplified.netTax
    ensures r.savings >= 0.0
    ensures NetTaxOf(r, r.bestMethod) <= NetTaxOf(r, Other(r.bestMethod))
    ensures NetTaxOf(r, r.bestMethod) + r.savings == NetTaxOf(r, Other(r.bestMethod))
  {
    var exemption65 := Exemption65(input);
    var fullResult := TaxDetail(FullBase(input), input.grossSalary);
    var full := fullResult.(
      deductions := LegalDeductions(input) + input.socialSecurity + input.otherDeductions + exemption65,
      exemption65Value := exemption65);
    var simplifiedResult := TaxDetail(SimplifiedBase(input), input.grossSalary);
    var simplified := simplifiedResult.(
      deductions := SIMPLIFIED_DEDUCTION + exemption65,
      exemption65Value := exemption65);
    ComparisonResult(
      full, simplified,
      if full.netTax <= simplified.netTax then Full else Simplified,
      Abs(full.netTax - simplified.netTax))
  }

  /** `calculateIRRF`: runs the engine on both bases, fills in each result's deduction figures
      after the fact, and picks the cheaper method, ties going to the full one. */
  method CalculateIRRF(input: CalculationInput) returns (result: ComparisonResult)
    ensures result == Compare(input)
  {
    var rtRaw := input.grossSalary - input.socialSecurity - input.otherDeductions;
    var exemption65 := if input.isRetiree65Plus then EXEMPTION_65_PLUS else 0.0;

    var grossAfterExemption := Max(0.0, input.grossSalary - exemption65);

    var baseForFull := Max(0.0, rtRaw - exemption65);
    var legalDeductions := input.alimony + input.dependents * DEPENDENT_DEDUCTION;
    var bcFull := Max(0.0, baseForFull - legalDeductions);
    assert exemption65 == Exemption65(input) && legalDeductions == LegalDeductions(input);
    assert bcFull == FullBase(input);
    var fullResult := CalculateTax(bcFull, input.grossSalary);
    fullResult := fullResult.(deductions := legalDeductions + input.socialSecurity + input.otherDeductions + exemption65);
    fullResult := fullResult.(exemption65Value := exemption65);

    var bcSimplified := Max(0.0, grossAfterExemption - SIMPLIFIED_DEDUCTION);
    assert bcSimplified == SimplifiedBase(input);
    var simplifiedResult := CalculateTax(bcSimplified, input.grossSalary);
    simplifiedResult := simplifiedResult.(deductions := SIMPLIFIED_DEDUCTION + exemption65);
    simplifiedResult := simplifiedResult.(exemption65Value := exemption65);

    result := ComparisonResult(
      fullResult,
      simplifiedResult,
      if fullResult.netTax <= simplifiedResult.netTax then Full else Simplified,
      Abs(fullResult.netTax - simplifiedResult.netTax));
  }

  // ---------------------------------------------------------------------------
  // Properties of the comparison
  // ---------------------------------------------------------------------------

  /** When the itemised deductions reach the flat 607.20, the full base is no larger than the
      simplified one and the full method wins (or ties, which goes to it). */
  lemma ItemisedWinsWhenLarger(input: CalculationInput)
    requires NonNegativeDeductions(input)
    requires LegalDeductions(input) + input.socialSecurity + input.otherDeductions >= SIMPLIFIED_DEDUCTION
    ensures FullBase(input) <= SimplifiedBase(input)
    ensures Compare(input).bestMethod == Full
  {
    NetTaxMonotoneInBase(FullBase(input), SimplifiedBase(input), input.grossSalary);
  }

  /** Up to 5000.00 of gross salary the redutor removes all tax under both methods. */
  lemma LowIncomePaysNothing(input: CalculationInput)
    requires input.grossSalary <= REDUTOR_FULL_LIMIT
    ensures var r := Compare(input);
      r.full.netTax == 0.0 && r.simplified.netTax == 0.0 && r.savings == 0.0 && r.bestMethod == Full
  {
  }

  /** With non-negative deductions, neither method's effective rate exceeds the top marginal
      rate. */
  lemma EffectiveRateAtMostTopRate(input: CalculationInput)
    requires NonNegativeDeductions(input)
    ensures var r := Compare(input);
      && 0.0 <= r.full.effectiveRate <= TOP_RATE
      && 0.0 <= r.simplified.effectiveRate <= TOP_RATE
  {
    if input.grossSalary > 0.0 {
      EffectiveRateOfDetail(FullBase(input), input.grossSalary);
      EffectiveRateOfDetail(SimplifiedBase(input), input.grossSalary);
    }
  }

  /** Without deductions and without the 65+ exemption, the full base is the gross salary and
      the simplified base is the gross salary less 607.20, floored at zero. */
  lemma NoDeductionsBases(input: CalculationInput)
    requires input.dependents == input.alimony == input.socialSecurity == input.otherDeductions == 0.0
    requires !input.isRetiree65Plus
    ensures FullBase(input) == Max(0.0, input.grossSalary)
    ensures SimplifiedBase(input) == Max(0.0, input.grossSalary - SIMPLIFIED_DEDUCTION)
  {
  }

  /** Gross salary 3000.00 without deductions: the full base is 3000.00 with gross tax 55.84125,
      the simplified base 2392.80 lies in the zero bracket, and both net taxes are zero. */
  lemma Scenario3000(input: CalculationInput)
    requires input.grossSalary == 3000.00
    requires input.dependents == input.alimony == input.socialSecurity == input.otherDeductions == 0.0
    requires !input.isRetiree65Plus
    ensures var r := Compare(input);
      && r.full.baseCalculation == 3000.00
      && r.full.grossTax == 55.84125
      && r.full.reductionValue == 55.84125
      && r.simplified.baseCalculation == 2392.80
      && r.simplified.grossTax == 0.0
      && r.full.netTax == 0.0 && r.simplified.netTax == 0.0
      && r.savings == 0.0 && r.bestMethod == Full
  {
    NoDeductionsBases(input);
    GrossTaxClosedForm(3000.00);
    GrossTaxClosedForm(2392.80);
    TaxDetailFigures(3000.00, 3000.00);
    TaxDetailFigures(2392.80, 3000.00);
  }

  /** Gross salary 10000.00 without deductions: no redutor, the simplified base 9392.80 is taxed
      less than the full base 10000.00, and the simplified method saves 0.275 × 607.20. */
  lemma Scenario10000(input: CalculationInput)
    requires input.grossSalary == 10000.00
    requires input.dependents == input.alimony == input.socialSecurity == input.otherDeductions == 0.0
    requires !input.isRetiree65Plus
    ensures var r := Compare(input);
      && r.full.baseCalculation == 10000.00
      && r.simplified.baseCalculation == 9392.80
      && r.full.reductionValue == 0.0 && r.simplified.reductionValue == 0.0
      && r.full.netTax == 1841.2785
      && r.simplified.netTax == 1674.2985
      && r.bestMethod == Simplified
      && r.savings == 166.98
  {
    NoDeductionsBases(input);
    GrossTaxClosedForm(10000.00);
    GrossTaxClosedForm(9392.80);
    TaxDetailFigures(10000.00, 10000.00);
    TaxDetailFigures(9392.80, 10000.00);
  }

  /** A retiree aged 65 or more earning 2000.00: the exemption of 1903.98 leaves a full base of
      96.02 and a simplified base of zero; no tax either way, and both details record the
      exemption. */
  lemma ScenarioRetiree2000(input: CalculationInput)
    requires input.grossSalary == 2000.00
    requires input.dependents == input.alimony == input.socialSecurity == input.otherDeductions == 0.0
    requires input.isRetiree65Plus
    ensures var r := Compare(input);
      && r.full.baseCalculation == 96.02
      && r.simplified.baseCalculation == 0.0
      && r.full.netTax == 0.0 && r.simplified.netTax == 0.0
      && r.savings == 0.0 && r.bestMethod == Full
      && r.full.exemption65Value == 1903.98 && r.simplified.exemption65Value == 1903.98
      && r.full.deductions == 1903.98 && r.simplified.deductions == 2511.18
  {
    assert Exemption65(input) == 1903.98;
    assert LegalDeductions(input) == 0.0;
  }
}
