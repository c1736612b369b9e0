# IRRF 2026 withholding-tax engine, modelled in Dafny

This project models the tax engine of a Brazilian monthly withholding-tax (IRRF) calculator
under the 2026 rules and proves properties of it. The engine has three parts:

- **The bracket table.** Five progressive tiers (0%, 7.5%, 15%, 22.5%, 27.5%). The last tier
  has no upper limit.
- **`calculateTax`.** It allocates a calculation base across the tiers with a running
  previous limit and sums the per-tier tax into the gross tax. It then applies the *redutor*
  abatement and derives the net tax and the effective rate. The redutor is the whole tax up
  to 5000.00 of gross salary, a clamped linear formula up to 7350.00, and nothing above.
- **`calculateIRRF`.** It builds two calculation bases:
  - the *full* base: salary less social security, other deductions, the 65+ exemption,
    alimony and 189.59 per dependent;
  - the *simplified* base: salary less the 65+ exemption and a flat 607.20.

  Each base is clamped at zero after the 65+ exemption and again after its method's
  deductions; the full base subtracts social security and other deductions from the salary
  before the first clamp. It runs the engine on both bases and fills in each
  result's deduction figures. It then picks the cheaper method, ties going to the full one,
  and reports the savings.

Money is modelled as `real`. Every constant of the engine is an exact decimal, so the model
uses exact rational arithmetic.

Files:

- `basics.dfy`: `Wrappers.Option`, and `RealOps` (`Min`, `Max`, `Abs`).
- `tax_table.dfy` (`TaxTable`): the table, the constants and the table's well-formedness.
- `tax_engine.dfy` (`TaxEngine`): the redutor, and the allocation as a specification
  function (`AllocationsFrom`). It also holds `TaxDetail`, the specification of
  `calculateTax`, and the method `CalculateTax`, which runs the source's loop and is proved
  equal to `TaxDetail`.
- `comparator.dfy` (`Comparator`): the two bases, and `Compare`, the specification of
  `calculateIRRF`. It also holds the method `CalculateIRRF`, which follows the source step by
  step (the in-place field updates become record updates) and is proved equal to `Compare`.
  The worked scenarios are here too.

The loop invariant of `CalculateTax` has a "remaining work" form. The entries built so far,
followed by the allocation of the brackets still to visit from the running previous limit,
make up the whole allocation. The tax accumulated so far, plus the tax of those remaining
entries, is the whole gross tax.

Two facts about the table are worth stating on their own:

- **A base of 3000.00.** The second tier is only 397.85 wide, so a 3000.00 base puts 2428.80
  at 0%, 397.85 at 7.5% and 173.35 at 15%, for a gross tax of 55.84125 (`Base3000Example`).
- **The shortcut formula.** The table's deduction column supports the one-bracket shortcut
  "rate × base − deduction". Those deductions are rounded to the cent, so the shortcut equals
  the itemised tax only up to 2826.65; everywhere it is within 0.0075 of it
  (`ShortcutWithinCent`).

## Model

| member | source | states |
|---|---|---|
| TaxTable.BracketsWellFormed | src/services/irrf-calculator.ts:40-46 | the 2026 table has five tiers; its limits are positive and strictly increasing; only the last tier is unbounded; rates are non-negative, strictly increasing and at most 27.5% |
| TaxTable.LimitsAboveIff | src/services/irrf-calculator.ts:40-46 | the recursive description of the limits (each above the previous one, the last unbounded) is equivalent, both ways, to the positional one |
| TaxEngine.CalculateReduction | src/services/irrf-calculator.ts:57-81 | for a non-negative gross tax the abatement lies between zero and the gross tax; the explanation quotes the income; a positive abatement only occurs up to 7350.00 |
| TaxEngine.ReductionTierBoundaries | src/services/irrf-calculator.ts:58-80 | 5000.00 abates the whole tax; 5000.01 and 7350.00 fall in the formula tier with values min(312.89366855, tax) and min(0.00425, tax); 7350.01 gets nothing |
| TaxEngine.FormulaPositiveInItsTier | src/services/irrf-calculator.ts:63-69 | inside the formula tier the formula is at least 0.00425, so the zero floor and its "negative" note never apply, and the abatement is min(formula, gross tax) |
| TaxEngine.ReductionNonIncreasingInIncome | src/services/irrf-calculator.ts:57-81 | for a fixed gross tax, higher income never gets a larger abatement |
| TaxEngine.NetOfMonotone | src/services/irrf-calculator.ts:117-118 | for a fixed income, more gross tax never gives less net tax after the abatement |
| TaxEngine.AllocatedIn | src/services/irrf-calculator.ts:92-101 | the amount put in one bracket is between zero and the part of the base above the bracket's bottom and at most the bracket's width; the unbounded bracket takes all of the base above its bottom |
| TaxEngine.AllocatedInMonotone | src/services/irrf-calculator.ts:92-101 | a larger base puts at least as much into every bracket |
| TaxEngine.AllocationsFrom | src/services/irrf-calculator.ts:89-114 | one entry per bracket, in table order, each with its bracket's rate and upper limit, the amount the branch allocates from its bottom, and tax = amount × rate; the first entry starts at the given bottom |
| TaxEngine.AllocationsTile | src/services/irrf-calculator.ts:106-113 | over well-formed limits every bracket starts exactly where the previous one ends, and each bounded bracket starts below its limit |
| TaxEngine.AllocationWithinWidth | src/services/irrf-calculator.ts:92-101 | each bounded bracket receives between zero and its width |
| TaxEngine.AllocationsSumToBase | src/services/irrf-calculator.ts:89-114 | the allocated amounts add up to exactly the part of the base above the starting bottom (the whole base when it is non-negative) |
| TaxEngine.SumTaxMonotone | src/services/irrf-calculator.ts:103-104 | with non-negative rates the gross tax is non-negative and grows with the base |
| TaxEngine.SumTaxAtMostTopRate | src/services/irrf-calculator.ts:103-104 | when no rate exceeds a bound, the summed tax is at most that bound times the summed allocation |
| TaxEngine.TaxDetail | src/services/irrf-calculator.ts:83-131 | the detail has one bracket entry per tier, whose amounts add up to a non-negative base; gross tax is the sum of the entries' tax and is non-negative; 0 ≤ abatement ≤ gross tax; net tax = gross tax − abatement ≥ 0; no net tax up to 5000.00 of salary and no abatement above 7350.00; effective rate × salary = net tax when salary > 0, and 0 otherwise; deduction fields are zero |
| TaxEngine.CalculateTax | src/services/irrf-calculator.ts:83-131 | the loop with a running previous limit and accumulated tax returns exactly `TaxDetail` of its inputs |
| TaxEngine.GrossTaxClosedForm | src/services/irrf-calculator.ts:89-114 | the itemised gross tax is the piecewise-linear function 0, 0.075b − 182.16, 0.15b − 394.15875, 0.225b − 675.4875, 0.275b − 908.7215 over the five tiers |
| TaxEngine.ShortcutWithinCent | src/services/irrf-calculator.ts:40-46 | the shortcut rate × base − deduction equals the itemised tax up to 2826.65 and is within 0.0075 of it everywhere |
| TaxEngine.Base3000Example | src/services/irrf-calculator.ts:89-114 | a base of 3000.00 allocates 2428.80 / 397.85 / 173.35 / 0 / 0 for a gross tax of 55.84125; the shortcut gives 55.84 |
| TaxEngine.TaxDetailBrackets | src/services/irrf-calculator.ts:106-113 | the entries of a detail start at zero, carry their tier's rate and limit, chain each start to the previous limit, and hold between zero and their width |
| TaxEngine.GrossTaxAtMostTopRate | src/services/irrf-calculator.ts:103-104 | for a non-negative base, 0 ≤ gross tax ≤ 27.5% of the base |
| TaxEngine.NetTaxMonotoneInBase | src/services/irrf-calculator.ts:116-118 | for a fixed salary, a larger base never lowers the net tax |
| TaxEngine.EffectiveRateOfDetail | src/services/irrf-calculator.ts:127 | when 0 ≤ base ≤ salary, the effective rate lies between 0 and 27.5% |
| Comparator.FullBase | src/services/irrf-calculator.ts:134-144 | the full base is non-negative; when alimony plus the dependents' allowance is non-negative, the two clamps collapse to max(0, salary − social security − other deductions − exemption − alimony − 189.59 per dependent); with all deductions non-negative it is at most max(0, salary − 65+ exemption) |
| Comparator.SimplifiedBase | src/services/irrf-calculator.ts:138-151 | the simplified base is max(0, salary − exemption − 607.20): the two clamps collapse to one, and the base is at most max(0, salary − 65+ exemption) |
| Comparator.Compare | src/services/irrf-calculator.ts:133-163 | each method's result is `TaxDetail` of its base and the salary, with deductions and exemption filled in as the source does; the redutor uses the salary for both; the full method is best exactly when its net tax is at most the simplified one's; savings ≥ 0, and best net tax + savings = the other net tax |
| Comparator.CalculateIRRF | src/services/irrf-calculator.ts:133-163 | computing both bases, running `CalculateTax` twice and updating the deduction fields in place returns exactly `Compare` of the input |
| Comparator.ItemisedWinsWhenLarger | src/services/irrf-calculator.ts:140-160 | with non-negative deductions whose itemised total reaches 607.20, the full base is at most the simplified base and the full method is chosen |
| Comparator.LowIncomePaysNothing | src/services/irrf-calculator.ts:145-161 | up to 5000.00 of salary both methods pay no net tax, the savings are zero and the full method is chosen |
| Comparator.EffectiveRateAtMostTopRate | src/services/irrf-calculator.ts:145-152 | with non-negative deductions both methods' effective rates lie between 0 and 27.5% |
| Comparator.Scenario3000 | src/services/irrf-calculator.ts:133-163 | 3000.00 without deductions: full base 3000.00 with gross tax 55.84125, fully abated; simplified base 2392.80 with no tax; no savings; full method chosen |
| Comparator.Scenario10000 | src/services/irrf-calculator.ts:133-163 | 10000.00 without deductions: no abatement; full net 1841.2785 and simplified net 1674.2985; simplified chosen, saving 166.98 |
| Comparator.ScenarioRetiree2000 | src/services/irrf-calculator.ts:133-163 | a 65+ retiree earning 2000.00: full base 96.02, simplified base 0; no tax; both results record the 1903.98 exemption; deductions 1903.98 (full) and 2511.18 (simplified) |

## Left out

- Presentation: the React components, `formatCurrency` and every `toFixed` string are not part of this model.
- The bracket `range` label is modelled as its two endpoints, `BracketRange(from, to)`.
- The redutor explanation is modelled as a tier tag. It carries the income, the formula value and the note (capped at the gross tax, or negative clamped to zero). The exact text is not modelled.
- Floating point: the source computes in IEEE-754 doubles, and the model uses exact reals. Rounding error is not modelled.
- `parseFloat(...) || 0` input coercion is UI code and is not modelled. Dependents are modelled as a real, as the source's `number` allows.
- The table's `deduction` column is never used by the engine. It appears only in `ShortcutTax`, to relate the published shortcut to the itemised tax.
- TaxEngine.CalculateTax: the allocation branch of src/services/irrf-calculator.ts:92-101 is evaluated through `AllocatedIn`, whose body is that branch, rather than written inline in the loop.
- Comparator.CalculateIRRF: the source mutates the returned objects' `deductions` and `exemption65Value` fields. The model replaces this with record updates on values, since nothing else holds a reference to those objects.
- The "negative, assumed zero" note of the redutor cannot occur, because the formula is at least 0.00425 in its tier. It is modelled as written, and `FormulaPositiveInItsTier` shows it is unreachable.
