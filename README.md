# Wave Calculator: funnel engine and consistency validator

This project models the calculation core of the Wave Calculator, a tool that
projects a paid-traffic campaign through its sales funnel.

**The engine.** The engine turns an investment into a complete metrics record
in a fixed order:
impressions, clicks, then page views (site campaigns) or conversations
(WhatsApp campaigns), leads, raw sales, sales floored to a whole number, and
then revenue, profit, ROAS, ROI and CPA computed from the floored sales.
Every ratio goes through a zero-guarded division.

**The validator.** The validator takes any metrics record, including a
corrupted one. It checks seven relationships and reports each broken one as
a typed error carrying the re-derived (`expected`) and recorded (`actual`)
values. Revenue, ROAS, CPA, profit and ROI are compared with a tolerance of
one cent. Two checks are exact: a CPA must be exactly 0 when there is no
positive sale, and sales must be a whole number. It also raises two
informational warnings. A fail-fast wrapper rejects any record that has
errors.

Files:

- `types.dfy` (module `Types`): the input and output records, error and
  warning codes, and the validation result.
- `engine.dfy` (module `Engine`): `SafeDivide`, `CalculateFunnelMetrics` and
  the lemmas about the funnel. The engine is pure, so it is a function
  returning a record.
- `validator.dfy` (module `Validator`):
  - `AreEqual`.
  - `ValidateCalculation`, an imperative method. It appends to an error list
    and a warning list rule by rule, and is proved equal to the specification
    `Validation`, which concatenates one sequence per rule.
  - `AssertValidCalculation`, which returns an outcome where the TypeScript
    implementation throws.
  - The lemmas characterising the errors code by code.
- `round_trip.dfy` (module `RoundTrip`): the engine's output passes the
  validator exactly when its sales are not negative, with a worked
  counterexample.
- `scenarios.dfy` (module `Scenarios`): concrete cases from the
  implementation's two test files, with the tests' own field values. The
  engine's rounding campaigns state their raw and floored sales. Every
  validator record states its complete validation result: validity, errors
  and warnings. The engine's other tests (WhatsApp funnel, zero investment,
  zero cpm, zero sales, financial derivation, pass-through) are covered by
  the all-input lemmas of `engine.dfy`.

Numbers are exact `real`s. `Math.floor` is `.Floor`. Sales stay a `real` in
the output record, so that the validator can be given fractional sales.

## Model

| member | source | states |
|---|---|---|
| Engine.SafeDivide | engine/WaveCalculatorEngine.ts:25-31 | a zero denominator gives 0; otherwise the quotient times the denominator is the numerator |
| Engine.Floor | engine/WaveCalculatorEngine.ts:92 | the result is the integer k with k <= x < k + 1 |
| Engine.FloorUnique | engine/WaveCalculatorEngine.ts:90-92 | any integer within one below x is its floor, so the floor is determined by its bounds |
| Engine.CalculateFunnelMetrics | engine/WaveCalculatorEngine.ts:39-146 | the eight inputs pass through unchanged; total investment is the investment; sales is a whole number at most one below the raw projection and never above it; site campaigns have no conversations and no cost per conversation; WhatsApp campaigns have no page views |
| Engine.ImpressionsFromSpend | engine/WaveCalculatorEngine.ts:52-56 | impressions times cpm is the spend times 1000, or 0 when cpm is 0; clicks are impressions times the CTR percentage |
| Engine.SiteTopology | engine/WaveCalculatorEngine.ts:64-71 | site: page views are clicks times the connect rate, leads are page views times the conversion rate, and conversations and cost per conversation are 0 |
| Engine.WhatsappTopology | engine/WaveCalculatorEngine.ts:72-82 | WhatsApp: no page views; conversations are clicks times the conversation rate, leads are conversations times the conversion rate, and cost per conversation times conversations is the spend (0 without conversations) |
| Engine.CostPerLead | engine/WaveCalculatorEngine.ts:85 | cost per lead times leads is the spend, or 0 without leads |
| Engine.SalesAreFlooredRawSales | engine/WaveCalculatorEngine.ts:87-92 | raw sales are leads times the sale rate, and sales is their floor (the only rounding point) |
| Engine.FinancialsUseRoundedSales | engine/WaveCalculatorEngine.ts:94-112 | revenue is floored sales times ticket; profit is revenue minus spend; ROAS and ROI are zero-guarded ratios over the spend; CPA times sales is the spend, or 0 without sales |
| Engine.ZeroCpmEmptiesFunnel | engine/WaveCalculatorEngine.test.ts:210-231 | a zero cpm empties the whole funnel: no impressions, clicks, leads or sales, no revenue and no CPA |
| Engine.ZeroInvestmentZeroesMetrics | engine/WaveCalculatorEngine.test.ts:181-207 | zero spend makes every volume and every financial metric exactly 0 |
| Engine.ZeroSalesLosesInvestment | engine/WaveCalculatorEngine.test.ts:233-255 | with no sale, revenue, CPA and ROAS are 0, profit is minus the spend, and ROI is -100 (0 without spend) |
| Engine.TotalLossRoi | engine/WaveCalculatorEngine.ts:108 | losing the whole spend is an ROI of -100 percent, or 0 when nothing was spent |
| Engine.SalesNonNegative | engine/WaveCalculatorEngine.ts:52-92 | with non-negative spend, cpm and rates, raw and floored sales are non-negative |
| Validator.AreEqual | engine/CalculationValidator.ts:10-20 | true exactly when b lies strictly within one cent of a, in both directions |
| Validator.ValidateCalculation | engine/CalculationValidator.ts:28-137 | the method's errors and warnings are exactly those of the per-rule specification, in rule order, and the record is valid exactly when there is no error |
| Validator.AssertValidCalculation | engine/CalculationValidator.ts:145-158 | fails exactly when the record is not valid, and then carries the non-empty error list |
| Validator.RulesReportTheirViolations | engine/CalculationValidator.ts:32-109 | each rule reports exactly the violation of its own code, with the re-derived value as expected and the recorded value as actual |
| Validator.ErrorsAreExactlyTheViolations | engine/CalculationValidator.ts:28-131 | an error is in the list exactly when its relationship is broken (off by a cent or more, nonzero CPA without sales, fractional sales) and its expected and actual values are the ones the rule computes |
| Validator.ReportedExactlyWhenViolated | engine/CalculationValidator.ts:28-131 | each code is reported exactly when its relationship is broken |
| Validator.CpaRulesExclusive | engine/CalculationValidator.ts:57-75 | with positive sales the zero-sales CPA rule is silent; otherwise the CPA ratio rule is silent |
| Validator.ErrorsInRuleOrder | engine/CalculationValidator.ts:28-131 | errors come in the order revenue, ROAS, CPA, fractional sales, profit, ROI; no code appears twice; there are at most six |
| Validator.RatioRulesNeedSpend | engine/CalculationValidator.ts:44-54 | without positive spend no ROAS and no ROI error is ever reported |
| Validator.CpaCodesExclusive | engine/CalculationValidator.ts:57-75 | the two CPA codes are never reported together; which one can fire depends on the sign of sales |
| Validator.ConsistentRecordsValidate | engine/CalculationValidator.ts:28-137 | a record whose relationships hold exactly has no error and is valid |
| Validator.ErrorsReadOnlyCheckedFields | engine/CalculationValidator.ts:28-109 | the errors depend only on spend, ticket, sales, revenue, profit, ROAS, ROI and CPA |
| Validator.ValidExactlyWithoutViolations | engine/CalculationValidator.ts:132-136 | a record is valid exactly when none of the seven relationships is broken |
| Validator.WarningsExactlyWhenRaised | engine/CalculationValidator.ts:111-130 | each warning is present exactly when its condition holds, with the rounding warning first |
| Validator.ErrorsIgnoreWarningFields | engine/CalculationValidator.ts:111-136 | changing the raw sales or the leads, the fields only warnings read, changes neither the errors nor validity |
| RoundTrip.EngineOutputIsConsistent | engine/WaveCalculatorEngine.ts:94-112 | with non-negative sales the engine's record satisfies every validated relationship exactly |
| RoundTrip.EngineOutputValidates | engine/CalculationValidator.ts:145-158 | with non-negative sales the validator finds no error in the engine's output |
| RoundTrip.NegativeSalesRejected | engine/CalculationValidator.ts:57-75 | for every input whose sales come out negative, the spend is nonzero, so the engine's CPA is nonzero and the validator reports the zero-sales CPA error and rejects the record |
| RoundTrip.EngineOutputValidExactlyWhenSalesNonNegative | engine/CalculationValidator.ts:132-136 | the validator accepts the engine's output if and only if its sales are not negative |
| RoundTrip.NonNegativeInputsValidate | engine/WaveCalculatorEngine.ts:7-18 | with non-negative spend, cpm and rates the engine's output is always valid |
| RoundTrip.NegativeSaleRateBreaksRoundTrip | engine/CalculationValidator.ts:67-75 | a -5% sale rate floors -46.67 sales to -47; the engine's CPA is nonzero and the validator reports a zero-sales CPA error |
| RoundTrip.StandardSiteCampaign | engine/WaveCalculatorEngine.test.ts:18-51 | the standard site campaign projects 140/3 sales, floors them to 46 for revenue 13662 and profit 8662, and validates with only the rounding warning |
| Scenarios.SmallCampaignLeads | engine/WaveCalculatorEngine.test.ts:100-119 | the rounding campaign at 1% CTR has 250 leads |
| Scenarios.RoundsDownSmallFraction | engine/WaveCalculatorEngine.test.ts:101-119 | 2.1 projected sales become 2 |
| Scenarios.RoundsDownLargeFraction | engine/WaveCalculatorEngine.test.ts:121-139 | 2.9 projected sales become 2, which is flagged as significant rounding |
| Scenarios.RoundsDownToNoSale | engine/WaveCalculatorEngine.test.ts:141-159 | 0.9 projected sales become 0 with zero CPA and ROI -100; the record is valid with both warnings |
| Scenarios.KeepsWholeSales | engine/WaveCalculatorEngine.test.ts:161-178 | 10 projected sales stay 10 |
| Scenarios.GoodRecordValidates | engine/CalculationValidator.test.ts:471-498 | the consistent record with CPA 108.695652 validates with only the rounding warning |
| Scenarios.TestRecordValidates | engine/CalculationValidator.test.ts:86-116 | the record with ROAS 2.7324 and CPA 108.7 validates with only the rounding warning |
| Scenarios.RoundedRatiosWithinTolerance | engine/CalculationValidator.test.ts:17-47 | a ROAS of 2.73 and a CPA of 108.7 are within tolerance: the record is valid with only the rounding warning |
| Scenarios.CorruptedRevenue | engine/CalculationValidator.test.ts:49-83 | an inflated revenue gives exactly one error, the revenue error with 13662 expected and 13860 actual |
| Scenarios.CorruptedRoas | engine/CalculationValidator.test.ts:118-152 | a ROAS of 3 makes the record invalid with exactly the ROAS error (2.7324 expected) and the rounding warning |
| Scenarios.CorruptedProfit | engine/CalculationValidator.test.ts:325-359 | a profit of 9000 makes the record invalid with exactly the profit error (8662 expected) and the rounding warning |
| Scenarios.CorruptedRoi | engine/CalculationValidator.test.ts:361-395 | an ROI of 200 makes the record invalid with exactly the ROI error (173.24 expected) and the rounding warning |
| Scenarios.FractionalSalesRecord | engine/CalculationValidator.test.ts:256-290 | 46.65 sales make the record invalid with the revenue error and then the fractional-sales error (46 expected), and no warning |
| Scenarios.LargeRoundingLossWarned | engine/CalculationValidator.test.ts:399-432 | a rounding loss of 0.9 sales raises only the rounding warning and the record is valid |
| Scenarios.ZeroSaleRateValidates | engine/CalculationValidator.test.ts:187-216 | at a zero sale rate, zero sales with zero CPA validates, with only the leads-without-sales warning |
| Scenarios.NonzeroCpaWithoutSales | engine/CalculationValidator.test.ts:218-252 | at a zero sale rate, zero sales with any nonzero CPA makes the record invalid with exactly the zero-sales CPA error (0 expected) and the leads-without-sales warning |
| Scenarios.LeadsWithoutSalesWarned | engine/CalculationValidator.test.ts:434-467 | at a 0.1% sale rate, 0.933 projected sales and none realised validates with both warnings, rounding first |
| Scenarios.AssertRejectsHalfSale | engine/CalculationValidator.test.ts:501-528 | the wrapper fails on 46.5 sales with the revenue and fractional-sales errors |

## Left out

- IEEE-754 doubles: numbers are exact reals. NaN and Infinity do not exist, so the `isFinite` guards of `safeDivide` (engine/WaveCalculatorEngine.ts:26, 30) reduce to the zero-denominator case. The NaN and Infinity tests are reflected only as "every division is zero-guarded".
- Engine.SafeDivide: states only the zero-denominator guard, because the guards against a non-finite denominator or quotient cannot arise with exact reals.
- Validator.AreEqual: the tolerance is the fixed one cent. The optional `epsilon` parameter of `areEqual` is left out because every call site uses its default. With exact reals the tolerance absorbs only real discrepancies, not floating-point noise.
- The `Infinity` CPA of the validator's zero-sales test is stood in for by any nonzero CPA (Scenarios.NonzeroCpaWithoutSales).
- Human-readable texts are not modelled: error `message` strings, warning `details` strings built with `toFixed`, and the text of the thrown `Error`. Errors carry their code and their expected and actual values; warnings carry their code.
- Validator.AssertValidCalculation: the thrown `Error` is modelled as a `Failed` outcome carrying the errors, and returning normally as `Passed`.
- RoundTrip.EngineOutputValidates: it needs non-negative sales. With a negative spend or rate the engine can produce a negative sales count, and then its output is always rejected (RoundTrip.NegativeSalesRejected).
- Not modelled: the React components, App.tsx, constants.tsx and the application-level types.ts. They hold presentation, input handling and defaults, not calculation logic.
