/**
 * Concrete campaigns and metrics records of the implementation's test suites:
 * the rounding examples for the engine, and the consistent and fault-injected
 * records for the validator, each with its complete validation result.
 */
module Scenarios {
  import opened Types
  import opened Engine
  import opened Validator
  import opened RoundTrip

  // ---------------------------------------------------------------------
  // Rounding: sales are always floored, never rounded to nearest
  // ---------------------------------------------------------------------

  /** A site campaign of 1000 at cpm 10 with 50% connect and 50% conversion. */
  function SmallCampaign(ctr: real, saleRate: real): CalculationInput
  {
    CalculationInput(Site, 1000.0, 100.0, 10.0, ctr, 50.0, 80.0, 50.0, saleRate)
  }

  /** At 1% CTR the small campaign yields 250 leads. */
  lemma SmallCampaignLeads(saleRate: real)
    ensures var out := CalculateFunnelMetrics(SmallCampaign(1.0, saleRate));
      && out.leads == 250.0 && out.salesRaw == 250.0 * (saleRate / 100.0)
  {
    ImpressionsFromSpend(SmallCampaign(1.0, saleRate));
    SiteTopology(SmallCampaign(1.0, saleRate));
    SalesAreFlooredRawSales(SmallCampaign(1.0, saleRate));
  }

  /** 2.1 projected sales are floored to 2. */
  lemma RoundsDownSmallFraction()
    ensures var out := CalculateFunnelMetrics(SmallCampaign(1.0, 0.84));
      && out.salesRaw == 2.1 && out.sales == 2.0 && out.revenue == 200.0
  {
    SmallCampaignLeads(0.84);
    FloorUnique(2.1, 2);
    SalesAreFlooredRawSales(SmallCampaign(1.0, 0.84));
    FinancialsUseRoundedSales(SmallCampaign(1.0, 0.84));
  }

  /** 2.9 projected sales are floored to 2 as well, not rounded up to 3. */
  lemma RoundsDownLargeFraction()
    ensures var out := CalculateFunnelMetrics(SmallCampaign(1.0, 1.16));
      && out.salesRaw == 2.9 && out.sales == 2.0
      && Warns(out, SignificantRounding)
  {
    SmallCampaignLeads(1.16);
    FloorUnique(2.9, 2);
    SalesAreFlooredRawSales(SmallCampaign(1.0, 1.16));
  }

  /**
   * 0.9 projected sales are floored to none: the record still validates, and
   * both warnings are raised.
   */
  lemma RoundsDownToNoSale()
    ensures var out := CalculateFunnelMetrics(SmallCampaign(1.0, 0.36));
      && out.salesRaw == 0.9 && out.sales == 0.0 && out.cpa == 0.0 && out.roi == -100.0
      && Validation(out) == ValidationResult(true, [], [SignificantRounding, ZeroSalesWithLeads])
  {
    var out := CalculateFunnelMetrics(SmallCampaign(1.0, 0.36));
    SmallCampaignLeads(0.36);
    FloorUnique(0.9, 0);
    SalesAreFlooredRawSales(SmallCampaign(1.0, 0.36));
    ZeroSalesLosesInvestment(SmallCampaign(1.0, 0.36));
    EngineOutputValidates(SmallCampaign(1.0, 0.36));
  }

  /** A whole projection is kept: 10 projected sales stay 10. */
  lemma KeepsWholeSales()
    ensures var out := CalculateFunnelMetrics(SmallCampaign(2.0, 2.0));
      && out.salesRaw == 10.0 && out.sales == 10.0
  {
    var input := SmallCampaign(2.0, 2.0);
    ImpressionsFromSpend(input);
    SiteTopology(input);
    SalesAreFlooredRawSales(input);
    assert CalculateFunnelMetrics(input).leads == 500.0;
    FloorUnique(10.0, 10);
  }

  // ---------------------------------------------------------------------
  // Fault injection: one corrupted field at a time
  // ---------------------------------------------------------------------

  /**
   * A consistent record of the standard campaign, with a rounding loss of
   * 0.65 sales and the CPA written to six places.
   */
  function GoodRecord(): CalculationOutput
  {
    CalculationOutput(
      5000.0, 15.0, 1.0, 70.0, 80.0, 40.0, 5.0, 297.0,
      333333.0, 3333.0, 2333.0, 0.0, 0.0, 933.0, 5.36,
      46.65, 46.0,
      13662.0, 5000.0, 8662.0, 2.7324, 173.24, 108.695652)
  }

  /** The same record with the CPA rounded to 108.7, the base of most validator tests. */
  function TestRecord(): CalculationOutput
  {
    GoodRecord().(cpa := 108.7)
  }

  /** The consistent record validates; only the rounding loss is flagged. */
  lemma GoodRecordValidates()
    ensures Validation(GoodRecord()) == ValidationResult(true, [], [SignificantRounding])
  {
    assert CpaRule(GoodRecord()) == [];
  }

  /** A CPA of 108.7 is within a cent of 5000 / 46, so the base test record validates too. */
  lemma TestRecordValidates()
    ensures Validation(TestRecord()) == ValidationResult(true, [], [SignificantRounding])
  {
    assert CpaRule(TestRecord()) == [];
  }

  /** Results within a cent are accepted: a ROAS of 2.73 and a CPA of 108.7 still pass. */
  lemma RoundedRatiosWithinTolerance()
    ensures Validation(TestRecord().(roas := 2.73)) == ValidationResult(true, [], [SignificantRounding])
  {
    var o := TestRecord().(roas := 2.73);
    assert RoasRule(o) == [];
    assert CpaRule(o) == [];
  }

  /** Inflated revenue, with profit, ROAS and ROI made consistent with it: only the revenue rule fires. */
  lemma CorruptedRevenue()
    ensures Validation(TestRecord().(revenue := 13860.0, profit := 8860.0, roas := 2.77, roi := 177.2))
      == ValidationResult(false, [ValidationError(RevenueInconsistency, 13662.0, 13860.0)], [SignificantRounding])
  {
    var o := TestRecord().(revenue := 13860.0, profit := 8860.0, roas := 2.77, roi := 177.2);
    assert RoasRule(o) == [];
    assert CpaRule(o) == [];
    assert RoiRule(o) == [];
  }

  /** A wrong ROAS raises the ROAS error with the re-derived 2.7324. */
  lemma CorruptedRoas()
    ensures Validation(TestRecord().(roas := 3.0))
      == ValidationResult(false, [ValidationError(RoasInconsistency, 2.7324, 3.0)], [SignificantRounding])
  {
    var o := TestRecord().(roas := 3.0);
    assert CpaRule(o) == [];
  }

  /** A wrong profit (with the ROI that goes with it) raises only the profit error. */
  lemma CorruptedProfit()
    ensures Validation(TestRecord().(profit := 9000.0, roi := 180.0))
      == ValidationResult(false, [ValidationError(ProfitInconsistency, 8662.0, 9000.0)], [SignificantRounding])
  {
    var o := TestRecord().(profit := 9000.0, roi := 180.0);
    assert CpaRule(o) == [];
    assert RoiRule(o) == [];
  }

  /** A wrong ROI raises only the ROI error. */
  lemma CorruptedRoi()
    ensures Validation(TestRecord().(roi := 200.0))
      == ValidationResult(false, [ValidationError(RoiInconsistency, 173.24, 200.0)], [SignificantRounding])
  {
    var o := TestRecord().(roi := 200.0);
    assert CpaRule(o) == [];
  }

  /**
   * Fractional sales of 46.65 with revenue 13859: every rule is evaluated, so
   * the revenue rule (expecting 46.65 x 297) and the fractional-sales rule
   * (expecting 46) both fire, in that order. Nothing is lost to rounding, so
   * no warning is raised.
   */
  lemma FractionalSalesRecord()
    ensures Validation(GoodRecord().(sales := 46.65, revenue := 13859.0, profit := 8859.0,
                                     roas := 2.77, roi := 177.18, cpa := 107.18))
      == ValidationResult(false, [ValidationError(RevenueInconsistency, 13855.05, 13859.0),
                                  ValidationError(FractionalSales, 46.0, 46.65)], [])
  {
    var o := GoodRecord().(sales := 46.65, revenue := 13859.0, profit := 8859.0,
                           roas := 2.77, roi := 177.18, cpa := 107.18);
    assert RoasRule(o) == [];
    assert CpaRule(o) == [];
    assert RoiRule(o) == [];
    FloorUnique(46.65, 46);
  }

  /** A rounding loss of 0.9 sales is flagged, and the record stays valid. */
  lemma LargeRoundingLossWarned()
    ensures Validation(TestRecord().(salesRaw := 46.9)) == ValidationResult(true, [], [SignificantRounding])
  {
    assert CpaRule(TestRecord().(salesRaw := 46.9)) == [];
  }

  /** The standard campaign with no sale realised, at a given sale rate, raw projection and CPA. */
  function NoSaleRecord(saleRate: real, salesRaw: real, cpa: real): CalculationOutput
  {
    GoodRecord().(saleRate := saleRate, salesRaw := salesRaw, sales := 0.0, revenue := 0.0,
                  profit := -5000.0, roas := 0.0, roi := -100.0, cpa := cpa)
  }

  /** At a zero sale rate with a zero CPA the record validates; only the lost leads are flagged. */
  lemma ZeroSaleRateValidates()
    ensures Validation(NoSaleRecord(0.0, 0.0, 0.0)) == ValidationResult(true, [], [ZeroSalesWithLeads])
  {
  }

  /** At a zero sale rate any nonzero CPA (Infinity in the TypeScript test) is rejected, with expected value 0. */
  lemma NonzeroCpaWithoutSales(cpa: real)
    requires cpa != 0.0
    ensures Validation(NoSaleRecord(0.0, 0.0, cpa))
      == ValidationResult(false, [ValidationError(CpaInvalidZeroSales, 0.0, cpa)], [ZeroSalesWithLeads])
  {
  }

  /**
   * At a 0.1% sale rate 0.933 sales are projected and none realised: the record
   * validates, the lost leads are flagged, and so is the rounding loss.
   */
  lemma LeadsWithoutSalesWarned()
    ensures Validation(NoSaleRecord(0.1, 0.933, 0.0))
      == ValidationResult(true, [], [SignificantRounding, ZeroSalesWithLeads])
  {
  }

  /** The fail-fast wrapper rejects a record with 46.5 sales, reporting both broken rules. */
  method AssertRejectsHalfSale() returns (outcome: AssertOutcome)
    ensures outcome == Failed([ValidationError(RevenueInconsistency, 13810.5, 13809.0),
                               ValidationError(FractionalSales, 46.0, 46.5)])
  {
    var o := GoodRecord().(sales := 46.5, revenue := 13809.0, profit := 8809.0,
                           roas := 2.76, roi := 176.18, cpa := 107.53);
    assert RoasRule(o) == [];
    assert CpaRule(o) == [];
    assert RoiRule(o) == [];
    FloorUnique(46.5, 46);
    outcome := AssertValidCalculation(o);
  }
}
