/**
 * The engine and the validator together: whatever the engine computes passes
 * its own consistency check exactly when the projected sales are not negative,
 * and the standard campaign of the engine's test suite.
 */
module RoundTrip {
  import opened Types
  import opened Engine
  import opened Validator

  /** The engine's output satisfies every relationship the validator checks, exactly. */
  lemma EngineOutputIsConsistent(input: CalculationInput)
    requires CalculateFunnelMetrics(input).sales >= 0.0
    ensures Consistent(CalculateFunnelMetrics(input))
  {
    var out := CalculateFunnelMetrics(input);
    FinancialsUseRoundedSales(input);
    assert out.revenue == ExpectedRevenue(out);
    assert out.profit == ExpectedProfit(out);
    if out.investment > 0.0 {
      assert out.roas == ExpectedRoas(out);
      assert out.roi == ExpectedRoi(out);
    }
    if out.sales > 0.0 {
      assert out.cpa == ExpectedCpa(out);
    }
  }

  /**
   * Round trip: the validator never rejects the engine's own output when the
   * sales are not negative; only warnings can be raised.
   */
  lemma EngineOutputValidates(input: CalculationInput)
    requires CalculateFunnelMetrics(input).sales >= 0.0
    ensures Errors(CalculateFunnelMetrics(input)) == []
    ensures Validation(CalculateFunnelMetrics(input)).isValid
  {
    EngineOutputIsConsistent(input);
    ConsistentRecordsValidate(CalculateFunnelMetrics(input));
  }

  /** In particular, with non-negative spend, cpm and rates the output always validates. */
  lemma NonNegativeInputsValidate(input: CalculationInput)
    requires input.investment >= 0.0 && input.cpm >= 0.0 && input.ctr >= 0.0
    requires input.connectRate >= 0.0 && input.conversationRate >= 0.0
    requires input.conversionRate >= 0.0 && input.saleRate >= 0.0
    ensures Validation(CalculateFunnelMetrics(input)).isValid
  {
    SalesNonNegative(input);
    EngineOutputValidates(input);
  }

  /**
   * The converse of the round trip, for every input: negative sales need a
   * nonzero spend, so the engine's CPA is nonzero, and the validator, which
   * demands a zero CPA without positive sales, reports it.
   */
  lemma NegativeSalesRejected(input: CalculationInput)
    requires CalculateFunnelMetrics(input).sales < 0.0
    ensures Reported(CalculateFunnelMetrics(input), CpaInvalidZeroSales)
    ensures !Validation(CalculateFunnelMetrics(input)).isValid
  {
    var out := CalculateFunnelMetrics(input);
    if input.investment == 0.0 {
      ZeroInvestmentZeroesMetrics(input);
    }
    FinancialsUseRoundedSales(input);
    assert out.cpa * out.sales == out.investment;
    assert Violates(out, CpaInvalidZeroSales);
    ReportedExactlyWhenViolated(out, CpaInvalidZeroSales);
    ValidExactlyWithoutViolations(out);
  }

  /** The validator accepts the engine's output exactly when the sales are not negative. */
  lemma EngineOutputValidExactlyWhenSalesNonNegative(input: CalculationInput)
    ensures Validation(CalculateFunnelMetrics(input)).isValid <==> CalculateFunnelMetrics(input).sales >= 0.0
  {
    if CalculateFunnelMetrics(input).sales >= 0.0 {
      EngineOutputValidates(input);
    } else {
      NegativeSalesRejected(input);
    }
  }

  /** The campaign of the engine's test suite, with a configurable topology and sale rate. */
  function Campaign(campaignType: CampaignType, saleRate: real): CalculationInput
  {
    CalculationInput(campaignType, 5000.0, 297.0, 15.0, 1.0, 70.0, 80.0, 40.0, saleRate)
  }

  /**
   * The round trip needs non-negative sales: a negative sale rate floors the
   * projection of -46.67 sales to -47, the engine's CPA is then 5000 / -47, and
   * the validator, which demands a zero CPA without positive sales, rejects it.
   */
  lemma NegativeSaleRateBreaksRoundTrip()
    ensures var out := CalculateFunnelMetrics(Campaign(Site, -5.0));
      && out.sales == -47.0
      && Reported(out, CpaInvalidZeroSales)
      && !Validation(out).isValid
  {
    var out := CalculateFunnelMetrics(Campaign(Site, -5.0));
    ImpressionsFromSpend(Campaign(Site, -5.0));
    SiteTopology(Campaign(Site, -5.0));
    SalesAreFlooredRawSales(Campaign(Site, -5.0));
    FinancialsUseRoundedSales(Campaign(Site, -5.0));
    assert out.impressions == 1000000.0 / 3.0;
    assert out.leads == 2800.0 / 3.0;
    assert out.salesRaw == -140.0 / 3.0;
    FloorUnique(out.salesRaw, -47);
    assert out.cpa * -47.0 == 5000.0;
    ReportedExactlyWhenViolated(out, CpaInvalidZeroSales);
  }

  /**
   * The standard site campaign: 46.67 projected sales are floored to 46, the
   * record validates, and the loss of two thirds of a sale is flagged.
   */
  lemma StandardSiteCampaign()
    ensures var out := CalculateFunnelMetrics(Campaign(Site, 5.0));
      && out.salesRaw == 140.0 / 3.0 && out.sales == 46.0
      && out.revenue == 13662.0 && out.profit == 8662.0
      && Validation(out) == ValidationResult(true, [], [SignificantRounding])
  {
    var out := CalculateFunnelMetrics(Campaign(Site, 5.0));
    ImpressionsFromSpend(Campaign(Site, 5.0));
    SiteTopology(Campaign(Site, 5.0));
    SalesAreFlooredRawSales(Campaign(Site, 5.0));
    FinancialsUseRoundedSales(Campaign(Site, 5.0));
    assert out.impressions == 1000000.0 / 3.0;
    assert out.leads == 2800.0 / 3.0;
    assert out.salesRaw == 140.0 / 3.0;
    FloorUnique(out.salesRaw, 46);
    EngineOutputValidates(Campaign(Site, 5.0));
  }
}
