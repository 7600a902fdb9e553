/**
 * The funnel calculation engine: campaign inputs to a complete metrics record,
 * in the fixed order impressions, clicks, page views or conversations, leads,
 * raw sales, floored sales, revenue, profit, ROAS, ROI, CPA.
 */
module Engine {
  import opened Types

  /**
   * Division that never produces a non-finite value: a zero denominator gives 0.
   * (With exact reals the other non-finite cases of the TypeScript engine cannot arise.)
   */
  function SafeDivide(numerator: real, denominator: real): (q: real)
    ensures denominator == 0.0 ==> q == 0.0
    ensures denominator != 0.0 ==> q * denominator == numerator
  {
    if denominator == 0.0 then 0.0 else numerator / denominator
  }

  /** Math.floor: the greatest integer not above `x`. */
  function Floor(x: real): (k: int)
    ensures k as real <= x < k as real + 1.0
  {
    x.Floor
  }

  /** Floor is determined by its bounds: no other integer satisfies them. */
  lemma FloorUnique(x: real, k: int)
    requires k as real <= x < k as real + 1.0
    ensures Floor(x) == k
  {
  }

  /**
   * The engine. Each step uses only earlier results; `sales` is the floor of
   * `salesRaw` and is the only rounded value; the financial metrics are
   * built from the rounded sales.
   */
  function CalculateFunnelMetrics(input: CalculationInput): (out: CalculationOutput)
    // the eight inputs pass through unchanged
    ensures out.investment == input.investment && out.cpm == input.cpm
    ensures out.ctr == input.ctr && out.connectRate == input.connectRate
    ensures out.conversationRate == input.conversationRate
    ensures out.conversionRate == input.conversionRate
    ensures out.saleRate == input.saleRate && out.ticketMedio == input.ticketMedio
    ensures out.totalInvestment == input.investment
    // sales is a whole number, at most one below the raw projection
    ensures out.sales.Floor as real == out.sales
    ensures out.sales <= out.salesRaw < out.sales + 1.0
    // the inactive topology's fields are forced to zero
    ensures input.campaignType == Site ==> out.conversations == 0.0 && out.costPerConversation == 0.0
    ensures input.campaignType == Whatsapp ==> out.pageViews == 0.0
  {
    var investment := input.investment;
    // step 1: impressions bought at cpm per thousand
    var impressions := SafeDivide(investment, input.cpm) * 1000.0;
    // step 2
    var clicks := impressions * (input.ctr / 100.0);
    // steps 3 and 4: the topology branch
    var pageViews := if input.campaignType == Site then clicks * (input.connectRate / 100.0) else 0.0;
    var conversations := if input.campaignType == Site then 0.0 else clicks * (input.conversationRate / 100.0);
    var costPerConversation := if input.campaignType == Site then 0.0 else SafeDivide(investment, conversations);
    var leads := (if input.campaignType == Site then pageViews else conversations) * (input.conversionRate / 100.0);
    var cpl := SafeDivide(investment, leads);
    // step 5 and the single rounding point
    var salesRaw := leads * (input.saleRate / 100.0);
    var sales := Floor(salesRaw) as real;
    // financial metrics from the rounded sales
    var revenue := sales * input.ticketMedio;
    var totalInvestment := investment;
    var profit := revenue - totalInvestment;
    var roas := SafeDivide(revenue, investment);
    var roi := SafeDivide(profit, investment) * 100.0;
    var cpa := SafeDivide(investment, sales);
    CalculationOutput(
      investment, input.cpm, input.ctr, input.connectRate, input.conversationRate,
      input.conversionRate, input.saleRate, input.ticketMedio,
      impressions, clicks, pageViews, conversations, costPerConversation, leads, cpl,
      salesRaw, sales,
      revenue, totalInvestment, profit, roas, roi, cpa)
  }

  /** Impressions are what the spend buys at `cpm` per thousand; none when cpm is 0. */
  lemma ImpressionsFromSpend(input: CalculationInput)
    ensures var out := CalculateFunnelMetrics(input);
      && (input.cpm == 0.0 ==> out.impressions == 0.0)
      && (input.cpm != 0.0 ==> out.impressions * input.cpm == input.investment * 1000.0)
      && out.clicks == out.impressions * (input.ctr / 100.0)
  {
  }

  /** Site topology: clicks become page views, page views become leads. */
  lemma SiteTopology(input: CalculationInput)
    requires input.campaignType == Site
    ensures var out := CalculateFunnelMetrics(input);
      && out.pageViews == out.clicks * (input.connectRate / 100.0)
      && out.leads == out.pageViews * (input.conversionRate / 100.0)
      && out.conversations == 0.0
      && out.costPerConversation == 0.0
  {
  }

  /** WhatsApp topology: clicks become conversations, conversations become leads. */
  lemma WhatsappTopology(input: CalculationInput)
    requires input.campaignType == Whatsapp
    ensures var out := CalculateFunnelMetrics(input);
      && out.pageViews == 0.0
      && out.conversations == out.clicks * (input.conversationRate / 100.0)
      && out.leads == out.conversations * (input.conversionRate / 100.0)
      && (out.conversations == 0.0 ==> out.costPerConversation == 0.0)
      && (out.conversations != 0.0 ==> out.costPerConversation * out.conversations == input.investment)
  {
  }

  /** Cost per lead is the spend over the leads, zero-guarded. */
  lemma CostPerLead(input: CalculationInput)
    ensures var out := CalculateFunnelMetrics(input);
      && (out.leads == 0.0 ==> out.cpl == 0.0)
      && (out.leads != 0.0 ==> out.cpl * out.leads == input.investment)
  {
  }

  /** The single rounding point: sales is the floor of `leads * saleRate / 100`. */
  lemma SalesAreFlooredRawSales(input: CalculationInput)
    ensures var out := CalculateFunnelMetrics(input);
      && out.salesRaw == out.leads * (input.saleRate / 100.0)
      && out.sales == Floor(out.leads * (input.saleRate / 100.0)) as real
  {
  }

  /**
   * The financial metrics are built from the rounded sales, never from the raw
   * projection, and every ratio is zero-guarded.
   */
  lemma FinancialsUseRoundedSales(input: CalculationInput)
    ensures var out := CalculateFunnelMetrics(input);
      && out.revenue == out.sales * input.ticketMedio
      && out.profit == out.revenue - input.investment
      && out.roas == SafeDivide(out.revenue, input.investment)
      && out.roi == SafeDivide(out.profit, input.investment) * 100.0
      && (out.sales == 0.0 ==> out.cpa == 0.0)
      && (out.sales != 0.0 ==> out.cpa * out.sales == input.investment)
  {
  }

  /** A zero cpm buys nothing: the whole funnel is empty. */
  lemma ZeroCpmEmptiesFunnel(input: CalculationInput)
    requires input.cpm == 0.0
    ensures var out := CalculateFunnelMetrics(input);
      && out.impressions == 0.0 && out.clicks == 0.0
      && out.pageViews == 0.0 && out.conversations == 0.0
      && out.leads == 0.0 && out.salesRaw == 0.0 && out.sales == 0.0
      && out.revenue == 0.0 && out.cpa == 0.0
  {
  }

  /** Zero spend: every volume and every financial metric is exactly zero. */
  lemma ZeroInvestmentZeroesMetrics(input: CalculationInput)
    requires input.investment == 0.0
    ensures var out := CalculateFunnelMetrics(input);
      && out.impressions == 0.0 && out.clicks == 0.0
      && out.pageViews == 0.0 && out.conversations == 0.0 && out.costPerConversation == 0.0
      && out.leads == 0.0 && out.cpl == 0.0 && out.salesRaw == 0.0 && out.sales == 0.0
      && out.revenue == 0.0 && out.profit == 0.0
      && out.roas == 0.0 && out.roi == 0.0 && out.cpa == 0.0
  {
  }

  /** No realised sale: no revenue, no CPA, and the whole spend is lost. */
  lemma ZeroSalesLosesInvestment(input: CalculationInput)
    requires CalculateFunnelMetrics(input).sales == 0.0
    ensures var out := CalculateFunnelMetrics(input);
      && out.revenue == 0.0 && out.cpa == 0.0 && out.roas == 0.0
      && out.profit == -input.investment
      && out.roi == (if input.investment == 0.0 then 0.0 else -100.0)
  {
    FinancialsUseRoundedSales(input);
    TotalLossRoi(input.investment);
  }

  /** Losing the whole spend is an ROI of -100 percent (0 when nothing was spent). */
  lemma TotalLossRoi(investment: real)
    ensures SafeDivide(-investment, investment) * 100.0 == if investment == 0.0 then 0.0 else -100.0
  {
  }

  /** With non-negative spend and rates the projected sales are never negative. */
  lemma SalesNonNegative(input: CalculationInput)
    requires input.investment >= 0.0 && input.cpm >= 0.0 && input.ctr >= 0.0
    requires input.connectRate >= 0.0 && input.conversationRate >= 0.0
    requires input.conversionRate >= 0.0 && input.saleRate >= 0.0
    ensures CalculateFunnelMetrics(input).salesRaw >= 0.0
    ensures CalculateFunnelMetrics(input).sales >= 0.0
  {
    var out := CalculateFunnelMetrics(input);
    ImpressionsFromSpend(input);
    ProductNonNegative(input.investment, if input.cpm == 0.0 then 0.0 else 1.0 / input.cpm);
    ProductNonNegative(out.impressions, input.ctr / 100.0);
    if input.campaignType == Site {
      SiteTopology(input);
      ProductNonNegative(out.clicks, input.connectRate / 100.0);
      ProductNonNegative(out.pageViews, input.conversionRate / 100.0);
    } else {
      WhatsappTopology(input);
      ProductNonNegative(out.clicks, input.conversationRate / 100.0);
      ProductNonNegative(out.conversations, input.conversionRate / 100.0);
    }
    SalesAreFlooredRawSales(input);
    ProductNonNegative(out.leads, input.saleRate / 100.0);
  }

  lemma ProductNonNegative(a: real, b: real)
    requires a >= 0.0 && b >= 0.0
    ensures a * b >= 0.0
  {
  }
}
