/**
 * Records exchanged by the funnel engine and the consistency validator.
 * Every number of the TypeScript implementation is a double; here it is an exact `real`.
 */
module Types {

  /** The two mutually exclusive funnel topologies. */
  datatype CampaignType = Site | Whatsapp

  /** Campaign parameters: a topology tag and eight numbers (rates are percentages). */
  datatype CalculationInput = CalculationInput(
    campaignType: CampaignType,
    investment: real,
    ticketMedio: real,
    cpm: real,
    ctr: real,
    connectRate: real,       // site: clicks -> page views
    conversationRate: real,  // whatsapp: clicks -> conversations
    conversionRate: real,    // page views or conversations -> leads
    saleRate: real)          // leads -> sales

  /**
   * The complete metrics record: the eight numeric inputs passed through and
   * fifteen derived fields. `sales` is a `real` because the validator must be
   * able to inspect records whose sales are fractional.
   */
  datatype CalculationOutput = CalculationOutput(
    investment: real,
    cpm: real,
    ctr: real,
    connectRate: real,
    conversationRate: real,
    conversionRate: real,
    saleRate: real,
    ticketMedio: real,
    impressions: real,
    clicks: real,
    pageViews: real,
    conversations: real,
    costPerConversation: real,
    leads: real,
    cpl: real,
    salesRaw: real,
    sales: real,
    revenue: real,
    totalInvestment: real,
    profit: real,
    roas: real,
    roi: real,
    cpa: real)

  /** The stable error codes of the validator. */
  datatype ErrorCode =
    | RevenueInconsistency
    | RoasInconsistency
    | CpaInconsistency
    | CpaInvalidZeroSales
    | FractionalSales
    | ProfitInconsistency
    | RoiInconsistency

  /** A consistency violation with the re-derived and the recorded value. */
  datatype ValidationError = ValidationError(code: ErrorCode, expected: real, actual: real)

  /** The two informational warnings. */
  datatype WarningCode = SignificantRounding | ZeroSalesWithLeads

  datatype ValidationResult = ValidationResult(
    isValid: bool,
    errors: seq<ValidationError>,
    warnings: seq<WarningCode>)
}
