/**
 * The consistency validator: re-derives the relationships of any metrics
 * record (engine output or a corrupted one) and reports every violation as a
 * typed error with expected and actual values, plus two kinds of warning.
 */
module Validator {
  import opened Types

  /** The absolute comparison tolerance: one cent. */
  const Epsilon: real := 0.01

  function Abs(x: real): (r: real)
  {
    if x < 0.0 then -x else x
  }

  /** Approximate equality: the two values lie strictly closer than one cent. */
  function AreEqual(a: real, b: real): (eq: bool)
    ensures eq <==> a - Epsilon < b < a + Epsilon
  {
    Abs(a - b) < Epsilon
  }

  /** Number.isInteger on an exact real. */
  predicate IsInteger(x: real)
  {
    x.Floor as real == x
  }

  /** Position of each error code in the order in which the rules check them. */
  function Rank(c: ErrorCode): (rank: nat)
  {
    match c
    case RevenueInconsistency => 0
    case RoasInconsistency => 1
    case CpaInconsistency => 2
    case CpaInvalidZeroSales => 3
    case FractionalSales => 4
    case ProfitInconsistency => 5
    case RoiInconsistency => 6
  }

  /** The values the rules re-derive from the other fields of the record. */
  function ExpectedRevenue(o: CalculationOutput): (r: real)
  {
    o.sales * o.ticketMedio
  }

  function ExpectedRoas(o: CalculationOutput): (r: real)
    requires o.investment > 0.0
  {
    o.revenue / o.investment
  }

  function ExpectedCpa(o: CalculationOutput): (r: real)
    requires o.sales > 0.0
  {
    o.investment / o.sales
  }

  function ExpectedProfit(o: CalculationOutput): (r: real)
  {
    o.revenue - o.investment
  }

  function ExpectedRoi(o: CalculationOutput): (r: real)
    requires o.investment > 0.0
  {
    (o.profit / o.investment) * 100.0
  }

  /** Rule 1: revenue equals sales times the average ticket. */
  function RevenueRule(o: CalculationOutput): (errs: seq<ValidationError>)
  {
    if AreEqual(o.revenue, ExpectedRevenue(o)) then []
    else [ValidationError(RevenueInconsistency, ExpectedRevenue(o), o.revenue)]
  }

  /** Rule 2: with positive spend, ROAS equals revenue over investment. */
  function RoasRule(o: CalculationOutput): (errs: seq<ValidationError>)
  {
    if o.investment > 0.0 && !AreEqual(o.roas, ExpectedRoas(o))
    then [ValidationError(RoasInconsistency, ExpectedRoas(o), o.roas)]
    else []
  }

  /** Rule 3, first half: with positive sales, CPA equals investment over sales. */
  function CpaRule(o: CalculationOutput): (errs: seq<ValidationError>)
  {
    if o.sales > 0.0 && !AreEqual(o.cpa, ExpectedCpa(o))
    then [ValidationError(CpaInconsistency, ExpectedCpa(o), o.cpa)]
    else []
  }

  /** Rule 3, second half: without positive sales, CPA is exactly zero (no tolerance). */
  function CpaZeroSalesRule(o: CalculationOutput): (errs: seq<ValidationError>)
  {
    if !(o.sales > 0.0) && o.cpa != 0.0
    then [ValidationError(CpaInvalidZeroSales, 0.0, o.cpa)]
    else []
  }

  /** Rule 4: sales is a whole number; the expected value is its floor. */
  function FractionalSalesRule(o: CalculationOutput): (errs: seq<ValidationError>)
  {
    if IsInteger(o.sales) then []
    else [ValidationError(FractionalSales, o.sales.Floor as real, o.sales)]
  }

  /** Rule 5: profit equals revenue minus investment. */
  function ProfitRule(o: CalculationOutput): (errs: seq<ValidationError>)
  {
    if AreEqual(o.profit, ExpectedProfit(o)) then []
    else [ValidationError(ProfitInconsistency, ExpectedProfit(o), o.profit)]
  }

  /** Rule 6: with positive spend, ROI is profit over investment, in percent. */
  function RoiRule(o: CalculationOutput): (errs: seq<ValidationError>)
  {
    if o.investment > 0.0 && !AreEqual(o.roi, ExpectedRoi(o))
    then [ValidationError(RoiInconsistency, ExpectedRoi(o), o.roi)]
    else []
  }

  /**
   * The errors of record `o`: every rule is evaluated, whatever the earlier
   * ones found, and appends its reports after theirs.
   */
  function Errors(o: CalculationOutput): (errs: seq<ValidationError>)
  {
    RevenueRule(o) + RoasRule(o) + CpaRule(o) + CpaZeroSalesRule(o)
    + FractionalSalesRule(o) + ProfitRule(o) + RoiRule(o)
  }

  /** An error with code `c` is among the errors of `o`. */
  predicate Reported(o: CalculationOutput, c: ErrorCode)
  {
    exists e :: e in Errors(o) && e.code == c
  }

  /** When each warning is raised. */
  predicate Warns(o: CalculationOutput, w: WarningCode)
  {
    match w
    case SignificantRounding => o.salesRaw > 0.0 && o.salesRaw - o.sales >= 0.5
    case ZeroSalesWithLeads => o.sales == 0.0 && o.investment > 0.0 && o.leads > 0.0
  }

  /** The warnings of record `o`, rounding loss first. */
  function Warnings(o: CalculationOutput): (warns: seq<WarningCode>)
  {
    (if Warns(o, SignificantRounding) then [SignificantRounding] else [])
    + (if Warns(o, ZeroSalesWithLeads) then [ZeroSalesWithLeads] else [])
  }

  /** The validation result: valid exactly when no error was found. */
  function Validation(o: CalculationOutput): (result: ValidationResult)
  {
    ValidationResult(Errors(o) == [], Errors(o), Warnings(o))
  }

  /**
   * validateCalculation: checks each rule in turn, appending to the error and
   * warning lists, and never fails.
   */
  method ValidateCalculation(o: CalculationOutput) returns (result: ValidationResult)
    ensures result == Validation(o)
    ensures result.isValid <==> result.errors == []
  {
    var errors: seq<ValidationError> := [];
    var warnings: seq<WarningCode> := [];
    // rule 1: revenue == sales * ticket
    var expectedRevenue := ExpectedRevenue(o);
    if !AreEqual(o.revenue, expectedRevenue) {
      errors := errors + [ValidationError(RevenueInconsistency, expectedRevenue, o.revenue)];
    }
    assert errors == RevenueRule(o);

    // rule 2: roas == revenue / investment, when there is spend
    ghost var before := errors;
    if o.investment > 0.0 {
      var expectedRoas := ExpectedRoas(o);
      if !AreEqual(o.roas, expectedRoas) {
        errors := errors + [ValidationError(RoasInconsistency, expectedRoas, o.roas)];
      }
    }
    assert errors == before + RoasRule(o);

    before := errors;
    // rule 3: cpa == investment / sales when there are sales, else exactly 0
    if o.sales > 0.0 {
      var expectedCpa := ExpectedCpa(o);
      if !AreEqual(o.cpa, expectedCpa) {
        errors := errors + [ValidationError(CpaInconsistency, expectedCpa, o.cpa)];
      }
    } else if o.cpa != 0.0 {
      errors := errors + [ValidationError(CpaInvalidZeroSales, 0.0, o.cpa)];
    }
    assert errors == before + CpaRule(o) + CpaZeroSalesRule(o);

    before := errors;
    // rule 4: sales is a whole number
    if !IsInteger(o.sales) {
      errors := errors + [ValidationError(FractionalSales, o.sales.Floor as real, o.sales)];
    }
    assert errors == before + FractionalSalesRule(o);

    before := errors;
    // rule 5: profit == revenue - investment
    var expectedProfit := ExpectedProfit(o);
    if !AreEqual(o.profit, expectedProfit) {
      errors := errors + [ValidationError(ProfitInconsistency, expectedProfit, o.profit)];
    }
    assert errors == before + ProfitRule(o);

    before := errors;
    // rule 6: roi == profit / investment * 100, when there is spend
    if o.investment > 0.0 {
      var expectedRoi := ExpectedRoi(o);
      if !AreEqual(o.roi, expectedRoi) {
        errors := errors + [ValidationError(RoiInconsistency, expectedRoi, o.roi)];
      }
    }
    assert errors == before + RoiRule(o);

    // warning: conservative rounding discarded at least half a sale
    if o.salesRaw > 0.0 {
      var roundingLoss := o.salesRaw - o.sales;
      if roundingLoss >= 0.5 {
        warnings := warnings + [SignificantRounding];
      }
    }
    assert warnings == if Warns(o, SignificantRounding) then [SignificantRounding] else [];

    // warning: leads but no realised sale
    if o.sales == 0.0 && o.investment > 0.0 && o.leads > 0.0 {
      warnings := warnings + [ZeroSalesWithLeads];
    }

    assert warnings == Warnings(o);
    assert errors == Errors(o);
    result := ValidationResult(|errors| == 0, errors, warnings);
  }

  /** The outcome of the fail-fast wrapper: it passes, or fails with the errors. */
  datatype AssertOutcome = Passed | Failed(errors: seq<ValidationError>)

  /** assertValidCalculation: fails exactly when the record is not valid. */
  method AssertValidCalculation(o: CalculationOutput) returns (outcome: AssertOutcome)
    ensures outcome.Failed? <==> !Validation(o).isValid
    ensures outcome.Failed? ==> outcome.errors == Errors(o) && outcome.errors != []
  {
    var result := ValidateCalculation(o);
    if !result.isValid {
      outcome := Failed(result.errors);
    } else {
      outcome := Passed;
    }
  }

  // ---------------------------------------------------------------------
  // Which errors a record gets, stated code by code
  // ---------------------------------------------------------------------

  /**
   * When the relationship checked for code `c` is broken, stated with the
   * tolerance written out: a derived value off by a cent or more, a nonzero
   * CPA without sales, a fractional sales count.
   */
  predicate Violates(o: CalculationOutput, c: ErrorCode)
  {
    match c
    case RevenueInconsistency => Abs(o.revenue - ExpectedRevenue(o)) >= Epsilon
    case RoasInconsistency => o.investment > 0.0 && Abs(o.roas - ExpectedRoas(o)) >= Epsilon
    case CpaInconsistency => o.sales > 0.0 && Abs(o.cpa - ExpectedCpa(o)) >= Epsilon
    case CpaInvalidZeroSales => o.sales <= 0.0 && o.cpa != 0.0
    case FractionalSales => o.sales.Floor as real != o.sales
    case ProfitInconsistency => Abs(o.profit - ExpectedProfit(o)) >= Epsilon
    case RoiInconsistency => o.investment > 0.0 && Abs(o.roi - ExpectedRoi(o)) >= Epsilon
  }

  /** The error reported for a violated code: its re-derived and its recorded value. */
  function ErrorFor(o: CalculationOutput, c: ErrorCode): ValidationError
    requires Violates(o, c)
  {
    match c
    case RevenueInconsistency => ValidationError(c, ExpectedRevenue(o), o.revenue)
    case RoasInconsistency => ValidationError(c, ExpectedRoas(o), o.roas)
    case CpaInconsistency => ValidationError(c, ExpectedCpa(o), o.cpa)
    case CpaInvalidZeroSales => ValidationError(c, 0.0, o.cpa)
    case FractionalSales => ValidationError(c, o.sales.Floor as real, o.sales)
    case ProfitInconsistency => ValidationError(c, ExpectedProfit(o), o.profit)
    case RoiInconsistency => ValidationError(c, ExpectedRoi(o), o.roi)
  }

  /**
   * `errors` holds, for each code of `codes` whose relationship is broken, the
   * error for it, and nothing else.
   */
  ghost predicate ReportsExactly(o: CalculationOutput, errors: seq<ValidationError>, codes: set<ErrorCode>)
  {
    forall e :: e in errors <==> e.code in codes && Violates(o, e.code) && e == ErrorFor(o, e.code)
  }

  /** Each rule reports exactly the violations of its own code. */
  lemma RulesReportTheirViolations(o: CalculationOutput)
    ensures ReportsExactly(o, RevenueRule(o), {RevenueInconsistency})
    ensures ReportsExactly(o, RoasRule(o), {RoasInconsistency})
    ensures ReportsExactly(o, CpaRule(o), {CpaInconsistency})
    ensures ReportsExactly(o, CpaZeroSalesRule(o), {CpaInvalidZeroSales})
    ensures ReportsExactly(o, FractionalSalesRule(o), {FractionalSales})
    ensures ReportsExactly(o, ProfitRule(o), {ProfitInconsistency})
    ensures ReportsExactly(o, RoiRule(o), {RoiInconsistency})
  {
  }

  lemma {:induction false} ReportsExactlyAppend(
    o: CalculationOutput, a: seq<ValidationError>, codesA: set<ErrorCode>,
    b: seq<ValidationError>, codesB: set<ErrorCode>)
    requires ReportsExactly(o, a, codesA) && ReportsExactly(o, b, codesB)
    ensures ReportsExactly(o, a + b, codesA + codesB)
  {
    forall e
      ensures e in a + b <==> e.code in codesA + codesB && Violates(o, e.code) && e == ErrorFor(o, e.code)
    {
      assert e in a + b <==> e in a || e in b;
    }
  }

  /**
   * The characterisation of validateCalculation: an error is reported exactly when its
   * relationship is broken, and it then carries the re-derived value as
   * `expected` and the recorded value as `actual`.
   */
  lemma ErrorsAreExactlyTheViolations(o: CalculationOutput, e: ValidationError)
    ensures e in Errors(o) <==> Violates(o, e.code) && e == ErrorFor(o, e.code)
  {
    RulesReportTheirViolations(o);
    var codes: set<ErrorCode> := {RevenueInconsistency};
    ReportsExactlyAppend(o, RevenueRule(o), codes, RoasRule(o), {RoasInconsistency});
    codes := codes + {RoasInconsistency};
    var errors := RevenueRule(o) + RoasRule(o);
    ReportsExactlyAppend(o, errors, codes, CpaRule(o), {CpaInconsistency});
    codes := codes + {CpaInconsistency};
    errors := errors + CpaRule(o);
    ReportsExactlyAppend(o, errors, codes, CpaZeroSalesRule(o), {CpaInvalidZeroSales});
    codes := codes + {CpaInvalidZeroSales};
    errors := errors + CpaZeroSalesRule(o);
    ReportsExactlyAppend(o, errors, codes, FractionalSalesRule(o), {FractionalSales});
    codes := codes + {FractionalSales};
    errors := errors + FractionalSalesRule(o);
    ReportsExactlyAppend(o, errors, codes, ProfitRule(o), {ProfitInconsistency});
    codes := codes + {ProfitInconsistency};
    errors := errors + ProfitRule(o);
    ReportsExactlyAppend(o, errors, codes, RoiRule(o), {RoiInconsistency});
    codes := codes + {RoiInconsistency};
    errors := errors + RoiRule(o);
    assert errors == Errors(o);
    assert e.code in codes by { EveryCodeIsChecked(e.code); }
  }

  lemma EveryCodeIsChecked(c: ErrorCode)
    ensures c in {RevenueInconsistency, RoasInconsistency, CpaInconsistency, CpaInvalidZeroSales,
                  FractionalSales, ProfitInconsistency, RoiInconsistency}
  {
  }

  /** Each code is reported exactly when its relationship is broken. */
  lemma ReportedExactlyWhenViolated(o: CalculationOutput, c: ErrorCode)
    ensures Reported(o, c) <==> Violates(o, c)
  {
    if Violates(o, c) {
      ErrorsAreExactlyTheViolations(o, ErrorFor(o, c));
    }
    forall e | e in Errors(o) && e.code == c
      ensures Violates(o, c)
    {
      ErrorsAreExactlyTheViolations(o, e);
    }
  }

  /** Errors listed in strictly increasing rule order. */
  predicate InRuleOrder(errors: seq<ValidationError>)
  {
    forall i, j :: 0 <= i < j < |errors| ==> Rank(errors[i].code) < Rank(errors[j].code)
  }

  /** Appending at most one error of a later code keeps the list in rule order. */
  lemma {:induction false} AppendKeepsRuleOrder(prefix: seq<ValidationError>, last: seq<ValidationError>, r: nat)
    requires InRuleOrder(prefix) && forall e :: e in prefix ==> Rank(e.code) < r
    requires |last| <= 1 && forall e :: e in last ==> Rank(e.code) == r
    ensures InRuleOrder(prefix + last)
    ensures forall e :: e in prefix + last ==> Rank(e.code) <= r
  {
    forall i, j | 0 <= i < j < |prefix + last|
      ensures Rank((prefix + last)[i].code) < Rank((prefix + last)[j].code)
    {
      if j >= |prefix| {
        assert (prefix + last)[i] in prefix && (prefix + last)[j] in last;
      }
    }
  }

  /** At most one of the two CPA rules reports, depending on the sign of sales. */
  lemma CpaRulesExclusive(o: CalculationOutput)
    ensures CpaRule(o) == [] || CpaZeroSalesRule(o) == []
    ensures o.sales > 0.0 ==> CpaZeroSalesRule(o) == []
    ensures o.sales <= 0.0 ==> CpaRule(o) == []
  {
  }

  /**
   * Every rule is evaluated: the errors come in rule order, so no code is
   * reported twice and there are at most six of them.
   */
  lemma ErrorsInRuleOrder(o: CalculationOutput)
    ensures |Errors(o)| <= 6
    ensures InRuleOrder(Errors(o))
    ensures forall i, j :: 0 <= i < j < |Errors(o)| ==> Errors(o)[i].code != Errors(o)[j].code
  {
    var errors := RevenueRule(o);
    assert InRuleOrder(errors);
    AppendKeepsRuleOrder(errors, RoasRule(o), 1);
    errors := errors + RoasRule(o);
    AppendKeepsRuleOrder(errors, CpaRule(o), 2);
    errors := errors + CpaRule(o);
    AppendKeepsRuleOrder(errors, CpaZeroSalesRule(o), 3);
    errors := errors + CpaZeroSalesRule(o);
    AppendKeepsRuleOrder(errors, FractionalSalesRule(o), 4);
    errors := errors + FractionalSalesRule(o);
    AppendKeepsRuleOrder(errors, ProfitRule(o), 5);
    errors := errors + ProfitRule(o);
    AppendKeepsRuleOrder(errors, RoiRule(o), 6);
    errors := errors + RoiRule(o);
    assert errors == Errors(o);
    CpaRulesExclusive(o);
  }

  /** Without positive spend the ROAS and ROI rules never fire. */
  lemma RatioRulesNeedSpend(o: CalculationOutput)
    requires o.investment <= 0.0
    ensures !Reported(o, RoasInconsistency) && !Reported(o, RoiInconsistency)
  {
    ReportedExactlyWhenViolated(o, RoasInconsistency);
    ReportedExactlyWhenViolated(o, RoiInconsistency);
  }

  /** The two CPA codes are never reported together. */
  lemma CpaCodesExclusive(o: CalculationOutput)
    ensures !(Reported(o, CpaInconsistency) && Reported(o, CpaInvalidZeroSales))
    ensures o.sales > 0.0 ==> !Reported(o, CpaInvalidZeroSales)
    ensures o.sales <= 0.0 ==> !Reported(o, CpaInconsistency)
  {
    ReportedExactlyWhenViolated(o, CpaInconsistency);
    ReportedExactlyWhenViolated(o, CpaInvalidZeroSales);
  }

  /** A record is valid exactly when none of the relationships is broken. */
  lemma ValidExactlyWithoutViolations(o: CalculationOutput)
    ensures Validation(o).isValid <==> forall c :: !Violates(o, c)
  {
    if !Validation(o).isValid {
      ErrorsAreExactlyTheViolations(o, Errors(o)[0]);
    }
    forall c | Violates(o, c)
      ensures !Validation(o).isValid
    {
      ErrorsAreExactlyTheViolations(o, ErrorFor(o, c));
    }
  }

  /** Each warning is present exactly when its condition holds, rounding loss first. */
  lemma WarningsExactlyWhenRaised(o: CalculationOutput, w: WarningCode)
    ensures w in Validation(o).warnings <==> Warns(o, w)
    ensures |Validation(o).warnings| <= 2
    ensures Validation(o).warnings == [ZeroSalesWithLeads] || Validation(o).warnings == [SignificantRounding]
      || Validation(o).warnings == [SignificantRounding, ZeroSalesWithLeads] || Validation(o).warnings == []
  {
  }

  /**
   * A record whose relationships hold exactly: what the engine's master
   * formulas promise about its own output.
   */
  predicate Consistent(o: CalculationOutput)
  {
    && o.revenue == ExpectedRevenue(o)
    && o.profit == ExpectedProfit(o)
    && (o.investment > 0.0 ==> o.roas == ExpectedRoas(o) && o.roi == ExpectedRoi(o))
    && (o.sales > 0.0 ==> o.cpa == ExpectedCpa(o))
    && (o.sales <= 0.0 ==> o.cpa == 0.0)
    && IsInteger(o.sales)
  }

  /** An exactly consistent record raises no error, whatever its warnings. */
  lemma ConsistentRecordsValidate(o: CalculationOutput)
    requires Consistent(o)
    ensures Errors(o) == [] && Validation(o).isValid
  {
    assert RevenueRule(o) == [] && ProfitRule(o) == [];
    assert RoasRule(o) == [] && RoiRule(o) == [];
    assert CpaRule(o) == [] && CpaZeroSalesRule(o) == [];
  }

  /** The errors depend on eight fields only: spend, ticket, sales and the five financial results. */
  lemma ErrorsReadOnlyCheckedFields(o: CalculationOutput, o': CalculationOutput)
    requires o'.investment == o.investment && o'.ticketMedio == o.ticketMedio && o'.sales == o.sales
    requires o'.revenue == o.revenue && o'.profit == o.profit
    requires o'.roas == o.roas && o'.roi == o.roi && o'.cpa == o.cpa
    ensures Errors(o') == Errors(o)
  {
    assert RevenueRule(o') == RevenueRule(o) by {
      assert ExpectedRevenue(o') == ExpectedRevenue(o);
    }
    assert ProfitRule(o') == ProfitRule(o) by {
      assert ExpectedProfit(o') == ExpectedProfit(o);
    }
    assert RoasRule(o') == RoasRule(o);
    assert CpaRule(o') == CpaRule(o);
    assert RoiRule(o') == RoiRule(o);
  }

  /**
   * Warnings never affect validity: the fields only the warnings read (the raw
   * sales projection and the leads) can change without changing any error.
   */
  lemma ErrorsIgnoreWarningFields(o: CalculationOutput, salesRaw: real, leads: real)
    ensures Validation(o.(salesRaw := salesRaw, leads := leads)).errors == Validation(o).errors
    ensures Validation(o.(salesRaw := salesRaw, leads := leads)).isValid == Validation(o).isValid
  {
    ErrorsReadOnlyCheckedFields(o, o.(salesRaw := salesRaw, leads := leads));
  }
}
