/** The deal metrics shown on each property card: annual rent, NOI, DSCR, LTV
    and cash-on-cash, computed over exact reals. */
module Metrics {
  import opened Wrappers

  /** A guarded ratio: `NA` is the card's 'N/A', shown when the ratio's
      denominator is not positive. */
  datatype Metric = NA | Val(value: real)

  /** The numeric fields of a property, each already through `parseFloat`:
      `None` is `NaN` (missing, empty or not a number). */
  datatype DealInputs = DealInputs(
    squareFeet: Option<real>,
    baseRentPerSqft: Option<real>,
    monthlyRent: Option<real>,
    purchasePrice: Option<real>,
    equityInvested: Option<real>,
    debtServicePerMonth: Option<real>)

  datatype DealMetrics = DealMetrics(noi: real, dscr: Metric, ltv: Metric, coc: Metric, annualRent: real)

  /** JavaScript truthiness of a parsed number: `NaN` and `0` are falsy. */
  predicate Truthy(x: Option<real>) {
    x.Some? && x.value != 0.0
  }

  /** A parsed field read with a fallback: the fallback replaces the field
      when it is not a number and also when it reads 0. */
  function OrElse(x: Option<real>, fallback: real): (r: real)
    ensures x == None || x == Some(0.0) ==> r == fallback
    ensures x != None && x != Some(0.0) ==> r == x.value
  {
    if Truthy(x) then x.value else fallback
  }

  /** The figure a field contributes when its fallback is 0. */
  function Num(x: Option<real>): (r: real)
    ensures r == 0.0 <==> !Truthy(x)
    ensures Truthy(x) ==> r == x.value
  {
    OrElse(x, 0.0)
  }

  /** Monthly rent: the entered figure, or base rent per square foot times
      square feet when none was entered. */
  function MonthlyRent(d: DealInputs): real {
    OrElse(d.monthlyRent, Num(d.baseRentPerSqft) * Num(d.squareFeet))
  }

  function AnnualDebtService(d: DealInputs): real {
    Num(d.debtServicePerMonth) * 12.0
  }

  /** The metrics from the four defaulted figures: monthly rent, purchase
      price, equity invested and monthly debt service. */
  function Derive(monthlyRent: real, pp: real, ei: real, monthlyDS: real): (m: DealMetrics)
    ensures m.annualRent == 12.0 * monthlyRent
    ensures m.noi == m.annualRent
    ensures m.dscr.NA? <==> monthlyDS <= 0.0
    ensures m.ltv.NA? <==> pp <= 0.0
    ensures m.coc.NA? <==> ei <= 0.0
  {
    var annualRent := monthlyRent * 12.0;
    var annualDS := monthlyDS * 12.0;
    var noi := annualRent - 0.0;
    DealMetrics(
      noi := noi,
      dscr := if annualDS > 0.0 then Val(noi / annualDS) else NA,
      ltv := if pp > 0.0 then Val((pp - ei) / pp * 100.0) else NA,
      coc := if ei > 0.0 then Val((noi - annualDS) / ei * 100.0) else NA,
      annualRent := annualRent)
  }

  /** `calculateMetrics`, as written: NOI is gross annual rent (a triple-net
      lease, no expenses are deducted); each ratio is `NA` exactly when its
      denominator is not positive. */
  function Calculate(d: DealInputs): (m: DealMetrics)
    ensures m.annualRent == 12.0 * MonthlyRent(d)
    ensures m.noi == m.annualRent
    ensures m.dscr.NA? <==> Num(d.debtServicePerMonth) <= 0.0
    ensures m.ltv.NA? <==> Num(d.purchasePrice) <= 0.0
    ensures m.coc.NA? <==> Num(d.equityInvested) <= 0.0
  {
    Derive(MonthlyRent(d), Num(d.purchasePrice), Num(d.equityInvested), Num(d.debtServicePerMonth))
  }

  /** The monthly rent the form's label implies: the rate field is labelled
      per square foot per year, so rate times area is a yearly rent and the
      fallback month is a twelfth of it. */
  function IntendedMonthlyRent(d: DealInputs): (r: real)
    ensures Truthy(d.monthlyRent) ==> r == d.monthlyRent.value
    ensures !Truthy(d.monthlyRent) ==> 12.0 * r == Num(d.baseRentPerSqft) * Num(d.squareFeet)
  {
    OrElse(d.monthlyRent, Num(d.baseRentPerSqft) * Num(d.squareFeet) / 12.0)
  }

  /** The metrics with the rent fallback the label implies. An entered monthly
      rent gives the same metrics as `Calculate`; without one, the annual rent
      is the labelled yearly rent, rate times area. */
  function CalculateAsLabelled(d: DealInputs): (m: DealMetrics)
    ensures Truthy(d.monthlyRent) ==> m == Calculate(d)
    ensures !Truthy(d.monthlyRent) ==> m.annualRent == Num(d.baseRentPerSqft) * Num(d.squareFeet)
    ensures m.noi == m.annualRent
    ensures m.dscr.NA? <==> Num(d.debtServicePerMonth) <= 0.0
    ensures m.ltv.NA? <==> Num(d.purchasePrice) <= 0.0
    ensures m.coc.NA? <==> Num(d.equityInvested) <= 0.0
  {
    Derive(IntendedMonthlyRent(d), Num(d.purchasePrice), Num(d.equityInvested), Num(d.debtServicePerMonth))
  }

  /** As written, the rate-times-area fallback is taken as a monthly rent, so
      without an entered monthly rent the annual rent shown is twelve times
      the yearly rent the label describes. */
  lemma FallbackRentIsTwelveFold(d: DealInputs)
    requires !Truthy(d.monthlyRent)
    ensures Calculate(d).annualRent == 12.0 * CalculateAsLabelled(d).annualRent
  {
  }

  /** 1,000 sq ft at a labelled $12 per sq ft per year, no monthly rent: the
      card shows $144,000 a year where the label implies $12,000. */
  lemma YearlyRateShownTwelveFold()
    ensures Calculate(DealInputs(Some(1000.0), Some(12.0), None, None, None, None)).annualRent == 144000.0
    ensures CalculateAsLabelled(DealInputs(Some(1000.0), Some(12.0), None, None, None, None)).annualRent == 12000.0
  {
  }

  /** A blank form (every field `NaN`) has no rent and no ratios. */
  lemma BlankInputs()
    ensures Calculate(DealInputs(None, None, None, None, None, None)) == DealMetrics(0.0, NA, NA, NA, 0.0)
  {
  }

  /** The metrics depend on the inputs only through the defaulted figures:
      monthly rent (with its rate-times-area fallback), price, equity and debt
      service. */
  lemma SameFiguresSameMetrics(d1: DealInputs, d2: DealInputs)
    requires MonthlyRent(d1) == MonthlyRent(d2)
    requires Num(d1.purchasePrice) == Num(d2.purchasePrice)
    requires Num(d1.equityInvested) == Num(d2.equityInvested)
    requires Num(d1.debtServicePerMonth) == Num(d2.debtServicePerMonth)
    ensures Calculate(d1) == Calculate(d2)
  {
  }

  /** A missing or unparsable rent field and one reading 0 give the same
      metrics: the zero default cannot tell them apart. */
  lemma FalsyRentFieldIsZero(d: DealInputs, x: Option<real>)
    requires !Truthy(x)
    ensures Calculate(d.(squareFeet := x)) == Calculate(d.(squareFeet := Some(0.0)))
    ensures Calculate(d.(baseRentPerSqft := x)) == Calculate(d.(baseRentPerSqft := Some(0.0)))
    ensures Calculate(d.(monthlyRent := x)) == Calculate(d.(monthlyRent := Some(0.0)))
  {
    assert Calculate(d.(squareFeet := x)) == Calculate(d.(squareFeet := Some(0.0))) by {
      SameFiguresSameMetrics(d.(squareFeet := x), d.(squareFeet := Some(0.0)));
    }
    assert Calculate(d.(baseRentPerSqft := x)) == Calculate(d.(baseRentPerSqft := Some(0.0))) by {
      SameFiguresSameMetrics(d.(baseRentPerSqft := x), d.(baseRentPerSqft := Some(0.0)));
    }
    assert Calculate(d.(monthlyRent := x)) == Calculate(d.(monthlyRent := Some(0.0))) by {
      SameFiguresSameMetrics(d.(monthlyRent := x), d.(monthlyRent := Some(0.0)));
    }
  }

  /** A missing or unparsable price, equity or debt-service field and one
      reading 0 give the same metrics. */
  lemma FalsyFinanceFieldIsZero(d: DealInputs, x: Option<real>)
    requires !Truthy(x)
    ensures Calculate(d.(purchasePrice := x)) == Calculate(d.(purchasePrice := Some(0.0)))
    ensures Calculate(d.(equityInvested := x)) == Calculate(d.(equityInvested := Some(0.0)))
    ensures Calculate(d.(debtServicePerMonth := x)) == Calculate(d.(debtServicePerMonth := Some(0.0)))
  {
    assert Calculate(d.(purchasePrice := x)) == Calculate(d.(purchasePrice := Some(0.0))) by {
      SameFiguresSameMetrics(d.(purchasePrice := x), d.(purchasePrice := Some(0.0)));
    }
    assert Calculate(d.(equityInvested := x)) == Calculate(d.(equityInvested := Some(0.0))) by {
      SameFiguresSameMetrics(d.(equityInvested := x), d.(equityInvested := Some(0.0)));
    }
    assert Calculate(d.(debtServicePerMonth := x)) == Calculate(d.(debtServicePerMonth := Some(0.0))) by {
      SameFiguresSameMetrics(d.(debtServicePerMonth := x), d.(debtServicePerMonth := Some(0.0)));
    }
  }

  /** A falsy square-footage or rate field zeroes the fallback rent: without
      an entered monthly rent the annual rent and NOI are then 0. */
  lemma FalsyRentInputsGiveNoRent(d: DealInputs)
    requires !Truthy(d.monthlyRent)
    requires !Truthy(d.squareFeet) || !Truthy(d.baseRentPerSqft)
    ensures Calculate(d).annualRent == 0.0 && Calculate(d).noi == 0.0
  {
  }

  /** The annual rent is twelve months of the entered monthly rent when one
      was entered (non-zero), and of rate times area otherwise. */
  lemma AnnualRentSource(d: DealInputs)
    ensures Truthy(d.monthlyRent) ==> Calculate(d).annualRent == 12.0 * d.monthlyRent.value
    ensures !Truthy(d.monthlyRent) ==>
      Calculate(d).annualRent == 12.0 * Num(d.baseRentPerSqft) * Num(d.squareFeet)
  {
  }

  /** DSCR recovers NOI from the annual debt service: NOI = DSCR x annual debt
      service. */
  lemma DscrCoversDebtService(d: DealInputs)
    requires Num(d.debtServicePerMonth) > 0.0
    ensures Calculate(d).dscr.value * AnnualDebtService(d) == Calculate(d).noi
  {
  }

  /** LTV recovers the equity from the price: equity = price x (100 - LTV) / 100.
      In particular no equity means 100 and equity equal to the price means 0. */
  lemma LtvRecoversEquity(d: DealInputs)
    requires Num(d.purchasePrice) > 0.0
    ensures Num(d.purchasePrice) * (100.0 - Calculate(d).ltv.value) / 100.0 == Num(d.equityInvested)
    ensures Num(d.equityInvested) == 0.0 ==> Calculate(d).ltv == Val(100.0)
    ensures Num(d.equityInvested) == Num(d.purchasePrice) ==> Calculate(d).ltv == Val(0.0)
  {
  }

  /** LTV lies in [0, 100] exactly when the equity lies between 0 and the price. */
  lemma LtvInRangeIffEquityInRange(d: DealInputs)
    requires Num(d.purchasePrice) > 0.0
    ensures 0.0 <= Calculate(d).ltv.value <= 100.0 <==>
      0.0 <= Num(d.equityInvested) <= Num(d.purchasePrice)
  {
  }

  /** Cash-on-cash recovers the annual cash flow: NOI - annual debt service =
      cash-on-cash x equity / 100. With no debt service it is NOI / equity x 100. */
  lemma CashOnCashRecoversCashFlow(d: DealInputs)
    requires Num(d.equityInvested) > 0.0
    ensures Calculate(d).coc.value * Num(d.equityInvested) / 100.0 == Calculate(d).noi - AnnualDebtService(d)
    ensures Num(d.debtServicePerMonth) == 0.0 ==>
      Calculate(d).coc == Val(Calculate(d).noi / Num(d.equityInvested) * 100.0)
  {
  }

  /** When both ratios are shown, the debt is covered (DSCR above 1) exactly
      when the cash-on-cash return is positive. */
  lemma CoverageIffPositiveCashOnCash(d: DealInputs)
    requires Num(d.debtServicePerMonth) > 0.0 && Num(d.equityInvested) > 0.0
    ensures Calculate(d).dscr.value > 1.0 <==> Calculate(d).coc.value > 0.0
  {
    var noi, annualDS, ei := Calculate(d).noi, AnnualDebtService(d), Num(d.equityInvested);
    QuotientAboveOne(noi, annualDS);
    QuotientPositive(noi - annualDS, ei);
  }

  /** For a positive divisor, the quotient exceeds 1 exactly when the dividend
      exceeds the divisor. */
  lemma QuotientAboveOne(n: real, a: real)
    requires a > 0.0
    ensures n / a > 1.0 <==> n > a
  {
  }

  /** For a positive divisor, a percentage quotient is positive exactly when
      the dividend is. */
  lemma QuotientPositive(n: real, e: real)
    requires e > 0.0
    ensures n / e * 100.0 > 0.0 <==> n > 0.0
  {
  }

  /** A worked deal: 100,000 sq ft at $1.00 with no monthly rent entered,
      $10,000,000 price, $3,000,000 equity, $35,000 a month of debt service. */
  lemma ExampleDeal()
    ensures Calculate(DealInputs(Some(100000.0), Some(1.0), None, Some(10000000.0), Some(3000000.0), Some(35000.0)))
      == DealMetrics(1200000.0, Val(20.0 / 7.0), Val(70.0), Val(26.0), 1200000.0)
  {
  }
}
