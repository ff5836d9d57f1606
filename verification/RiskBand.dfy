/** Financial ratios rounded half-up to two places, and the risk band they select. */
module RiskBand {
  import opened Common

  datatype Financials = Financials(
    revenue: real, ebitda: real, totalDebt: real, equity: real, currentAssets: real, currentLiabilities: real)

  /** What the request contract demands of a snapshot. */
  predicate Valid(f: Financials) {
    f.revenue >= 0.0 && f.totalDebt >= 0.0 && f.equity > 0.0 && f.currentAssets >= 0.0 && f.currentLiabilities > 0.0
  }

  /** Hundredths, ties away from zero. */
  function Hundredths(x: real): int {
    if x >= 0.0 then (x * 100.0 + 0.5).Floor else -((-x * 100.0 + 0.5).Floor)
  }

  function Ratio(numerator: real, denominator: real): Option<real> {
    if denominator == 0.0 then None else Some(Hundredths(numerator / denominator) as real / 100.0)
  }

  datatype Band = Low | Medium | High

  datatype Metrics = Metrics(
    ebitdaMargin: Option<real>, debtToEbitda: Option<real>, debtToEquity: Option<real>,
    currentRatio: Option<real>, requestedAmountToRevenue: Option<real>, riskBand: Band)

  function CalculateMetrics(f: Financials, requestedAmount: real): Metrics {
    var debtToEbitda := Ratio(f.totalDebt, f.ebitda);
    var debtToEquity := Ratio(f.totalDebt, f.equity);
    var currentRatio := Ratio(f.currentAssets, f.currentLiabilities);
    var hardRisk := f.ebitda <= 0.0 || (currentRatio.Some? && currentRatio.value < 0.8);
    var elevatedRisk :=
      || debtToEbitda.None?
      || debtToEbitda.value > 4.0
      || (debtToEquity.Some? && debtToEquity.value > 3.0);
    Metrics(
      Ratio(f.ebitda, f.revenue), debtToEbitda, debtToEquity, currentRatio, Ratio(requestedAmount, f.revenue),
      if hardRisk then High else if elevatedRisk then Medium else Low)
  }

  /** A rounded ratio lies within half a hundredth of the exact one, and a tie is rounded up. */
  lemma {:induction false} HundredthsBounds(x: real)
    requires x >= 0.0
    ensures var c := Hundredths(x) as real; c - 0.5 <= x * 100.0 < c + 0.5
  {
  }

  /** Nothing where there is nothing to divide by; otherwise whole hundredths, and none nearer to the quotient. */
  ghost predicate Rounds(ratio: Option<real>, numerator: real, denominator: real) {
    && (ratio.None? <==> denominator == 0.0)
    && (ratio.Some? && denominator != 0.0 ==>
        && (ratio.value * 100.0).Floor as real == ratio.value * 100.0
        && Distance(ratio.value, numerator / denominator) <= 0.005)
  }

  lemma {:induction false} RatioRounds(numerator: real, denominator: real)
    ensures Rounds(Ratio(numerator, denominator), numerator, denominator)
  {
    if denominator != 0.0 {
      var x := numerator / denominator;
      var c := Hundredths(x) as real;
      assert c - 0.5 <= x * 100.0 <= c + 0.5;
      assert c / 100.0 * 100.0 == c;
    }
  }

  /** Each of the five ratios is that of the figures it is named for. */
  lemma {:induction false} RatiosExactly(f: Financials, requestedAmount: real)
    ensures var m := CalculateMetrics(f, requestedAmount);
      && Rounds(m.ebitdaMargin, f.ebitda, f.revenue) && Rounds(m.requestedAmountToRevenue, requestedAmount, f.revenue)
      && Rounds(m.debtToEbitda, f.totalDebt, f.ebitda) && Rounds(m.debtToEquity, f.totalDebt, f.equity)
      && Rounds(m.currentRatio, f.currentAssets, f.currentLiabilities)
  {
    RatioRounds(f.ebitda, f.revenue);
    RatioRounds(requestedAmount, f.revenue);
    RatioRounds(f.totalDebt, f.ebitda);
    RatioRounds(f.totalDebt, f.equity);
    RatioRounds(f.currentAssets, f.currentLiabilities);
  }

  /**
   The thresholds that rounding really puts on the exact quotients: 0.795, 4.005 and 3.005
   instead of the written 0.8, 4 and 3.
   */
  lemma {:induction false} ExactThresholds(f: Financials, requestedAmount: real)
    requires Valid(f)
    ensures var band := CalculateMetrics(f, requestedAmount).riskBand;
      && (band == High <==> f.ebitda <= 0.0 || f.currentAssets / f.currentLiabilities < 0.795)
      && (band == Low <==>
          && f.ebitda > 0.0
          && f.currentAssets / f.currentLiabilities >= 0.795
          && f.totalDebt / f.ebitda < 4.005
          && f.totalDebt / f.equity < 3.005)
  {
    QuotientNonNegative(f.currentAssets, f.currentLiabilities);
    HundredthsBounds(f.currentAssets / f.currentLiabilities);
    QuotientNonNegative(f.totalDebt, f.equity);
    HundredthsBounds(f.totalDebt / f.equity);
    if f.ebitda > 0.0 {
      QuotientNonNegative(f.totalDebt, f.ebitda);
      HundredthsBounds(f.totalDebt / f.ebitda);
    }
  }

  lemma {:induction false} QuotientNonNegative(n: real, d: real)
    requires n >= 0.0 && d > 0.0
    ensures n / d >= 0.0
  {
  }

  lemma {:induction false} QuotientMonotone(n: real, d: real, m: real, e: real)
    requires 0.0 <= n <= m && d >= e > 0.0
    ensures n / d <= m / e
  {
    var q, r := n / d, m / e;
    QuotientNonNegative(m, e);
    assert q * d == n && r * e == m;
    if q > r {
      ProductMonotone(r, e, d);
      ProductStrict(r, q, d);
    }
  }

  lemma {:induction false} ProductMonotone(r: real, e: real, d: real)
    requires r >= 0.0 && e <= d
    ensures r * e <= r * d
  {
  }

  lemma {:induction false} ProductStrict(r: real, q: real, d: real)
    requires r < q && d > 0.0
    ensures r * d < q * d
  {
  }

  function Severity(b: Band): nat {
    match b case Low => 0 case Medium => 1 case High => 2
  }

  /** `g` is at least as indebted and at most as strong as `f`. */
  predicate NoStronger(g: Financials, f: Financials) {
    && g.totalDebt >= f.totalDebt && g.currentLiabilities >= f.currentLiabilities
    && g.ebitda <= f.ebitda && g.equity <= f.equity && g.currentAssets <= f.currentAssets
  }

  /** Weaker figures never give a better band; revenue and the requested amount never matter. */
  lemma {:induction false} BandMonotone(f: Financials, g: Financials, a: real, b: real)
    requires Valid(f) && Valid(g) && NoStronger(g, f)
    ensures Severity(CalculateMetrics(f, a).riskBand) <= Severity(CalculateMetrics(g, b).riskBand)
  {
    ExactThresholds(f, a);
    ExactThresholds(g, b);
    QuotientMonotone(g.currentAssets, g.currentLiabilities, f.currentAssets, f.currentLiabilities);
    QuotientMonotone(f.totalDebt, f.equity, g.totalDebt, g.equity);
    if g.ebitda > 0.0 {
      QuotientMonotone(f.totalDebt, f.ebitda, g.totalDebt, g.ebitda);
    }
  }
}
