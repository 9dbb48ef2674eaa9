/** The two indicative expected-return formulas: an additive rule for an
    equity and a Sharpe-weighted CAGR for a fund. */
module ExpectedReturn {
  import opened Optional
  import opened EquityMetrics

  /** Python's `x or 0` on an optional metric: an absent value counts as
      zero (a present zero is zero either way). */
  function OrZero(x: Option<real>): real {
    ValueOr(x, 0.0)
  }

  /** The equity estimate: revenue growth, plus 3 points when ROE is above
      15%, minus 2 points when debt/equity is above 1. Absent inputs count
      as zero; there is no clamping. */
  function StockExpectedReturn(metrics: Record): (r: real)
    ensures var rev := OrZero(Get(metrics, "rev_growth"));
            rev - 0.02 <= r <= rev + 0.03
  {
    var rev := OrZero(Get(metrics, "rev_growth"));
    var roe := OrZero(Get(metrics, "roe"));
    var de := OrZero(Get(metrics, "de"));
    var roeBonus := if roe > 0.15 then 0.03 else 0.0;
    var dePenalty := if de > 1.0 then 0.02 else 0.0;
    rev + roeBonus - dePenalty
  }

  /** The adjustment over revenue growth takes one of four values, each
      fixed by which of the two strict tests (ROE above 15%, debt/equity
      above 1) holds. */
  lemma StockAdjustment(metrics: Record)
    ensures var rev := OrZero(Get(metrics, "rev_growth"));
            var roe := OrZero(Get(metrics, "roe"));
            var de := OrZero(Get(metrics, "de"));
            var adj := StockExpectedReturn(metrics) - rev;
            && (adj == 0.03 <==> roe > 0.15 && de <= 1.0)
            && (adj == 0.01 <==> roe > 0.15 && de > 1.0)
            && (adj == 0.0 <==> roe <= 0.15 && de <= 1.0)
            && (adj == -0.02 <==> roe <= 0.15 && de > 1.0)
  {
  }

  /** With revenue growth, ROE and debt/equity all absent the estimate is
      zero. */
  lemma StockAllAbsent(metrics: Record)
    requires Get(metrics, "rev_growth").None?
    requires Get(metrics, "roe").None?
    requires Get(metrics, "de").None?
    ensures StockExpectedReturn(metrics) == 0.0
  {
  }

  /** A metric set where growth is 8%, ROE 20% and debt/equity 1.5 is
      estimated at 9%. */
  lemma StockExample()
    ensures StockExpectedReturn(map["rev_growth" := Some(0.08), "roe" := Some(0.20), "de" := Some(1.5)]) == 0.09
  {
  }

  function Max(a: real, b: real): real { if a >= b then a else b }
  function Min(a: real, b: real): real { if a <= b then a else b }

  /** `min(max(sharpe, 0.5), 1.2)`: the Sharpe ratio clamped to [0.5, 1.2]. */
  function SharpeAdjusted(sharpe: real): (adj: real)
    ensures 0.5 <= adj <= 1.2
    ensures 0.5 <= sharpe <= 1.2 ==> adj == sharpe
    ensures sharpe < 0.5 ==> adj == 0.5
    ensures sharpe > 1.2 ==> adj == 1.2
  {
    Min(Max(sharpe, 0.5), 1.2)
  }

  /** Clamping is idempotent and never decreases when the Sharpe ratio
      grows. */
  lemma SharpeAdjustedProperties(s: real, t: real)
    ensures SharpeAdjusted(SharpeAdjusted(s)) == SharpeAdjusted(s)
    ensures s <= t ==> SharpeAdjusted(s) <= SharpeAdjusted(t)
  {
  }

  /** The fund estimate: the 3-year CAGR scaled by the Sharpe ratio, where
      a Sharpe ratio below 0.5 counts as 0.5 and one above 1.2 as 1.2. For a
      non-negative CAGR it lies between half of it and 1.2 times it, and for
      a negative one the other way round. */
  function FundExpectedReturn(cagr3y: real, sharpe: real): (r: real)
    ensures 0.5 <= sharpe <= 1.2 ==> r == cagr3y * sharpe
    ensures sharpe < 0.5 ==> r == 0.5 * cagr3y
    ensures sharpe > 1.2 ==> r == 1.2 * cagr3y
    ensures cagr3y >= 0.0 ==> 0.5 * cagr3y <= r <= 1.2 * cagr3y
    ensures cagr3y <= 0.0 ==> 1.2 * cagr3y <= r <= 0.5 * cagr3y
  {
    var adj := SharpeAdjusted(sharpe);
    ScaleBetween(cagr3y, adj);
    cagr3y * adj
  }

  /** Multiplying by a factor in [0.5, 1.2] keeps a value between half of it
      and 1.2 times it. */
  lemma ScaleBetween(c: real, k: real)
    requires 0.5 <= k <= 1.2
    ensures c >= 0.0 ==> 0.5 * c <= c * k <= 1.2 * c
    ensures c <= 0.0 ==> 1.2 * c <= c * k <= 0.5 * c
  {
    if c >= 0.0 {
      assert c * k - 0.5 * c == c * (k - 0.5);
      assert 1.2 * c - c * k == c * (1.2 - k);
    } else {
      assert c * k - 1.2 * c == (-c) * (1.2 - k);
      assert 0.5 * c - c * k == (-c) * (k - 0.5);
    }
  }

  /** A non-negative value scaled by a larger factor is no smaller. */
  lemma ScaleGrows(c: real, a: real, b: real)
    requires c >= 0.0
    requires a <= b
    ensures c * a <= c * b
  {
    assert c * b - c * a == c * (b - a);
  }

  /** For a non-negative CAGR, a higher Sharpe ratio never lowers the fund
      estimate. */
  lemma FundExpectedReturnMonotone(cagr3y: real, s: real, t: real)
    requires cagr3y >= 0.0
    requires s <= t
    ensures FundExpectedReturn(cagr3y, s) <= FundExpectedReturn(cagr3y, t)
  {
    SharpeAdjustedProperties(s, t);
    var a, b := SharpeAdjusted(s), SharpeAdjusted(t);
    ScaleGrows(cagr3y, a, b);
    calc {
      FundExpectedReturn(cagr3y, s);
      cagr3y * a;
    <=
      cagr3y * b;
      FundExpectedReturn(cagr3y, t);
    }
  }
}
