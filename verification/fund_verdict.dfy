/** The mutual-fund classifier: literal threshold bands per category,
    mapped to one of three ratings. */
module FundVerdict {
  import opened Optional

  /** The three ratings a known category can receive. */
  datatype Rating = Good | Average | Poor

  /** The text the table shows for a rating. */
  function RatingText(r: Rating): string {
    match r
    case Good => "\U{2705} Good"
    case Average => "\U{1F7E1} Average"
    case Poor => "\U{1F534} Poor"
  }

  /** Orders the ratings: a higher rank is a better rating. */
  function Rank(r: Rating): nat {
    match r
    case Good => 2
    case Average => 1
    case Poor => 0
  }

  /** The categories the classifier knows. */
  predicate IsCategory(metric: string) {
    metric in ["1Y CAGR", "3Y CAGR", "Volatility", "Sharpe Ratio", "Max Drawdown"]
  }

  /** The categories where a larger value is better: everything but
      volatility. */
  predicate HigherIsBetter(metric: string) {
    metric in ["1Y CAGR", "3Y CAGR", "Sharpe Ratio", "Max Drawdown"]
  }

  /** One end of an interval: open, closed, or absent. */
  datatype Bound = Open(at: real) | Closed(at: real) | Unbounded

  /** An interval of the real line. */
  datatype Band = Band(low: Bound, high: Bound)

  predicate InBand(band: Band, v: real) {
    && (match band.low
        case Open(x) => v > x
        case Closed(x) => v >= x
        case Unbounded => true)
    && (match band.high
        case Open(x) => v < x
        case Closed(x) => v <= x
        case Unbounded => true)
  }

  /** The threshold table: for a known category, the interval of values that
      earns each rating. CAGR: above 12% Good, 8% to 12% Average, below 8%
      Poor. Volatility: below 15% Good, 15% to 20% Average, above 20% Poor.
      Sharpe: above 1 Good, 0.5 to 1 Average, below 0.5 Poor. Drawdown:
      above -25% Good, -40% to -25% Average, below -40% Poor. */
  function BandFor(metric: string, r: Rating): Band
    requires IsCategory(metric)
  {
    if metric == "1Y CAGR" || metric == "3Y CAGR" then
      match r
      case Good => Band(Open(0.12), Unbounded)
      case Average => Band(Closed(0.08), Closed(0.12))
      case Poor => Band(Unbounded, Open(0.08))
    else if metric == "Volatility" then
      match r
      case Good => Band(Unbounded, Open(0.15))
      case Average => Band(Closed(0.15), Closed(0.20))
      case Poor => Band(Open(0.20), Unbounded)
    else if metric == "Sharpe Ratio" then
      match r
      case Good => Band(Open(1.0), Unbounded)
      case Average => Band(Closed(0.5), Closed(1.0))
      case Poor => Band(Unbounded, Open(0.5))
    else
      match r
      case Good => Band(Open(-0.25), Unbounded)
      case Average => Band(Closed(-0.40), Closed(-0.25))
      case Poor => Band(Unbounded, Open(-0.40))
  }

  /** The rating of `value` in category `metric`. A known category always
      gets exactly the rating whose band holds the value; any other category
      falls through every test and gets no rating. */
  function MfVerdict(metric: string, value: real): (r: Option<Rating>)
    ensures r.Some? <==> IsCategory(metric)
    ensures forall g: Rating :: r == Some(g) <==>
              IsCategory(metric) && InBand(BandFor(metric, g), value)
  {
    if metric in ["1Y CAGR", "3Y CAGR"] then
      if value > 0.12 then Some(Good)
      else if value >= 0.08 then Some(Average)
      else Some(Poor)
    else if metric == "Volatility" then
      if value < 0.15 then Some(Good)
      else if value <= 0.20 then Some(Average)
      else Some(Poor)
    else if metric == "Sharpe Ratio" then
      if value > 1.0 then Some(Good)
      else if value >= 0.5 then Some(Average)
      else Some(Poor)
    else if metric == "Max Drawdown" then
      if value > -0.25 then Some(Good)
      else if value >= -0.40 then Some(Average)
      else Some(Poor)
    else None
  }

  /** The three bands of a known category cover the real line without
      overlapping. */
  lemma BandsPartition(metric: string, v: real)
    requires IsCategory(metric)
    ensures exists g: Rating :: InBand(BandFor(metric, g), v)
    ensures forall g: Rating, h: Rating ::
              InBand(BandFor(metric, g), v) && InBand(BandFor(metric, h), v) ==> g == h
  {
    assert InBand(BandFor(metric, MfVerdict(metric, v).value), v);
  }

  /** Different ratings are shown as different texts, so the shown text
      carries the rating. */
  lemma RatingTextDistinct(g: Rating, h: Rating)
    ensures RatingText(g) == RatingText(h) <==> g == h
  {
  }

  /** What `mf_verdict` returns: the shown text of the rating, or `None` for
      an unknown category. */
  function MfVerdictText(metric: string, value: real): (t: Option<string>)
    ensures t.Some? <==> IsCategory(metric)
    ensures forall g: Rating :: t == Some(RatingText(g)) <==>
              IsCategory(metric) && InBand(BandFor(metric, g), value)
  {
    var r := MfVerdict(metric, value);
    if r.Some? then
      forall g: Rating ensures RatingText(g) == RatingText(r.value) <==> g == r.value {
        RatingTextDistinct(g, r.value);
      }
      Some(RatingText(r.value))
    else None
  }

  /** For CAGR, Sharpe and drawdown, a larger value never gets a worse
      rating. */
  lemma MfVerdictMonotone(metric: string, v: real, w: real)
    requires HigherIsBetter(metric)
    requires v <= w
    ensures MfVerdict(metric, v).Some? && MfVerdict(metric, w).Some?
    ensures Rank(MfVerdict(metric, v).value) <= Rank(MfVerdict(metric, w).value)
  {
  }

  /** For volatility, a smaller value never gets a worse rating. */
  lemma MfVerdictVolatilityAntitone(v: real, w: real)
    requires w <= v
    ensures MfVerdict("Volatility", v).Some? && MfVerdict("Volatility", w).Some?
    ensures Rank(MfVerdict("Volatility", v).value) <= Rank(MfVerdict("Volatility", w).value)
  {
  }

  /** Volatility of 14%, 18% and 25% rates Good, Average and Poor; an
      unknown category gets no rating. */
  lemma MfVerdictExamples()
    ensures MfVerdict("Volatility", 0.14) == Some(Good)
    ensures MfVerdict("Volatility", 0.18) == Some(Average)
    ensures MfVerdict("Volatility", 0.25) == Some(Poor)
    ensures MfVerdict("Beta", 0.5) == None
  {
  }
}
