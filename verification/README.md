# Equity & Mutual Fund Analyzer — decision core in Dafny

This project models the pure decision logic of the Streamlit app
`Stock-MF-Calc.py`, which benchmarks an Indian equity against its sector
peers and rates a mutual fund against fixed thresholds. The model covers
five parts:

- **Equity metric extraction** (`EquityMetrics`). `extract_metrics` reads the
  five ratios P/E, ROE, operating margin, revenue growth and debt/equity
  from a company-info record. The metric table `METRIC_INFO` is modelled as
  an ordered sequence of definitions.
- **Stock-vs-sector comparison** (`Comparison`). `build_comparison` gives
  every metric a verdict: Better, Worse or "—". The test is strict and
  direction-aware.
- **Strengths/weaknesses narrative** (`Comparison`, `Narrative`, `Strings`).
  `why_this_stock` splits the comparable metrics into positives and
  negatives and renders one sentence from them.
- **Mutual-fund classifier** (`FundVerdict`). `mf_verdict` maps a category and
  a value to Good, Average or Poor through literal threshold bands.
- **Indicative returns and maximum drawdown** (`ExpectedReturn`,
  `Drawdown`). These are the equity bonus/penalty rule, the
  Sharpe-clamped fund estimate, and the running-peak drawdown of a NAV
  series.

Records are modelled as `map<string, Option<real>>`. This covers the raw
info record, an extracted metric set and a sector baseline. `Get` is
Python's `dict.get`: a missing key and a key bound to `None` both read as
`None`. Numbers are exact `real`s. The comparison functions take the metric
table as a parameter; `Comparison.WhyThisStockMetricInfo` applies the
general results to `MetricInfo`, the table written in the source.

Where the code adds no guard, the model adds none either:

- An unrecognised category in `mf_verdict` falls through and yields no
  rating (`None`). It is not a fatal error.
- The fund's expected return is always computed from whatever CAGR and
  Sharpe values it is given.

## Model

| member | source | states |
|---|---|---|
| EquityMetrics.ExtractMetrics | Stock-MF-Calc.py:110-117 | The result has exactly the keys pe, roe, margin, rev_growth and de. Each is bound to the value of its fixed source field (trailingPE, returnOnEquity, operatingMargins, revenueGrowth, debtToEquity) as listed in the field table, whose first components are exactly the result's keys. There is no precondition, so extraction never fails. |
| EquityMetrics.ExtractMetricsAbsent | Stock-MF-Calc.py:110-117 | A metric is absent exactly when its source field is missing from the record or bound to None. |
| EquityMetrics.ExtractMetricsFrame | Stock-MF-Calc.py:110-117 | Two records that agree on the five source fields extract to the same metric set; no other field matters. |
| EquityMetrics.SourceFieldsFollowMetricInfo | Stock-MF-Calc.py:32-58 | The extracted keys are exactly the metric table's keys, in the table's order. |
| EquityMetrics.MetricInfoDistinct | Stock-MF-Calc.py:32-58 | The metric table's keys are pairwise distinct, and so are its labels. |
| Comparison.BuildComparison | Stock-MF-Calc.py:133-150 | There is one row per metric definition, in definition order. Each row copies the definition's label and range, carries the stock and sector values as given, and holds the verdict for them. |
| Comparison.VerdictRule | Stock-MF-Calc.py:137-141 | A row's verdict is "—" exactly when the stock or the sector value is missing. Otherwise it is Better exactly when the stock is strictly below the baseline (pe, de) or strictly above it (the rest). Equal values are Worse. |
| Comparison.ShownVerdict | Stock-MF-Calc.py:136-141 | The verdict column as shown reads "—" exactly when the stock or the sector value is missing, and "Better" exactly when both are present and the direction-aware strict test passes. |
| Comparison.VerdictTextDistinct | Stock-MF-Calc.py:138-141 | The three shown verdicts "Better", "Worse" and "—" are distinct, so the text determines the verdict. |
| Comparison.VerdictOfDuality | Stock-MF-Calc.py:137-141 | Swapping the stock and the baseline gives the same verdict as flipping the metric's direction (`inverse`). |
| Comparison.VerdictOfSwap | Stock-MF-Calc.py:140-141 | For two distinct present values, exchanging them turns Better into Worse and back. Equal values are Worse both ways round, because the test is strict. |
| Comparison.GroupsFromComparison | Stock-MF-Calc.py:153-160 | The positives are exactly the table's Better labels, and the negatives exactly its Worse labels, both in table order. |
| Comparison.GroupMembership | Stock-MF-Calc.py:155-160 | With distinct labels, a metric is a strength iff its table verdict is Better and a weakness iff it is Worse. A metric missing on either side is in neither group; a comparable one is in exactly one. |
| Comparison.GroupsEmpty | Stock-MF-Calc.py:154-162 | Both groups are empty exactly when no metric has both a stock and a sector value. |
| Comparison.WhyThisStock | Stock-MF-Calc.py:153-170 | The narrative is the neutral sentence exactly when no metric is comparable. |
| Comparison.WhyThisStockReadsBack | Stock-MF-Calc.py:153-170 | Parsing the narrative gives back the table's Better labels and Worse labels, in order, whenever the labels hold no comma or full stop. |
| Comparison.WhyThisStockMetricInfo | Stock-MF-Calc.py:153-170 | For the source's metric table and any stock and sector records, the narrative always reads back, and it names a metric as a strength exactly when its table row says Better and as a weakness exactly when it says Worse. |
| Comparison.MetricInfoNames | Stock-MF-Calc.py:32-58 | The table's labels in order are P/E Ratio, ROE, Operating Margin, Revenue Growth and Debt / Equity. |
| Comparison.MetricInfoPlain | Stock-MF-Calc.py:32-58 | The table's labels are distinct and hold no comma or full stop, so the narrative over them reads back unambiguously. |
| Narrative.Render | Stock-MF-Calc.py:162-170 | The text is the neutral sentence iff both groups are empty. |
| Narrative.ParseRender | Stock-MF-Calc.py:165-170 | Parsing the rendered text returns exactly the two groups that went in, in order. The reader accepts only "Strengths: a, b." and/or "Weaknesses: c.", strengths first, with every later item behind ", ", so this shows that is the shape of the text and that nothing is lost. |
| Narrative.ParseRejectsBareComma | Stock-MF-Calc.py:165-170 | "Strengths: a,b." is not read as a rendered sentence: items cut by a comma without the following blank are rejected. |
| Strings.SplitListJoin | Stock-MF-Calc.py:167 | Reading a ", "-joined list of comma-free items gives back exactly those items. |
| Strings.UnblankedMeaning | Stock-MF-Calc.py:167 | Every piece after a comma must start with the blank of ", ": the reader accepts exactly the pieces that all do, and each accepted piece is that blank followed by its item. |
| Strings.SplitListNeedsBlank | Stock-MF-Calc.py:167 | The list reader rejects "a,b", whose second item lacks the blank that ", " puts before it. |
| FundVerdict.MfVerdict | Stock-MF-Calc.py:239-270 | A rating exists iff the category is one of the five known ones. A known category gets a rating g iff the value lies in g's band of the threshold table: CAGR above 0.12, then [0.08, 0.12], then below; volatility below 0.15, then [0.15, 0.20], then above; Sharpe above 1, then [0.5, 1], then below; drawdown above -0.25, then [-0.40, -0.25], then below. |
| FundVerdict.MfVerdictText | Stock-MF-Calc.py:239-270 | The returned text exists iff the category is known, and it is the shown text of rating g ("✅ Good", "🟡 Average", "🔴 Poor") iff the value lies in g's band. |
| FundVerdict.RatingTextDistinct | Stock-MF-Calc.py:242-246 | The three shown ratings are distinct texts, so the text determines the rating. |
| FundVerdict.BandsPartition | Stock-MF-Calc.py:239-270 | For each known category, the three bands cover every value and never overlap. |
| FundVerdict.MfVerdictMonotone | Stock-MF-Calc.py:239-270 | For CAGR, Sharpe and drawdown, a larger value never gets a worse rating. |
| FundVerdict.MfVerdictVolatilityAntitone | Stock-MF-Calc.py:248-254 | For volatility, a smaller value never gets a worse rating. |
| FundVerdict.MfVerdictExamples | Stock-MF-Calc.py:248-254 | Volatility 0.14, 0.18 and 0.25 rate Good, Average and Poor. An unknown category gets no rating. |
| ExpectedReturn.StockExpectedReturn | Stock-MF-Calc.py:210-217 | The estimate always lies in [rev - 0.02, rev + 0.03], where an absent revenue growth counts as 0. There is no clamping. |
| ExpectedReturn.StockAdjustment | Stock-MF-Calc.py:214-217 | The estimate minus revenue growth is 0.03, 0.01, 0 or -0.02. Each value holds exactly for one combination of the two strict tests, ROE > 0.15 and D/E > 1, with absent values counting as 0. |
| ExpectedReturn.StockAllAbsent | Stock-MF-Calc.py:210-217 | With revenue growth, ROE and D/E all absent, the estimate is 0. |
| ExpectedReturn.StockExample | Stock-MF-Calc.py:210-217 | Growth 0.08, ROE 0.20 and D/E 1.5 give exactly 0.09. |
| ExpectedReturn.SharpeAdjusted | Stock-MF-Calc.py:300 | The clamped factor lies in [0.5, 1.2]. It equals the Sharpe ratio when that is already in range, and is 0.5 below the range and 1.2 above it. |
| ExpectedReturn.SharpeAdjustedProperties | Stock-MF-Calc.py:300 | Clamping is idempotent and monotone. |
| ExpectedReturn.FundExpectedReturn | Stock-MF-Calc.py:300-301 | The estimate is the 3Y CAGR times the Sharpe ratio when that lies in [0.5, 1.2], half the CAGR when the Sharpe ratio is below 0.5, and 1.2 times the CAGR when it is above 1.2. Hence for a CAGR of at least 0 it lies between 0.5 and 1.2 times the CAGR, and for a CAGR of at most 0 the bounds are reversed. |
| ExpectedReturn.FundExpectedReturnMonotone | Stock-MF-Calc.py:300-301 | For a 3Y CAGR of at least 0, a higher Sharpe ratio never lowers the estimate. |
| Drawdown.RunningMax | Stock-MF-Calc.py:297 | The cumulative maximum at position i is at least every price up to i, and equals one of them. |
| Drawdown.MinDrawdown | Stock-MF-Calc.py:297 | The minimum over the first n positions is at most the drawdown at each of them. |
| Drawdown.MinDrawdownAttained | Stock-MF-Calc.py:297 | That minimum is the drawdown at one of the positions. |
| Drawdown.MaxDrawdown | Stock-MF-Calc.py:297 | A drawdown exists iff the series is non-empty, and it is never positive. |
| Drawdown.ComputeMaxDrawdown | Stock-MF-Calc.py:297 | A single pass that keeps the running peak and the worst drawdown so far returns exactly the reference maximum drawdown. |
| Drawdown.MaxDrawdownAboveMinusOne | Stock-MF-Calc.py:297 | For positive prices the maximum drawdown is greater than -1. |
| Drawdown.NonDecreasingMeansZero | Stock-MF-Calc.py:297 | A series that never falls has a maximum drawdown of 0. |
| Drawdown.MaxDrawdownZeroIff | Stock-MF-Calc.py:297 | The maximum drawdown is 0 exactly when the series is non-decreasing. |
| Drawdown.MaxDrawdownExample | Stock-MF-Calc.py:297 | The series 100, 120, 90, 95, 150, 100 has a maximum drawdown of exactly -1/3. |

## Left out

- Page setup, widgets, tables, charts, captions and percentage formatting (lines 10-24, 172-209, 218-226, 303-353): these are presentation only.
- `get_stock_data`, `sector_averages`, the MFAPI request and `@st.cache_data`: these are network I/O and caching. The sector baseline is an input record. The NaN-skipping pandas mean over peers belongs to `sector_averages` and is left out with it.
- `SECTOR_PEERS`: this is static configuration. It is used in the membership test at line 195 that decides whether a comparison is shown, and to pick the peer tickers whose averages become the sector baseline at line 196. Here the baseline is an input record.
- The unguarded Sharpe ratio (line 296): a zero volatility gives an infinity or NaN there, which exact reals cannot represent. The Sharpe ratio is an unconstrained real input.
- NaN in `mf_verdict`: every comparison with NaN is false, so NaN falls through to Poor. NaN is not modelled.
- NAV payload decoding, day-first date parsing, `astype(float)`, sorting and `pct_change` (lines 280-287): these are library parsing calls.
- The 1-year and 3-year CAGR, with their calendar windows and the cube root (lines 289-293): the windowing is calendar arithmetic and the root is irrational. The 3Y CAGR is an input to `FundExpectedReturn`.
- Volatility (`std` times the square root of 252) and the Sharpe ratio (lines 295-296): these are irrational floating-point numerics. The Sharpe ratio is an input to the fund estimate and to the classifier.
- IEEE floating point: values are exact reals, so rounding near the literal thresholds and NaN comparisons are not modelled. Missing data is `None`.
- Drawdown.MaxDrawdown: requires a positive first price. This rules out a non-positive first NAV and with it a zero running peak, the only case in which the division gives an infinity or NaN. Series starting at a negative NAV, whose drawdowns can be finite, are excluded as well.
- Comparison.BuildComparison: returns a sequence of rows rather than a pandas DataFrame. The row fields match the DataFrame's columns.
