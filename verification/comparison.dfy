/** Stock-versus-sector comparison: a direction-aware verdict per metric,
    the comparison table, and the strengths/weaknesses narrative. */
module Comparison {
  import opened Optional
  import opened Strings
  import opened EquityMetrics
  import Narrative

  /** A row's verdict; `NoVerdict` is shown as an em dash. */
  datatype Verdict = Better | Worse | NoVerdict

  /** The text the table shows for a verdict. */
  function VerdictText(v: Verdict): string {
    match v
    case Better => "Better"
    case Worse => "Worse"
    case NoVerdict => "\U{2014}"
  }

  /** The strict, direction-aware test: below the baseline for a
      lower-is-better metric, above it otherwise. */
  predicate Beats(inverse: bool, s: real, b: real) {
    if inverse then s < b else s > b
  }

  /** The verdict for one metric given the stock's and the baseline's
      values. */
  function VerdictOf(inverse: bool, s: Option<real>, b: Option<real>): Verdict {
    if s.None? || b.None? then NoVerdict
    else if Beats(inverse, s.value, b.value) then Better
    else Worse
  }

  /** A metric is comparable when both the stock and the baseline carry it. */
  predicate Comparable(d: MetricDef, stock: Record, sector: Record) {
    Get(stock, d.key).Some? && Get(sector, d.key).Some?
  }

  /** One row of the comparison table. */
  datatype Row = Row(metric: string, stock: Option<real>, sectorAvg: Option<real>,
                     interpretation: string, verdict: Verdict)

  /** The comparison table: one row per metric definition, in definition
      order, carrying the definition's label and bands unchanged, the two
      values as given, and the verdict for them. */
  function BuildComparison(defs: seq<MetricDef>, stock: Record, sector: Record): (rows: seq<Row>)
    ensures |rows| == |defs|
    ensures forall i :: 0 <= i < |defs| ==>
              && rows[i].metric == defs[i].name
              && rows[i].interpretation == defs[i].range
              && rows[i].stock == Get(stock, defs[i].key)
              && rows[i].sectorAvg == Get(sector, defs[i].key)
              && rows[i].verdict == VerdictOf(defs[i].inverse, rows[i].stock, rows[i].sectorAvg)
    decreases |defs|
  {
    if defs == [] then []
    else
      var d := defs[0];
      var s, sec := Get(stock, d.key), Get(sector, d.key);
      [Row(d.name, s, sec, d.range, VerdictOf(d.inverse, s, sec))] + BuildComparison(defs[1..], stock, sector)
  }

  /** The labels of the rows whose verdict is `v`, in row order. */
  function LabelsWith(rows: seq<Row>, v: Verdict): (labels: seq<string>)
    ensures |labels| <= |rows|
    ensures forall j :: 0 <= j < |labels| ==>
              exists i :: 0 <= i < |rows| && rows[i].metric == labels[j] && rows[i].verdict == v
    decreases |rows|
  {
    if rows == [] then []
    else
      var rest := LabelsWith(rows[1..], v);
      if rows[0].verdict == v then
        assert forall j :: 1 <= j < |rest| + 1 ==> ([rows[0].metric] + rest)[j] == rest[j - 1];
        [rows[0].metric] + rest
      else rest
  }

  /** The labels of the metric table, in order. */
  function Names(defs: seq<MetricDef>): (names: seq<string>)
    ensures |names| == |defs|
    ensures forall i :: 0 <= i < |defs| ==> names[i] == defs[i].name
  {
    seq(|defs|, i requires 0 <= i < |defs| => defs[i].name)
  }

  /** No two definitions share a label. */
  predicate DistinctNames(defs: seq<MetricDef>) {
    forall i, j :: 0 <= i < j < |defs| ==> defs[i].name != defs[j].name
  }

  /** The positives and negatives of the narrative: the labels of the
      comparable metrics that beat the baseline and of those that do not,
      each in definition order. Metrics missing on either side are skipped. */
  function Groups(defs: seq<MetricDef>, stock: Record, sector: Record): (groups: (seq<string>, seq<string>))
    decreases |defs|
  {
    if defs == [] then ([], [])
    else
      var d := defs[0];
      var rest := Groups(defs[1..], stock, sector);
      var s, sec := Get(stock, d.key), Get(sector, d.key);
      if s.None? || sec.None? then rest
      else if Beats(d.inverse, s.value, sec.value) then ([d.name] + rest.0, rest.1)
      else (rest.0, [d.name] + rest.1)
  }

  /** The narrative under "Why this stock?". */
  function WhyThisStock(defs: seq<MetricDef>, stock: Record, sector: Record): (text: string)
    ensures text == Narrative.Neutral <==>
              forall i :: 0 <= i < |defs| ==> !Comparable(defs[i], stock, sector)
  {
    var groups := Groups(defs, stock, sector);
    GroupsEmpty(defs, stock, sector);
    Narrative.Render(groups.0, groups.1)
  }

  /** Both groups are empty exactly when no metric is comparable. */
  lemma {:induction false} GroupsEmpty(defs: seq<MetricDef>, stock: Record, sector: Record)
    ensures var g := Groups(defs, stock, sector);
            g.0 == [] && g.1 == [] <==>
              forall i :: 0 <= i < |defs| ==> !Comparable(defs[i], stock, sector)
    decreases |defs|
  {
    if defs != [] {
      GroupsEmpty(defs[1..], stock, sector);
      assert forall i :: 1 <= i < |defs| ==> defs[i] == defs[1..][i - 1];
    }
  }

  /** The narrative's groups are the table's Better and Worse labels: the
      two agree on every metric, and the groups keep the table's order. */
  lemma {:induction false} GroupsFromComparison(defs: seq<MetricDef>, stock: Record, sector: Record)
    ensures Groups(defs, stock, sector) ==
              (LabelsWith(BuildComparison(defs, stock, sector), Better),
               LabelsWith(BuildComparison(defs, stock, sector), Worse))
    decreases |defs|
  {
    if defs != [] {
      GroupsFromComparison(defs[1..], stock, sector);
      var rows := BuildComparison(defs, stock, sector);
      assert rows[1..] == BuildComparison(defs[1..], stock, sector);
    }
  }

  /** Every label in a group is the label of some definition. */
  lemma {:induction false} GroupsDrawnFrom(defs: seq<MetricDef>, stock: Record, sector: Record)
    ensures var g := Groups(defs, stock, sector);
            forall x :: (x in g.0 || x in g.1) ==> x in Names(defs)
    decreases |defs|
  {
    if defs != [] {
      GroupsDrawnFrom(defs[1..], stock, sector);
      assert Names(defs) == [defs[0].name] + Names(defs[1..]);
    }
  }

  /** With distinct labels, a metric is a strength exactly when its table
      verdict is Better and a weakness exactly when it is Worse; a metric
      missing on either side is in neither group, and a comparable one is
      in exactly one. */
  lemma {:induction false} GroupMembership(defs: seq<MetricDef>, stock: Record, sector: Record, i: nat)
    requires DistinctNames(defs)
    requires i < |defs|
    ensures var g := Groups(defs, stock, sector);
            var v := BuildComparison(defs, stock, sector)[i].verdict;
            && (defs[i].name in g.0 <==> v == Better)
            && (defs[i].name in g.1 <==> v == Worse)
    decreases |defs|
  {
    var rest := Groups(defs[1..], stock, sector);
    GroupsDrawnFrom(defs[1..], stock, sector);
    assert defs[0].name !in Names(defs[1..]) by {
      forall j | 0 <= j < |defs| - 1
        ensures Names(defs[1..])[j] != defs[0].name
      {
        assert defs[1..][j] == defs[j + 1];
      }
    }
    if i > 0 {
      assert DistinctNames(defs[1..]) by {
        forall a, b | 0 <= a < b < |defs| - 1
          ensures defs[1..][a].name != defs[1..][b].name
        {
          assert defs[1..][a] == defs[a + 1] && defs[1..][b] == defs[b + 1];
        }
      }
      GroupMembership(defs[1..], stock, sector, i - 1);
      assert defs[1..][i - 1] == defs[i];
      assert defs[i].name != defs[0].name;
    }
  }

  /** The narrative reads back into exactly the table's Better labels and
      its Worse labels, in table order, provided the labels hold no comma
      or full stop. */
  lemma WhyThisStockReadsBack(defs: seq<MetricDef>, stock: Record, sector: Record)
    requires Narrative.Plain(Names(defs))
    ensures var rows := BuildComparison(defs, stock, sector);
            Narrative.Parse(WhyThisStock(defs, stock, sector)) ==
              Some((LabelsWith(rows, Better), LabelsWith(rows, Worse)))
  {
    var rows := BuildComparison(defs, stock, sector);
    GroupsFromComparison(defs, stock, sector);
    LabelsPlain(defs, rows, Better);
    LabelsPlain(defs, rows, Worse);
    Narrative.ParseRender(LabelsWith(rows, Better), LabelsWith(rows, Worse));
  }

  /** Labels picked from a table over plain labels are plain. */
  lemma LabelsPlain(defs: seq<MetricDef>, rows: seq<Row>, v: Verdict)
    requires Narrative.Plain(Names(defs))
    requires |rows| == |defs|
    requires forall i :: 0 <= i < |rows| ==> rows[i].metric == defs[i].name
    ensures Narrative.Plain(LabelsWith(rows, v))
  {
    var labels := LabelsWith(rows, v);
    forall j | 0 <= j < |labels|
      ensures ',' !in labels[j] && '.' !in labels[j]
    {
      var i :| 0 <= i < |rows| && rows[i].metric == labels[j] && rows[i].verdict == v;
      assert Names(defs)[i] == labels[j];
    }
  }

  /** The verdict rule of the table: "—" whenever either value is missing;
      otherwise Better exactly when the stock is strictly below the baseline
      for a lower-is-better metric, or strictly above it for the rest, so
      equal values are Worse. */
  lemma VerdictRule(defs: seq<MetricDef>, stock: Record, sector: Record, i: nat)
    requires i < |defs|
    ensures var row := BuildComparison(defs, stock, sector)[i];
            var s, b := Get(stock, defs[i].key), Get(sector, defs[i].key);
            && (row.verdict == NoVerdict <==> s.None? || b.None?)
            && (row.verdict == Better <==>
                  s.Some? && b.Some? &&
                  (if defs[i].inverse then s.value < b.value else s.value > b.value))
            && (s.Some? && b.Some? && s.value == b.value ==> row.verdict == Worse)
  {
  }

  /** The table shows different verdicts as different texts, so a row's
      shown verdict carries its verdict. */
  lemma VerdictTextDistinct(v: Verdict, w: Verdict)
    ensures VerdictText(v) == VerdictText(w) <==> v == w
  {
  }

  /** The verdict column as shown: an em dash exactly when a value is
      missing, "Better" exactly when the direction-aware test passes. */
  lemma ShownVerdict(defs: seq<MetricDef>, stock: Record, sector: Record, i: nat)
    requires i < |defs|
    ensures var shown := VerdictText(BuildComparison(defs, stock, sector)[i].verdict);
            && (shown == "\U{2014}" <==> !Comparable(defs[i], stock, sector))
            && (shown == "Better" <==>
                  && Comparable(defs[i], stock, sector)
                  && Beats(defs[i].inverse, Get(stock, defs[i].key).value, Get(sector, defs[i].key).value))
  {
    var v := BuildComparison(defs, stock, sector)[i].verdict;
    VerdictRule(defs, stock, sector, i);
    VerdictTextDistinct(v, NoVerdict);
    VerdictTextDistinct(v, Better);
  }

  /** Swapping the stock and the baseline is the same as flipping the
      metric's direction. */
  lemma VerdictOfDuality(inverse: bool, s: Option<real>, b: Option<real>)
    ensures VerdictOf(inverse, s, b) == VerdictOf(!inverse, b, s)
  {
  }

  /** For two present values, swapping them flips Better and Worse when
      they differ; equal values are Worse both ways round. */
  lemma VerdictOfSwap(inverse: bool, s: real, b: real)
    ensures s != b ==>
              (VerdictOf(inverse, Some(s), Some(b)) == Better <==>
               VerdictOf(inverse, Some(b), Some(s)) == Worse)
    ensures s == b ==> VerdictOf(inverse, Some(s), Some(b)) == Worse
  {
  }

  /** The table's labels, in order. */
  lemma MetricInfoNames()
    ensures Names(MetricInfo) == ["P/E Ratio", "ROE", "Operating Margin", "Revenue Growth", "Debt / Equity"]
  {
  }

  /** The table's labels are distinct and hold no comma or full stop. */
  lemma MetricInfoPlain()
    ensures Narrative.Plain(Names(MetricInfo))
    ensures DistinctNames(MetricInfo)
  {
    MetricInfoDistinct();
    MetricInfoNames();
    PlainLabels();
  }

  /** For the source's own metric table, the narrative reads back as the
      strengths and weaknesses of the comparison table: each metric is named
      as a strength exactly when its row says Better, and as a weakness
      exactly when it says Worse. */
  lemma WhyThisStockMetricInfo(stock: Record, sector: Record)
    ensures var rows := BuildComparison(MetricInfo, stock, sector);
            var parsed := Narrative.Parse(WhyThisStock(MetricInfo, stock, sector));
            && parsed.Some?
            && forall i :: 0 <= i < |MetricInfo| ==>
                 && (MetricInfo[i].name in parsed.value.0 <==> rows[i].verdict == Better)
                 && (MetricInfo[i].name in parsed.value.1 <==> rows[i].verdict == Worse)
  {
    var rows := BuildComparison(MetricInfo, stock, sector);
    MetricInfoPlain();
    WhyThisStockReadsBack(MetricInfo, stock, sector);
    GroupsFromComparison(MetricInfo, stock, sector);
    forall i | 0 <= i < |MetricInfo|
      ensures var g := Groups(MetricInfo, stock, sector);
              && (MetricInfo[i].name in g.0 <==> rows[i].verdict == Better)
              && (MetricInfo[i].name in g.1 <==> rows[i].verdict == Worse)
    {
      GroupMembership(MetricInfo, stock, sector, i);
    }
  }

  /** The five labels hold no comma or full stop. */
  lemma PlainLabels()
    ensures Narrative.Plain(["P/E Ratio", "ROE", "Operating Margin", "Revenue Growth", "Debt / Equity"])
  {
  }
}
