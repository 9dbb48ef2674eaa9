/** The equity side's metric table and the extraction of the five
    fundamental ratios from a company-info record. */
module EquityMetrics {
  import opened Optional

  /** A string-keyed record of optional numbers: the raw company-info
      record, an extracted metric set and a sector baseline alike. A key
      that is missing and a key bound to `None` read the same. */
  type Record = map<string, Option<real>>

  /** `record.get(key)`. */
  function Get(record: Record, key: string): (v: Option<real>)
    ensures v.Some? <==> key in record && record[key].Some?
    ensures v.Some? ==> v == record[key]
  {
    if key in record then record[key] else None
  }

  /** One entry of the metric table: the key into a metric set, the name
      shown to the user, whether lower values are better (`inverse`), and
      the human-readable threshold bands. */
  datatype MetricDef = MetricDef(key: string, name: string, inverse: bool, range: string)

  /** The metric table, in definition order. */
  const MetricInfo: seq<MetricDef> := [
    MetricDef("pe", "P/E Ratio", true, "<15 Cheap | 15\U{2013}25 Fair | >25 Expensive"),
    MetricDef("roe", "ROE", false, "<10% Weak | 10\U{2013}15% Avg | >15% Strong"),
    MetricDef("margin", "Operating Margin", false, "<10% Weak | 10\U{2013}20% Healthy | >20% Strong"),
    MetricDef("rev_growth", "Revenue Growth", false, "<5% Low | 5\U{2013}12% Moderate | >12% High"),
    MetricDef("de", "Debt / Equity", true, "<0.5 Safe | 0.5\U{2013}1 Acceptable | >1 Risky")
  ]

  /** Which field of the raw record each metric is read from, in the same
      order as the metric table. */
  const SourceFields: seq<(string, string)> := [
    ("pe", "trailingPE"),
    ("roe", "returnOnEquity"),
    ("margin", "operatingMargins"),
    ("rev_growth", "revenueGrowth"),
    ("de", "debtToEquity")
  ]

  /** The five ratios of a company-info record. Every metric key is present;
      each is bound to its source field's value, and to `None` exactly when
      the record lacks that field. Extraction never fails. */
  function ExtractMetrics(info: Record): (metrics: Record)
    ensures forall k :: k in metrics <==> exists i :: 0 <= i < |SourceFields| && SourceFields[i].0 == k
    ensures forall i :: 0 <= i < |SourceFields| ==>
              SourceFields[i].0 in metrics && metrics[SourceFields[i].0] == Get(info, SourceFields[i].1)
  {
    assert SourceFields[0].0 == "pe" && SourceFields[1].0 == "roe" && SourceFields[2].0 == "margin"
        && SourceFields[3].0 == "rev_growth" && SourceFields[4].0 == "de";
    map[
      "pe" := Get(info, "trailingPE"),
      "roe" := Get(info, "returnOnEquity"),
      "margin" := Get(info, "operatingMargins"),
      "rev_growth" := Get(info, "revenueGrowth"),
      "de" := Get(info, "debtToEquity")
    ]
  }

  /** The source-field table lists exactly the metric table's keys, in the
      metric table's order. */
  lemma SourceFieldsFollowMetricInfo()
    ensures |SourceFields| == |MetricInfo|
    ensures forall i :: 0 <= i < |MetricInfo| ==> SourceFields[i].0 == MetricInfo[i].key
  {
  }

  /** A metric is absent from the extraction exactly when its source field
      is missing from the record or bound to `None`. */
  lemma ExtractMetricsAbsent(info: Record, i: nat)
    requires i < |SourceFields|
    ensures ExtractMetrics(info)[SourceFields[i].0].None? <==>
              SourceFields[i].1 !in info || info[SourceFields[i].1].None?
  {
  }

  /** Only the five source fields matter: two records that agree on them
      extract to the same metric set, whatever else they hold. */
  lemma ExtractMetricsFrame(a: Record, b: Record)
    requires forall i :: 0 <= i < |SourceFields| ==>
               Get(a, SourceFields[i].1) == Get(b, SourceFields[i].1)
    ensures ExtractMetrics(a) == ExtractMetrics(b)
  {
    var ma, mb := ExtractMetrics(a), ExtractMetrics(b);
    forall k | k in ma.Keys
      ensures k in mb && ma[k] == mb[k]
    {
      var i :| 0 <= i < |SourceFields| && SourceFields[i].0 == k;
    }
    assert ma.Keys == mb.Keys;
  }

  /** Keys and display names of the metric table are pairwise distinct. */
  lemma MetricInfoDistinct()
    ensures forall i, j :: 0 <= i < j < |MetricInfo| ==> MetricInfo[i].key != MetricInfo[j].key
    ensures forall i, j :: 0 <= i < j < |MetricInfo| ==> MetricInfo[i].name != MetricInfo[j].name
  {
  }
}
