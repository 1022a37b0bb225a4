/** The metric line chart: one line per configured rating metric, shown or
    hidden by the set of active metrics, plus a dashed line through the
    per-point average of the active metrics. */
module MetricChart {
  import opened Maybe
  import opened Scales

  /** A review's date (parsed, in milliseconds) and its rating metrics. */
  datatype DataPoint = DataPoint(date: int, ratingMetrics: map<string, real>)

  /** A point projected onto the configured metrics; a metric the review
      lacks is `undefined`, i.e. None. */
  datatype ParsedDataPoint = ParsedDataPoint(date: int, metrics: map<string, Option<real>>)

  datatype Margin = Margin(top: real, right: real, bottom: real, left: real)

  datatype Config = Config(margin: Margin, width: real, height: real, metrics: seq<string>)

  /** Reading a key of a JavaScript object: `undefined` when it is absent. */
  function Lookup<V>(m: map<string, V>, key: string): Option<V>
  {
    if key in m then Some(m[key]) else None
  }

  /** The value of a metric at a parsed point (`d.metrics[metric]`). */
  function MetricValue(p: ParsedDataPoint, metric: string): Option<real>
  {
    if metric in p.metrics then p.metrics[metric] else None
  }

  /** `parseData`: each point keeps its date and position and gets exactly
      the configured metrics, copied from its rating metrics or undefined. */
  function ParseData(data: seq<DataPoint>, metrics: seq<string>): (r: seq<ParsedDataPoint>)
    ensures |r| == |data|
    ensures forall i :: 0 <= i < |data| ==>
      && r[i].date == data[i].date
      && (forall m :: m in r[i].metrics <==> m in metrics)
      && (forall m :: m in metrics ==> MetricValue(r[i], m) == Lookup(data[i].ratingMetrics, m))
  {
    seq(|data|, i requires 0 <= i < |data| =>
      ParsedDataPoint(data[i].date, map m | m in metrics :: Lookup(data[i].ratingMetrics, m)))
  }

  /** d3.max over values that may be undefined: the largest defined one,
      None when there is none. */
  function MaxDefined(xs: seq<Option<real>>): (r: Option<real>)
    ensures r.None? <==> forall k :: 0 <= k < |xs| ==> xs[k].None?
    ensures r.Some? ==> r in xs
    ensures r.Some? ==> forall k :: 0 <= k < |xs| && xs[k].Some? ==> xs[k].value <= r.value
  {
    if xs == [] then None
    else
      var init := xs[..|xs| - 1];
      var last := xs[|xs| - 1];
      var m := MaxDefined(init);
      assert forall k :: 0 <= k < |init| ==> init[k] == xs[k];
      if last.None? then m
      else if m.None? || last.value > m.value then last
      else m
  }

  /** The values of the given metrics at a point. */
  function MetricValues(p: ParsedDataPoint, metrics: seq<string>): (r: seq<Option<real>>)
    ensures |r| == |metrics| && forall k :: 0 <= k < |metrics| ==> r[k] == MetricValue(p, metrics[k])
  {
    seq(|metrics|, k requires 0 <= k < |metrics| => MetricValue(p, metrics[k]))
  }

  /** The largest defined metric value at a point is undefined exactly when
      every metric is, bounds every defined one, and is one of them. */
  lemma PointMax(p: ParsedDataPoint, metrics: seq<string>)
    ensures var pm := MaxDefined(MetricValues(p, metrics));
      && (pm.None? <==> forall m :: m in metrics ==> MetricValue(p, m).None?)
      && (forall m :: m in metrics && MetricValue(p, m).Some? ==> pm.Some? && MetricValue(p, m).value <= pm.value)
      && (pm.Some? ==> exists m :: m in metrics && MetricValue(p, m) == pm)
  {
    var vs := MetricValues(p, metrics);
    var pm := MaxDefined(vs);
    forall m | m in metrics
      ensures MetricValue(p, m) in vs
    {
      var k :| 0 <= k < |metrics| && metrics[k] == m;
      assert vs[k] == MetricValue(p, m);
    }
    if pm.Some? {
      var k :| 0 <= k < |vs| && vs[k] == pm;
      assert metrics[k] in metrics && MetricValue(p, metrics[k]) == pm;
    }
  }

  /** The largest defined metric value at each point. */
  function PointMaxima(points: seq<ParsedDataPoint>, metrics: seq<string>): (r: seq<Option<real>>)
    ensures |r| == |points|
    ensures forall i :: 0 <= i < |points| ==> r[i] == MaxDefined(MetricValues(points[i], metrics))
  {
    seq(|points|, i requires 0 <= i < |points| => MaxDefined(MetricValues(points[i], metrics)))
  }

  /** The top of the y domain: the max over points of the max over metrics. */
  function MaxMetric(points: seq<ParsedDataPoint>, metrics: seq<string>): (r: Option<real>)
    ensures r.None? <==> forall i, m :: 0 <= i < |points| && m in metrics ==> MetricValue(points[i], m).None?
    ensures r.Some? ==> forall i, m :: 0 <= i < |points| && m in metrics && MetricValue(points[i], m).Some? ==>
      MetricValue(points[i], m).value <= r.value
    ensures r.Some? ==> exists i, m :: 0 <= i < |points| && m in metrics && MetricValue(points[i], m) == r
  {
    var per := PointMaxima(points, metrics);
    forall i | 0 <= i < |points|
      ensures && (per[i].None? <==> forall m :: m in metrics ==> MetricValue(points[i], m).None?)
              && (forall m :: m in metrics && MetricValue(points[i], m).Some? ==>
                    per[i].Some? && MetricValue(points[i], m).value <= per[i].value)
              && (per[i].Some? ==> exists m :: m in metrics && MetricValue(points[i], m) == per[i])
    {
      PointMax(points[i], metrics);
    }
    MaxDefined(per)
  }

  /** The x scale of `createScales`: from the earliest to the latest date
      onto [0, width]; undefined when there are no points. */
  function XScale(points: seq<ParsedDataPoint>, width: real): (r: Option<Linear>)
    ensures r.None? <==> points == []
  {
    if points == [] then None
    else
      var dates := seq(|points|, i requires 0 <= i < |points| => points[i].date as real);
      Some(Linear(Min(dates), Max(dates), 0.0, width))
  }

  /** The x domain runs from the earliest date to the latest and the x
      range is [0, width]. */
  lemma XScaleExtent(points: seq<ParsedDataPoint>, width: real)
    requires points != []
    ensures var r := XScale(points, width).value;
      && r.r0 == 0.0 && r.r1 == width
      && (forall i :: 0 <= i < |points| ==> r.d0 <= points[i].date as real <= r.d1)
      && (exists i :: 0 <= i < |points| && points[i].date as real == r.d0)
      && (exists i :: 0 <= i < |points| && points[i].date as real == r.d1)
  {
    var dates := seq(|points|, i requires 0 <= i < |points| => points[i].date as real);
    assert forall i :: 0 <= i < |points| ==> dates[i] == points[i].date as real;
  }

  /** The y scale of `createScales`: from 0 to the largest metric value
      onto [height, 0]; undefined when no metric value is defined. */
  function YScale(points: seq<ParsedDataPoint>, metrics: seq<string>, height: real): (r: Option<Linear>)
  {
    match MaxMetric(points, metrics)
    case None => None
    case Some(top) => Some(Linear(0.0, top, height, 0.0))
  }

  /** The y scale is undefined exactly when no metric has a value; otherwise
      its domain runs from 0 to the largest value, which some metric takes,
      and its range is [height, 0]. */
  lemma YScaleExtent(points: seq<ParsedDataPoint>, metrics: seq<string>, height: real)
    ensures var r := YScale(points, metrics, height);
      && (r.None? <==> forall i, m :: 0 <= i < |points| && m in metrics ==> MetricValue(points[i], m).None?)
      && (r.Some? ==>
          && r.value.d0 == 0.0 && r.value.r0 == height && r.value.r1 == 0.0
          && (forall i, m :: 0 <= i < |points| && m in metrics && MetricValue(points[i], m).Some? ==>
                MetricValue(points[i], m).value <= r.value.d1)
          && (exists i, m :: 0 <= i < |points| && m in metrics && MetricValue(points[i], m) == Some(r.value.d1)))
  {
  }

  /** A point on a plotted line; an undefined y pixel is NaN, i.e. None. */
  datatype PlotPoint = PlotPoint(px: real, py: Option<real>)

  function PixelY(y: Option<Linear>, v: Option<real>): Option<real>
  {
    if y.Some? && v.Some? then Some(Apply(y.value, v.value)) else None
  }

  /** Everything drawn inside the chart's translated group. */
  datatype PlotItem =
    | XAxis(x: Linear)
    | YAxis(y: Option<Linear>)
    | MetricLine(metric: string, index: nat, points: seq<PlotPoint>, displayed: bool)
    | AverageLine(points: seq<PlotPoint>)

  /** A legend entry; `active` picks its opacity and text colour. */
  datatype LegendRow = LegendRow(metric: string, index: nat, active: bool)

  /** The svg's children: the group translated by the margins, and the legend. */
  datatype ChartNode =
    | Plot(left: real, top: real, items: seq<PlotItem>)
    | Legend(rows: seq<LegendRow>)

  /** The line of one metric through every point. */
  function MetricPoints(points: seq<ParsedDataPoint>, x: Linear, y: Option<Linear>, metric: string): seq<PlotPoint>
  {
    seq(|points|, i requires 0 <= i < |points| =>
      PlotPoint(Apply(x, points[i].date as real), PixelY(y, MetricValue(points[i], metric))))
  }

  /** What `drawLines` draws: one path per configured metric, in
      configuration order, displayed exactly when the metric is active;
      inactive metrics are hidden, not left out. */
  function MetricLines(points: seq<ParsedDataPoint>, x: Linear, y: Option<Linear>,
                       metrics: seq<string>, active: seq<string>): (r: seq<PlotItem>)
    ensures |r| == |metrics|
    ensures forall i :: 0 <= i < |metrics| ==>
      r[i].MetricLine? && r[i].metric == metrics[i] && r[i].index == i
      && (r[i].displayed <==> metrics[i] in active)
  {
    seq(|metrics|, i requires 0 <= i < |metrics| =>
      MetricLine(metrics[i], i, MetricPoints(points, x, y, metrics[i]), metrics[i] in active))
  }

  /** `drawLines`: the `metrics.forEach` loop appending the paths. */
  method DrawLines(points: seq<ParsedDataPoint>, x: Linear, y: Option<Linear>,
                   metrics: seq<string>, active: seq<string>) returns (paths: seq<PlotItem>)
    ensures paths == MetricLines(points, x, y, metrics, active)
  {
    paths := [];
    for i := 0 to |metrics|
      invariant paths == MetricLines(points, x, y, metrics[..i], active)
    {
      paths := paths + [MetricLine(metrics[i], i, MetricPoints(points, x, y, metrics[i]), metrics[i] in active)];
      assert metrics[..i + 1][..i] == metrics[..i];
    }
    assert metrics[..|metrics|] == metrics;
  }

  /** `activeValues.reduce((sum, value) => sum + value, 0)`: undefined
      anywhere makes the sum NaN. */
  function Sum(xs: seq<Option<real>>): (r: Option<real>)
    ensures r.Some? <==> forall k :: 0 <= k < |xs| ==> xs[k].Some?
  {
    if xs == [] then Some(0.0)
    else
      var init := xs[..|xs| - 1];
      assert forall k :: 0 <= k < |init| ==> init[k] == xs[k];
      match (Sum(init), xs[|xs| - 1])
      case (Some(s), Some(v)) => Some(s + v)
      case _ => None
  }

  /** The average of the active metrics at a point: the sum over their
      count, NaN (None) when a value is undefined or nothing is active. */
  function Average(p: ParsedDataPoint, active: seq<string>): (r: Option<real>)
    ensures r.Some? <==> |active| > 0 && forall m :: m in active ==> MetricValue(p, m).Some?
  {
    var values := MetricValues(p, active);
    assert forall m :: m in active ==> exists k :: 0 <= k < |active| && active[k] == m && values[k] == MetricValue(p, m);
    match Sum(values)
    case Some(s) => if |active| == 0 then None else Some(s / |active| as real)
    case None => None
  }

  /** A sum of n values that all lie in [lo, hi] lies in [n * lo, n * hi]. */
  lemma {:induction false} SumBetween(xs: seq<Option<real>>, lo: real, hi: real)
    requires forall k :: 0 <= k < |xs| ==> xs[k].Some? && lo <= xs[k].value <= hi
    ensures Sum(xs).Some?
    ensures |xs| as real * lo <= Sum(xs).value <= |xs| as real * hi
  {
    if xs != [] {
      var init := xs[..|xs| - 1];
      SumBetween(init, lo, hi);
      assert Sum(xs).value == Sum(init).value + xs[|xs| - 1].value;
      assert |xs| as real * lo == |init| as real * lo + lo;
      assert |xs| as real * hi == |init| as real * hi + hi;
    }
  }

  /** The average lies within any bounds of the active metric values. */
  lemma AverageBetween(p: ParsedDataPoint, active: seq<string>, lo: real, hi: real)
    requires |active| > 0
    requires forall m :: m in active ==> MetricValue(p, m).Some? && lo <= MetricValue(p, m).value <= hi
    ensures Average(p, active).Some?
    ensures lo <= Average(p, active).value <= hi
  {
    var values := MetricValues(p, active);
    var n := |active| as real;
    SumBetween(values, lo, hi);
    var s := Sum(values).value;
    assert Average(p, active).value == s / n;
    DivBetween(s, n, lo, hi);
  }

  /** Dividing n * lo <= s <= n * hi by a positive n. */
  lemma DivBetween(s: real, n: real, lo: real, hi: real)
    requires n > 0.0 && n * lo <= s <= n * hi
    ensures lo <= s / n <= hi
  {
    assert (s / n) * n == s;
  }

  /** What `drawAverageLine` plots: one point per data point, at its date,
      at the height of its average. */
  function AveragePoints(points: seq<ParsedDataPoint>, x: Linear, y: Option<Linear>, active: seq<string>): (r: seq<PlotPoint>)
    ensures |r| == |points|
    ensures forall i :: 0 <= i < |points| ==>
      r[i].px == Apply(x, points[i].date as real) && r[i].py == PixelY(y, Average(points[i], active))
  {
    seq(|points|, i requires 0 <= i < |points| =>
      PlotPoint(Apply(x, points[i].date as real), PixelY(y, Average(points[i], active))))
  }

  /** The legend rows, one per configured metric. */
  function LegendRows(metrics: seq<string>, active: seq<string>): seq<LegendRow>
  {
    seq(|metrics|, i requires 0 <= i < |metrics| => LegendRow(metrics[i], i, metrics[i] in active))
  }

  /** The contents of the plot group: both axes, the metric lines and the
      average line, in drawing order. */
  function PlotItems(points: seq<ParsedDataPoint>, x: Linear, y: Option<Linear>,
                     metrics: seq<string>, active: seq<string>): seq<PlotItem>
  {
    [XAxis(x), YAxis(y)] + MetricLines(points, x, y, metrics, active)
    + [AverageLine(AveragePoints(points, x, y, active))]
  }

  /** The plot area: the configured size less the margins. */
  function InnerWidth(config: Config): real
  {
    config.width - config.margin.left - config.margin.right
  }

  function InnerHeight(config: Config): real
  {
    config.height - config.margin.top - config.margin.bottom
  }

  /** The svg's children for points already parsed. */
  function Scene(points: seq<ParsedDataPoint>, config: Config, active: seq<string>): seq<ChartNode>
    requires points != []
  {
    [ Plot(config.margin.left, config.margin.top,
           PlotItems(points, XScale(points, InnerWidth(config)).value,
                     YScale(points, config.metrics, InnerHeight(config)), config.metrics, active)),
      Legend(LegendRows(config.metrics, active)) ]
  }

  /** The svg `drawChart` builds for non-empty data. */
  function Rendered(data: seq<DataPoint>, config: Config, active: seq<string>): seq<ChartNode>
    requires data != []
  {
    Scene(ParseData(data, config.metrics), config, active)
  }

  /** The plot area is the configured size less the margins. */
  lemma RenderedInnerSize(data: seq<DataPoint>, config: Config, active: seq<string>)
    requires data != []
    ensures var r := Rendered(data, config, active);
      && r[0].Plot? && r[0].items[0].XAxis?
      && r[0].items[0].x.r1 == config.width - config.margin.left - config.margin.right
      && (r[0].items[1].y.Some? ==>
            r[0].items[1].y.value.r0 == config.height - config.margin.top - config.margin.bottom)
  {
  }

  /** No value appears twice: the sequence is a JavaScript Set's insertion order. */
  predicate NoDup(s: seq<string>)
  {
    forall i, j :: 0 <= i < j < |s| ==> s[i] != s[j]
  }

  /** `new Set(list)`: the first occurrence of each element, in order. */
  function Dedup(s: seq<string>): (r: seq<string>)
    ensures NoDup(r)
    ensures forall x :: x in r <==> x in s
  {
    if s == [] then []
    else
      var init := s[..|s| - 1];
      var d := Dedup(init);
      assert forall x :: x in s <==> x in init || x == s[|s| - 1];
      if s[|s| - 1] in d then d else d + [s[|s| - 1]]
  }

  /** `Set.delete`. */
  function Remove(s: seq<string>, x: string): (r: seq<string>)
    ensures forall y :: y in r <==> y in s && y != x
    ensures NoDup(s) ==> NoDup(r)
  {
    if s == [] then []
    else
      var rest := Remove(s[1..], x);
      assert forall y :: y in s <==> y == s[0] || y in s[1..];
      assert NoDup(s) ==> NoDup(s[1..]) && s[0] !in s[1..];
      if s[0] == x then rest else [s[0]] + rest
  }

  /** What `toggleMetric` does to the active set: delete the metric if it
      is there, add it at the end otherwise. */
  function Toggled(active: seq<string>, metric: string): (r: seq<string>)
    ensures forall m :: m in r <==> (m == metric) != (m in active)
    ensures NoDup(active) ==> NoDup(r)
  {
    if metric in active then Remove(active, metric) else active + [metric]
  }

  lemma {:induction false} RemoveAbsent(s: seq<string>, x: string)
    requires x !in s
    ensures Remove(s, x) == s
  {
    if s != [] {
      RemoveAbsent(s[1..], x);
    }
  }

  lemma {:induction false} RemoveAppended(s: seq<string>, x: string)
    requires x !in s
    ensures Remove(s + [x], x) == s
  {
    if s == [] {
      assert Remove([x], x) == Remove([], x);
    } else {
      assert (s + [x])[1..] == s[1..] + [x];
      RemoveAppended(s[1..], x);
    }
  }

  /** Toggling a metric twice gives back the same active metrics; when it
      was inactive, even in the same order. */
  lemma ToggleTwice(active: seq<string>, metric: string)
    ensures forall m :: m in Toggled(Toggled(active, metric), metric) <==> m in active
    ensures metric !in active ==> Toggled(Toggled(active, metric), metric) == active
  {
    if metric !in active {
      RemoveAppended(active, metric);
    }
  }

  /** The chart's state: its data and configuration, the active metrics in
      insertion order, and the children of its svg. */
  class MetricChart {
    const data: seq<DataPoint>
    const config: Config
    var active: seq<string>
    var svg: seq<ChartNode>

    ghost predicate Valid()
      reads this
    {
      NoDup(active)
    }

    /** `initializeChart`: every configured metric starts active, and the
        chart is drawn. */
    constructor (data: seq<DataPoint>, config: Config)
      ensures Valid()
      ensures this.data == data && this.config == config
      ensures forall m :: m in active <==> m in config.metrics
      ensures svg == if data == [] then [] else Rendered(data, config, active)
    {
      this.data := data;
      this.config := config;
      active := Dedup(config.metrics);
      svg := [];
      new;
      DrawChart();
    }

    /** `drawChart`: with no data nothing changes; otherwise the svg is
        cleared and rebuilt from the data and the active metrics. */
    method DrawChart()
      modifies this`svg
      ensures data == [] ==> svg == old(svg)
      ensures data != [] ==> svg == Rendered(data, config, active)
    {
      if |data| == 0 {
        return;
      }
      var points := ParseData(data, config.metrics);
      var x := XScale(points, InnerWidth(config)).value;
      var y := YScale(points, config.metrics, InnerHeight(config));
      var lines := DrawLines(points, x, y, config.metrics, active);
      var items := [XAxis(x), YAxis(y)] + lines + [AverageLine(AveragePoints(points, x, y, active))];
      assert items == PlotItems(points, x, y, config.metrics, active);
      svg := [];
      svg := svg + [Plot(config.margin.left, config.margin.top, items)];
      svg := svg + [Legend(LegendRows(config.metrics, active))];
    }

    /** `toggleMetric`: flip the metric's membership, then redraw. */
    method ToggleMetric(metric: string)
      requires Valid()
      modifies this`active, this`svg
      ensures Valid()
      ensures active == Toggled(old(active), metric)
      ensures data != [] ==> svg == Rendered(data, config, active)
      ensures data == [] ==> svg == old(svg)
    {
      if metric in active {
        active := Remove(active, metric);
      } else {
        active := active + [metric];
      }
      DrawChart();
    }
  }
}
