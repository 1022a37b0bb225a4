/** The multi-series XY chart: its baseline scales, the per-series areas,
    lines and points it draws for the selected series, the feature flags
    that say which kinds are drawn, and the full redraw on every zoom. */
module XY {
  import opened Maybe
  import opened Scales

  /** One measurement; the date is the parsed timestamp in milliseconds. */
  datatype Sample = Sample(date: int, value: real)

  /** A series, identified by its location. */
  datatype Series = Series(location: string, values: seq<Sample>)

  datatype ScalePair = ScalePair(x: Linear, y: Linear)

  /** `data.flatMap(series => series.values)`. */
  function AllValues(data: seq<Series>): (r: seq<Sample>)
    ensures forall i, s :: 0 <= i < |data| && s in data[i].values ==> s in r
    ensures forall s :: s in r ==> exists i :: 0 <= i < |data| && s in data[i].values
    ensures r == [] <==> forall i :: 0 <= i < |data| ==> data[i].values == []
  {
    if data == [] then []
    else
      var init := data[..|data| - 1];
      assert forall i :: 0 <= i < |init| ==> init[i] == data[i];
      AllValues(init) + data[|data| - 1].values
  }

  function Dates(samples: seq<Sample>): (r: seq<real>)
    ensures |r| == |samples| && forall k :: 0 <= k < |samples| ==> r[k] == samples[k].date as real
  {
    seq(|samples|, k requires 0 <= k < |samples| => samples[k].date as real)
  }

  function Values(samples: seq<Sample>): (r: seq<real>)
    ensures |r| == |samples| && forall k :: 0 <= k < |samples| ==> r[k] == samples[k].value
  {
    seq(|samples|, k requires 0 <= k < |samples| => samples[k].value)
  }

  /** `createScales`, and `useScales`, which is the same code: x is a time
      scale from the earliest to the latest date of all series onto
      [0, width]; y is linear from 0 to the largest value onto [height, 0].
      With no samples at all d3 leaves the domains undefined, which is None
      here. */
  function CreateScales(data: seq<Series>, width: real, height: real): (r: Option<ScalePair>)
    ensures r.None? <==> forall i :: 0 <= i < |data| ==> data[i].values == []
    ensures r.Some? ==>
      && r.value.x.r0 == 0.0 && r.value.x.r1 == width
      && r.value.y.d0 == 0.0 && r.value.y.r0 == height && r.value.y.r1 == 0.0
  {
    var all := AllValues(data);
    if |all| == 0 then None
    else
      var dates := Dates(all);
      var values := Values(all);
      Some(ScalePair(Linear(Min(dates), Max(dates), 0.0, width), Linear(0.0, Max(values), height, 0.0)))
  }

  /** Every sample of every series lies within the x domain and at or below
      the top of the y domain. */
  lemma CreateScalesCover(data: seq<Series>, width: real, height: real)
    requires CreateScales(data, width, height).Some?
    ensures var r := CreateScales(data, width, height).value;
      forall i, s :: 0 <= i < |data| && s in data[i].values ==>
        r.x.d0 <= s.date as real <= r.x.d1 && s.value <= r.y.d1
  {
    var r := CreateScales(data, width, height).value;
    var all := AllValues(data);
    var dates := Dates(all);
    var values := Values(all);
    forall s | s in all ensures r.x.d0 <= s.date as real <= r.x.d1 && s.value <= r.y.d1 {
      var k :| 0 <= k < |all| && all[k] == s;
      assert dates[k] == s.date as real && values[k] == s.value;
    }
  }

  /** The domain bounds are not padded: the earliest date, the latest date
      and the largest value each belong to some sample. */
  lemma CreateScalesTight(data: seq<Series>, width: real, height: real)
    requires CreateScales(data, width, height).Some?
    ensures var r := CreateScales(data, width, height).value;
      && (exists i, s :: 0 <= i < |data| && s in data[i].values && s.date as real == r.x.d0)
      && (exists i, s :: 0 <= i < |data| && s in data[i].values && s.date as real == r.x.d1)
      && (exists i, s :: 0 <= i < |data| && s in data[i].values && s.value == r.y.d1)
  {
    var r := CreateScales(data, width, height).value;
    var all := AllValues(data);
    var dates := Dates(all);
    var values := Values(all);
    var k0 :| 0 <= k0 < |all| && dates[k0] == r.x.d0;
    var k1 :| 0 <= k1 < |all| && dates[k1] == r.x.d1;
    var k2 :| 0 <= k2 < |all| && values[k2] == r.y.d1;
    assert all[k0] in all && all[k1] in all && all[k2] in all;
  }

  /** The baseline scales put the earliest date at pixel 0 and the latest at
      the width (a single date sits mid-track, as d3 places it); value 0 at
      the bottom, the largest value at the top, and a larger value higher. */
  lemma ScalesOrientation(data: seq<Series>, width: real, height: real, v: real, w: real)
    requires CreateScales(data, width, height).Some?
    ensures var r := CreateScales(data, width, height).value;
      && (r.x.d0 < r.x.d1 ==> Apply(r.x, r.x.d0) == 0.0 && Apply(r.x, r.x.d1) == width)
      && (r.x.d0 == r.x.d1 ==> 2.0 * Apply(r.x, v) == width)
      && (r.y.d1 != 0.0 ==> Apply(r.y, 0.0) == height && Apply(r.y, r.y.d1) == 0.0)
      && (r.y.d1 > 0.0 && height > 0.0 && v < w ==> Apply(r.y, w) < Apply(r.y, v))
  {
    var r := CreateScales(data, width, height).value;
    if r.x.d0 < r.x.d1 {
      ApplyEndpoints(r.x);
    } else if r.x.d0 == r.x.d1 {
      ApplyDegenerate(r.x, v);
    }
    if r.y.d1 != 0.0 {
      ApplyEndpoints(r.y);
    }
    if r.y.d1 > 0.0 && height > 0.0 && v < w {
      ApplyAntitone(r.y, v, w);
    }
  }

  /** A screen point. */
  datatype Pixel = Pixel(px: real, py: real)

  /** What the chart draws for a series, tagged with the series' index in
      `data` (its `series-<index>` class). */
  datatype Drawable =
    | AreaPath(series: nat, top: seq<Pixel>, y0: real)
    | LinePath(series: nat, points: seq<Pixel>)
    | Circle(series: nat, cx: real, cy: real)

  datatype Kind = Areas | Lines | Points

  /** Each sample at (x(date), y(value)). */
  function Pixels(values: seq<Sample>, x: Linear, y: Linear): seq<Pixel>
  {
    seq(|values|, k requires 0 <= k < |values| => Pixel(Apply(x, values[k].date as real), Apply(y, values[k].value)))
  }

  /** The number of circles of series i already in a group. */
  function CountCircles(group: seq<Drawable>, i: nat): nat
  {
    if group == [] then 0
    else
      var last := group[|group| - 1];
      CountCircles(group[..|group| - 1], i) + (if last.Circle? && last.series == i then 1 else 0)
  }

  lemma CountCirclesConcat(a: seq<Drawable>, b: seq<Drawable>, i: nat)
    ensures CountCircles(a + b, i) == CountCircles(a, i) + CountCircles(b, i)
    decreases |b|
  {
    if b == [] {
      assert a + b == a;
    } else {
      assert (a + b)[..|a + b| - 1] == a + b[..|b| - 1];
      CountCirclesConcat(a, b[..|b| - 1], i);
    }
  }

  /** The circles `selectAll(...).data(values).enter()` appends: d3 binds
      the values by index to the circles already there, so only the values
      past the existing ones enter. */
  function Circles(s: Series, i: nat, x: Linear, y: Linear, existing: nat): seq<Drawable>
  {
    if existing >= |s.values| then []
    else
      seq(|s.values| - existing, k requires 0 <= k < |s.values| - existing =>
        Circle(i, Apply(x, s.values[existing + k].date as real), Apply(y, s.values[existing + k].value)))
  }

  /** What one kind draws for series i. Areas fill down to the baseline y(0). */
  function Geometry(kind: Kind, s: Series, i: nat, x: Linear, y: Linear, existing: nat): seq<Drawable>
  {
    match kind
    case Areas => [AreaPath(i, Pixels(s.values, x, y), Apply(y, 0.0))]
    case Lines => [LinePath(i, Pixels(s.values, x, y))]
    case Points => Circles(s, i, x, y, existing)
  }

  /** What `addAreas`, `addLines` or `addPoints` appends for the first n
      series to a group that held `group` before the call. */
  function Emitted(kind: Kind, data: seq<Series>, n: nat, x: Linear, y: Linear,
                   selected: set<string>, group: seq<Drawable>): seq<Drawable>
    requires n <= |data|
  {
    if n == 0 then []
    else
      Emitted(kind, data, n - 1, x, y, selected, group)
      + (if data[n - 1].location in selected
         then Geometry(kind, data[n - 1], n - 1, x, y, CountCircles(group, n - 1))
         else [])
  }

  /** A series gets geometry exactly when its location is selected, and all
      of it carries the series' index. */
  lemma {:induction false} EmittedExactlySelected(kind: Kind, data: seq<Series>, n: nat, x: Linear, y: Linear,
                                                   selected: set<string>, group: seq<Drawable>, d: Drawable)
    requires n <= |data|
    ensures d in Emitted(kind, data, n, x, y, selected, group) <==>
      d.series < n && data[d.series].location in selected
      && d in Geometry(kind, data[d.series], d.series, x, y, CountCircles(group, d.series))
  {
    if n > 0 {
      var i := n - 1;
      var prev := Emitted(kind, data, i, x, y, selected, group);
      var g := if data[i].location in selected
               then Geometry(kind, data[i], i, x, y, CountCircles(group, i)) else [];
      assert Emitted(kind, data, n, x, y, selected, group) == prev + g;
      assert d in prev + g <==> d in prev || d in g;
      EmittedExactlySelected(kind, data, i, x, y, selected, group, d);
      GeometryTagged(kind, data[i], i, x, y, CountCircles(group, i), d);
    }
  }

  lemma GeometryTagged(kind: Kind, s: Series, i: nat, x: Linear, y: Linear, existing: nat, d: Drawable)
    ensures d in Geometry(kind, s, i, x, y, existing) ==> d.series == i
  {
    if d in Geometry(kind, s, i, x, y, existing) && kind == Points {
      var k :| 0 <= k < |Geometry(kind, s, i, x, y, existing)| && Geometry(kind, s, i, x, y, existing)[k] == d;
    }
  }

  /** Appending the geometry of the first n series leaves the circle count
      of every later series unchanged. */
  lemma {:induction false} EmittedCirclesBefore(kind: Kind, data: seq<Series>, n: nat, x: Linear, y: Linear,
                                                selected: set<string>, group: seq<Drawable>, j: nat)
    requires n <= |data| && n <= j
    ensures CountCircles(Emitted(kind, data, n, x, y, selected, group), j) == 0
  {
    if n > 0 {
      var g := if data[n - 1].location in selected
               then Geometry(kind, data[n - 1], n - 1, x, y, CountCircles(group, n - 1)) else [];
      assert Emitted(kind, data, n, x, y, selected, group) == Emitted(kind, data, n - 1, x, y, selected, group) + g;
      EmittedCirclesBefore(kind, data, n - 1, x, y, selected, group, j);
      CountCirclesConcat(Emitted(kind, data, n - 1, x, y, selected, group), g, j);
      forall d | d in g
        ensures d.series == n - 1
      {
        GeometryTagged(kind, data[n - 1], n - 1, x, y, CountCircles(group, n - 1), d);
      }
      NoCirclesOfOther(g, j, n - 1);
    }
  }

  lemma NoCirclesOfOther(g: seq<Drawable>, j: nat, i: nat)
    requires i != j && forall d :: d in g ==> d.series == i
    ensures CountCircles(g, j) == 0
  {
    if g != [] {
      assert forall d :: d in g[..|g| - 1] ==> d in g;
      NoCirclesOfOther(g[..|g| - 1], j, i);
    }
  }

  /** `addAreas`: one area per selected series, appended in series order. */
  method AddAreas(group: seq<Drawable>, data: seq<Series>, x: Linear, y: Linear, selected: set<string>)
    returns (out: seq<Drawable>)
    ensures out == group + Emitted(Areas, data, |data|, x, y, selected, group)
  {
    out := group;
    var index := 0;
    while index < |data|
      invariant 0 <= index <= |data|
      invariant out == group + Emitted(Areas, data, index, x, y, selected, group)
    {
      if data[index].location in selected {
        out := out + [AreaPath(index, Pixels(data[index].values, x, y), Apply(y, 0.0))];
      }
      index := index + 1;
    }
  }

  /** `addLines`: one line per selected series, appended in series order. */
  method AddLines(group: seq<Drawable>, data: seq<Series>, x: Linear, y: Linear, selected: set<string>)
    returns (out: seq<Drawable>)
    ensures out == group + Emitted(Lines, data, |data|, x, y, selected, group)
  {
    out := group;
    var index := 0;
    while index < |data|
      invariant 0 <= index <= |data|
      invariant out == group + Emitted(Lines, data, index, x, y, selected, group)
    {
      if data[index].location in selected {
        out := out + [LinePath(index, Pixels(data[index].values, x, y))];
      }
      index := index + 1;
    }
  }

  /** `addPoints`: for each selected series, a circle for every value that
      does not yet have a circle of that series in the group. */
  method AddPoints(group: seq<Drawable>, data: seq<Series>, x: Linear, y: Linear, selected: set<string>)
    returns (out: seq<Drawable>)
    ensures out == group + Emitted(Points, data, |data|, x, y, selected, group)
  {
    out := group;
    var index := 0;
    while index < |data|
      invariant 0 <= index <= |data|
      invariant out == group + Emitted(Points, data, index, x, y, selected, group)
    {
      PointsStep(data, index, x, y, selected, group, out);
      if data[index].location in selected {
        var existing := CountCircles(out, index);
        out := out + Circles(data[index], index, x, y, existing);
      }
      index := index + 1;
    }
  }

  /** One step of `addPoints`: the circles series n gets are those past
      the circles of series n already in the group, and the circles this
      call has appended so far belong to earlier series, so they do not
      count. */
  lemma PointsStep(data: seq<Series>, n: nat, x: Linear, y: Linear, selected: set<string>,
                   group: seq<Drawable>, out: seq<Drawable>)
    requires n < |data| && out == group + Emitted(Points, data, n, x, y, selected, group)
    ensures group + Emitted(Points, data, n + 1, x, y, selected, group)
            == out + (if data[n].location in selected then Circles(data[n], n, x, y, CountCircles(out, n)) else [])
  {
    var prev := Emitted(Points, data, n, x, y, selected, group);
    var g := if data[n].location in selected then Circles(data[n], n, x, y, CountCircles(group, n)) else [];
    EmittedStep(Points, data, n, x, y, selected, group);
    assert Emitted(Points, data, n + 1, x, y, selected, group) == prev + g;
    CirclesBeforeStep(data, n, x, y, selected, group, out);
    SeqAssoc(group, prev, g);
  }

  lemma SeqAssoc(a: seq<Drawable>, b: seq<Drawable>, c: seq<Drawable>)
    ensures a + (b + c) == (a + b) + c
  {
  }

  lemma CirclesBeforeStep(data: seq<Series>, n: nat, x: Linear, y: Linear, selected: set<string>,
                          group: seq<Drawable>, out: seq<Drawable>)
    requires n < |data| && out == group + Emitted(Points, data, n, x, y, selected, group)
    ensures CountCircles(out, n) == CountCircles(group, n)
  {
    CountCirclesConcat(group, Emitted(Points, data, n, x, y, selected, group), n);
    EmittedCirclesBefore(Points, data, n, x, y, selected, group, n);
  }

  lemma EmittedStep(kind: Kind, data: seq<Series>, n: nat, x: Linear, y: Linear, selected: set<string>,
                    group: seq<Drawable>)
    requires n < |data|
    ensures Emitted(kind, data, n + 1, x, y, selected, group)
            == Emitted(kind, data, n, x, y, selected, group)
               + (if data[n].location in selected then Geometry(kind, data[n], n, x, y, CountCircles(group, n)) else [])
  {
  }

  /** Areas and lines hold no circles. */
  lemma {:induction false} PathsHaveNoCircles(kind: Kind, data: seq<Series>, n: nat, x: Linear, y: Linear,
                                              selected: set<string>, group: seq<Drawable>, j: nat)
    requires n <= |data| && kind != Points
    ensures CountCircles(Emitted(kind, data, n, x, y, selected, group), j) == 0
  {
    if n > 0 {
      var g := if data[n - 1].location in selected
               then Geometry(kind, data[n - 1], n - 1, x, y, CountCircles(group, n - 1)) else [];
      assert Emitted(kind, data, n, x, y, selected, group) == Emitted(kind, data, n - 1, x, y, selected, group) + g;
      PathsHaveNoCircles(kind, data, n - 1, x, y, selected, group, j);
      CountCirclesConcat(Emitted(kind, data, n - 1, x, y, selected, group), g, j);
      assert g == [] || |g| == 1;
      assert g != [] ==> g[..0] == [];
    }
  }

  /** The axis a grid or an axis element belongs to. */
  datatype Dim = X | Y

  /** A child of the chart's svg: the `grid` and `axis` groups (their ticks
      are d3's business; the scale they are drawn with is kept), a
      clip-path group holding drawables, or anything else. */
  datatype Node =
    | Grid(dim: Dim, scale: Linear)
    | Axis(dim: Dim, scale: Linear)
    | Group(children: seq<Drawable>)
    | Other(tag: string)

  /** The five `selectAll(".grid" | ".axis" | ".area" | ".line" | ".point").remove()`
      calls: grids and axes go, every drawable goes, and the emptied groups
      and everything else stay. */
  function Cleared(nodes: seq<Node>): (r: seq<Node>)
    ensures forall k :: 0 <= k < |r| ==> !r[k].Grid? && !r[k].Axis? && (r[k].Group? ==> r[k].children == [])
    ensures forall n :: n in nodes && n.Other? ==> n in r
    ensures forall n :: n in r ==> n in nodes || n == Group([])
  {
    if nodes == [] then []
    else
      var init := nodes[..|nodes| - 1];
      var last := nodes[|nodes| - 1];
      assert forall n :: n in nodes ==> n in init || n == last;
      Cleared(init) + match last
        case Grid(_, _) => []
        case Axis(_, _) => []
        case Group(_) => [Group([])]
        case Other(_) => [last]
  }

  /** A feature flag is on when its key is present and true. */
  predicate ShowOn(show: map<string, bool>, feature: string)
  {
    feature in show && show[feature]
  }

  /** The contents of the fresh clip-path group after a redraw: areas, then
      lines, then points, each only when its flag is on. */
  function Drawn(show: map<string, bool>, data: seq<Series>, x: Linear, y: Linear, selected: set<string>): seq<Drawable>
  {
    var areas := if ShowOn(show, "areas") then Emitted(Areas, data, |data|, x, y, selected, []) else [];
    var lines := if ShowOn(show, "lines") then Emitted(Lines, data, |data|, x, y, selected, areas) else [];
    var points := if ShowOn(show, "points") then Emitted(Points, data, |data|, x, y, selected, areas + lines) else [];
    areas + lines + points
  }

  /** The svg after one zoom event drawn with scales x and y, whose new
      clip-path group holds `drawn`. */
  function Redrawn(nodes: seq<Node>, show: map<string, bool>, x: Linear, y: Linear,
                   drawn: seq<Drawable>): seq<Node>
  {
    Cleared(nodes)
    + (if ShowOn(show, "grid") then [Grid(X, x), Grid(Y, y)] else [])
    + (if ShowOn(show, "axis") then [Axis(X, x), Axis(Y, y)] else [])
    + [Group(drawn)]
  }

  /** No node holds anything drawn before: groups are empty, and grids and
      axes use the scales x and y. */
  predicate Fresh(nodes: seq<Node>, x: Linear, y: Linear)
  {
    forall k :: 0 <= k < |nodes| ==>
      && (nodes[k].Group? ==> nodes[k].children == [])
      && (nodes[k].Grid? || nodes[k].Axis? ==> nodes[k].scale == (if nodes[k].dim == X then x else y))
  }

  lemma FreshConcat(a: seq<Node>, b: seq<Node>, x: Linear, y: Linear)
    requires Fresh(a, x, y) && Fresh(b, x, y)
    ensures Fresh(a + b, x, y)
  {
    forall k | 0 <= k < |a + b|
      ensures (a + b)[k] == if k < |a| then a[k] else b[k - |a|]
    {
    }
  }

  /** After a redraw nothing drawn before survives: the new group of
      drawables comes last, every other group is empty, and every grid and
      axis is drawn with the new scales. */
  lemma RedrawnReplacesAll(nodes: seq<Node>, show: map<string, bool>, x: Linear, y: Linear,
                           drawn: seq<Drawable>)
    ensures var r := Redrawn(nodes, show, x, y, drawn);
      && |r| > 0 && r[|r| - 1] == Group(drawn)
      && (forall k :: 0 <= k < |r| - 1 && r[k].Group? ==> r[k].children == [])
      && (forall k :: 0 <= k < |r| && (r[k].Grid? || r[k].Axis?) ==> r[k].scale == (if r[k].dim == X then x else y))
  {
    var c := Cleared(nodes);
    var g := if ShowOn(show, "grid") then [Grid(X, x), Grid(Y, y)] else [];
    var a := if ShowOn(show, "axis") then [Axis(X, x), Axis(Y, y)] else [];
    var before := c + g + a;
    assert Fresh(c, x, y);
    assert Fresh(g, x, y);
    assert Fresh(a, x, y);
    FreshConcat(c, g, x, y);
    FreshConcat(c + g, a, x, y);
    var r := Redrawn(nodes, show, x, y, drawn);
    assert r == before + [Group(drawn)];
    forall k | 0 <= k < |r| - 1
      ensures r[k] == before[k]
    {
    }
  }

  /** No node is a grid (grid true) or no node is an axis (grid false). */
  predicate Lacks(nodes: seq<Node>, grid: bool)
  {
    forall k :: 0 <= k < |nodes| ==> !(if grid then nodes[k].Grid? else nodes[k].Axis?)
  }

  lemma LacksConcat(a: seq<Node>, b: seq<Node>, grid: bool)
    requires Lacks(a, grid) && Lacks(b, grid)
    ensures Lacks(a + b, grid)
  {
    forall k | 0 <= k < |a + b|
      ensures (a + b)[k] == if k < |a| then a[k] else b[k - |a|]
    {
    }
  }

  /** A grid is drawn exactly when the grid flag is on, and an axis exactly
      when the axis flag is on. */
  lemma RedrawnFlags(nodes: seq<Node>, show: map<string, bool>, x: Linear, y: Linear,
                     drawn: seq<Drawable>)
    ensures var r := Redrawn(nodes, show, x, y, drawn);
      && ((exists k :: 0 <= k < |r| && r[k].Grid?) <==> ShowOn(show, "grid"))
      && ((exists k :: 0 <= k < |r| && r[k].Axis?) <==> ShowOn(show, "axis"))
  {
    var c := Cleared(nodes);
    var g := if ShowOn(show, "grid") then [Grid(X, x), Grid(Y, y)] else [];
    var a := if ShowOn(show, "axis") then [Axis(X, x), Axis(Y, y)] else [];
    var r := Redrawn(nodes, show, x, y, drawn);
    assert r == c + g + a + [Group(drawn)];
    assert r[|c| + |g| + |a|] == Group(drawn);
    if ShowOn(show, "grid") {
      assert r[|c|] == g[0];
    } else {
      assert Lacks(c, true) && Lacks(g, true) && Lacks(a, true) && Lacks([Group(drawn)], true);
      LacksConcat(c, g, true);
      LacksConcat(c + g, a, true);
      LacksConcat(c + g + a, [Group(drawn)], true);
    }
    if ShowOn(show, "axis") {
      assert r[|c| + |g|] == a[0];
    } else {
      assert Lacks(c, false) && Lacks(g, false) && Lacks(a, false) && Lacks([Group(drawn)], false);
      LacksConcat(c, g, false);
      LacksConcat(c + g, a, false);
      LacksConcat(c + g + a, [Group(drawn)], false);
    }
  }

  /** Every drawable of a redraw is of a kind whose flag is on and belongs
      to a selected series. */
  lemma DrawnRespectsFlags(show: map<string, bool>, data: seq<Series>, x: Linear, y: Linear,
                           selected: set<string>, d: Drawable)
    requires d in Drawn(show, data, x, y, selected)
    ensures d.series < |data| && data[d.series].location in selected
    ensures d.AreaPath? ==> ShowOn(show, "areas")
    ensures d.LinePath? ==> ShowOn(show, "lines")
    ensures d.Circle? ==> ShowOn(show, "points")
  {
    var areas := if ShowOn(show, "areas") then Emitted(Areas, data, |data|, x, y, selected, []) else [];
    var lines := if ShowOn(show, "lines") then Emitted(Lines, data, |data|, x, y, selected, areas) else [];
    var points := if ShowOn(show, "points") then Emitted(Points, data, |data|, x, y, selected, areas + lines) else [];
    if d in areas {
      EmittedExactlySelected(Areas, data, |data|, x, y, selected, [], d);
    } else if d in lines {
      EmittedExactlySelected(Lines, data, |data|, x, y, selected, areas, d);
    } else {
      assert d in points;
      EmittedExactlySelected(Points, data, |data|, x, y, selected, areas + lines, d);
      var i := d.series;
      var k :| 0 <= k < |Geometry(Points, data[i], i, x, y, CountCircles(areas + lines, i))|
               && Geometry(Points, data[i], i, x, y, CountCircles(areas + lines, i))[k] == d;
    }
  }

  /** With the points flag on, every value of a selected series gets its
      circle at (x(date), y(value)) on each redraw: the group starts fresh
      and areas and lines hold no circles, so every value enters. */
  lemma RedrawnPointsComplete(show: map<string, bool>, data: seq<Series>, x: Linear, y: Linear,
                              selected: set<string>, i: nat, k: nat)
    requires ShowOn(show, "points") && i < |data| && data[i].location in selected && k < |data[i].values|
    ensures Circle(i, Apply(x, data[i].values[k].date as real), Apply(y, data[i].values[k].value))
            in Drawn(show, data, x, y, selected)
  {
    var areas := if ShowOn(show, "areas") then Emitted(Areas, data, |data|, x, y, selected, []) else [];
    var lines := if ShowOn(show, "lines") then Emitted(Lines, data, |data|, x, y, selected, areas) else [];
    var points := Emitted(Points, data, |data|, x, y, selected, areas + lines);
    CountCirclesConcat(areas, lines, i);
    if ShowOn(show, "areas") {
      PathsHaveNoCircles(Areas, data, |data|, x, y, selected, [], i);
    }
    if ShowOn(show, "lines") {
      PathsHaveNoCircles(Lines, data, |data|, x, y, selected, areas, i);
    }
    assert CountCircles(areas + lines, i) == 0;
    var c := Circle(i, Apply(x, data[i].values[k].date as real), Apply(y, data[i].values[k].value));
    assert Geometry(Points, data[i], i, x, y, 0)[k] == c;
    EmittedExactlySelected(Points, data, |data|, x, y, selected, areas + lines, c);
    assert c in points;
  }

  /** The features the chart can toggle, in toggle order. */
  const Features: seq<string> := ["grid", "axis", "areas", "lines", "points", "heat"]

  /** The part of the chart configuration `initializeShow` reads; an absent
      `defaultFeatures` is the empty list, and `show` may be absent (None). */
  datatype Config = Config(defaultFeatures: seq<string>, show: Option<seq<string>>)

  /** `initializeShow`: one flag per feature; when `defaultFeatures` is not
      empty it decides, otherwise `show` does. With neither a non-empty
      `defaultFeatures` nor a `show` list, `config.show.includes` throws a
      TypeError at the first feature and no flags are returned. */
  method InitializeShow(config: Config) returns (show: map<string, bool>, c: Completion)
    ensures c == TypeError <==> |config.defaultFeatures| == 0 && config.show.None?
    ensures c == Normal ==> show.Keys == set f | f in Features
    ensures c == Normal ==> forall f :: f in Features ==>
      show[f] == if |config.defaultFeatures| > 0 then f in config.defaultFeatures else f in config.show.value
  {
    show := map[];
    for i := 0 to |Features|
      invariant show.Keys == set f | f in Features[..i]
      invariant forall f :: f in Features[..i] ==>
        show[f] == if |config.defaultFeatures| > 0 then f in config.defaultFeatures
                   else config.show.Some? && f in config.show.value
      invariant i > 0 ==> |config.defaultFeatures| > 0 || config.show.Some?
    {
      var feature := Features[i];
      if |config.defaultFeatures| == 0 && config.show.None? {
        return map[], TypeError;
      }
      assert Features[..i + 1] == Features[..i] + [feature];
      show := show[feature := if |config.defaultFeatures| > 0
                              then feature in config.defaultFeatures
                              else feature in config.show.value];
    }
    assert Features[..|Features|] == Features;
    c := Normal;
  }

  /** The chart's state. `x`, `y`, `data` and `selected` are the baseline
      scales, the series and the selected locations the zoom handler
      captures once; `elements` are the children of its svg and `show` the
      feature flags object the toggles and the zoom handler share. */
  class XYChart {
    const x: Linear
    const y: Linear
    const data: seq<Series>
    const selected: set<string>
    var elements: seq<Node>
    var show: map<string, bool>

    constructor (x: Linear, y: Linear, data: seq<Series>, selected: set<string>,
                 elements: seq<Node>, show: map<string, bool>)
      ensures this.x == x && this.y == y && this.data == data && this.selected == selected
      ensures this.elements == elements && this.show == show
    {
      this.x := x;
      this.y := y;
      this.data := data;
      this.selected := selected;
      this.elements := elements;
      this.show := show;
    }

    /** A toggle click: exactly the clicked flag flips. */
    method ToggleFeature(feature: string)
      requires feature in show
      modifies this`show
      ensures show == old(show)[feature := !old(show)[feature]]
      ensures forall f :: f in old(show) && f != feature ==> f in show && show[f] == old(show)[f]
    {
      show := show[feature := !show[feature]];
    }

    /** The `zoom` handler: both scales are rescaled by the event's
        transform, always starting from the baseline scales, everything
        drawn before is removed, and the enabled kinds are drawn again into
        a new clip-path group. */
    method OnZoom(t: Transform)
      requires 1.0 <= t.k <= 10.0
      modifies this`elements
      ensures elements == Redrawn(old(elements), show, RescaleX(t, x), RescaleY(t, y),
                                  Drawn(show, data, RescaleX(t, x), RescaleY(t, y), selected))
    {
      var newX := RescaleX(t, x);
      var newY := RescaleY(t, y);
      var nodes := Cleared(elements);
      if ShowOn(show, "grid") {
        nodes := nodes + [Grid(X, newX), Grid(Y, newY)];
      }
      if ShowOn(show, "axis") {
        nodes := nodes + [Axis(X, newX), Axis(Y, newY)];
      }
      ghost var areas := if ShowOn(show, "areas") then Emitted(Areas, data, |data|, newX, newY, selected, []) else [];
      ghost var lines := if ShowOn(show, "lines") then Emitted(Lines, data, |data|, newX, newY, selected, areas) else [];
      ghost var points := if ShowOn(show, "points") then Emitted(Points, data, |data|, newX, newY, selected, areas + lines) else [];
      var graphGroup: seq<Drawable> := [];
      if ShowOn(show, "areas") {
        graphGroup := AddAreas(graphGroup, data, newX, newY, selected);
      }
      assert graphGroup == areas;
      if ShowOn(show, "lines") {
        graphGroup := AddLines(graphGroup, data, newX, newY, selected);
      }
      assert graphGroup == areas + lines;
      if ShowOn(show, "points") {
        graphGroup := AddPoints(graphGroup, data, newX, newY, selected);
      }
      assert graphGroup == areas + lines + points;
      elements := nodes + [Group(graphGroup)];
    }

    /** A right click zooms back to the identity transform, which redraws
        with the original scales. */
    method ResetZoom()
      requires x.r0 != x.r1 && y.r0 != y.r1
      modifies this`elements
      ensures elements == Redrawn(old(elements), show, x, y, Drawn(show, data, x, y, selected))
    {
      RescaleIdentity(x);
      RescaleIdentity(y);
      OnZoom(Identity);
    }
  }
}
