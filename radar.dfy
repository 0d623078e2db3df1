/**
 * The `Radarchart` builder (g.radar.js:52-152, 287-296): the centre dot
 * and the mesh, the arms and the polygon through their endpoints, one
 * cover and one series marker per arm, and the optional legend. Each stage
 * is a method proved against a specification function; `ExpectedChart`
 * puts the stages together and the lemmas at the end state what the
 * finished chart looks like.
 */
module Radar {
  import opened Values
  import opened Surface
  import opened Options
  import opened Seqs
  import opened Geometry
  import opened Polygon
  import opened Legend

  // ---------------------------------------------------------------- mesh

  /** The centre dot: `paper.circle(cx, cy, 5)` in the mesh colour. */
  function MiddleDot(cx: real, cy: real, opts: Options): Shape
  {
    Shape(Circle(cx, cy, Num(5.0)),
          map["stroke" := Get(opts, "meshcolor"), "fill" := Get(opts, "meshcolor"), "stroke-width" := Get(opts, "meshwidth")])
  }

  /**
   * `opts.helplines` as the mesh loop sees it: `None` when it is falsy (no
   * loop) or not a number (`i < NaN` never holds), so the loop runs only
   * for a non-zero number.
   */
  function HelpLines(opts: Options): (n: Option<real>)
    ensures n.Some? ==> n.value != 0.0
    ensures !Truthy(Get(opts, "helplines")) ==> n.None?
    ensures Get(opts, "helplines").Num? && Get(opts, "helplines").n != 0.0 ==> n == Some(Get(opts, "helplines").n)
  {
    var hl := Get(opts, "helplines");
    if Truthy(hl) then ToNumber(hl) else None
  }

  /** Mesh circle `k`: `paper.circle(cx, cy, helpradius * (k + 1))` in the mesh colour. */
  function MeshCircle(cx: real, cy: real, r: real, n: real, k: nat, opts: Options): Shape
    requires n != 0.0
  {
    Shape(Circle(cx, cy, Num(MeshRadius(r, n, k))),
          map["stroke" := Get(opts, "meshcolor"), "stroke-width" := Get(opts, "meshwidth")])
  }

  /** The mesh circles, one per pass of the loop. */
  function MeshCircles(cx: real, cy: real, r: real, opts: Options): (circles: seq<Shape>)
    ensures HelpLines(opts).None? ==> circles == []
    ensures HelpLines(opts).Some? ==> |circles| == LoopCount(HelpLines(opts).value)
    ensures HelpLines(opts).Some? ==>
      forall k :: 0 <= k < |circles| ==> circles[k] == MeshCircle(cx, cy, r, HelpLines(opts).value, k, opts)
  {
    match HelpLines(opts)
    case None => []
    case Some(n) => seq(LoopCount(n), k requires 0 <= k < LoopCount(n) => MeshCircle(cx, cy, r, n, k, opts))
  }

  /**
   * With `helplines` a whole number `n > 0`, exactly `n` mesh circles are
   * drawn, all centred on the chart; circle `k` has radius `(r / n) * (k + 1)`,
   * the outermost has radius `r`, and for `r > 0` the radii strictly increase.
   */
  lemma WholeMesh(cx: real, cy: real, r: real, opts: Options, n: nat)
    requires n > 0 && Get(opts, "helplines") == Num(n as real)
    ensures var circles := MeshCircles(cx, cy, r, opts);
      |circles| == n &&
      (forall k :: 0 <= k < n ==>
         circles[k].element == Circle(cx, cy, Num((r / (n as real)) * ((k + 1) as real)))) &&
      circles[n - 1].element == Circle(cx, cy, Num(r)) &&
      (r > 0.0 ==> forall j, k :: 0 <= j < k < n ==>
         circles[j].element.radius.n < circles[k].element.radius.n)
  {
    var m := n as real;
    WholeLoopCount(n);
    assert HelpLines(opts) == Some(m);
    var circles := MeshCircles(cx, cy, r, opts);
    assert |circles| == n;
    forall k | 0 <= k < n
      ensures circles[k].element == Circle(cx, cy, Num(MeshRadius(r, m, k)))
    {
      assert circles[k] == MeshCircle(cx, cy, r, m, k, opts);
    }
    OuterMeshRadius(r, n);
    if r > 0.0 {
      forall j, k | 0 <= j < k < n
        ensures circles[j].element.radius.n < circles[k].element.radius.n
      {
        MeshRadiusIncreasing(r, m, j, k);
      }
    }
  }

  /** The handles `base, base + 1, ..., base + n - 1`. */
  function Handles(base: nat, n: nat): (ids: seq<nat>)
    ensures |ids| == n
    ensures forall k :: 0 <= k < n ==> ids[k] == base + k
  {
    seq(n, k requires 0 <= k < n => base + k)
  }

  /** The mesh loop (g.radar.js:109-114): `helpradius = r / helplines`, then one circle per `i < helplines`. */
  method DrawMesh(cx: real, cy: real, r: real, opts: Options, shapes: seq<Shape>)
    returns (shapes': seq<Shape>, mesh: seq<nat>)
    ensures shapes' == shapes + MeshCircles(cx, cy, r, opts)
    ensures mesh == Handles(|shapes|, |MeshCircles(cx, cy, r, opts)|)
  {
    shapes' := shapes;
    mesh := [];
    var hl := Get(opts, "helplines");
    if Truthy(hl) {
      var n := ToNumber(hl);
      if n.Some? {
        var helpradius := r / n.value;
        ghost var circles := MeshCircles(cx, cy, r, opts);
        var i: nat := 0;
        while (i as real) < n.value
          invariant i <= LoopCount(n.value)
          invariant shapes' == shapes + circles[..i]
          invariant mesh == Handles(|shapes|, i)
          decreases LoopCount(n.value) - i
        {
          var circle := Shape(Circle(cx, cy, Num(helpradius * ((i + 1) as real))),
                              map["stroke" := Get(opts, "meshcolor"), "stroke-width" := Get(opts, "meshwidth")]);
          assert HelpLines(opts) == n && i < LoopCount(n.value);
          assert helpradius * ((i + 1) as real) == MeshRadius(r, n.value, i);
          assert circle == MeshCircle(cx, cy, r, n.value, i, opts);
          assert circle == circles[i];
          assert circles[..i + 1] == circles[..i] + [circle];
          mesh := mesh + [|shapes'|];
          shapes' := shapes' + [circle];
          i := i + 1;
        }
        assert circles[..i] == circles;
      }
    }
  }

  // ---------------------------------------------------------------- arms

  /** `arms[i] = arm(cx, cy, r * values[i] / max, i * 360 / len, r)` for every value. */
  function ArmGeoms(h: Host, cx: real, cy: real, r: real, values: seq<real>, max: real): (arms: seq<ArmGeom>)
    requires max != 0.0
    ensures |arms| == |values|
    ensures forall i :: 0 <= i < |values| ==> arms[i] == ArmAt(h, cx, cy, r, values, max, i)
  {
    seq(|values|, i requires 0 <= i < |values| => ArmAt(h, cx, cy, r, values, max, i))
  }

  /** The arm loop (g.radar.js:117-119). */
  method ComputeArms(h: Host, cx: real, cy: real, r: real, values: seq<real>, max: real) returns (arms: seq<ArmGeom>)
    requires max != 0.0
    ensures arms == ArmGeoms(h, cx, cy, r, values, max)
  {
    ghost var spec := ArmGeoms(h, cx, cy, r, values, max);
    arms := [];
    for i := 0 to |values|
      invariant arms == spec[..i]
    {
      var arm := Arm(h, cx, cy, cx, cy, DataLength(r, values[i], max), Angle(i, |values|), r);
      assert spec[..i + 1] == spec[..i] + [arm];
      arms := arms + [arm];
    }
    assert spec[..|values|] == spec;
  }

  /** The polygon: `paper.path(pointarray)` stroked and half-filled in the stroke colour. */
  function Web(arms: seq<ArmGeom>, opts: Options): Shape
    requires |arms| > 0
  {
    Shape(Path(PolygonTokens(arms)),
          map["stroke" := Get(opts, "stroke"), "stroke-width" := Get(opts, "strokewidth"),
              "fill" := Get(opts, "stroke"), "fill-opacity" := Num(0.4)])
  }

  /** Shapes per arm: the data path, the rest path, the point and, when numbers are shown, the number. */
  function PerArm(opts: Options): nat
  {
    if Truthy(Get(opts, "numbers")) then 4 else 3
  }

  /** The shapes drawn for arm `i` (g.radar.js:130-145), each linked when `href[i]` is set. */
  function ArmRow(h: Host, opts: Options, a: ArmGeom, i: nat): (row: seq<Shape>)
    ensures |row| == PerArm(opts)
  {
    var link := HrefAt(Get(opts, "href"), i);
    var path := Shape(Path(a.path), map["stroke" := Get(opts, "stroke"), "stroke-width" := Get(opts, "strokewidth")]);
    var rest := Shape(Path(a.rest), map["stroke" := Get(opts, "meshcolor"), "stroke-width" := Get(opts, "meshwidth")]);
    var point := Shape(Circle(a.x, a.y, Get(opts, "circleradius")), map["stroke" := Get(opts, "stroke"), "fill" := Get(opts, "stroke")]);
    [Linked(path, link), Linked(rest, link), Linked(point, link)] +
      if Truthy(Get(opts, "numbers")) then [Linked(NumberLabel(h, a.x, a.y + 1.0, i, Get(opts, "numberscolor")), link)] else []
  }

  /** The shapes of the first `n` arms, in drawing order. */
  function ArmShapes(h: Host, opts: Options, arms: seq<ArmGeom>, n: nat): (shapes: seq<Shape>)
    requires n <= |arms|
    ensures |shapes| == Times(PerArm(opts), n)
  {
    if n == 0 then []
    else
      ArmShapes(h, opts, arms, n - 1) + ArmRow(h, opts, arms[n - 1], n - 1)
  }

  /** What `arms[i]` holds once drawn: its endpoint and the handles of its shapes. */
  datatype ArmRecord = ArmRecord(x: real, y: real, path: nat, rest: nat, point: nat, number: Option<nat>)

  /** Arm `i`'s record when the first arm's first shape has handle `base`. */
  function ArmRecordAt(base: nat, opts: Options, arms: seq<ArmGeom>, i: nat): ArmRecord
    requires i < |arms|
  {
    var first := base + Times(PerArm(opts), i);
    ArmRecord(arms[i].x, arms[i].y, first, first + 1, first + 2,
              if Truthy(Get(opts, "numbers")) then Some(first + 3) else None)
  }

  function ArmRecords(base: nat, opts: Options, arms: seq<ArmGeom>, n: nat): (records: seq<ArmRecord>)
    requires n <= |arms|
    ensures |records| == n
    ensures forall i :: 0 <= i < n ==> records[i] == ArmRecordAt(base, opts, arms, i)
  {
    seq(n, i requires 0 <= i < n => ArmRecordAt(base, opts, arms, i))
  }

  /** `cover.push(path, rest, point)` and the number when there is one. */
  function CoverOf(a: ArmRecord): (c: Cover)
    ensures c.legendRow.None?
    ensures |c.members| == if a.number.Some? then 4 else 3
  {
    Cover([a.path, a.rest, a.point] + if a.number.Some? then [a.number.value] else [], None)
  }

  function Covers(records: seq<ArmRecord>): (covers: seq<Cover>)
    ensures |covers| == |records|
    ensures forall i :: 0 <= i < |records| ==> covers[i] == CoverOf(records[i])
  {
    seq(|records|, i requires 0 <= i < |records| => CoverOf(records[i]))
  }

  /** `series.push(arms[i].point)` for every arm. */
  function Series(records: seq<ArmRecord>): (series: seq<nat>)
    ensures |series| == |records|
    ensures forall i :: 0 <= i < |records| ==> series[i] == records[i].point
  {
    seq(|records|, i requires 0 <= i < |records| => records[i].point)
  }

  lemma RecordsSnoc(base: nat, opts: Options, arms: seq<ArmGeom>, n: nat)
    requires n < |arms|
    ensures ArmRecords(base, opts, arms, n + 1) == ArmRecords(base, opts, arms, n) + [ArmRecordAt(base, opts, arms, n)]
  {
  }

  lemma CoversSnoc(records: seq<ArmRecord>, a: ArmRecord)
    ensures Covers(records + [a]) == Covers(records) + [CoverOf(a)]
    ensures Series(records + [a]) == Series(records) + [a.point]
  {
  }

  /** The variables the arm loop updates: the paper, `arms`, `covers` and `series`. */
  datatype ArmProgress = ArmProgress(shapes: seq<Shape>, records: seq<ArmRecord>, covers: seq<Cover>, series: seq<nat>)

  /** What the first `i` passes of the arm loop leave behind, starting from the paper `shapes`. */
  ghost predicate ArmsDrawn(h: Host, opts: Options, arms: seq<ArmGeom>, shapes: seq<Shape>, i: nat, p: ArmProgress)
    requires i <= |arms|
  {
    p.shapes == shapes + ArmShapes(h, opts, arms, i) &&
    p.records == ArmRecords(|shapes|, opts, arms, i) &&
    p.covers == Covers(p.records) && p.series == Series(p.records)
  }

  /**
   * One pass of the arm loop: draws the data path, the rest path, the point
   * and the number, links them, and records the cover and the series marker.
   */
  method DrawArm(h: Host, opts: Options, arms: seq<ArmGeom>, shapes: seq<Shape>, i: nat, p: ArmProgress)
    returns (p': ArmProgress)
    requires i < |arms| && ArmsDrawn(h, opts, arms, shapes, i, p)
    ensures ArmsDrawn(h, opts, arms, shapes, i + 1, p')
  {
    var first := |p.shapes|;
    var drawn := DrawArmShapes(h, opts, arms[i], i);
    var number := if |drawn| == 4 then Some(first + 3) else None;
    var record := ArmRecord(arms[i].x, arms[i].y, first, first + 1, first + 2, number);
    var cover := Cover([record.path, record.rest, record.point] + if record.number.Some? then [record.number.value] else [], None);
    assert record == ArmRecordAt(|shapes|, opts, arms, i);
    RecordsSnoc(|shapes|, opts, arms, i);
    CoversSnoc(p.records, record);
    p' := ArmProgress(p.shapes + drawn, p.records + [record], p.covers + [cover], p.series + [record.point]);
  }

  /** The drawing calls of one pass of the arm loop and the `href` links set on their results. */
  method DrawArmShapes(h: Host, opts: Options, a: ArmGeom, i: nat) returns (drawn: seq<Shape>)
    ensures drawn == ArmRow(h, opts, a, i)
    ensures |drawn| == 4 <==> Truthy(Get(opts, "numbers"))
  {
    var path := Shape(Path(a.path), map["stroke" := Get(opts, "stroke"), "stroke-width" := Get(opts, "strokewidth")]);
    var rest := Shape(Path(a.rest), map["stroke" := Get(opts, "meshcolor"), "stroke-width" := Get(opts, "meshwidth")]);
    var point := Shape(Circle(a.x, a.y, Get(opts, "circleradius")), map["stroke" := Get(opts, "stroke"), "fill" := Get(opts, "stroke")]);
    var number: Option<Shape> := None;
    if Truthy(Get(opts, "numbers")) {
      number := Some(NumberLabel(h, a.x, a.y + 1.0, i, Get(opts, "numberscolor")));
    }
    var href := Get(opts, "href");
    if Truthy(href) && Truthy(Index(href, i)) {
      var link := map["href" := Index(href, i)];
      path := WithAttrs(path, link);
      rest := WithAttrs(rest, link);
      point := WithAttrs(point, link);
      if Truthy(Get(opts, "numbers")) {
        number := Some(WithAttrs(number.value, link));
      }
    }
    drawn := [path, rest, point] + if number.Some? then [number.value] else [];
  }

  /** The drawing loop over the arms (g.radar.js:129-152). */
  method DrawArms(h: Host, opts: Options, arms: seq<ArmGeom>, shapes: seq<Shape>) returns (p: ArmProgress)
    ensures ArmsDrawn(h, opts, arms, shapes, |arms|, p)
  {
    p := ArmProgress(shapes, [], [], []);
    assert ArmRecords(|shapes|, opts, arms, 0) == [];
    for i := 0 to |arms|
      invariant ArmsDrawn(h, opts, arms, shapes, i, p)
    {
      p := DrawArm(h, opts, arms, shapes, i, p);
    }
  }

  /** Every handle arm `i` records lies inside the arms' part of the paper. */
  lemma ArmHandlesInRange(base: nat, opts: Options, arms: seq<ArmGeom>, i: nat)
    requires i < |arms|
    ensures var a := ArmRecordAt(base, opts, arms, i);
      base <= a.path && a.path < a.rest < a.point < base + Times(PerArm(opts), |arms|) &&
      (a.number.Some? ==> a.point < a.number.value < base + Times(PerArm(opts), |arms|))
  {
    TimesMonotone(PerArm(opts), i + 1, |arms|);
  }

  // --------------------------------------------------------------- chart

  /** Why the builder produces no chart. */
  datatype BuildError =
    | EmptyValues    // `arms[0]` is read while building the polygon and `values` is empty
    | ZeroMaximum    // every arm's length divides by `max`

  /**
   * The chart as built: the merged options and the numbers the closures
   * capture, the paper, and the handles of the centre dot, the mesh
   * circles, the polygon, each arm, each cover, each series marker and
   * the legend.
   */
  datatype Chart = Chart(
    opts: Options, values: seq<real>, cx: real, cy: real, total: real, max: real,
    shapes: seq<Shape>, middle: nat, mesh: seq<nat>, web: nat,
    arms: seq<ArmRecord>, covers: seq<Cover>, series: seq<nat>, legend: Option<Layout>)

  /** The paper up to and including the polygon. */
  function Background(h: Host, cx: real, cy: real, r: real, values: seq<real>, opts: Options): (before: seq<Shape>)
    requires |values| > 0 && Max(values) != 0.0
    ensures |before| == |MeshCircles(cx, cy, r, opts)| + 2
  {
    [MiddleDot(cx, cy, opts)] + MeshCircles(cx, cy, r, opts) + [Web(ArmGeoms(h, cx, cy, r, values, Max(values)), opts)]
  }

  /** The chart once the arm loop is done, before the legend. */
  function ArmsChart(h: Host, cx: real, cy: real, r: real, values: seq<real>, opts: Options): (c: Chart)
    requires |values| > 0 && Max(values) != 0.0
    ensures |c.series| == |values|
    ensures forall i :: 0 <= i < |c.series| ==> c.series[i] < |c.shapes|
  {
    var max := Max(values);
    var arms := ArmGeoms(h, cx, cy, r, values, max);
    var before := Background(h, cx, cy, r, values, opts);
    var records := ArmRecords(|before|, opts, arms, |arms|);
    var c := Chart(opts, values, cx, cy, Sum(values), max, before + ArmShapes(h, opts, arms, |arms|), 0,
                   Handles(1, |MeshCircles(cx, cy, r, opts)|), 1 + |MeshCircles(cx, cy, r, opts)|,
                   records, Covers(records), Series(records), None);
    assert forall i :: 0 <= i < |c.series| ==> c.series[i] < |c.shapes| by {
      forall i | 0 <= i < |c.series|
        ensures c.series[i] < |c.shapes|
      {
        ArmHandlesInRange(|before|, opts, arms, i);
      }
    }
    c
  }

  /**
   * The `legend` call on a chart whose arms are drawn: the rows are appended
   * to the paper, each cover gets its row, and nothing drawn before changes.
   */
  function WithLegend(h: Host, r: real, c: Chart): (d: Chart)
    requires |c.series| == |c.values| == |c.covers|
    requires forall i :: 0 <= i < |c.series| ==> c.series[i] < |c.shapes|
    ensures d.arms == c.arms && d.series == c.series && d.mesh == c.mesh && d.web == c.web && d.middle == c.middle
    ensures d.opts == c.opts && d.values == c.values && d.total == c.total && d.max == c.max && d.cx == c.cx && d.cy == c.cy
    ensures |c.shapes| <= |d.shapes| && d.shapes[..|c.shapes|] == c.shapes
    ensures |d.covers| == |c.covers| && forall k :: 0 <= k < |c.covers| ==> d.covers[k].members == c.covers[k].members
    ensures d.legend.Some? && d.legend.value.rows == RowIdList(|c.shapes|, c.opts, |c.values|)
    ensures forall k :: 0 <= k < |c.covers| ==> d.covers[k].legendRow == Some(d.legend.value.rows[k])
  {
    var s := Setup(h, ColumnX(c.cx, r), Get(c.opts, "legend"), c.values, c.total, Fills(c.shapes, c.series), c.opts);
    var rows := Rows(s, c.cy, |c.values|);
    var box := h.groupBox(rows);
    var ids := RowIdList(|c.shapes|, c.opts, |c.values|);
    var dir := Direction(Get(c.opts, "legendpos"));
    assert (c.shapes + rows)[..|c.shapes|] == c.shapes;
    c.(shapes := c.shapes + rows, covers := Labelled(c.covers, ids), legend := Some(Layout(ids, dir, box, Offset(dir, box, r))))
  }

  /** The chart `Radarchart(paper, cx, cy, r, values, opts)` builds, given the merged options. */
  function ExpectedChart(h: Host, cx: real, cy: real, r: real, values: seq<real>, opts: Options): (c: Chart)
    requires |values| > 0 && Max(values) != 0.0
    ensures |c.arms| == |c.covers| == |c.series| == |values|
    ensures c.legend.Some? <==> Truthy(Get(opts, "legend"))
  {
    var c := ArmsChart(h, cx, cy, r, values, opts);
    if Truthy(Get(opts, "legend")) then WithLegend(h, r, c) else c
  }

  /**
   * `Radarchart(paper, cx, cy, r, values, opts)`: merges the options, draws
   * the centre dot, the mesh, the polygon, the arms and, when `opts.legend`
   * is set, the legend. Empty `values` and a zero maximum are reported.
   */
  method Build(h: Host, cx: real, cy: real, r: real, values: seq<real>, opts: Option<Options>)
    returns (res: Result<Chart, BuildError>)
    ensures res == Err(EmptyValues) <==> |values| == 0
    ensures res == Err(ZeroMaximum) <==> |values| > 0 && Max(values) == 0.0
    ensures res.Ok? ==> MergeOf(res.value.opts, opts) && res.value == ExpectedChart(h, cx, cy, r, values, res.value.opts)
  {
    var merged := Merge(opts);
    if |values| == 0 {
      return Err(EmptyValues);
    }
    var max := Max(values);
    if max == 0.0 {
      return Err(ZeroMaximum);
    }
    var total := Total(values);
    var shapes := [MiddleDot(cx, cy, merged)];
    var mesh;
    shapes, mesh := DrawMesh(cx, cy, r, merged, shapes);
    var arms := ComputeArms(h, cx, cy, r, values, max);
    var tokens := BuildPolygon(arms);
    var web := |shapes|;
    shapes := shapes + [Shape(Path(tokens), map["stroke" := Get(merged, "stroke"), "stroke-width" := Get(merged, "strokewidth"),
                                                 "fill" := Get(merged, "stroke"), "fill-opacity" := Num(0.4)])];
    assert shapes == Background(h, cx, cy, r, values, merged);
    var drawn := DrawArms(h, merged, arms, shapes);
    var covers := drawn.covers;
    var legend: Option<Layout> := None;
    shapes := drawn.shapes;
    if Truthy(Get(merged, "legend")) {
      forall i | 0 <= i < |drawn.series|
        ensures drawn.series[i] < |drawn.shapes|
      {
        ArmHandlesInRange(web + 1, merged, arms, i);
      }
      var layout;
      shapes, covers, layout := Legend.Draw(h, ColumnX(cx, r), cy, r, Get(merged, "legend"), values, total, merged,
                                            Get(merged, "legendpos"), drawn.series, drawn.shapes, drawn.covers);
      legend := Some(layout);
    }
    res := Ok(Chart(merged, values, cx, cy, total, max, shapes, 0, mesh, web, drawn.records, covers, drawn.series, legend));
  }

  // ------------------------------------------------------------- lemmas

  /** Arm `i`'s shapes occupy positions `PerArm * i` up to `PerArm * (i + 1)` of the arms' part of the paper. */
  lemma {:induction false} ArmShapesAt(h: Host, opts: Options, arms: seq<ArmGeom>, n: nat, i: nat)
    requires i < n <= |arms|
    ensures Times(PerArm(opts), i) + PerArm(opts) <= |ArmShapes(h, opts, arms, n)|
    ensures ArmShapes(h, opts, arms, n)[Times(PerArm(opts), i) .. Times(PerArm(opts), i) + PerArm(opts)] == ArmRow(h, opts, arms[i], i)
  {
    var p := PerArm(opts);
    var front := ArmShapes(h, opts, arms, n - 1);
    var row := ArmRow(h, opts, arms[n - 1], n - 1);
    assert ArmShapes(h, opts, arms, n) == front + row;
    if i < n - 1 {
      ArmShapesAt(h, opts, arms, n - 1, i);
      SliceFront(front, row, Times(p, i), Times(p, i) + p);
    } else {
      SliceBack(front, row);
    }
  }

  /**
   * Where the arm loop's shapes sit on any paper that starts with the
   * background followed by the arms' shapes: arm `i`'s handles are in range
   * and name that arm's row.
   */
  lemma RowInPaper(h: Host, opts: Options, arms: seq<ArmGeom>, before: seq<Shape>, paper: seq<Shape>, i: nat)
    requires i < |arms|
    requires Starts(paper, before + ArmShapes(h, opts, arms, |arms|))
    ensures var a := ArmRecordAt(|before|, opts, arms, i);
      a.path + PerArm(opts) <= |paper| &&
      paper[a.path .. a.path + PerArm(opts)] == ArmRow(h, opts, arms[i], i)
  {
    var all := ArmShapes(h, opts, arms, |arms|);
    var p := PerArm(opts);
    ArmShapesAt(h, opts, arms, |arms|, i);
    BlockAt(paper, before, all, Times(p, i), p);
  }

  /**
   * What arm `i`'s row is made of: the data path, the rest path, the point
   * at the data endpoint with radius `circleradius` and, when numbers are
   * shown, the number `i + 1` just below the point.
   */
  lemma ArmRowElements(h: Host, opts: Options, a: ArmGeom, i: nat)
    ensures var row := ArmRow(h, opts, a, i);
      row[0].element == Path(a.path) && row[1].element == Path(a.rest) &&
      row[2].element == Circle(a.x, a.y, Get(opts, "circleradius")) &&
      (|row| == 4 <==> Truthy(Get(opts, "numbers"))) &&
      (|row| == 4 ==> row[3].element == Text(a.x, a.y + 1.0, Num((i + 1) as real)))
  {
  }

  /**
   * Each shape of arm `i`'s row carries `href: opts.href[i]` when
   * `opts.href && opts.href[i]` holds; otherwise only the number can carry
   * an `href`, and only one taken from `txtattr`.
   */
  lemma ArmRowLinks(h: Host, opts: Options, a: ArmGeom, i: nat)
    ensures var row := ArmRow(h, opts, a, i);
      var link := HrefAt(Get(opts, "href"), i);
      (link.Some? ==> forall k :: 0 <= k < |row| ==> "href" in row[k].attrs && row[k].attrs["href"] == link.value) &&
      (link.None? ==> forall k :: 0 <= k < |row| ==> ("href" in row[k].attrs <==> k == 3 && "href" in h.txtattr))
  {
  }

  /** Before the legend, the paper is the background followed by the arms' shapes. */
  lemma ArmsLayout(h: Host, cx: real, cy: real, r: real, values: seq<real>, opts: Options)
    requires |values| > 0 && Max(values) != 0.0
    ensures var c := ArmsChart(h, cx, cy, r, values, opts);
      var arms := ArmGeoms(h, cx, cy, r, values, Max(values));
      var before := Background(h, cx, cy, r, values, opts);
      c.shapes == before + ArmShapes(h, opts, arms, |arms|) &&
      c.arms == ArmRecords(|before|, opts, arms, |arms|) &&
      c.covers == Covers(c.arms) && c.series == Series(c.arms) &&
      c.mesh == Handles(1, |MeshCircles(cx, cy, r, opts)|) && c.middle == 0 && c.web == |before| - 1
  {
  }

  /**
   * A chart whose paper starts with `before` and the shapes of `arms`,
   * whose arm records are the ones the arm loop makes from there, and whose
   * covers group each arm's shapes.
   */
  ghost predicate ArmsLaidOut(h: Host, opts: Options, before: seq<Shape>, arms: seq<ArmGeom>, c: Chart)
  {
    Starts(c.shapes, before + ArmShapes(h, opts, arms, |arms|)) &&
    c.arms == ArmRecords(|before|, opts, arms, |arms|) &&
    |c.covers| == |c.arms| &&
    forall k :: 0 <= k < |c.covers| ==> c.covers[k].members == CoverOf(c.arms[k]).members
  }

  /**
   * The chart's paper starts with the centre dot, the mesh circles, the
   * polygon and the arms' shapes, in that order, the arm records are the
   * ones the arm loop makes from there, and each cover groups its arm's shapes.
   */
  lemma ChartLayout(h: Host, cx: real, cy: real, r: real, values: seq<real>, opts: Options)
    requires |values| > 0 && Max(values) != 0.0
    ensures ArmsLaidOut(h, opts, Background(h, cx, cy, r, values, opts), ArmGeoms(h, cx, cy, r, values, Max(values)),
                        ExpectedChart(h, cx, cy, r, values, opts))
  {
    var b := ArmsChart(h, cx, cy, r, values, opts);
    var before := Background(h, cx, cy, r, values, opts);
    var arms := ArmGeoms(h, cx, cy, r, values, Max(values));
    ArmsChartLaidOut(h, cx, cy, r, values, opts);
    if Truthy(Get(opts, "legend")) {
      LaidOutKept(h, opts, before, arms, b, WithLegend(h, r, b));
    }
  }

  /** Before the legend, the chart is laid out as the arm loop leaves it. */
  lemma ArmsChartLaidOut(h: Host, cx: real, cy: real, r: real, values: seq<real>, opts: Options)
    requires |values| > 0 && Max(values) != 0.0
    ensures ArmsLaidOut(h, opts, Background(h, cx, cy, r, values, opts), ArmGeoms(h, cx, cy, r, values, Max(values)),
                        ArmsChart(h, cx, cy, r, values, opts))
  {
    ArmsLayout(h, cx, cy, r, values, opts);
    LaidOutByLoop(h, opts, Background(h, cx, cy, r, values, opts), ArmGeoms(h, cx, cy, r, values, Max(values)),
                  ArmsChart(h, cx, cy, r, values, opts));
  }

  /** A chart made of `before`, the arm loop's shapes, records and covers is laid out. */
  lemma LaidOutByLoop(h: Host, opts: Options, before: seq<Shape>, arms: seq<ArmGeom>, c: Chart)
    requires c.shapes == before + ArmShapes(h, opts, arms, |arms|)
    requires c.arms == ArmRecords(|before|, opts, arms, |arms|) && c.covers == Covers(c.arms)
    ensures ArmsLaidOut(h, opts, before, arms, c)
  {
    assert c.shapes[..|c.shapes|] == c.shapes;
  }

  /** Drawing more shapes after the arms, and labelling the covers, keeps the arms' layout. */
  lemma LaidOutKept(h: Host, opts: Options, before: seq<Shape>, arms: seq<ArmGeom>, b: Chart, d: Chart)
    requires ArmsLaidOut(h, opts, before, arms, b)
    requires Starts(d.shapes, b.shapes) && d.arms == b.arms && |d.covers| == |b.covers|
    requires forall k :: 0 <= k < |b.covers| ==> d.covers[k].members == b.covers[k].members
    ensures ArmsLaidOut(h, opts, before, arms, d)
  {
    StartsTrans(d.shapes, b.shapes, before + ArmShapes(h, opts, arms, |arms|));
  }

  /**
   * The chart's counts: one centre dot, the mesh circles, one polygon,
   * `PerArm` shapes per value and, with a legend, `PerRow` more per value;
   * `arms`, `covers` and `series` have one entry per value.
   */
  lemma ChartCounts(h: Host, cx: real, cy: real, r: real, values: seq<real>, opts: Options)
    requires |values| > 0 && Max(values) != 0.0
    ensures var c := ExpectedChart(h, cx, cy, r, values, opts);
      |c.arms| == |c.covers| == |c.series| == |values| &&
      |c.mesh| == |MeshCircles(cx, cy, r, opts)| &&
      c.middle == 0 && c.web == |c.mesh| + 1 &&
      c.values == values && c.cx == cx && c.cy == cy && c.max == Max(values) && c.total == Sum(values) &&
      (c.legend.Some? <==> Truthy(Get(opts, "legend"))) &&
      (c.legend.Some? ==> |c.legend.value.rows| == |values|) &&
      |c.shapes| == 2 + |c.mesh| + PerArm(opts) * |values| +
        (if Truthy(Get(opts, "legend")) then PerRow(opts) * |values| else 0)
  {
    TimesIsProduct(PerArm(opts), |values|);
    TimesIsProduct(PerRow(opts), |values|);
  }

  /**
   * Arm `i`'s record, its cover and its series marker agree: the series
   * marker is the arm's point, the cover holds the data path, the rest
   * path, the point and then the number, and the number exists exactly
   * when numbers are shown.
   */
  lemma ChartArmHandles(h: Host, cx: real, cy: real, r: real, values: seq<real>, opts: Options, i: nat)
    requires |values| > 0 && Max(values) != 0.0 && i < |values|
    ensures var c := ExpectedChart(h, cx, cy, r, values, opts);
      |c.arms| == |c.covers| == |c.series| == |values| &&
      var a := c.arms[i];
      var g := ArmAt(h, cx, cy, r, values, Max(values), i);
      a.x == g.x && a.y == g.y &&
      c.series[i] == a.point &&
      c.covers[i].members == [a.path, a.rest, a.point] + (if a.number.Some? then [a.number.value] else []) &&
      (a.number.Some? <==> Truthy(Get(opts, "numbers"))) &&
      a.rest == a.path + 1 && a.point == a.path + 2 && (a.number.Some? ==> a.number.value == a.path + 3) &&
      a.path == c.web + 1 + Times(PerArm(opts), i)
  {
    var b := ArmsChart(h, cx, cy, r, values, opts);
    ArmsLayout(h, cx, cy, r, values, opts);
    if Truthy(Get(opts, "legend")) {
      assert ExpectedChart(h, cx, cy, r, values, opts) == WithLegend(h, r, b);
    } else {
      assert ExpectedChart(h, cx, cy, r, values, opts) == b;
    }
  }

  /** The number label of arm `i`: the text `i + 1` one unit below the arm's endpoint. */
  function NumberText(a: ArmRecord, i: nat): Element
  {
    Text(a.x, a.y + 1.0, Num((i + 1) as real))
  }

  /**
   * On a paper that starts with `before` followed by the arms' shapes, the
   * shapes behind the handles of arm `i`'s record are that arm's row.
   */
  lemma RecordShapes(h: Host, opts: Options, arms: seq<ArmGeom>, before: seq<Shape>, paper: seq<Shape>, i: nat)
    requires i < |arms|
    requires Starts(paper, before + ArmShapes(h, opts, arms, |arms|))
    ensures var a := ArmRecordAt(|before|, opts, arms, i);
      var link := HrefAt(Get(opts, "href"), i);
      a.point < |paper| && (a.number.Some? ==> a.number.value < |paper|) &&
      paper[a.path].element == Path(arms[i].path) &&
      paper[a.rest].element == Path(arms[i].rest) &&
      a.x == arms[i].x && a.y == arms[i].y &&
      paper[a.point].element == Circle(a.x, a.y, Get(opts, "circleradius")) &&
      (a.number.Some? ==> paper[a.number.value].element == NumberText(a, i)) &&
      (link.Some? ==> forall t :: t in CoverOf(a).members ==>
         t < |paper| && "href" in paper[t].attrs && paper[t].attrs["href"] == link.value)
  {
    RowInPaper(h, opts, arms, before, paper, i);
    RecordElements(h, opts, arms[i], ArmRecordAt(|before|, opts, arms, i), paper, i);
    RecordLinks(h, opts, arms[i], ArmRecordAt(|before|, opts, arms, i), paper, i);
  }

  /** The elements behind the handles of a record whose row sits at its `path` handle. */
  lemma RecordElements(h: Host, opts: Options, g: ArmGeom, a: ArmRecord, paper: seq<Shape>, i: nat)
    requires a.x == g.x && a.y == g.y && a.rest == a.path + 1 && a.point == a.path + 2
    requires a.number.Some? <==> Truthy(Get(opts, "numbers"))
    requires a.number.Some? ==> a.number.value == a.path + 3
    requires a.path + PerArm(opts) <= |paper| && paper[a.path .. a.path + PerArm(opts)] == ArmRow(h, opts, g, i)
    ensures a.point < |paper| && (a.number.Some? ==> a.number.value < |paper|)
    ensures paper[a.path].element == Path(g.path) && paper[a.rest].element == Path(g.rest)
    ensures paper[a.point].element == Circle(a.x, a.y, Get(opts, "circleradius"))
    ensures a.number.Some? ==> paper[a.number.value].element == NumberText(a, i)
  {
    var row := ArmRow(h, opts, g, i);
    ArmRowElements(h, opts, g, i);
    SliceAt(paper, a.path, row, 0);
    SliceAt(paper, a.path, row, 1);
    SliceAt(paper, a.path, row, 2);
    if a.number.Some? {
      SliceAt(paper, a.path, row, 3);
    }
  }

  /** With `href[i]` set, every member of the record's cover carries it. */
  lemma RecordLinks(h: Host, opts: Options, g: ArmGeom, a: ArmRecord, paper: seq<Shape>, i: nat)
    requires a.rest == a.path + 1 && a.point == a.path + 2
    requires a.number.Some? <==> Truthy(Get(opts, "numbers"))
    requires a.number.Some? ==> a.number.value == a.path + 3
    requires a.path + PerArm(opts) <= |paper| && paper[a.path .. a.path + PerArm(opts)] == ArmRow(h, opts, g, i)
    ensures var link := HrefAt(Get(opts, "href"), i);
      link.Some? ==> forall t :: t in CoverOf(a).members ==>
        t < |paper| && "href" in paper[t].attrs && paper[t].attrs["href"] == link.value
  {
    var row := ArmRow(h, opts, g, i);
    var link := HrefAt(Get(opts, "href"), i);
    if link.Some? {
      ArmRowLinks(h, opts, g, i);
      forall t | t in CoverOf(a).members
        ensures t < |paper| && "href" in paper[t].attrs && paper[t].attrs["href"] == link.value
      {
        SliceAt(paper, a.path, row, t - a.path);
      }
    }
  }

  /**
   * The shapes behind arm `i`'s handles in the built chart: the data path
   * from the centre and the rest path out to the rim, the point at the data
   * endpoint, the number `i + 1` when numbers are shown, and `href[i]` on
   * every member of its cover when it is set.
   */
  lemma ChartArmShapes(h: Host, opts: Options, before: seq<Shape>, arms: seq<ArmGeom>, c: Chart, i: nat)
    requires i < |arms|
    requires ArmsLaidOut(h, opts, before, arms, c)
    ensures |c.arms| == |c.covers| == |arms|
    ensures var a := c.arms[i];
      var link := HrefAt(Get(opts, "href"), i);
      a.x == arms[i].x && a.y == arms[i].y &&
      a.point < |c.shapes| && (a.number.Some? ==> a.number.value < |c.shapes|) &&
      c.covers[i].members == [a.path, a.rest, a.point] + (if a.number.Some? then [a.number.value] else []) &&
      c.shapes[a.path].element == Path(arms[i].path) &&
      c.shapes[a.rest].element == Path(arms[i].rest) &&
      c.shapes[a.point].element == Circle(a.x, a.y, Get(opts, "circleradius")) &&
      (a.number.Some? <==> Truthy(Get(opts, "numbers"))) &&
      (a.number.Some? ==> c.shapes[a.number.value].element == NumberText(a, i)) &&
      (link.Some? ==> forall t :: t in c.covers[i].members ==>
         t < |c.shapes| && "href" in c.shapes[t].attrs && c.shapes[t].attrs["href"] == link.value)
  {
    RecordShapes(h, opts, arms, before, c.shapes, i);
    assert c.arms[i] == ArmRecordAt(|before|, opts, arms, i);
  }

  /** A paper that begins with a dot, some circles and a polygon holds each of them at its position. */
  lemma BackgroundAt(paper: seq<Shape>, dot: Shape, circles: seq<Shape>, web: Shape)
    requires Starts(paper, [dot] + circles + [web])
    ensures |circles| + 1 < |paper|
    ensures paper[0] == dot && paper[|circles| + 1] == web
    ensures forall k :: 0 <= k < |circles| ==> paper[1 + k] == circles[k]
  {
    var front := [dot] + circles + [web];
    StartsAt(paper, front, 0);
    StartsAt(paper, front, |circles| + 1);
    forall k | 0 <= k < |circles|
      ensures paper[1 + k] == circles[k]
    {
      StartsAt(paper, front, 1 + k);
    }
  }

  /** A paper that begins with `front + rest` begins with `front`. */
  lemma StartsFront(paper: seq<Shape>, front: seq<Shape>, rest: seq<Shape>)
    requires Starts(paper, front + rest)
    ensures Starts(paper, front)
  {
    assert (front + rest)[..|front|] == front;
    StartsTrans(paper, front + rest, front);
  }

  /**
   * The built chart's paper begins with the background, and its handles
   * `middle`, `mesh` and `web` point into it.
   */
  lemma ChartStartsWithBackground(h: Host, cx: real, cy: real, r: real, values: seq<real>, opts: Options)
    requires |values| > 0 && Max(values) != 0.0
    ensures var c := ExpectedChart(h, cx, cy, r, values, opts);
      var n := |MeshCircles(cx, cy, r, opts)|;
      Starts(c.shapes, Background(h, cx, cy, r, values, opts)) &&
      c.middle == 0 && c.mesh == Handles(1, n) && c.web == n + 1
  {
    var before := Background(h, cx, cy, r, values, opts);
    var arms := ArmGeoms(h, cx, cy, r, values, Max(values));
    ChartLayout(h, cx, cy, r, values, opts);
    StartsFront(ExpectedChart(h, cx, cy, r, values, opts).shapes, before, ArmShapes(h, opts, arms, |arms|));
    ArmsLayout(h, cx, cy, r, values, opts);
  }

  /**
   * The background of the built chart: handle `middle` is the centre dot of
   * radius 5 in the mesh colour, the mesh handles name the mesh circles in
   * order, and handle `web` is the polygon through the arm endpoints.
   */
  lemma ChartBackground(h: Host, cx: real, cy: real, r: real, values: seq<real>, opts: Options)
    requires |values| > 0 && Max(values) != 0.0
    ensures var c := ExpectedChart(h, cx, cy, r, values, opts);
      var circles := MeshCircles(cx, cy, r, opts);
      c.middle == 0 && c.mesh == Handles(1, |circles|) && c.web == |circles| + 1 && c.web < |c.shapes| &&
      c.shapes[c.middle] == MiddleDot(cx, cy, opts) &&
      (forall k :: 0 <= k < |circles| ==> c.shapes[c.mesh[k]] == circles[k]) &&
      c.shapes[c.web] == Web(ArmGeoms(h, cx, cy, r, values, Max(values)), opts)
  {
    ChartStartsWithBackground(h, cx, cy, r, values, opts);
    HandlesNameBackground(ExpectedChart(h, cx, cy, r, values, opts), MiddleDot(cx, cy, opts),
                          MeshCircles(cx, cy, r, opts), Web(ArmGeoms(h, cx, cy, r, values, Max(values)), opts));
  }

  /**
   * In any chart whose paper begins with a dot, some circles and a polygon,
   * and whose handles point at them, the handles name those shapes.
   */
  lemma HandlesNameBackground(c: Chart, dot: Shape, circles: seq<Shape>, web: Shape)
    requires Starts(c.shapes, [dot] + circles + [web])
    requires c.middle == 0 && c.mesh == Handles(1, |circles|) && c.web == |circles| + 1
    ensures c.web < |c.shapes| && c.shapes[c.middle] == dot && c.shapes[c.web] == web
    ensures forall k :: 0 <= k < |circles| ==> c.shapes[c.mesh[k]] == circles[k]
  {
    BackgroundAt(c.shapes, dot, circles, web);
  }

  /**
   * `covers[k].label` on the built chart: legend row `k` when a legend was
   * drawn, and no label otherwise.
   */
  lemma ChartCoverLabels(h: Host, cx: real, cy: real, r: real, values: seq<real>, opts: Options)
    requires |values| > 0 && Max(values) != 0.0
    ensures var c := ExpectedChart(h, cx, cy, r, values, opts);
      |c.covers| == |values| &&
      (c.legend.Some? ==> |c.legend.value.rows| == |values|) &&
      forall k :: 0 <= k < |values| ==>
        c.covers[k].legendRow == (if c.legend.Some? then Some(c.legend.value.rows[k]) else None)
  {
    var b := ArmsChart(h, cx, cy, r, values, opts);
    ArmsLayout(h, cx, cy, r, values, opts);
    assert forall k :: 0 <= k < |values| ==> b.covers[k].legendRow.None?;
    if Truthy(Get(opts, "legend")) {
      assert ExpectedChart(h, cx, cy, r, values, opts) == WithLegend(h, r, b);
    }
  }

  /** The legend setup of the built chart: the column, the labels, the values, their total and the series fills. */
  function LegendSetup(h: Host, cx: real, cy: real, r: real, values: seq<real>, opts: Options): (s: Setup)
    requires |values| > 0 && Max(values) != 0.0
    ensures Fits(s) && s.values == values && s.opts == opts
  {
    var b := ArmsChart(h, cx, cy, r, values, opts);
    ArmsLayout(h, cx, cy, r, values, opts);
    Setup(h, ColumnX(cx, r), Get(opts, "legend"), values, Sum(values), Fills(b.shapes, b.series), opts)
  }

  /**
   * With `opts.legend` set, the built chart's paper is the arms' chart
   * followed by the legend's rows; the legend records the lower-cased
   * `legendpos`, the rows' bounding box and the offset the table gives for
   * that direction and box.
   */
  lemma ChartLegend(h: Host, cx: real, cy: real, r: real, values: seq<real>, opts: Options)
    requires |values| > 0 && Max(values) != 0.0 && Truthy(Get(opts, "legend"))
    ensures var b := ArmsChart(h, cx, cy, r, values, opts);
      var c := ExpectedChart(h, cx, cy, r, values, opts);
      var rows := Rows(LegendSetup(h, cx, cy, r, values, opts), cy, |values|);
      c.legend.Some? &&
      c.shapes == b.shapes + rows &&
      c.legend.value.rows == RowIdList(|b.shapes|, opts, |values|) &&
      c.legend.value.dir == Direction(Get(opts, "legendpos")) &&
      c.legend.value.box == h.groupBox(rows) &&
      c.legend.value.offset == Offset(c.legend.value.dir, c.legend.value.box, r)
  {
    var b := ArmsChart(h, cx, cy, r, values, opts);
    ArmsLayout(h, cx, cy, r, values, opts);
    assert ExpectedChart(h, cx, cy, r, values, opts) == WithLegend(h, r, b);
  }

  /**
   * With `opts.legend` set, legend row `k` of the built chart names, in
   * order, the shapes of row `k` at its running height: the mark, the text
   * and, when numbers are shown, the number.
   */
  lemma ChartLegendRow(h: Host, cx: real, cy: real, r: real, values: seq<real>, opts: Options, k: nat)
    requires |values| > 0 && Max(values) != 0.0 && Truthy(Get(opts, "legend")) && k < |values|
    ensures var c := ExpectedChart(h, cx, cy, r, values, opts);
      var s := LegendSetup(h, cx, cy, r, values, opts);
      c.legend.Some? && |c.legend.value.rows| == |values| &&
      |c.legend.value.rows[k]| == PerRow(opts) &&
      forall j :: 0 <= j < PerRow(opts) ==>
        c.legend.value.rows[k][j] < |c.shapes| && c.shapes[c.legend.value.rows[k][j]] == Row(s, k, RowY(s, cy, k))[j]
  {
    ChartLegend(h, cx, cy, r, values, opts);
    RowsOnPaper(LegendSetup(h, cx, cy, r, values, opts), cy, ArmsChart(h, cx, cy, r, values, opts).shapes, k);
  }
}
