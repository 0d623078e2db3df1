/**
 * The legend (g.radar.js:244-285): one row per value, a column anchored at
 * `cx + r + r / 5`, rows advancing by 1.2 times the height of their text,
 * and the whole group translated by an offset chosen by direction.
 */
module Legend {
  import opened Values
  import opened Surface
  import opened Options
  import opened Seqs

  /** What the legend reads from the chart being built; `fills` are the series markers' fill colours. */
  datatype Setup = Setup(h: Host, x: real, labels: Value, values: seq<real>, total: real, fills: seq<Value>, opts: Options)

  ghost predicate Fits(s: Setup)
  {
    |s.fills| == |s.values|
  }

  /** The left edge of the legend column. */
  function ColumnX(cx: real, r: real): (x: real)
    ensures r >= 0.0 ==> x >= cx + r
  {
    cx + r + r / 5.0
  }

  /** The y coordinate of the first row. */
  function FirstRowY(cy: real): real
  {
    cy + 10.0
  }

  /**
   * The text of row `i`. An array of labels has entry `i` replaced by
   * `labelise(labels[i], values[i], total)` before it is read; any other
   * truthy value ignores the assignment. An empty text shows the value.
   */
  function LabelText(s: Setup, i: nat): (t: Value)
    requires i < |s.values|
    ensures Truthy(t) || t == Num(s.values[i])
  {
    var labels := Or(s.labels, List([]));
    var value := Num(s.values[i]);
    if labels.List? then Or(s.h.labelise(Index(labels, i), s.values[i], s.total), value)
    else Or(Index(labels, i), value)
  }

  /**
   * Which text row `i` shows, case by case: the labelised entry of an array
   * of labels, the entry of any other truthy legend, the labelised
   * `undefined` of a falsy one, and the value itself when that is empty.
   */
  lemma LabelTextCases(s: Setup, i: nat)
    requires i < |s.values|
    // an array of labels: the labelised entry, or the value when that is empty
    ensures s.labels.List? ==>
      var l := s.h.labelise(Index(s.labels, i), s.values[i], s.total);
      (Truthy(l) ==> LabelText(s, i) == l) && (!Truthy(l) ==> LabelText(s, i) == Num(s.values[i]))
    // any other truthy legend (a string): its own entry `i`, or the value
    ensures Truthy(s.labels) && !s.labels.List? ==>
      (Truthy(Index(s.labels, i)) ==> LabelText(s, i) == Index(s.labels, i)) &&
      (!Truthy(Index(s.labels, i)) ==> LabelText(s, i) == Num(s.values[i]))
    // a falsy legend reads as `[]`, whose entry `i` is `undefined`
    ensures !Truthy(s.labels) ==>
      var l := s.h.labelise(Undefined, s.values[i], s.total);
      (Truthy(l) ==> LabelText(s, i) == l) && (!Truthy(l) ==> LabelText(s, i) == Num(s.values[i]))
  {
  }

  /** Shapes per row: the mark, the text and, when numbers are shown, the number. */
  function PerRow(opts: Options): nat
  {
    if Truthy(Get(opts, "numbers")) then 3 else 2
  }

  /** The bullet of row `i`: `paper.circle(x + 5, h, 8)` in the marker's colour. */
  function Mark(s: Setup, i: nat, y: real): Shape
    requires Fits(s) && i < |s.values|
  {
    Shape(Circle(s.x + 5.0, y, Num(8.0)), map["fill" := s.fills[i], "stroke" := Str("none")])
  }

  /** The text of row `i`: `paper.text(x + 20, h, ...)`, left-anchored. */
  function Caption(s: Setup, i: nat, y: real): Shape
    requires i < |s.values|
  {
    WithAttrs(WithAttrs(Shape(Text(s.x + 20.0, y, LabelText(s, i)), map[]), s.h.txtattr),
              map["fill" := Or(Get(s.opts, "legendcolor"), Str("#000")), "text-anchor" := Str("start")])
  }

  /** The shapes of row `i` at height `y`, before the legend is translated. */
  function Row(s: Setup, i: nat, y: real): (row: seq<Shape>)
    requires Fits(s) && i < |s.values|
    ensures |row| == PerRow(s.opts)
  {
    var link := HrefAt(Get(s.opts, "href"), i);
    [Linked(Mark(s, i, y), link), Linked(Caption(s, i, y), link)] +
      if Truthy(Get(s.opts, "numbers")) then [Linked(NumberLabel(s.h, s.x + 5.0, y + 1.0, i, Get(s.opts, "numberscolor")), link)] else []
  }

  /** `h += txt.getBBox().height * 1.2`. */
  function NextY(h: Host, y: real, txt: Shape): real
  {
    y + h.textHeight(txt) * 1.2
  }

  /** The running `h`: the height of row `i`. */
  function RowY(s: Setup, cy: real, i: nat): real
    requires Fits(s) && i <= |s.values|
  {
    if i == 0 then FirstRowY(cy)
    else
      var y := RowY(s, cy, i - 1);
      NextY(s.h, y, Linked(Caption(s, i - 1, y), HrefAt(Get(s.opts, "href"), i - 1)))
  }

  /** The shapes of the first `n` rows, in drawing order. */
  function Rows(s: Setup, cy: real, n: nat): (shapes: seq<Shape>)
    requires Fits(s) && n <= |s.values|
    ensures |shapes| == Times(PerRow(s.opts), n)
  {
    if n == 0 then []
    else
      var front := Rows(s, cy, n - 1);
      front + Row(s, n - 1, RowY(s, cy, n - 1))
  }

  /** The first `m` rows stay where they were drawn while later rows are added. */
  lemma {:induction false} RowsPrefix(s: Setup, cy: real, m: nat, n: nat)
    requires Fits(s) && m <= n <= |s.values|
    ensures |Rows(s, cy, m)| <= |Rows(s, cy, n)|
    ensures Rows(s, cy, n)[..|Rows(s, cy, m)|] == Rows(s, cy, m)
  {
    if m < n {
      RowsPrefix(s, cy, m, n - 1);
      PrefixOfAppend(Rows(s, cy, n - 1), Row(s, n - 1, RowY(s, cy, n - 1)), |Rows(s, cy, m)|);
    }
  }

  /** The last of the first `i + 1` rows is row `i`, after `PerRow * i` shapes. */
  lemma RowsLast(s: Setup, cy: real, i: nat)
    requires Fits(s) && i < |s.values|
    ensures Times(PerRow(s.opts), i) + PerRow(s.opts) == |Rows(s, cy, i + 1)|
    ensures Rows(s, cy, i + 1)[Times(PerRow(s.opts), i) .. Times(PerRow(s.opts), i) + PerRow(s.opts)] == Row(s, i, RowY(s, cy, i))
  {
    SliceBack(Rows(s, cy, i), Row(s, i, RowY(s, cy, i)));
  }

  /** Drawing row `n - 1` leaves the slices of the rows before it unchanged. */
  lemma RowsKeep(s: Setup, cy: real, n: nat, a: nat, b: nat)
    requires Fits(s) && 0 < n <= |s.values| && a <= b <= |Rows(s, cy, n - 1)|
    ensures b <= |Rows(s, cy, n)| && Rows(s, cy, n)[a .. b] == Rows(s, cy, n - 1)[a .. b]
  {
    SliceFront(Rows(s, cy, n - 1), Row(s, n - 1, RowY(s, cy, n - 1)), a, b);
  }

  /** Row `i`'s shapes occupy positions `PerRow * i` up to `PerRow * (i + 1)` of the legend group. */
  lemma {:induction false} RowsAt(s: Setup, cy: real, n: nat, i: nat)
    requires Fits(s) && i < n <= |s.values|
    ensures Times(PerRow(s.opts), i) + PerRow(s.opts) <= |Rows(s, cy, n)|
    ensures Rows(s, cy, n)[Times(PerRow(s.opts), i) .. Times(PerRow(s.opts), i) + PerRow(s.opts)] == Row(s, i, RowY(s, cy, i))
  {
    if n == i + 1 {
      RowsLast(s, cy, i);
    } else {
      RowsAt(s, cy, n - 1, i);
      RowsKeep(s, cy, n, Times(PerRow(s.opts), i), Times(PerRow(s.opts), i) + PerRow(s.opts));
    }
  }

  /**
   * On a paper that ends with the legend's rows, the handles of row `k` name
   * the shapes of row `k`, in order.
   */
  lemma RowsOnPaper(s: Setup, cy: real, front: seq<Shape>, k: nat)
    requires Fits(s) && k < |s.values|
    ensures var paper := front + Rows(s, cy, |s.values|);
      var ids := RowIdList(|front|, s.opts, |s.values|)[k];
      |ids| == PerRow(s.opts) &&
      forall j :: 0 <= j < |ids| ==> ids[j] < |paper| && paper[ids[j]] == Row(s, k, RowY(s, cy, k))[j]
  {
    RowsAt(s, cy, |s.values|, k);
    BlockAfterFront(front, Rows(s, cy, |s.values|), Times(PerRow(s.opts), k), Row(s, k, RowY(s, cy, k)),
                    RowIdList(|front|, s.opts, |s.values|)[k]);
  }

  /**
   * Row `i` at height `y`: a circle of radius 8 at `x + 5` in the series
   * marker's fill, the text at `x + 20` and, when numbers are shown, the
   * number `i + 1` at `x + 5` just below; with `href[i]` set, every shape
   * of the row carries it.
   */
  lemma RowParts(s: Setup, i: nat, y: real)
    requires Fits(s) && i < |s.values|
    ensures var row := Row(s, i, y);
      var link := HrefAt(Get(s.opts, "href"), i);
      row[0].element == Circle(s.x + 5.0, y, Num(8.0)) && Get(row[0].attrs, "fill") == s.fills[i] &&
      row[1].element == Text(s.x + 20.0, y, LabelText(s, i)) &&
      (|row| == 3 <==> Truthy(Get(s.opts, "numbers"))) &&
      (|row| == 3 ==> row[2].element == Text(s.x + 5.0, y + 1.0, Num((i + 1) as real))) &&
      (link.Some? ==> forall k :: 0 <= k < |row| ==> "href" in row[k].attrs && row[k].attrs["href"] == link.value)
  {
  }

  /** The first row is at `cy + 10`; each next row is 1.2 times the previous row's text height further down. */
  lemma RowAdvance(s: Setup, cy: real, i: nat)
    requires Fits(s) && i < |s.values|
    ensures RowY(s, cy, 0) == cy + 10.0
    ensures RowY(s, cy, i + 1) == RowY(s, cy, i) + 1.2 * s.h.textHeight(Row(s, i, RowY(s, cy, i))[1])
  {
  }

  /** When every text has positive height, each row lies strictly below the ones before it. */
  lemma {:induction false} RowsDescend(s: Setup, cy: real, i: nat, k: nat)
    requires Fits(s) && i < k <= |s.values|
    requires forall t: Shape :: s.h.textHeight(t) > 0.0
    ensures RowY(s, cy, i) < RowY(s, cy, k)
  {
    var y := RowY(s, cy, k - 1);
    assert s.h.textHeight(Row(s, k - 1, y)[1]) > 0.0;
    if i < k - 1 {
      RowsDescend(s, cy, i, k - 1);
    }
  }

  /** `(dir && dir.toLowerCase && dir.toLowerCase()) || "east"`. */
  function Direction(dir: Value): (d: string)
    ensures d != ""
    ensures forall i :: 0 <= i < |d| ==> !IsUpper(d[i])
    ensures !dir.Str? ==> d == "east"
    ensures dir.Str? && dir.s == "" ==> d == "east"
    ensures dir.Str? && dir.s != "" ==> d == Lower(dir.s)
  {
    if dir.Str? && dir.s != "" then Lower(dir.s) else "east"
  }

  /** The translation of the legend group for direction `dir`, from the table at lines 276-281. */
  function Offset(dir: string, box: Box, r: real): Option<(real, real)>
  {
    if dir == "east" then Some((0.0, -box.height / 2.0))
    else if dir == "west" then Some((-box.width - 2.0 * r - 20.0, -box.height / 2.0))
    else if dir == "north" then Some((-r - box.width / 2.0, -r - box.height - 10.0))
    else if dir == "south" then Some((-r - box.width / 2.0, r + 10.0))
    else None
  }

  /**
   * The four placements: east and west centre the box vertically on the
   * column's anchor; west moves it left past the box, the chart's diameter
   * and 20 more; north and south centre it horizontally on `cx + r / 5`,
   * with the box above the chart's top by 10 or below its bottom by 10.
   * Any other direction has no entry.
   */
  lemma OffsetTable(dir: Value, box: Box, r: real)
    ensures var o := Offset(Direction(dir), box, r);
      (!dir.Str? || dir.s == "" ==> o == Some((0.0, -box.height / 2.0))) &&
      (Direction(dir) == "east" ==> o == Some((0.0, -box.height / 2.0))) &&
      (o.Some? <==> Direction(dir) in {"east", "west", "north", "south"}) &&
      (Direction(dir) == "west" ==> o == Some((-box.width - 2.0 * r - 20.0, -box.height / 2.0))) &&
      (Direction(dir) == "north" ==> o == Some((-r - box.width / 2.0, -r - box.height - 10.0))) &&
      (Direction(dir) == "south" ==> o == Some((-r - box.width / 2.0, r + 10.0)))
  {
  }

  /** The handles of a row whose first shape has handle `base`. */
  function RowIds(base: nat, opts: Options): (ids: seq<nat>)
    ensures |ids| == PerRow(opts)
    ensures forall j :: 0 <= j < |ids| ==> ids[j] == base + j
  {
    [base, base + 1] + if Truthy(Get(opts, "numbers")) then [base + 2] else []
  }

  /** The handles of the first `n` rows when the legend's first shape has handle `base`. */
  function RowIdList(base: nat, opts: Options, n: nat): (ids: seq<seq<nat>>)
    ensures |ids| == n
    ensures forall k :: 0 <= k < n ==> ids[k] == RowIds(base + Times(PerRow(opts), k), opts)
  {
    if n == 0 then [] else RowIdList(base, opts, n - 1) + [RowIds(base + Times(PerRow(opts), n - 1), opts)]
  }

  lemma RowIdListSnoc(base: nat, opts: Options, n: nat, ids: seq<nat>)
    requires ids == RowIds(base + Times(PerRow(opts), n), opts)
    ensures RowIdList(base, opts, n) + [ids] == RowIdList(base, opts, n + 1)
  {
  }

  /** `covers[k].label = chart.labels[k]` for the first `|rows|` covers. */
  function Labelled(covers: seq<Cover>, rows: seq<seq<nat>>): (labelled: seq<Cover>)
    requires |rows| <= |covers|
    ensures |labelled| == |covers|
    ensures forall k :: 0 <= k < |rows| ==> labelled[k] == covers[k].(legendRow := Some(rows[k]))
    ensures forall k :: |rows| <= k < |covers| ==> labelled[k] == covers[k]
  {
    seq(|covers|, k requires 0 <= k < |covers| => if k < |rows| then covers[k].(legendRow := Some(rows[k])) else covers[k])
  }

  /** Labelling one more cover. */
  lemma LabelledSnoc(covers: seq<Cover>, rows: seq<seq<nat>>, ids: seq<nat>)
    requires |rows| < |covers|
    ensures Labelled(covers, rows)[|rows| := covers[|rows|].(legendRow := Some(ids))] == Labelled(covers, rows + [ids])
  {
  }

  /** The legend as built: the rows' handles, the direction, the group's box and its translation. */
  datatype Layout = Layout(rows: seq<seq<nat>>, dir: string, box: Box, offset: Option<(real, real)>)

  /** `series[i].attr("fill")` for every marker. */
  function Fills(shapes: seq<Shape>, series: seq<nat>): (fills: seq<Value>)
    requires forall i :: 0 <= i < |series| ==> series[i] < |shapes|
    ensures |fills| == |series|
    ensures forall i :: 0 <= i < |series| ==> fills[i] == Get(shapes[series[i]].attrs, "fill")
  {
    seq(|series|, i requires 0 <= i < |series| => Get(shapes[series[i]].attrs, "fill"))
  }

  /** One pass of the legend loop: the mark, the text, the number, and their links. */
  method DrawRow(s: Setup, i: nat, y: real, clr: Value) returns (row: seq<Shape>)
    requires Fits(s) && i < |s.values| && clr == s.fills[i]
    ensures row == Row(s, i, y)
  {
    var mark := Shape(Circle(s.x + 5.0, y, Num(8.0)), map["fill" := clr, "stroke" := Str("none")]);
    var txt := WithAttrs(WithAttrs(Shape(Text(s.x + 20.0, y, LabelText(s, i)), map[]), s.h.txtattr),
                         map["fill" := Or(Get(s.opts, "legendcolor"), Str("#000")), "text-anchor" := Str("start")]);
    row := [mark, txt];
    if Truthy(Get(s.opts, "numbers")) {
      row := row + [NumberLabel(s.h, s.x + 5.0, y + 1.0, i, Get(s.opts, "numberscolor"))];
    }
    ghost var plain := row;
    var link := HrefAt(Get(s.opts, "href"), i);
    if link.Some? {
      for j := 0 to |row|
        invariant |row| == |plain|
        invariant forall k :: 0 <= k < j ==> row[k] == Linked(plain[k], link)
        invariant forall k :: j <= k < |row| ==> row[k] == plain[k]
      {
        row := row[j := WithAttrs(row[j], map["href" := link.value])];
      }
    }
    assert forall k :: 0 <= k < |row| ==> row[k] == Linked(plain[k], link);
  }

  /**
   * The variables the legend loop updates: the `chart.labels` group drawn
   * so far, the running height `h`, the handles of each drawn row and the
   * covers with their `label` set.
   */
  datatype Progress = Progress(group: seq<Shape>, y: real, rows: seq<seq<nat>>, covers: seq<Cover>)

  /** What the first `i` passes leave behind when the legend's first shape gets handle `base`. */
  ghost predicate Drawn(s: Setup, cy: real, base: nat, covers: seq<Cover>, i: nat, p: Progress)
    requires Fits(s) && i <= |s.values| == |covers|
  {
    p.group == Rows(s, cy, i) && p.y == RowY(s, cy, i) &&
    p.rows == RowIdList(base, s.opts, i) && p.covers == Labelled(covers, p.rows)
  }

  /**
   * One pass of the legend loop: draws row `i` at the running height, links
   * cover `i` to it and moves the height on by its text.
   */
  method Advance(s: Setup, cy: real, base: nat, covers: seq<Cover>, i: nat, p: Progress, clr: Value) returns (p': Progress)
    requires Fits(s) && i < |s.values| == |covers| && clr == s.fills[i]
    requires Drawn(s, cy, base, covers, i, p)
    ensures Drawn(s, cy, base, covers, i + 1, p')
  {
    var row := DrawRow(s, i, p.y, clr);
    var ids := RowIds(base + |p.group|, s.opts);
    RowIdListSnoc(base, s.opts, i, ids);
    LabelledSnoc(covers, p.rows, ids);
    p' := Progress(p.group + row, NextY(s.h, p.y, row[1]), p.rows + [ids], p.covers[i := p.covers[i].(legendRow := Some(ids))]);
  }

  /** Before the first pass nothing is drawn, the height is `cy + 10` and no cover is labelled. */
  lemma DrawnStart(s: Setup, cy: real, base: nat, covers: seq<Cover>)
    requires Fits(s) && |s.values| == |covers|
    ensures Drawn(s, cy, base, covers, 0, Progress([], FirstRowY(cy), [], covers))
  {
    assert covers == Labelled(covers, []);
  }

  /** The legend loop: row `i` takes the fill of series marker `i`. */
  method DrawRows(s: Setup, cy: real, series: seq<nat>, shapes: seq<Shape>, covers: seq<Cover>) returns (p: Progress)
    requires |series| == |s.values| == |covers|
    requires forall i :: 0 <= i < |series| ==> series[i] < |shapes|
    requires s.fills == Fills(shapes, series)
    ensures Fits(s) && Drawn(s, cy, |shapes|, covers, |s.values|, p)
  {
    p := Progress([], FirstRowY(cy), [], covers);
    DrawnStart(s, cy, |shapes|, covers);
    for i := 0 to |s.values|
      invariant Drawn(s, cy, |shapes|, covers, i, p)
    {
      var clr := Get(shapes[series[i]].attrs, "fill");
      p := Advance(s, cy, |shapes|, covers, i, p, clr);
    }
  }

  /**
   * The `legend` function: appends every row to the paper, links each cover
   * to its row, and computes the group's translation.
   */
  method Draw(h: Host, x: real, cy: real, r: real, labels: Value, values: seq<real>, total: real,
              opts: Options, dir: Value, series: seq<nat>, shapes: seq<Shape>, covers: seq<Cover>)
    returns (shapes': seq<Shape>, covers': seq<Cover>, layout: Layout)
    requires |series| == |values| == |covers|
    requires forall i :: 0 <= i < |series| ==> series[i] < |shapes|
    ensures var s := Setup(h, x, labels, values, total, Fills(shapes, series), opts);
      Fits(s) &&
      shapes' == shapes + Rows(s, cy, |values|) &&
      layout.dir == Direction(dir) &&
      layout.box == h.groupBox(Rows(s, cy, |values|)) &&
      layout.offset == Offset(Direction(dir), layout.box, r)
    ensures layout.rows == RowIdList(|shapes|, opts, |values|)
    ensures covers' == Labelled(covers, layout.rows)
  {
    var s := Setup(h, x, labels, values, total, Fills(shapes, series), opts);
    var d := Direction(dir);
    var p := DrawRows(s, cy, series, shapes, covers);
    shapes' := shapes + p.group;
    covers' := p.covers;
    var box := h.groupBox(p.group);
    layout := Layout(p.rows, d, box, Offset(d, box, r));
  }
}
