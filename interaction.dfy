/**
 * What `chart.each`, `chart.hover` and `chart.click` hand to the caller's
 * functions (g.radar.js:154-232): one context record per arm, visited from
 * the last arm down to the first. Event delivery is not modelled; `hover`
 * and `click` are modelled by the listeners they register.
 */
module Interaction {
  import opened Values
  import opened Surface
  import opened Seqs
  import opened Legend
  import opened Options
  import opened Geometry
  import opened Radar

  /**
   * Where a context places the arm's endpoint: `each` names it `x`/`y`,
   * `hover` and `click` name it `mx`/`my`.
   */
  datatype Anchor = At(x: real, y: real) | Pointer(mx: real, my: real)

  /**
   * The record `o` a callback receives as `this`: the arm's point and
   * number, its cover, the centre, the endpoint, the value, the maximum and
   * the arm's legend row (`that.labels && that.labels[j]`).
   */
  datatype Context = Context(
    arm: nat, number: Option<nat>, cover: Cover, cx: real, cy: real,
    anchor: Anchor, value: real, max: real, labelRow: Option<seq<nat>>)

  /** The gestures a chart can be wired to. */
  datatype Gesture = Hover | Click

  /** One registration: the events listened for on a set of shapes, and the context passed to the callbacks. */
  datatype Listener = Listener(target: seq<nat>, events: seq<string>, context: Context)

  /** The arrays a context reads have one entry per value. */
  predicate Indexed(c: Chart)
  {
    |c.arms| == |c.covers| == |c.values| &&
    (c.legend.Some? ==> |c.legend.value.rows| == |c.values|)
  }

  /** `that.labels && that.labels[j]`: the legend row of arm `j` when a legend was drawn. */
  function LabelOf(c: Chart, j: nat): (row: Option<seq<nat>>)
    requires Indexed(c) && j < |c.values|
    ensures row.Some? <==> c.legend.Some?
    ensures row.Some? ==> row.value == c.legend.value.rows[j]
  {
    if c.legend.Some? then Some(c.legend.value.rows[j]) else None
  }

  /** The context record built for arm `j`, anchored as `each` (`At`) or as `hover`/`click` (`Pointer`) name the endpoint. */
  function ContextOf(c: Chart, j: nat, pointer: bool): (o: Context)
    requires Indexed(c) && j < |c.values|
    ensures o.arm == c.arms[j].point && o.number == c.arms[j].number && o.cover == c.covers[j]
    ensures o.cx == c.cx && o.cy == c.cy && o.value == c.values[j] && o.max == c.max
    ensures o.anchor == if pointer then Pointer(c.arms[j].x, c.arms[j].y) else At(c.arms[j].x, c.arms[j].y)
    ensures o.labelRow == LabelOf(c, j)
  {
    var a := c.arms[j];
    Context(a.point, a.number, c.covers[j], c.cx, c.cy,
            if pointer then Pointer(a.x, a.y) else At(a.x, a.y),
            c.values[j], c.max, LabelOf(c, j))
  }

  /**
   * `chart.each(f)`: the contexts `f` is called with, in calling order. When
   * `f` is not a function nothing is called.
   */
  method Each(c: Chart, isFunction: bool) returns (calls: seq<Context>)
    requires Indexed(c)
    ensures !isFunction ==> calls == []
    ensures isFunction ==> |calls| == |c.values|
    ensures isFunction ==> forall k :: 0 <= k < |calls| ==> calls[k] == ContextOf(c, |c.values| - 1 - k, false)
  {
    calls := [];
    if !isFunction {
      return;
    }
    var i := |c.values|;
    while i > 0
      invariant 0 <= i <= |c.values|
      invariant |calls| == |c.values| - i
      invariant forall k :: 0 <= k < |calls| ==> calls[k] == ContextOf(c, |c.values| - 1 - k, false)
    {
      i := i - 1;
      calls := calls + [ContextOf(c, i, false)];
    }
  }

  /** The events a gesture listens for. */
  function Events(g: Gesture): seq<string>
  {
    match g
    case Hover => ["mouseover", "mouseout"]
    case Click => ["click"]
  }

  /** Listeners per arm: one on the cover and, with a legend, one on the legend row. */
  function PerArmListeners(c: Chart): nat
  {
    if c.legend.Some? then 2 else 1
  }

  /** The listeners registered for arm `j`: on its cover and, when it has one, on its legend row. */
  function ArmListeners(c: Chart, j: nat, g: Gesture): (ls: seq<Listener>)
    requires Indexed(c) && j < |c.values|
    ensures |ls| == PerArmListeners(c)
  {
    var o := ContextOf(c, j, true);
    [Listener(c.covers[j].members, Events(g), o)] +
      if o.labelRow.Some? then [Listener(o.labelRow.value, Events(g), o)] else []
  }

  /**
   * Arm `j`'s listeners watch its cover and, with a legend, its legend row,
   * for the gesture's events, and all pass arm `j`'s pointer context.
   */
  lemma ArmListenersParts(c: Chart, j: nat, g: Gesture)
    requires Indexed(c) && j < |c.values|
    ensures var ls := ArmListeners(c, j, g);
      (forall k :: 0 <= k < |ls| ==> ls[k].events == Events(g) && ls[k].context == ContextOf(c, j, true)) &&
      ls[0].target == c.covers[j].members &&
      (c.legend.Some? ==> ls[1].target == c.legend.value.rows[j])
  {
  }

  /**
   * `chart.hover(fin, fout)` and `chart.click(f)`: the listeners registered,
   * in registration order, arm by arm from the last to the first.
   */
  method Listen(c: Chart, g: Gesture) returns (listeners: seq<Listener>)
    requires Indexed(c)
    ensures listeners == AllListeners(c, g, |c.values|)
  {
    listeners := [];
    var i := |c.values|;
    while i > 0
      invariant 0 <= i <= |c.values|
      invariant listeners == AllListeners(c, g, |c.values| - i)
    {
      i := i - 1;
      listeners := listeners + ArmListeners(c, i, g);
    }
  }

  /** The listeners of the last `n` arms, last arm first. */
  function AllListeners(c: Chart, g: Gesture, n: nat): (ls: seq<Listener>)
    requires Indexed(c) && n <= |c.values|
    ensures |ls| == Times(PerArmListeners(c), n)
  {
    if n == 0 then [] else AllListeners(c, g, n - 1) + ArmListeners(c, |c.values| - n, g)
  }

  /** The `k`-th group of listeners registered belongs to arm `len - 1 - k`. */
  lemma {:induction false} ListenersAt(c: Chart, g: Gesture, n: nat, k: nat)
    requires Indexed(c) && k < n <= |c.values|
    ensures Times(PerArmListeners(c), k) + PerArmListeners(c) <= |AllListeners(c, g, n)|
    ensures AllListeners(c, g, n)[Times(PerArmListeners(c), k) .. Times(PerArmListeners(c), k) + PerArmListeners(c)]
         == ArmListeners(c, |c.values| - 1 - k, g)
  {
    var q := PerArmListeners(c);
    var front := AllListeners(c, g, n - 1);
    var last := ArmListeners(c, |c.values| - n, g);
    assert AllListeners(c, g, n) == front + last;
    if k < n - 1 {
      ListenersAt(c, g, n - 1, k);
      assert Times(q, k + 1) == Times(q, k) + q;
      TimesMonotone(q, k + 1, n - 1);
      SliceFront(front, last, Times(q, k), Times(q, k) + q);
    } else {
      assert |c.values| - 1 - k == |c.values| - n && Times(q, k) == |front|;
      SliceBack(front, last);
    }
  }

  /** The chart the builder returns has one arm, cover and legend row per value. */
  lemma ChartIndexed(h: Host, cx: real, cy: real, r: real, values: seq<real>, opts: Options)
    requires |values| > 0 && Max(values) != 0.0
    ensures Indexed(ExpectedChart(h, cx, cy, r, values, opts))
  {
    ChartCounts(h, cx, cy, r, values, opts);
  }

  /**
   * On the chart the builder returns, the context of arm `j` carries the
   * centre, arm `j`'s data endpoint (as `x`/`y` for `each`, as `mx`/`my` for
   * `hover` and `click`), `values[j]`, the maximum of the values and, as
   * `label`, the legend row the legend attached to arm `j`'s cover.
   */
  lemma ChartContext(h: Host, cx: real, cy: real, r: real, values: seq<real>, opts: Options, j: nat, pointer: bool)
    requires |values| > 0 && Max(values) != 0.0 && j < |values|
    ensures var c := ExpectedChart(h, cx, cy, r, values, opts);
      Indexed(c) &&
      var o := ContextOf(c, j, pointer);
      var g := ArmAt(h, cx, cy, r, values, Max(values), j);
      o.cx == cx && o.cy == cy && o.value == values[j] && o.max == Max(values) &&
      o.anchor == (if pointer then Pointer(g.x, g.y) else At(g.x, g.y)) &&
      o.arm == c.series[j] && o.cover == c.covers[j] &&
      o.labelRow == c.covers[j].legendRow
  {
    ChartCounts(h, cx, cy, r, values, opts);
    ChartArmHandles(h, cx, cy, r, values, opts, j);
    ChartCoverLabels(h, cx, cy, r, values, opts);
  }
}
