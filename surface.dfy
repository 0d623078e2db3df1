/**
 * What the radar chart asks of Raphaël and of the g.Raphael base object.
 * Every drawing call is recorded as a shape record carrying the attributes
 * passed to it; a shape handle is the record's index in the paper's log.
 * The calls whose results the chart reads back (trigonometry, text and
 * group bounding boxes, `labelise`, `txtattr`) are fields of `Host`.
 */
module Surface {
  import opened Values

  /** An attribute map as passed to `element.attr({...})`. */
  type Attrs = map<string, Value>

  /** One comma-separated token of an SVG path string: a command letter or a coordinate. */
  datatype Token = Cmd(letter: string) | Coord(value: real)

  /** What a drawing call made: `paper.circle(x, y, r)`, `paper.path(tokens)` or `paper.text(x, y, t)`. */
  datatype Element =
    | Circle(x: real, y: real, radius: Value)
    | Path(tokens: seq<Token>)
    | Text(x: real, y: real, content: Value)

  /** A drawing record: the element and the attributes set on it so far. */
  datatype Shape = Shape(element: Element, attrs: Attrs)

  /** A bounding box as `getBBox()` reports it (only its size is read). */
  datatype Box = Box(width: real, height: real)

  /**
   * The foreign collaborators: `Math.PI`, `Math.cos`, `Math.sin`, the base
   * chart's `txtattr` and `labelise`, the height of a text's bounding box and
   * the bounding box of a group of shapes.
   */
  datatype Host = Host(
    pi: real,
    cos: real -> real,
    sin: real -> real,
    txtattr: Attrs,
    labelise: (Value, real, real) -> Value,
    textHeight: Shape -> real,
    groupBox: seq<Shape> -> Box)

  /** `cos(a)^2 + sin(a)^2 == 1` at every angle: true of the real functions, not of floats. */
  ghost predicate Pythagorean(h: Host)
  {
    forall a :: h.cos(a) * h.cos(a) + h.sin(a) * h.sin(a) == 1.0
  }

  /** `element.attr(a)`: the given attributes replace or extend the element's own. */
  function WithAttrs(s: Shape, a: Attrs): Shape
  {
    Shape(s.element, s.attrs + a)
  }

  /** `opts.href && opts.href[i]`: the link of item `i`, or `None` when there is none. */
  function HrefAt(href: Value, i: nat): (r: Option<Value>)
    ensures r.Some? <==> Truthy(href) && Truthy(Index(href, i))
    ensures r.Some? ==> Truthy(href) && r.value == Index(href, i)
  {
    if Truthy(href) && Truthy(Index(href, i)) then Some(Index(href, i)) else None
  }

  /** Attaches `{href: ...}` when a link is present. */
  function Linked(s: Shape, link: Option<Value>): Shape
  {
    if link.Some? then WithAttrs(s, map["href" := link.value]) else s
  }

  /** `paper.text(x, y, i + 1).attr(txtattr).attr({fill: color, "text-anchor": "middle"})`. */
  function NumberLabel(h: Host, x: real, y: real, i: nat, color: Value): Shape
  {
    WithAttrs(WithAttrs(Shape(Text(x, y, Num((i + 1) as real)), map[]), h.txtattr),
              map["fill" := color, "text-anchor" := Str("middle")])
  }

  /** A cover: the handles of one arm's shapes, grouped for hit testing, and its legend row if any. */
  datatype Cover = Cover(members: seq<nat>, legendRow: Option<seq<nat>>)
}
