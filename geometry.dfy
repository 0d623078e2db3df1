/**
 * The arithmetic under the chart: the total and maximum of the values, the
 * angle of each arm, the `arm` helper (g.radar.js:83-100) and the radii of
 * the mesh circles (g.radar.js:109-114). All of it is exact over `real`;
 * `Math.cos`, `Math.sin` and `Math.PI` come from the host.
 */
module Geometry {
  import opened Values
  import opened Surface

  /** The sum of the values, added from the front. */
  function Sum(s: seq<real>): real
  {
    if s == [] then 0.0 else s[0] + Sum(s[1..])
  }

  /**
   * `total += +values[i]` for i from len-1 down to 0 (g.radar.js:103-105).
   */
  method Total(values: seq<real>) returns (total: real)
    ensures total == Sum(values)
  {
    total := 0.0;
    var i := |values|;
    while i > 0
      invariant 0 <= i <= |values|
      invariant total == Sum(values[i..])
    {
      i := i - 1;
      assert values[i..][1..] == values[i + 1..];
      total := total + values[i];
    }
  }

  /** `Math.max.apply(Math, values)` on a non-empty sequence. */
  function Max(s: seq<real>): (m: real)
    requires |s| > 0
    ensures m in s
    ensures forall i :: 0 <= i < |s| ==> s[i] <= m
  {
    if |s| == 1 then s[0]
    else
      var rest := Max(s[1..]);
      if s[0] >= rest then s[0] else rest
  }

  /** `i * 360 / len`: the angle, in degrees, of arm `i` of `len`. */
  function Angle(i: nat, len: nat): (a: real)
    requires len > 0
    ensures a == 0.0 <==> i == 0
    ensures 0.0 <= a
    ensures i < len ==> a < 360.0
  {
    (i as real) * 360.0 / (len as real)
  }

  /** Successive arms are exactly `360 / len` degrees apart, and `len` steps make a full turn. */
  lemma AngleSpacing(i: nat, len: nat)
    requires len > 0
    ensures Angle(i + 1, len) - Angle(i, len) == 360.0 / (len as real)
    ensures Angle(len, len) == 360.0
  {
    var n := len as real;
    calc {
      Angle(i + 1, len) - Angle(i, len);
      ((i as real) + 1.0) * 360.0 / n - (i as real) * 360.0 / n;
      360.0 / n;
    }
  }

  /** An arm's geometry: the data endpoint and the two path strings as token sequences. */
  datatype ArmGeom = ArmGeom(x: real, y: real, path: seq<Token>, rest: seq<Token>)

  function Sq(a: real): real
  {
    a * a
  }

  /** `(Math.cos(-angle * rad), Math.sin(-angle * rad))` with `rad = Math.PI / 180`. */
  function Heading(h: Host, angle: real): (real, real)
  {
    (h.cos(Radians(h, angle)), h.sin(Radians(h, angle)))
  }

  /** `-angle * rad`: the clockwise angle in radians. */
  function Radians(h: Host, angle: real): real
  {
    var rad := h.pi / 180.0;
    -angle * rad
  }

  /**
   * The `arm` helper: from the start `(sx, sy)` along direction `-angle`, the
   * data endpoint at distance `len` and the rest endpoint at distance `m`;
   * `path` runs from the chart centre `(cx, cy)` that the helper captures.
   */
  function Arm(h: Host, cx: real, cy: real, sx: real, sy: real, len: real, angle: real, m: real): (a: ArmGeom)
    ensures |a.path| == 6 && |a.rest| == 6
    ensures a.path[..4] == [Cmd("M"), Coord(cx), Coord(cy), Cmd("L")]
    ensures a.path[4..] == [Coord(a.x), Coord(a.y)] == a.rest[1..3]
    ensures a.rest[0] == Cmd("M") && a.rest[3] == Cmd("L")
  {
    var (cos, sin) := Heading(h, angle);
    var x := sx + len * cos;
    var y := sy + len * sin;
    var ex := sx + m * cos;
    var ey := sy + m * sin;
    ArmGeom(x, y,
            [Cmd("M"), Coord(cx), Coord(cy), Cmd("L"), Coord(x), Coord(y)],
            [Cmd("M"), Coord(x), Coord(y), Cmd("L"), Coord(ex), Coord(ey)])
  }

  /** `r * values[i] / max`: the length of an arm's data segment. */
  function DataLength(r: real, v: real, max: real): real
    requires max != 0.0
  {
    r * v / max
  }

  /** Arm `i` as the builder computes it: `arm(cx, cy, r * values[i] / max, i * 360 / len, r)`. */
  function ArmAt(h: Host, cx: real, cy: real, r: real, values: seq<real>, max: real, i: nat): ArmGeom
    requires i < |values| && max != 0.0
  {
    Arm(h, cx, cy, cx, cy, DataLength(r, values[i], max), Angle(i, |values|), r)
  }

  /** The rest endpoint, the last coordinate pair of the rest path. */
  function RestEnd(a: ArmGeom): (real, real)
    requires |a.rest| == 6 && a.rest[4].Coord? && a.rest[5].Coord?
  {
    (a.rest[4].value, a.rest[5].value)
  }

  /** An arm whose data length is `t` times its reach ends at the fraction `t` of the way to its rest endpoint. */
  lemma ArmScaled(h: Host, cx: real, cy: real, sx: real, sy: real, t: real, angle: real, m: real)
    ensures var a := Arm(h, cx, cy, sx, sy, t * m, angle, m);
      a.rest[4].Coord? && a.rest[5].Coord? &&
      a.x - sx == t * (RestEnd(a).0 - sx) &&
      a.y - sy == t * (RestEnd(a).1 - sy)
  {
    var (c, sn) := Heading(h, angle);
    assert (t * m) * c == t * (m * c);
    assert (t * m) * sn == t * (m * sn);
  }

  /**
   * Each arm's data endpoint lies on the segment from the centre to its rest
   * endpoint, at the fraction `values[i] / max` of the way: the data length is
   * `r * values[i] / max` along the same direction as the full reach.
   */
  lemma DataPointOnArm(h: Host, cx: real, cy: real, r: real, values: seq<real>, max: real, i: nat)
    requires i < |values| && max != 0.0
    ensures var a := ArmAt(h, cx, cy, r, values, max, i);
      a.rest[4].Coord? && a.rest[5].Coord? &&
      a.x - cx == (values[i] / max) * (RestEnd(a).0 - cx) &&
      a.y - cy == (values[i] / max) * (RestEnd(a).1 - cy)
  {
    var t := values[i] / max;
    assert DataLength(r, values[i], max) == t * r;
    ArmScaled(h, cx, cy, cx, cy, t, Angle(i, |values|), r);
  }

  lemma UnitCircle(m: real, c: real, s: real)
    requires c * c + s * s == 1.0
    ensures Sq(m * c) + Sq(m * s) == m * m
  {
    calc {
      Sq(m * c) + Sq(m * s);
      m * m * (c * c) + m * m * (s * s);
      m * m * (c * c + s * s);
      m * m;
    }
  }

  /**
   * With exact trigonometry, the rest endpoint is at distance `r` from the
   * centre whatever the value, and the data endpoint at distance `|r * values[i] / max|`.
   */
  lemma ArmReach(h: Host, cx: real, cy: real, r: real, values: seq<real>, max: real, i: nat)
    requires i < |values| && max != 0.0
    requires Pythagorean(h)
    ensures var a := ArmAt(h, cx, cy, r, values, max, i);
      a.rest[4].Coord? && a.rest[5].Coord? &&
      Sq(RestEnd(a).0 - cx) + Sq(RestEnd(a).1 - cy) == r * r &&
      Sq(a.x - cx) + Sq(a.y - cy) == Sq(r * values[i] / max)
  {
    var (c, sn) := Heading(h, Angle(i, |values|));
    assert c * c + sn * sn == 1.0;
    UnitCircle(r, c, sn);
    UnitCircle(r * values[i] / max, c, sn);
  }

  /** The number of passes of `for (i = 0; i < n; i++)`: the least natural number not below `n`. */
  function LoopCount(n: real): (c: nat)
    ensures n <= c as real
    ensures c > 0 ==> ((c - 1) as real) < n
  {
    if n <= 0.0 then 0
    else if n.Floor as real == n then n.Floor as nat
    else (n.Floor + 1) as nat
  }

  /** `helpradius * (k + 1)` with `helpradius = r / n`. */
  function MeshRadius(r: real, n: real, k: nat): real
    requires n != 0.0
  {
    (r / n) * ((k + 1) as real)
  }

  /** A whole number `n > 0` of help lines: the loop runs exactly `n` times. */
  lemma WholeLoopCount(n: nat)
    requires n > 0
    ensures LoopCount(n as real) == n
  {
    assert (n as real).Floor == n;
  }

  /** The outermost of `n` mesh circles has radius `r`. */
  lemma OuterMeshRadius(r: real, n: nat)
    requires n > 0
    ensures MeshRadius(r, n as real, n - 1) == r
  {
    var m := n as real;
    assert (r / m) * m == r;
  }

  /** For `r > 0` and `n > 0` the mesh radii strictly increase with `k`. */
  lemma MeshRadiusIncreasing(r: real, n: real, j: nat, k: nat)
    requires r > 0.0 && n > 0.0 && j < k
    ensures MeshRadius(r, n, j) < MeshRadius(r, n, k)
  {
    assert r / n > 0.0;
    ScaleStrict(r / n, (j + 1) as real, (k + 1) as real);
  }

  /** Scaling by a positive factor keeps a strict order. */
  lemma ScaleStrict(c: real, a: real, b: real)
    requires c > 0.0 && a < b
    ensures c * a < c * b
  {
    assert c * b - c * a == c * (b - a);
  }
}
