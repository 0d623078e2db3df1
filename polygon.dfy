/**
 * The closing polygon through the arm endpoints (g.radar.js:122-126):
 * `"M"`, then `x, y, "L"` for every arm in index order, then the first
 * endpoint again.
 */
module Polygon {
  import opened Surface
  import opened Geometry

  /** The `x_i, y_i, "L"` triples of the first `|arms|` endpoints, in index order. */
  function Vertices(arms: seq<ArmGeom>): seq<Token>
  {
    if arms == [] then []
    else
      var last := arms[|arms| - 1];
      Vertices(arms[..|arms| - 1]) + [Coord(last.x), Coord(last.y), Cmd("L")]
  }

  /** The token sequence of the polygon's path. */
  function PolygonTokens(arms: seq<ArmGeom>): seq<Token>
    requires |arms| > 0
  {
    [Cmd("M")] + Vertices(arms) + [Coord(arms[0].x), Coord(arms[0].y)]
  }

  lemma {:induction false} VerticesAt(arms: seq<ArmGeom>, i: nat)
    requires i < |arms|
    ensures |Vertices(arms)| == 3 * |arms|
    ensures Vertices(arms)[3 * i] == Coord(arms[i].x)
    ensures Vertices(arms)[3 * i + 1] == Coord(arms[i].y)
    ensures Vertices(arms)[3 * i + 2] == Cmd("L")
  {
    var init := arms[..|arms| - 1];
    if i < |init| {
      VerticesAt(init, i);
    } else if init != [] {
      VerticesAt(init, 0);
    } else {
      assert Vertices(init) == [];
    }
  }

  /**
   * The polygon has `3 * len + 3` tokens: a move, each endpoint followed by a
   * line command in index order, and a closing pair equal to the first.
   */
  lemma PolygonShape(arms: seq<ArmGeom>)
    requires |arms| > 0
    ensures var p := PolygonTokens(arms);
      |p| == 3 * |arms| + 3 && p[0] == Cmd("M") &&
      (forall i :: 0 <= i < |arms| ==>
         p[3 * i + 1] == Coord(arms[i].x) && p[3 * i + 2] == Coord(arms[i].y) && p[3 * i + 3] == Cmd("L")) &&
      p[|p| - 2..] == p[1..3] == [Coord(arms[0].x), Coord(arms[0].y)]
  {
    var p := PolygonTokens(arms);
    VerticesAt(arms, 0);
    forall i | 0 <= i < |arms|
      ensures p[3 * i + 1] == Coord(arms[i].x) && p[3 * i + 2] == Coord(arms[i].y) && p[3 * i + 3] == Cmd("L")
    {
      VerticesAt(arms, i);
    }
  }

  /** `web.pointarray`, built by pushes: the token sequence above. */
  method BuildPolygon(arms: seq<ArmGeom>) returns (tokens: seq<Token>)
    requires |arms| > 0
    ensures tokens == PolygonTokens(arms)
  {
    tokens := [Cmd("M")];
    for i := 0 to |arms|
      invariant tokens == [Cmd("M")] + Vertices(arms[..i])
    {
      assert arms[..i + 1][..i] == arms[..i];
      tokens := tokens + [Coord(arms[i].x), Coord(arms[i].y), Cmd("L")];
    }
    assert arms[..|arms|] == arms;
    tokens := tokens + [Coord(arms[0].x), Coord(arms[0].y)];
  }
}
