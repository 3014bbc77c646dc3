/** The point-to-pixel transform of `_positionForItem` and the shapes that
    `_renderItems` hands to the canvas: markers, straight segments and the
    two-piece quadratic curves of smoothed lines. */
module Geometry {

  datatype Point = Point(x: real, y: real)

  /** What `_positionForItem` reads from the widget: `_getXMax()`,
      `_getYMax()`, `_canvas.height`, `_getScaledWidth()`,
      `_getScaledHeight()` and `_view.xOffset`/`_view.yOffset`. */
  datatype Transform = Transform(
    xMax: real, yMax: real,
    height: real,
    scaledWidth: real, scaledHeight: real,
    xOffset: real, yOffset: real)

  /** The maxima the transform divides by are not zero (where JS would
      produce `Infinity` or `NaN`). */
  ghost predicate Defined(t: Transform)
  {
    t.xMax != 0.0 && t.yMax != 0.0
  }

  /** `_positionForItem(key, value)`: normalise against the maximum (not the
      range), scale to the zoomed canvas size, flip y and pan.  Its `xScale`
      and `yScale` arguments are read into locals that are never used, so
      they are not parameters here. */
  function Position(t: Transform, key: real, value: real): Point
    requires Defined(t)
  {
    Point(key / t.xMax * t.scaledWidth + t.xOffset,
          t.height - value / t.yMax * t.scaledHeight + t.yOffset)
  }

  /** The transform is affine: horizontal distance is proportional to the key
      difference, vertical distance to the (negated) value difference. */
  lemma PositionAffine(t: Transform, k1: real, v1: real, k2: real, v2: real)
    requires Defined(t)
    ensures Position(t, k1, v1).x - Position(t, k2, v2).x == (k1 - k2) / t.xMax * t.scaledWidth
    ensures Position(t, k1, v1).y - Position(t, k2, v2).y == (v2 - v1) / t.yMax * t.scaledHeight
  {
    var a1, a2 := k1 / t.xMax * t.scaledWidth, k2 / t.xMax * t.scaledWidth;
    var b1, b2 := v1 / t.yMax * t.scaledHeight, v2 / t.yMax * t.scaledHeight;
    var p, q := Position(t, k1, v1), Position(t, k2, v2);
    assert p.x == a1 + t.xOffset && q.x == a2 + t.xOffset;
    assert p.y == (t.height - b1) + t.yOffset && q.y == (t.height - b2) + t.yOffset;
    DivDistributes(k1, k2, t.xMax, t.scaledWidth);
    DivDistributes(v2, v1, t.yMax, t.scaledHeight);
    assert p.x - q.x == a1 - a2;
    assert p.y - q.y == b2 - b1;
  }

  lemma DivDistributes(a: real, b: real, d: real, s: real)
    requires d != 0.0
    ensures a / d * s - b / d * s == (a - b) / d * s
  {
    assert a / d - b / d == (a - b) / d;
  }

  /** Panning moves every point by exactly the change of offset. */
  lemma PositionPans(t: Transform, key: real, value: real, dx: real, dy: real)
    requires Defined(t)
    ensures var moved := t.(xOffset := t.xOffset + dx, yOffset := t.yOffset + dy);
            Position(moved, key, value) == Point(Position(t, key, value).x + dx, Position(t, key, value).y + dy)
  {
    var moved := t.(xOffset := t.xOffset + dx, yOffset := t.yOffset + dy);
    var px, py := key / t.xMax * t.scaledWidth, value / t.yMax * t.scaledHeight;
    assert key / moved.xMax * moved.scaledWidth == px;
    assert value / moved.yMax * moved.scaledHeight == py;
    var p, q := Position(moved, key, value), Position(t, key, value);
    assert p.x == px + (t.xOffset + dx) && q.x == px + t.xOffset;
    assert p.y == (t.height - py) + (t.yOffset + dy) && q.y == (t.height - py) + t.yOffset;
  }

  /** Zooming multiplies horizontal distances: a scaled width `c` times as
      large puts any two points `c` times as far apart (so doubling `_scaleX`
      doubles them). */
  lemma ZoomScalesDistance(t: Transform, c: real, k1: real, v1: real, k2: real, v2: real)
    requires Defined(t)
    ensures var zoomed := t.(scaledWidth := c * t.scaledWidth);
            Position(zoomed, k1, v1).x - Position(zoomed, k2, v2).x ==
            c * (Position(t, k1, v1).x - Position(t, k2, v2).x)
  {
    var zoomed := t.(scaledWidth := c * t.scaledWidth);
    PositionAffine(t, k1, v1, k2, v2);
    PositionAffine(zoomed, k1, v1, k2, v2);
    var q := (k1 - k2) / t.xMax;
    assert q * (c * t.scaledWidth) == c * (q * t.scaledWidth);
  }

  /** Key 0 sits at the x offset and key `xMax` one scaled width further;
      value 0 sits on the bottom edge and value `yMax` one scaled height
      above it; keys between 0 and a positive `xMax` land in between. */
  lemma PositionAnchors(t: Transform, key: real, value: real)
    requires Defined(t)
    ensures Position(t, 0.0, value).x == t.xOffset
    ensures Position(t, t.xMax, value).x == t.scaledWidth + t.xOffset
    ensures Position(t, key, 0.0).y == t.height + t.yOffset
    ensures Position(t, key, t.yMax).y == t.height - t.scaledHeight + t.yOffset
    ensures 0.0 < t.xMax && 0.0 <= t.scaledWidth && 0.0 <= key <= t.xMax ==>
              t.xOffset <= Position(t, key, value).x <= t.xOffset + t.scaledWidth
  {
    assert t.xMax / t.xMax == 1.0 && t.yMax / t.yMax == 1.0;
    if 0.0 < t.xMax && 0.0 <= t.scaledWidth && 0.0 <= key <= t.xMax {
      var q := key / t.xMax;
      assert Position(t, key, value).x == q * t.scaledWidth + t.xOffset;
      assert 0.0 <= q <= 1.0;
      assert q * t.scaledWidth <= 1.0 * t.scaledWidth;
      assert 0.0 <= q * t.scaledWidth;
    }
  }

  /** With a positive maximum and a non-negative scaled width, a larger key
      is never drawn further left. */
  lemma PositionMonotone(t: Transform, k1: real, v1: real, k2: real, v2: real)
    requires Defined(t) && t.xMax > 0.0 && t.scaledWidth >= 0.0
    requires k1 <= k2
    ensures Position(t, k1, v1).x <= Position(t, k2, v2).x
  {
    PositionAffine(t, k2, v2, k1, v1);
    var q := (k2 - k1) / t.xMax;
    assert q >= 0.0;
    assert q * t.scaledWidth >= 0.0;
  }

  // ------------------------------------------------------------------ shapes

  /** What one drawing call puts on the canvas: a marker square at a point
      (`fillRect(pos[0], pos[1], 5, 5)`),
      `moveTo`/`lineTo`, or `moveTo` followed by two `quadraticCurveTo`s
      (control `c1` to `mid`, then control `c2` to `to`). */
  datatype Shape =
    | Marker(at: Point)
    | Segment(from: Point, to: Point)
    | Curve(from: Point, c1: Point, mid: Point, c2: Point, to: Point)

  function Midpoint(a: Point, b: Point): Point
  {
    Point((a.x + b.x) / 2.0, (a.y + b.y) / 2.0)
  }

  /** The smoothed connection of `a` to `b`: `cp1 = midpoint of mid and a`,
      `cp2 = midpoint of mid and b`, but the curves use only their x, with
      `a.y` and `b.y` as the control heights. */
  function SmoothCurve(a: Point, b: Point): Shape
  {
    var mid := Midpoint(a, b);
    var cp1 := Midpoint(mid, a);
    var cp2 := Midpoint(mid, b);
    Curve(a, Point(cp1.x, a.y), mid, Point(cp2.x, b.y), b)
  }

  /** How `_renderItems` joins consecutive points, by `SMOOTH_LINES`. */
  function Connector(a: Point, b: Point, smooth: bool): Shape
  {
    if smooth then SmoothCurve(a, b) else Segment(a, b)
  }

  /** The smoothed curve runs from `a` to `b` through their midpoint; its
      control points sit at the quarter and three-quarter x positions, level
      with the endpoint each belongs to, so the curve leaves `a` and reaches
      `b` horizontally. */
  lemma SmoothCurveShape(a: Point, b: Point)
    ensures var c := SmoothCurve(a, b);
            && c.from == a && c.to == b
            && c.mid.x - a.x == b.x - c.mid.x && c.mid.y - a.y == b.y - c.mid.y
            && c.c1 == Point(a.x + (b.x - a.x) / 4.0, a.y)
            && c.c2 == Point(b.x - (b.x - a.x) / 4.0, b.y)
  {
  }

  /** Left to right, the curve's defining points come in order. */
  lemma SmoothCurveOrdered(a: Point, b: Point)
    requires a.x <= b.x
    ensures var c := SmoothCurve(a, b);
            a.x <= c.c1.x <= c.mid.x <= c.c2.x <= b.x
  {
  }

  function Translate(p: Point, dx: real, dy: real): Point
  {
    Point(p.x + dx, p.y + dy)
  }

  /** Smoothing commutes with panning: translating both endpoints translates
      every point of the curve. */
  lemma SmoothCurvePans(a: Point, b: Point, dx: real, dy: real)
    ensures var c := SmoothCurve(a, b);
            SmoothCurve(Translate(a, dx, dy), Translate(b, dx, dy)) ==
            Curve(Translate(a, dx, dy), Translate(c.c1, dx, dy), Translate(c.mid, dx, dy),
                  Translate(c.c2, dx, dy), Translate(b, dx, dy))
  {
  }
}
