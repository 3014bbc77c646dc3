/** Gridline and tick placement in `render`: the accumulating loops
    `for (v = min; v < max + min; v += step)` and the pixel each visited value
    is drawn at. */
module Grid {
  import opened Wrappers
  import opened Geometry

  /** `CANVAS_MARGIN_X`: the strip on the right kept free for the y labels. */
  const MarginX: real := 55.0
  /** `CANVAS_MARGIN_Y`, of which `_getYScale` subtracts two. */
  const MarginY: real := 5.0

  /** The values the loop `for (v = start; v < bound; v += step)` visits:
      `start + k * step` for k = 0, 1, ... while below `bound`.  A `NaN` step
      (None) lets the body run at most once, as `v += NaN` fails the guard. */
  ghost predicate IsSweep(vs: seq<real>, start: real, bound: real, step: Option<real>)
  {
    match step
    case None => vs == (if start < bound then [start] else [])
    case Some(s) =>
      && (forall k :: 0 <= k < |vs| ==> vs[k] == start + (k as real) * s && vs[k] < bound)
      && start + (|vs| as real) * s >= bound
  }

  /** A sweep is determined by its start, bound and step. */
  lemma SweepUnique(a: seq<real>, b: seq<real>, start: real, bound: real, step: Option<real>)
    requires IsSweep(a, start, bound, step) && IsSweep(b, start, bound, step)
    ensures a == b
  {
    if step.Some? {
      if |a| < |b| {
        SweepBelowBound(b, start, bound, step.value, |a|);
        assert false;
      } else if |b| < |a| {
        SweepBelowBound(a, start, bound, step.value, |b|);
        assert false;
      }
      assert forall k :: 0 <= k < |a| ==> a[k] == b[k];
    }
  }

  lemma SweepBelowBound(vs: seq<real>, start: real, bound: real, s: real, n: nat)
    requires IsSweep(vs, start, bound, Some(s)) && n < |vs|
    ensures start + (n as real) * s < bound
  {
    assert vs[n] == start + (n as real) * s;
  }

  /** Loop iterations still to come: a bound on the variant of `Sweep`. */
  function Remaining(v: real, bound: real, step: Option<real>): nat
  {
    if step.None? || step.value <= 0.0 || v >= bound then 0
    else ((bound - v) / step.value).Floor + 1
  }

  lemma RemainingDecreases(v: real, bound: real, s: real)
    requires s > 0.0 && v < bound
    ensures Remaining(v + s, bound, Some(s)) < Remaining(v, bound, Some(s))
  {
    var q := (bound - v) / s;
    assert q > 0.0;
    if v + s < bound {
      var w := bound - (v + s);
      var x := q - 1.0;
      assert q * s == bound - v;
      assert w == x * s;
      DivCancel(x, s);
      assert w / s == (x * s) / s;
      assert (q - 1.0).Floor == q.Floor - 1;
    }
  }

  lemma DivCancel(x: real, s: real)
    requires s != 0.0
    ensures (x * s) / s == x
  {
  }

  /** The accumulating loop itself, collecting the values it visits. */
  method Sweep(start: real, bound: real, step: Option<real>) returns (vs: seq<real>)
    requires step.Some? && start < bound ==> step.value > 0.0
    ensures IsSweep(vs, start, bound, step)
    ensures vs != [] ==> start < bound
  {
    vs := [];
    var v := start;
    ghost var k: nat := 0;
    while v < bound
      invariant |vs| == k
      invariant step.None? ==> vs == [] && v == start
      invariant step.Some? ==> v == start + (k as real) * step.value
      invariant step.Some? ==> forall j :: 0 <= j < k ==> vs[j] == start + (j as real) * step.value && vs[j] < bound
      invariant vs != [] ==> start < bound
      decreases Remaining(v, bound, step)
    {
      assert start < bound by {
        if step.Some? && k > 0 { assert vs[0] == start + 0.0 * step.value; }
      }
      vs := vs + [v];
      if step.None? {
        break;
      }
      assert k == 0 ==> v == start;
      assert k > 0 ==> vs[0] == start;
      RemainingDecreases(v, bound, step.value);
      v := v + step.value;
      k := k + 1;
    }
  }

  /** `lineY = (y - yMin) / yScale; lineY *= _scaleY; lineY += yOffset`, and
      the same for `lineX`: the pixel of gridline value `v`. */
  function LinePosition(v: real, min: real, axisScale: real, zoom: real, offset: real): real
    requires axisScale != 0.0
  {
    (v - min) / axisScale * zoom + offset
  }

  /** A horizontal gridline: its pixel row and its label `(yMax + yMin) - y`
      (before `Math.floor(... * 100) / 100`). */
  datatype HLine = HLine(at: real, caption: real)

  /** A major vertical tick: its pixel column and its label `x - xMin`. */
  datatype Tick = Tick(at: real, caption: real)

  /** The horizontal gridlines for the visited values `ys`; every one is
      drawn. */
  function HorizontalLines(ys: seq<real>, yMin: real, yMax: real, yScale: real, scaleY: real, yOffset: real): (r: seq<HLine>)
    requires ys == [] || yScale != 0.0
    ensures |r| == |ys|
  {
    seq(|ys|, k requires 0 <= k < |ys| =>
      HLine(LinePosition(ys[k], yMin, yScale, scaleY, yOffset), (yMax + yMin) - ys[k]))
  }

  /** The labels of consecutive horizontal lines fall by one step while their
      rows move by one step's worth of pixels. */
  lemma HorizontalLinesSpacing(ys: seq<real>, yMin: real, yMax: real, yScale: real, scaleY: real, yOffset: real, s: real, k: nat)
    requires IsSweep(ys, yMin, yMax + yMin, Some(s))
    requires yScale != 0.0 && k + 1 < |ys|
    ensures var r := HorizontalLines(ys, yMin, yMax, yScale, scaleY, yOffset);
            && r[0] == HLine(yOffset, yMax)
            && r[k].caption - r[k + 1].caption == s
            && r[k + 1].at - r[k].at == s / yScale * scaleY
  {
    SweepStep(ys, yMin, yMax + yMin, s, k);
    DivDistributes(ys[k + 1] - yMin, ys[k] - yMin, yScale, scaleY);
  }

  /** What the horizontal-gridline loop of `render` places: the values `ys`
      it visits from `yMin` below `yMax + yMin`, and one line for each. */
  ghost predicate HorizontalGridOf(ys: seq<real>, lines: seq<HLine>, yMin: real, yMax: real, yScale: real,
                                   step: Option<real>, scaleY: real, yOffset: real)
  {
    && IsSweep(ys, yMin, yMax + yMin, step)
    && (ys == [] || yScale != 0.0)
    && lines == HorizontalLines(ys, yMin, yMax, yScale, scaleY, yOffset)
  }

  /** What a vertical-gridline loop of `render` places: the values `xs` it
      visits from `xMin` below `xMax + xMin`, and the lines left of `limit`. */
  ghost predicate VerticalGridOf(xs: seq<real>, ticks: seq<Tick>, xMin: real, xMax: real, xScale: real,
                                 step: Option<real>, scaleX: real, xOffset: real, limit: real)
  {
    && IsSweep(xs, xMin, xMax + xMin, step)
    && (xs == [] || xScale != 0.0)
    && ticks == VerticalTicks(xs, xMin, xScale, scaleX, xOffset, limit)
  }

  /** The horizontal-gridline loop of `render`. */
  method HorizontalGrid(yMin: real, yMax: real, yScale: real, step: Option<real>, scaleY: real, yOffset: real)
    returns (ys: seq<real>, lines: seq<HLine>)
    requires step.Some? && 0.0 < yMax ==> step.value > 0.0
    requires 0.0 < yMax ==> yScale != 0.0
    ensures HorizontalGridOf(ys, lines, yMin, yMax, yScale, step, scaleY, yOffset)
    ensures |lines| == |ys|
  {
    ys := Sweep(yMin, yMax + yMin, step);
    lines := HorizontalLines(ys, yMin, yMax, yScale, scaleY, yOffset);
  }

  /** A vertical-gridline loop of `render`. */
  method VerticalGrid(xMin: real, xMax: real, xScale: real, step: Option<real>, scaleX: real, xOffset: real, limit: real)
    returns (xs: seq<real>, ticks: seq<Tick>)
    requires step.Some? && 0.0 < xMax ==> step.value > 0.0
    requires 0.0 < xMax ==> xScale != 0.0
    ensures VerticalGridOf(xs, ticks, xMin, xMax, xScale, step, scaleX, xOffset, limit)
    ensures |ticks| <= |xs|
  {
    xs := Sweep(xMin, xMax + xMin, step);
    ticks := VerticalTicks(xs, xMin, xScale, scaleX, xOffset, limit);
  }

  /** Consecutive visited values are one step apart, starting at `start`. */
  lemma SweepStep(vs: seq<real>, start: real, bound: real, s: real, k: nat)
    requires IsSweep(vs, start, bound, Some(s)) && k + 1 < |vs|
    ensures vs[0] == start && vs[k + 1] - vs[k] == s
  {
    assert vs[0] == start + 0.0 * s;
    assert vs[k] == start + (k as real) * s && vs[k + 1] == start + ((k + 1) as real) * s;
    assert ((k + 1) as real) * s == (k as real) * s + s;
  }

  /** The vertical lines for the visited values `xs`, keeping only those whose
      pixel column lies left of `limit` (`_canvas.width - CANVAS_MARGIN_X`). */
  function VerticalTicks(xs: seq<real>, xMin: real, xScale: real, scaleX: real, xOffset: real, limit: real): (r: seq<Tick>)
    requires xs == [] || xScale != 0.0
    ensures |r| <= |xs|
  {
    if xs == [] then []
    else
      var x := xs[|xs| - 1];
      var rest := VerticalTicks(xs[..|xs| - 1], xMin, xScale, scaleX, xOffset, limit);
      var at := LinePosition(x, xMin, xScale, scaleX, xOffset);
      if at < limit then rest + [Tick(at, x - xMin)] else rest
  }

  /** The pixel columns of a list of ticks. */
  function Columns(ts: seq<Tick>): (r: seq<real>)
    ensures |r| == |ts|
  {
    seq(|ts|, i requires 0 <= i < |ts| => ts[i].at)
  }

  /** A tick is drawn exactly for the visited values whose column is left of
      the margin, at that column and labelled with the distance from `xMin`. */
  lemma {:induction false} VerticalTicksExact(xs: seq<real>, xMin: real, xScale: real, scaleX: real, xOffset: real, limit: real, t: Tick)
    requires xScale != 0.0
    ensures t in VerticalTicks(xs, xMin, xScale, scaleX, xOffset, limit) <==>
            exists x :: x in xs && t == Tick(LinePosition(x, xMin, xScale, scaleX, xOffset), x - xMin) && t.at < limit
  {
    if xs != [] {
      var init := xs[..|xs| - 1];
      var x := xs[|xs| - 1];
      assert xs == init + [x];
      VerticalTicksExact(init, xMin, xScale, scaleX, xOffset, limit, t);
      if t in VerticalTicks(xs, xMin, xScale, scaleX, xOffset, limit) {
        if t !in VerticalTicks(init, xMin, xScale, scaleX, xOffset, limit) {
          assert t == Tick(LinePosition(x, xMin, xScale, scaleX, xOffset), x - xMin) && t.at < limit;
        }
      }
    }
  }

  /** Gridline placement agrees with the point transform on the x axis: the
      tick labelled `L` stands where a point with key `L` is drawn. */
  lemma TickMatchesTransform(x: real, xMin: real, width: real, t: Transform, value: real)
    requires width != 0.0 && Defined(t)
    ensures var xScale := t.xMax / width;
            xScale != 0.0 &&
            LinePosition(x, xMin, xScale, t.scaledWidth / width, t.xOffset) == Position(t, x - xMin, value).x
  {
    var xScale := t.xMax / width;
    var a := x - xMin;
    assert xScale * width == t.xMax;
    assert a / xScale * (t.scaledWidth / width) == a / t.xMax * t.scaledWidth by {
      assert a / xScale == a * width / t.xMax;
    }
  }

  /** On the y axis the two paths disagree: `_getYScale` divides by the
      height less twice `CANVAS_MARGIN_Y`, `_positionForItem` by the whole
      height, so at zoom 1 a point of value `L` lies `10 * (yMax - L) / yMax`
      pixels below the horizontal line labelled `L`. */
  lemma LabelledRowVersusPoint(ys: seq<real>, k: nat, yMin: real, yMax: real, t: Transform, value: real)
    requires Defined(t) && t.height != 2.0 * MarginY && t.yMax == yMax
    requires t.scaledHeight == t.height  // `_scaleY` is 1
    requires k < |ys|
    ensures var yScale := yMax / (t.height - 2.0 * MarginY);
            var line := HorizontalLines(ys, yMin, yMax, yScale, 1.0, t.yOffset)[k];
            Position(t, value, line.caption).y - line.at == 2.0 * MarginY * (yMax - line.caption) / yMax
  {
    var h := t.height;
    var yScale := yMax / (h - 2.0 * MarginY);
    var line := HorizontalLines(ys, yMin, yMax, yScale, 1.0, t.yOffset)[k];
    var caption := line.caption;
    var d := ys[k] - yMin;
    assert line.at == d / yScale * 1.0 + t.yOffset;
    assert Position(t, value, caption).y == (h - caption / yMax * h) + t.yOffset;
    RowGap(h, yMax, caption, d);
  }

  /** The arithmetic behind the gap: with `c + d == yMax`,
      `(h - c/yMax*h) - d/(yMax/(h - 10)) == 10*d/yMax`. */
  lemma RowGap(h: real, yMax: real, c: real, d: real)
    requires yMax != 0.0 && h != 2.0 * MarginY && c + d == yMax
    ensures (h - c / yMax * h) - d / (yMax / (h - 2.0 * MarginY)) == 2.0 * MarginY * d / yMax
  {
    var e := h - 2.0 * MarginY;
    assert d / (yMax / e) == d * e / yMax;
    assert c / yMax * h == c * h / yMax;
    assert h == h * yMax / yMax;
    assert (h * yMax - c * h - d * e) / yMax == h * yMax / yMax - c * h / yMax - d * e / yMax;
    assert h * yMax - c * h - d * e == 2.0 * MarginY * d;
  }
}
