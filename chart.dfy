/** The `tradechart` widget object: its fields, `init`/`setData` with the
    conversion and range pass of `_updateData`, the getters, the mouse
    handlers and the placement work of `render` and `_renderItems`. */
module Chart {
  import opened Wrappers
  import opened Stats
  import opened Data
  import opened View
  import opened Geometry
  import opened Grid

  /** `Types.PLOT` and `Types.LINE`. */
  const Plot: string := "plot"
  const Line: string := "line"

  /** `SMOOTH_LINES`. */
  const SmoothLines: bool := true

  datatype ChartError =
    | MissingData            // `_opts.data` absent: `Object.keys` or `render` throws
    | InvalidKey(key: Key)   // 'Invalid key: "...". Must be a number or Date.'
    | UnknownType(name: string)   // 'Unknown chart type "..."'

  /** Everything one `render` places on the canvas, up to the point where it
      returns or throws: horizontal gridlines, minor vertical lines (columns),
      major ticks, and the data shapes. */
  datatype Frame = Frame(hLines: seq<HLine>, minor: seq<real>, major: seq<Tick>, items: seq<Shape>)

  /** The chart type `init` settles on: `'plot'` when `opts.type` is missing
      or empty (falsy). */
  function DefaultType(optType: Option<string>): (t: string)
    ensures t != ""
    ensures t == Plot || optType == Some(t)
  {
    if optType.None? || optType.value == "" then Plot else optType.value
  }

  /** `init` writes the type it settles on back into `_opts.type`: that type
      is never empty, a non-empty type is kept, and defaulting the written
      type again changes nothing. */
  lemma DefaultTypeSettles(optType: Option<string>)
    ensures DefaultType(optType) != ""
    ensures optType.Some? && optType.value != "" ==> DefaultType(optType) == optType.value
    ensures DefaultType(Some(DefaultType(optType))) == DefaultType(optType)
  {
  }

  /** The shapes of line mode for points `pts`: a marker on every point and,
      between consecutive points, a connector from the one to the next. */
  ghost predicate Polyline(shapes: seq<Shape>, pts: seq<Point>, smooth: bool)
  {
    && |shapes| == (if pts == [] then 0 else 2 * |pts| - 1)
    && (forall i :: 0 <= i < |pts| ==> shapes[2 * i] == Marker(pts[i]))
    && (forall i :: 0 <= i < |pts| - 1 ==> shapes[2 * i + 1] == Connector(pts[i], pts[i + 1], smooth))
  }

  class TradeChart {
    /** `_canvas.width`, `_canvas.height`. */
    const width: real
    const height: real
    /** `_opts.type`. */
    const chartType: string
    /** `parseFloat(key)` then `new Date(key)` on a string key (None: both NaN). */
    const parseText: string -> Option<real>
    /** JS's `Number(s)` on a string key. */
    const numberOf: string -> real

    /** `_opts.data` after conversion; None while absent. */
    var data: Option<seq<Record>>
    var xRange: Range
    var yRange: Range
    /** The squares of `_xStep` and `_yStep`; None for NaN. */
    var xVariance: Option<real>
    var yVariance: Option<real>
    var scaleX: real
    var scaleY: real
    /** `_view.xOffset`, `_view.yOffset`. */
    var xOffset: real
    var yOffset: real
    var isDragging: bool
    /** `startX`, `startY`, shared by the handlers `_addEventListeners` installs. */
    var startX: real
    var startY: real

    /** `_scaleX` is at least 0.1, `_scaleY` is 1 (nothing changes it), and
        each range has both bounds or neither. */
    ghost predicate Valid()
      reads this
    {
      scaleX >= MinScale && scaleY == 1.0 && WellFormed(xRange) && WellFormed(yRange)
    }

    /** The fields the mouse handlers share. */
    function ViewOf(): ViewState
      reads this
    {
      ViewState(isDragging, startX, startY, xOffset, yOffset, scaleX, scaleY)
    }

    /** The fields the data pass writes. */
    ghost function Series(): (Option<seq<Record>>, Range, Range, Option<real>, Option<real>)
      reads this
    {
      (data, xRange, yRange, xVariance, yVariance)
    }

    /** The object literal's initial fields and the part of `init` that does
        not touch the DOM; `init` then calls `SetData` and `Render`. */
    constructor (width: real, height: real, optType: Option<string>,
                 parseText: string -> Option<real>, numberOf: string -> real)
      ensures Valid()
      ensures this.width == width && this.height == height && chartType == DefaultType(optType)
      ensures this.parseText == parseText && this.numberOf == numberOf
      ensures data == None && xRange == Range(None, None) && yRange == Range(None, None)
      ensures xVariance == None && yVariance == None
      ensures ViewOf() == ViewState(false, 0.0, 0.0, 0.0, 0.0, 1.0, 1.0)
    {
      this.width, this.height := width, height;
      chartType := DefaultType(optType);
      this.parseText, this.numberOf := parseText, numberOf;
      data := None;
      xRange, yRange := Range(None, None), Range(None, None);
      xVariance, yVariance := None, None;
      scaleX, scaleY := 1.0, 1.0;
      xOffset, yOffset := 0.0, 0.0;
      isDragging := false;
      startX, startY := 0.0, 0.0;
    }

    // ------------------------------------------------------------ data

    /** `_convertData`: replaces `_opts.data` by its canonical sorted form;
        absent data stays absent (and the JS throws). */
    method ConvertData(raw: RawData, ownKeys: seq<string>)
      requires raw.Mapping? ==> Enumerates(ownKeys, raw.entries)
      modifies `data
      ensures data == Normalize(raw, ownKeys, numberOf)
    {
      if raw.Missing? {
        data := None;
      } else {
        data := Some(SortByKeyDesc(Convert(raw, ownKeys), numberOf));
      }
    }

    /** `setData(raw)`, that is `_opts.data = raw; _updateData()`: convert,
        then recompute ranges and steps.  Absent data makes `Object.keys`
        throw before anything but the data field has changed. */
    method SetData(raw: RawData, ownKeys: seq<string>) returns (err: Option<ChartError>)
      requires Valid()
      requires raw.Mapping? ==> Enumerates(ownKeys, raw.entries)
      modifies this
      ensures Valid() && ViewOf() == old(ViewOf())
      ensures data == Normalize(raw, ownKeys, numberOf)
      ensures raw.Missing? ==>
                err == Some(MissingData) && Series() == (None, old(xRange), old(yRange), old(xVariance), old(yVariance))
      ensures !raw.Missing? ==> Summarised(err)
    {
      ConvertData(raw, ownKeys);
      if data.None? {
        return Some(MissingData);
      }
      err := UpdateStatistics();
    }

    /** The outcome of the range and statistics pass over the current data.
        It succeeds exactly when every key parses; the ranges are then the
        min/max of the parsed keys and of the values, and the squared steps
        are `StepVariance` of the keys and `Variance` of the values.  Otherwise
        the error names the first bad key, both steps are NaN and the ranges
        cover the records before it. */
    ghost predicate Summarised(err: Option<ChartError>)
      reads this
    {
      && data.Some?
      && var d := data.value;
      && (err.None? <==> ParseKeys(d, parseText).Some?)
      && (err.None? ==>
            && xRange == RangeOf(ParseKeys(d, parseText).value)
            && yRange == RangeOf(Values(d))
            && xVariance == StepVariance(Ranks(d, numberOf), ParseKeys(d, parseText).value)
            && yVariance == Variance(Values(d)))
      && (err.Some? ==>
            && xVariance == None && yVariance == None
            && exists j :: 0 <= j < |d| && FailsAt(d, j, parseText)
                 && err == Some(InvalidKey(d[j].key))
                 && xRange == RangeOf(ParseKeys(d[..j], parseText).value)
                 && yRange == RangeOf(Values(d[..j])))
    }

    /** `_updateData` after `_convertData`: clear both steps and both ranges,
        run `handleKey` over the records, then store the two squared steps. */
    method UpdateStatistics() returns (err: Option<ChartError>)
      requires Valid() && data.Some?
      modifies this
      ensures Valid() && ViewOf() == old(ViewOf()) && data == old(data)
      ensures Summarised(err)
    {
      var d := data.value;
      xVariance, yVariance := None, None;
      var failAt, numKeys, xTotal, yTotal := HandleKeys(d);
      if failAt.Some? {
        var j := failAt.value;
        err := Some(InvalidKey(d[j].key));
        assert 0 <= j < |d| && FailsAt(d, j, parseText) && err == Some(InvalidKey(d[j].key));
        return;
      }
      xVariance := StepFromTotal(Ranks(d, numberOf), xTotal, numKeys);
      yVariance := StepFromTotal(Values(d), yTotal, numKeys);
      ghost var ks := ParseKeys(d, parseText).value;
      assert xTotal == Sum(ks) && numKeys == |ks|;
      assert xVariance == StepVariance(Ranks(d, numberOf), ks);
      assert yTotal == Sum(Values(d)) && numKeys == |Values(d)|;
      assert yVariance == StepVariance(Values(d), Values(d));
      StepIsVariance(Values(d));
      return None;
    }

    /** The `for` loop of `_updateData` with `handleKey` inlined: from empty
        ranges, parse each key and fold key and value into the running totals
        and ranges, stopping at the first key that does not parse. */
    method HandleKeys(d: seq<Record>) returns (failAt: Option<nat>, numKeys: nat, xTotal: real, yTotal: real)
      modifies `xRange, `yRange
      ensures WellFormed(xRange) && WellFormed(yRange)
      ensures failAt.None? <==> ParseKeys(d, parseText).Some?
      ensures failAt.None? ==>
                && numKeys == |d|
                && xRange == RangeOf(ParseKeys(d, parseText).value) && xTotal == Sum(ParseKeys(d, parseText).value)
                && yRange == RangeOf(Values(d)) && yTotal == Sum(Values(d))
      ensures failAt.Some? ==>
                var j := failAt.value;
                && j < |d| && FailsAt(d, j, parseText)
                && xRange == RangeOf(ParseKeys(d[..j], parseText).value)
                && yRange == RangeOf(Values(d[..j]))
    {
      xRange, yRange := Range(None, None), Range(None, None);
      numKeys, xTotal, yTotal := 0, 0.0, 0.0;
      ghost var ks: seq<real> := [];
      var i := 0;
      while i < |d|
        invariant 0 <= i <= |d| && numKeys == i
        invariant ParseKeys(d[..i], parseText) == Some(ks)
        invariant xRange == RangeOf(ks) && xTotal == Sum(ks)
        invariant yRange == RangeOf(Values(d[..i])) && yTotal == Sum(Values(d[..i]))
        invariant WellFormed(xRange) && WellFormed(yRange)
      {
        numKeys := numKeys + 1;
        var key := ParseKey(d[i].key, parseText);
        if key.None? {
          assert FailsAt(d, i, parseText);
          failAt := Some(i);
          return;
        }
        ScanStep(d, i, ks, key.value, parseText);
        xTotal := xTotal + key.value;
        xRange := Extend(xRange, key.value);
        yTotal := yTotal + d[i].value;
        yRange := Extend(yRange, d[i].value);
        ks := ks + [key.value];
        i := i + 1;
      }
      assert d[..i] == d;
      assert ParseKeys(d, parseText) == Some(ks);
      return None, numKeys, xTotal, yTotal;
    }

    // ---------------------------------------------------------- getters

    /** `_getXMin()` and its siblings: the range bound, or 0 when undefined. */
    function XMin(): real reads this { Bound(xRange.lo) }
    function XMax(): real reads this { Bound(xRange.hi) }
    function YMin(): real reads this { Bound(yRange.lo) }
    function YMax(): real reads this { Bound(yRange.hi) }

    /** The getters are ordered: the minimum never exceeds the maximum. */
    lemma GettersOrdered()
      requires Valid()
      ensures XMin() <= XMax() && YMin() <= YMax()
    {
    }

    /** `_getXScale()`: domain units per canvas pixel. */
    function XScale(): real
      reads this
      requires width != 0.0
    {
      XMax() / width
    }

    /** `_getYScale()`, over the height less both vertical margins. */
    function YScale(): real
      reads this
      requires height != 2.0 * MarginY
    {
      YMax() / (height - 2.0 * MarginY)
    }

    /** `_getScaledWidth()`: zoom never shrinks it below a tenth of the canvas. */
    function ScaledWidth(): (w: real)
      reads this
      requires Valid()
      ensures width >= 0.0 ==> w >= width * MinScale
    {
      width * scaleX
    }

    /** `_getScaledHeight()`: since zoom leaves `_scaleY` alone, the height. */
    function ScaledHeight(): (h: real)
      reads this
      requires Valid()
      ensures h == height
    {
      height * scaleY
    }

    /** The transform `_positionForItem` applies with the current state:
        zoom leaves its vertical extent at the canvas height and never shrinks
        its horizontal extent below a tenth of the canvas width. */
    function CurrentTransform(): (t: Transform)
      reads this
      requires Valid()
      ensures t.scaledHeight == t.height == height
      ensures width >= 0.0 ==> t.scaledWidth >= width * MinScale
    {
      Transform(XMax(), YMax(), height, ScaledWidth(), ScaledHeight(), xOffset, yOffset)
    }

    /** `_positionForItem(key, value)`; `key.valueOf() / xMax` reads the key
        as a number the same way the comparator does. */
    function PositionForItem(r: Record): Point
      reads this
      requires Valid() && Defined(CurrentTransform())
    {
      PointOf(CurrentTransform(), r, numberOf)
    }

    // --------------------------------------------------------- handlers

    /** 'mousedown': start dragging, anchored at the pointer relative to the offset. */
    method MouseDown(p: Pointer)
      requires Valid()
      modifies this
      ensures Valid() && Series() == old(Series())
      ensures ViewOf() == Handle(old(ViewOf()), Down(p))
    {
      isDragging := true;
      startX := p.x - p.left - xOffset;
      startY := p.y - p.top - yOffset;
    }

    /** 'mouseup': stop dragging (the anchor is recomputed but not used). */
    method MouseUp(p: Pointer)
      requires Valid()
      modifies this
      ensures Valid() && Series() == old(Series())
      ensures ViewOf() == Handle(old(ViewOf()), Up(p))
    {
      isDragging := false;
      startX := p.x - p.left - xOffset;
      startY := p.y - p.top - yOffset;
    }

    /** 'mouseleave': stop dragging. */
    method MouseLeave()
      requires Valid()
      modifies this
      ensures Valid() && Series() == old(Series())
      ensures ViewOf() == Handle(old(ViewOf()), Leave)
    {
      isDragging := false;
    }

    /** 'mousemove': while dragging, move the offset by the pointer's motion
        relative to the anchor (the redraw it schedules is not modelled). */
    method MouseMove(p: Pointer)
      requires Valid()
      modifies this
      ensures Valid() && Series() == old(Series())
      ensures ViewOf() == Handle(old(ViewOf()), Move(p))
    {
      if isDragging {
        var canMouseX := p.x - p.left - xOffset;
        var canMouseY := p.y - p.top - yOffset;
        xOffset := xOffset + (canMouseX - startX);
        yOffset := yOffset + (canMouseY - startY);
      }
    }

    /** 'mousewheel': zoom horizontally, never below 0.1. */
    method Wheel(deltaY: real)
      requires Valid()
      modifies this
      ensures Valid() && Series() == old(Series())
      ensures ViewOf() == Handle(old(ViewOf()), View.Wheel(deltaY))
    {
      scaleX := scaleX + deltaY * WheelFactor;
      scaleX := Max(scaleX, MinScale);
    }

    // --------------------------------------------------------- rendering

    /** The pixel positions of all records, in data order.  Data sorted by
        descending key, as `_convertData` leaves it, is drawn right to left. */
    ghost function Positions(): (pts: seq<Point>)
      reads this
      requires Valid() && data.Some? && Defined(CurrentTransform())
      ensures |pts| == |data.value|
      ensures forall i :: 0 <= i < |pts| ==> pts[i] == PositionForItem(data.value[i])
      ensures SortedDesc(data.value, numberOf) && XMax() > 0.0 && width >= 0.0 ==>
                forall i, j :: 0 <= i < j < |pts| ==> pts[j].x <= pts[i].x
    {
      var t := CurrentTransform();
      if SortedDesc(data.value, numberOf) && XMax() > 0.0 && width >= 0.0 then
        PositionsRightToLeft(t, data.value, numberOf);
        PositionsOf(t, data.value, numberOf)
      else
        PositionsOf(t, data.value, numberOf)
    }

    /** `_renderItems`: a marker per record in plot mode; in line mode a
        marker per record and a connector to the next one; any other type
        is an error. */
    method RenderItems(smooth: bool) returns (r: Result<seq<Shape>, ChartError>)
      requires Valid() && data.Some?
      requires |data.value| > 0 ==> Defined(CurrentTransform())
      ensures chartType != Plot && chartType != Line ==> r == Err(UnknownType(chartType))
      ensures chartType == Plot ==>
                r.Ok? && |r.value| == |data.value| &&
                forall i :: 0 <= i < |data.value| ==> r.value[i] == Marker(PositionForItem(data.value[i]))
      ensures chartType == Line ==> r.Ok? && (data.value == [] ==> r.value == [])
      ensures chartType == Line && data.value != [] ==> r.Ok? && Polyline(r.value, Positions(), smooth)
    {
      var d := data.value;
      if chartType == Plot {
        var shapes := [];
        for i := 0 to |d|
          invariant |shapes| == i
          invariant forall j :: 0 <= j < i ==> shapes[j] == Marker(PositionForItem(d[j]))
        {
          shapes := shapes + [Marker(PositionForItem(d[i]))];
        }
        return Ok(shapes);
      } else if chartType == Line {
        var shapes := [];
        for i := 0 to |d|
          invariant |shapes| == 2 * i - (if 0 < i == |d| then 1 else 0)
          invariant forall j :: 0 <= j < i ==> shapes[2 * j] == Marker(PositionForItem(d[j]))
          invariant forall j :: 0 <= j < i && j + 1 < |d| ==>
                      shapes[2 * j + 1] == Connector(PositionForItem(d[j]), PositionForItem(d[j + 1]), smooth)
        {
          var aPos := PositionForItem(d[i]);
          shapes := shapes + [Marker(aPos)];
          if i + 1 < |d| {
            var bPos := PositionForItem(d[i + 1]);
            shapes := shapes + [Connector(aPos, bPos, smooth)];
          }
        }
        if d != [] {
          assert Polyline(shapes, Positions(), smooth);
        }
        return Ok(shapes);
      } else {
        return Err(UnknownType(chartType));
      }
    }

    /** What the three gridline loops of `render` place, given the values
        `ys`, `minorXs`, `majorXs` they visit: each is the sweep from the
        minimum below minimum plus maximum, by the step, a tenth of the x step
        and the x step; horizontal lines are all drawn, vertical ones only
        left of the right margin. */
    ghost predicate PlacedGrid(hLines: seq<HLine>, minor: seq<real>, major: seq<Tick>,
                               ys: seq<real>, minorXs: seq<real>, majorXs: seq<real>, xRoot: real, yRoot: real)
      reads this
      requires width != 0.0 && height != 2.0 * MarginY
    {
      && HorizontalGridOf(ys, hLines, YMin(), YMax(), YScale(), StepFor(yVariance, yRoot), scaleY, yOffset)
      && (minorXs == [] || XScale() != 0.0)
      && VerticalGridOf(minorXs, VerticalTicks(minorXs, XMin(), XScale(), scaleX, xOffset, width - MarginX),
                        XMin(), XMax(), XScale(), StepFor(xVariance, xRoot / 10.0), scaleX, xOffset, width - MarginX)
      && minor == Columns(VerticalTicks(minorXs, XMin(), XScale(), scaleX, xOffset, width - MarginX))
      && VerticalGridOf(majorXs, major, XMin(), XMax(), XScale(), StepFor(xVariance, xRoot), scaleX, xOffset, width - MarginX)
    }

    /** The gridline loops of `render`: `y += _yStep` for the horizontal
        lines, `x += _xStep / 10` for the minor and `x += _xStep` for the
        major vertical lines.  `xRoot`/`yRoot` are `Math.sqrt` of the squared
        steps.  A zero step with room to sweep would never end the loop, so it
        is excluded, as are divisions by zero. */
    method PlaceGrid(xRoot: real, yRoot: real)
      returns (hLines: seq<HLine>, minor: seq<real>, major: seq<Tick>,
               ys: seq<real>, minorXs: seq<real>, majorXs: seq<real>)
      requires width != 0.0 && height != 2.0 * MarginY
      requires Advances(xVariance, xRoot, XMax()) && Advances(yVariance, yRoot, YMax())
      ensures PlacedGrid(hLines, minor, major, ys, minorXs, majorXs, xRoot, yRoot)
      ensures |hLines| == |ys| && |minor| <= |minorXs| && |major| <= |majorXs|
    {
      var xMin, xMax, yMin, yMax := XMin(), XMax(), YMin(), YMax();
      var xScale, yScale := XScale(), YScale();
      ScaleNonzero(yMax, height - 2.0 * MarginY);
      ScaleNonzero(xMax, width);

      ys, hLines := HorizontalGrid(yMin, yMax, yScale, StepFor(yVariance, yRoot), scaleY, yOffset);
      var minorTicks;
      minorXs, minorTicks := VerticalGrid(xMin, xMax, xScale, StepFor(xVariance, xRoot / 10.0), scaleX, xOffset, width - MarginX);
      minor := Columns(minorTicks);
      majorXs, major := VerticalGrid(xMin, xMax, xScale, StepFor(xVariance, xRoot), scaleX, xOffset, width - MarginX);
    }

    /** `render`: throws without data; otherwise places the gridlines, then
        the data shapes of `_renderItems`, which throws for an unknown type
        after the gridlines are drawn.  `frame` is what is on the canvas when
        it returns or throws. */
    method Render(xRoot: real, yRoot: real)
      returns (err: Option<ChartError>, frame: Frame, ys: seq<real>, minorXs: seq<real>, majorXs: seq<real>)
      requires Valid()
      requires width != 0.0 && height != 2.0 * MarginY
      requires IsRoot(xVariance, xRoot) && IsRoot(yVariance, yRoot)
      requires xVariance == Some(0.0) ==> XMax() <= 0.0
      requires yVariance == Some(0.0) ==> YMax() <= 0.0
      requires data.Some? && |data.value| > 0 ==> Defined(CurrentTransform())
      ensures data.None? ==>
                err == Some(MissingData) && frame == Frame([], [], [], []) && ys == minorXs == majorXs == []
      ensures data.Some? ==> PlacedGrid(frame.hLines, frame.minor, frame.major, ys, minorXs, majorXs, xRoot, yRoot)
      ensures data.Some? && chartType != Plot && chartType != Line ==>
                err == Some(UnknownType(chartType)) && frame.items == []
      ensures data.Some? && (chartType == Plot || chartType == Line) ==> err.None?
      ensures data.Some? && chartType == Plot ==>
                |frame.items| == |data.value| &&
                forall i :: 0 <= i < |data.value| ==> frame.items[i] == Marker(PositionForItem(data.value[i]))
      ensures data.Some? && chartType == Line && data.value == [] ==> frame.items == []
      ensures data.Some? && chartType == Line && data.value != [] ==> Polyline(frame.items, Positions(), SmoothLines)
    {
      ys, minorXs, majorXs := [], [], [];
      if data.None? {
        return Some(MissingData), Frame([], [], [], []), ys, minorXs, majorXs;
      }
      RootPositive(xVariance, xRoot, XMax());
      RootPositive(yVariance, yRoot, YMax());
      var hLines, minor, major;
      hLines, minor, major, ys, minorXs, majorXs := PlaceGrid(xRoot, yRoot);
      var items := RenderItems(SmoothLines);
      if items.Err? {
        return Some(items.error), Frame(hLines, minor, major, []), ys, minorXs, majorXs;
      }
      return None, Frame(hLines, minor, major, items.value), ys, minorXs, majorXs;
    }

  }

  /** The loop step stored per axis: the square root `root` of the variance,
      or NaN (None) when there is none. */
  function StepFor(variance: Option<real>, root: real): Option<real>
  {
    if variance.Some? then Some(root) else None
  }

  /** A non-negative `root` whose square is the variance. */
  ghost predicate IsRoot(variance: Option<real>, root: real)
  {
    variance.Some? ==> 0.0 <= root && root * root == variance.value
  }

  /** A positive maximum over a non-zero extent gives a non-zero scale. */
  lemma ScaleNonzero(max: real, extent: real)
    requires extent != 0.0
    ensures max > 0.0 ==> max / extent != 0.0
  {
    if max > 0.0 {
      assert max / extent * extent == max;
    }
  }

  /** A loop over an axis whose maximum is positive advances: its step,
      and a tenth of it, are positive. */
  ghost predicate Advances(variance: Option<real>, root: real, max: real)
  {
    variance.Some? && max > 0.0 ==> root > 0.0 && root / 10.0 > 0.0
  }

  /** A root of a non-zero variance is positive. */
  lemma RootPositive(variance: Option<real>, root: real, max: real)
    requires IsRoot(variance, root)
    requires variance == Some(0.0) ==> max <= 0.0
    ensures Advances(variance, root, max)
  {
  }

  /** `_positionForItem` of one record under `t`: `key.valueOf()` reads the
      key as a number the same way the comparator does. */
  function PointOf(t: Transform, r: Record, numberOf: string -> real): Point
    requires Defined(t)
  {
    Position(t, Rank(r.key, numberOf), r.value)
  }

  /** `PointOf` every record, in order. */
  function PositionsOf(t: Transform, d: seq<Record>, numberOf: string -> real): (pts: seq<Point>)
    requires Defined(t)
    ensures |pts| == |d|
  {
    seq(|d|, i requires 0 <= i < |d| => PointOf(t, d[i], numberOf))
  }

  /** Records sorted by descending key are drawn right to left. */
  lemma PositionsRightToLeft(t: Transform, d: seq<Record>, numberOf: string -> real)
    requires Defined(t) && t.xMax > 0.0 && t.scaledWidth >= 0.0
    requires SortedDesc(d, numberOf)
    ensures var pts := PositionsOf(t, d, numberOf);
            forall i, j :: 0 <= i < j < |pts| ==> pts[j].x <= pts[i].x
  {
    var pts := PositionsOf(t, d, numberOf);
    forall i, j | 0 <= i < j < |pts| ensures pts[j].x <= pts[i].x {
      PositionMonotone(t, Rank(d[j].key, numberOf), d[j].value, Rank(d[i].key, numberOf), d[i].value);
    }
  }

  /** Panning the view translates every record's position by the change of
      offset: what a drag does to the whole chart. */
  lemma PositionsPan(t: Transform, d: seq<Record>, numberOf: string -> real, dx: real, dy: real)
    requires Defined(t)
    ensures var moved := t.(xOffset := t.xOffset + dx, yOffset := t.yOffset + dy);
            var pts := PositionsOf(t, d, numberOf);
            PositionsOf(moved, d, numberOf) == seq(|pts|, i requires 0 <= i < |pts| => Translate(pts[i], dx, dy))
  {
    var moved := t.(xOffset := t.xOffset + dx, yOffset := t.yOffset + dy);
    var pts := PositionsOf(t, d, numberOf);
    forall i | 0 <= i < |d| ensures PositionsOf(moved, d, numberOf)[i] == Translate(pts[i], dx, dy) {
      PositionPans(t, Rank(d[i].key, numberOf), d[i].value, dx, dy);
    }
  }

  /** `handleKey` throws at record `j`: every earlier key parses, this one does not. */
  ghost predicate FailsAt(d: seq<Record>, j: nat, parseText: string -> Option<real>)
    requires j < |d|
  {
    ParseKeys(d[..j], parseText).Some? && ParseKey(d[j].key, parseText).None?
  }

  /** One more record folded into the parsed prefix, the totals and the ranges. */
  lemma ScanStep(d: seq<Record>, i: nat, ks: seq<real>, v: real, parseText: string -> Option<real>)
    requires i < |d|
    requires ParseKeys(d[..i], parseText) == Some(ks) && ParseKey(d[i].key, parseText) == Some(v)
    ensures ParseKeys(d[..i + 1], parseText) == Some(ks + [v])
    ensures RangeOf(ks + [v]) == Extend(RangeOf(ks), v) && Sum(ks + [v]) == Sum(ks) + v
    ensures Values(d[..i + 1]) == Values(d[..i]) + [d[i].value]
    ensures RangeOf(Values(d[..i + 1])) == Extend(RangeOf(Values(d[..i])), d[i].value)
    ensures Sum(Values(d[..i + 1])) == Sum(Values(d[..i])) + d[i].value
  {
    assert d[..i + 1][..i] == d[..i];
    assert (ks + [v])[..|ks|] == ks;
    var vs := Values(d[..i]);
    assert Values(d[..i + 1]) == vs + [d[i].value];
    assert (vs + [d[i].value])[..|vs|] == vs;
  }

  /** The squared x step is the variance of the keys whenever no key is a
      string (strings are read by two different parsers). */
  lemma XStepIsKeyVariance(d: seq<Record>, parseText: string -> Option<real>, numberOf: string -> real)
    requires forall i :: 0 <= i < |d| ==> !d[i].key.Text?
    ensures ParseKeys(d, parseText).Some?
    ensures StepVariance(Ranks(d, numberOf), ParseKeys(d, parseText).value) == Variance(ParseKeys(d, parseText).value)
  {
    NonTextKeysParseToRank(d, parseText, numberOf);
  }
}
