# tradechart in Dafny

A model of `tradechart`, a canvas widget that draws one series of key/value
points as a scatter plot or a line chart. The model covers the widget's
computational core, with real arithmetic in place of JavaScript doubles:

- **Data normalisation** (`_convertData`). The four accepted input shapes become one
  sequence of records, which is then sorted by the comparator `b.key - a.key`.
  The shapes are an array of `[key, value]` pairs, an array of `{key, value}`
  objects, an array of plain values, and a key-to-value mapping.
- **Range and statistics pass** (`_updateData`, `average`). It parses every key,
  keeps running totals and running minimum/maximum, stops at the first key that is
  neither a number nor a date, and derives the two grid steps.
- **View state.** The mouse handlers drag and pan the view; the wheel handler zooms
  it horizontally, with a floor of 0.1.
- **Geometry.** The point-to-pixel transform of `_positionForItem`, the midpoint
  and control points of smoothed line segments, and the placement of horizontal
  gridlines and vertical ticks. Vertical lines are kept only left of the right
  margin.

Modules:

| module | file | contents |
|---|---|---|
| `Wrappers` | wrappers.dfy | `Option` and `Result` |
| `Stats` | stats.dfy | sum, `average`, squared deviations, the step variance, their lemmas |
| `Data` | data.dfy | keys, raw input shapes, conversion, the stable descending sort, key parsing, ranges |
| `View` | view.dfy | the view state as a value; the handlers as a transition function `Handle` over events; `Replay` and its lemmas |
| `Geometry` | geometry.dfy | the transform, markers, straight and smoothed connectors |
| `Grid` | grid.dfy | the accumulating gridline loop (`Sweep`, a method with a `while` loop), gridline and tick placement |
| `Chart` | chart.dfy | the class `TradeChart`, with the widget's fields and its methods |

`TradeChart` holds the fields the widget updates in place: the data, both
ranges, both steps, both zoom factors, both offsets, the dragging flag and the
drag anchor. Each method is proved against the functions in the other modules:

- every handler method ends in `Handle(old(view), event)`;
- `SetData` ends in `Normalize`, `RangeOf` and `ParseKeys` of its input, with the
  squared y step `Variance` of the values and the squared x step `StepVariance`
  of the keys (the variance of the keys when no key is a string);
- `Render` ends in the gridlines of `PlaceGrid`, followed by the shapes of
  `_renderItems`. `PlaceGrid` runs the three loops of `render`: one over y
  (tradechart.js:342) and two over x, a minor loop by a tenth of the x step
  (tradechart.js:362) and a major loop by the x step (tradechart.js:378). Each
  loop is `Sweep` followed by `HorizontalLines` or `VerticalTicks`. When the
  chart type is unknown, `Render` still reports the gridlines placed before
  `_renderItems` throws.

External behaviour becomes a parameter:

- `parseText: string -> Option<real>` stands for `parseFloat` and then `new Date`
  on a string key. `None` means both gave NaN.
- `numberOf: string -> real` stands for JavaScript's `Number(...)` on a string key.
  The sort comparator, `Number(obj.key)` in the squared differences and
  `key.valueOf() / xMax` in the transform all use it.
- A numeric key parses to itself and a date key to its milliseconds.
- `Object.keys` order is a parameter `ownKeys`, which enumerates the mapping's keys.
- `getBoundingClientRect` becomes the pointer's `left` and `top` fields.
- The pointer's `x`/`y` stand for `event.offsetX`/`offsetY`.
- `Math.sqrt` is not modelled. The fields hold the squared steps (`None` for
  NaN), and `Render` takes the roots as arguments: it requires that each root is
  non-negative and squares to its variance.

### Behaviour of the code worth knowing

Each of these follows from the code as written, and the model follows it:

- **A rejected key does not leave the previous state in place.** `_convertData`
  has already replaced the data before the pass starts. The pass then resets both
  ranges and sets both steps to NaN, and extends the ranges over the records
  before the bad key before it throws (tradechart.js:188-213). `SetData` states
  exactly this.
- **The sort is non-increasing, not strictly descending.** Equal keys stay, in
  their original order, next to each other (tradechart.js:182-184), since
  `Array.prototype.sort` is stable. `Data.SortByKeyDesc` states this with
  `WithRank`: the records of each rank come out in input order.
- **`setData(undefined)` throws inside `Object.keys`**, before the ranges are
  reset (tradechart.js:174). Only the data field changes.
- **The x step mixes two readings of the keys.** The mean uses the keys as
  `handleKey` totals them. The squared differences read them with `Number(...)`
  (tradechart.js:206-211, tradechart.js:243-247). `Stats.StepVariance` models the
  mix, and `Chart.XStepIsKeyVariance` shows that it equals the variance when no
  key is a string.
- **The y gridline captions do not match the data transform.** `_getYScale`
  divides by the height less `2 * CANVAS_MARGIN_Y`; `_positionForItem` divides by
  the whole height. `Grid.LabelledRowVersusPoint` computes the gap exactly.

## Model

| member | source | states |
|---|---|---|
| Stats.Average | tradechart.js:16-23 | `average` is undefined (NaN) exactly for an empty array; otherwise the mean times the length is the sum |
| Stats.AverageWithinBounds | tradechart.js:16-23 | the mean of a non-empty array lies between any lower and upper bound of its elements |
| Stats.SumBetween | tradechart.js:17-19 | the sum of n elements bounded by lo and hi lies between n*lo and n*hi |
| Stats.StepIsVariance | tradechart.js:243-256 | when both readings of the keys agree, the squared step is the population variance |
| Stats.VarianceNonnegative | tradechart.js:249-256 | the variance of non-empty data is defined and non-negative, so its square root is a real number |
| Stats.VarianceZeroIffConstant | tradechart.js:249-256 | the variance is zero if and only if all elements are equal, which is when the gridline loop would not advance |
| Stats.ConstantVarianceZero | tradechart.js:249-256 | constant data has variance zero |
| Stats.ZeroVarianceConstant | tradechart.js:249-256 | variance zero forces all elements to be equal |
| Stats.SumOfConstant | tradechart.js:17-19 | the sum of n copies of v is n*v |
| Stats.SumNonnegative | tradechart.js:17-19 | a sum of non-negative elements is non-negative |
| Stats.SumZeroOnlyIfAllZero | tradechart.js:17-19 | a zero sum of non-negative elements has every element zero |
| Data.Convert | tradechart.js:154-180 | conversion keeps the number of entries of an array, and gives one record per own key of a mapping, as many as the mapping has keys |
| Data.ShapeInvariance | tradechart.js:156-179 | a pair `[k, v]` and an object `{key: k, value: v}` convert identically; a plain value gets its index as key; a mapping gives string-keyed records in `Object.keys` order |
| Data.MappingOneRecordPerKey | tradechart.js:173-179 | a mapping yields exactly one record per key, carrying that key's value, and nothing else |
| Data.DistinctCard | tradechart.js:174 | an enumeration without repeats has as many elements as its set of keys |
| Data.Insert | tradechart.js:182-184 | inserting a record into the sorted part adds exactly that record |
| Data.InsertSorted | tradechart.js:182-184 | inserting into a non-increasing sequence keeps it non-increasing |
| Data.SortByKeyDesc | tradechart.js:182-184 | the sort yields a permutation of its input ordered by non-increasing `Number(key)`, and it is stable: for every rank, the records of that rank come out in their input order |
| Data.SortOfSorted | tradechart.js:182-184 | sorting an already sorted sequence changes nothing, because the sort is stable |
| Data.Normalize | tradechart.js:151-185 | normalisation is defined exactly when data is present, and yields a sorted permutation of the converted records that keeps the input order among records of equal rank |
| Data.ReconvertSorted | tradechart.js:161-165 | converting the canonical records again as objects gives back the same sequence |
| Data.NormalizeIdempotent | tradechart.js:151-185 | normalising the result of a normalisation returns it unchanged |
| Data.ParseKeys | tradechart.js:200-214 | the keys parse exactly when every key is a number or a date, and then element by element as `handleKey` parses them |
| Data.NonTextKeysParseToRank | tradechart.js:203-211 | without string keys, the parsed keys equal the keys as the comparator reads them |
| Data.RangeOf | tradechart.js:216-232 | the running min/max starts undefined, stays so for empty input, and otherwise ends at the least and greatest element, both of them members of the input |
| Data.BoundsOfRange | tradechart.js:258-276 | the getters return 0 for an empty range, and otherwise a minimum and a maximum that occur in the input and bound every element |
| View.WheelZoom | tradechart.js:139-140 | a wheel event sets `_scaleX` to `max(_scaleX - 0.01*deltaY, 0.1)` and changes nothing else |
| View.ZoomFloor | tradechart.js:136-148 | after any sequence of events `_scaleX` is at least 0.1, and `_scaleY` is unchanged |
| View.MoveIsAbsolute | tradechart.js:121-128 | a move while dragging sets the offset to the pointer position less the anchor, independent of the previous offset |
| View.DragFollowsLastMove | tradechart.js:103-134 | with no button events in between, the offset after a drag is fixed by the last move alone |
| View.PanClosedForm | tradechart.js:103-128 | after mouse-down and any button-free events, a move leaves the offset at the offset at mouse-down plus the pointer's total displacement |
| View.IdleMovesInert | tradechart.js:117-134 | while not dragging, moves and wheel events never change the offsets |
| View.ReleaseKeepsView | tradechart.js:110-119 | mouse-up and mouse-leave clear dragging and leave the offsets and zoom alone |
| Geometry.PositionAffine | tradechart.js:291-310 | the pixel distance between two points is proportional to their key distance and their value distance |
| Geometry.PositionPans | tradechart.js:305-308 | moving the view offsets moves every point by exactly that amount |
| Geometry.ZoomScalesDistance | tradechart.js:282-284 | zooming the scaled width by c multiplies every horizontal distance by c |
| Geometry.PositionAnchors | tradechart.js:291-310 | key 0 and key xMax land at the offset and at the scaled width; value 0 and value yMax land at the bottom edge and at the top of the scaled height; keys in [0, xMax] land inside |
| Geometry.SmoothCurveShape | tradechart.js:421-431 | the smoothed segment passes through the midpoint; its control x-coordinates are at one and three quarters of the way, with the end points' y-coordinates |
| Geometry.SmoothCurveOrdered | tradechart.js:421-424 | for a segment left to right, the control and midpoints are in order along x |
| Geometry.SmoothCurvePans | tradechart.js:421-424 | translating both end points translates the whole smoothed segment |
| Grid.Sweep | tradechart.js:342 | the gridline loop visits start + k*step for every k while below the bound, and stops at the first value that is not; with a NaN step it visits at most the start |
| Grid.SweepUnique | tradechart.js:342 | the description of the values the gridline loop visits has only one solution |
| Grid.HorizontalLinesSpacing | tradechart.js:342-357 | the first horizontal line is at the y offset labelled yMax; consecutive lines differ by one step in label and by step/yScale*zoom in pixels |
| Grid.VerticalTicksExact | tradechart.js:379-399 | a major tick appears exactly for a visited value whose column is left of the margin, at that column, labelled with its distance from xMin |
| Grid.TickMatchesTransform | tradechart.js:379-384 | the column of the tick labelled L equals the x pixel of a point whose key is L |
| Grid.LabelledRowVersusPoint | tradechart.js:278-280 | at zoom 1 a point of value L lies 10*(yMax-L)/yMax pixels below the horizontal line labelled L |
| Chart.DefaultType | tradechart.js:82-84 | the type `init` settles on is never empty, and is either "plot" or the type given |
| Chart.DefaultTypeSettles | tradechart.js:82-84 | the settled type is never empty, keeps a non-empty given type, and defaulting the type written back to `_opts.type` again changes nothing |
| Chart.ScanStep | tradechart.js:216-232 | one more record extends the parsed prefix, the totals and both running ranges |
| Chart.XStepIsKeyVariance | tradechart.js:240-256 | when no key is a string, the squared x step is the variance of the keys |
| Chart.TradeChart.constructor | tradechart.js:50-85 | the initial fields: no data, undefined ranges, NaN steps, zoom 1, offsets 0, not dragging, and the type defaults to "plot" |
| Chart.TradeChart.ConvertData | tradechart.js:151-185 | the data field becomes the normalised data |
| Chart.TradeChart.SetData | tradechart.js:92-95 | the data becomes the normalised input. Without data the call fails and nothing else changes; otherwise the pass ends as `Summarised` says. The view is unchanged |
| Chart.TradeChart.UpdateStatistics | tradechart.js:190-256 | the pass succeeds exactly when every key parses. The ranges are then the min/max of the parsed keys and of the values, and the squared steps are `StepVariance`/`Variance`. Otherwise the error names the first bad key, both steps are NaN, and the ranges cover the records before that key. Data and view are unchanged |
| Chart.TradeChart.HandleKeys | tradechart.js:192-238 | the loop fails at the first key that does not parse; otherwise it leaves count, totals and ranges as functions of all records |
| Chart.TradeChart.GettersOrdered | tradechart.js:258-276 | the minimum getters never exceed the maximum getters |
| Chart.TradeChart.ScaledWidth | tradechart.js:282-284 | the scaled width is never below a tenth of a non-negative canvas width |
| Chart.TradeChart.ScaledHeight | tradechart.js:286-288 | the scaled height is the canvas height, since nothing changes `_scaleY` |
| Chart.TradeChart.CurrentTransform | tradechart.js:283-310 | zoom leaves the vertical extent at the canvas height, and never shrinks the horizontal extent below a tenth of a non-negative canvas width |
| Chart.TradeChart.MouseDown | tradechart.js:103-108 | the new view state is `Handle` of the old one for mouse-down; the data fields are untouched |
| Chart.TradeChart.MouseUp | tradechart.js:110-115 | the same for mouse-up |
| Chart.TradeChart.MouseLeave | tradechart.js:117-119 | the same for mouse-leave |
| Chart.TradeChart.MouseMove | tradechart.js:121-134 | the same for a move |
| Chart.TradeChart.Wheel | tradechart.js:136-148 | the same for a wheel event |
| Chart.TradeChart.Positions | tradechart.js:291-310 | one pixel position per record, in data order; data sorted by descending key is drawn right to left whenever xMax is positive and the width non-negative |
| Chart.TradeChart.RenderItems | tradechart.js:404-452 | plot mode gives one marker per record, in order. Line mode gives n markers and n-1 connectors, alternating, each connector from a record to the next. Any other type is an error |
| Chart.TradeChart.PlaceGrid | tradechart.js:334-399 | the three loops visit the sweeps over the y step, a tenth of the x step and the x step, from each minimum below minimum plus maximum. Every horizontal line is placed; vertical lines are kept only left of the right margin |
| Chart.TradeChart.Render | tradechart.js:325-402 | without data it fails with nothing placed. Otherwise it places the gridlines as `PlaceGrid` does, also when an unknown type then fails with no shapes; plot and line mode follow with the shapes of `RenderItems`, none for line mode without data |
| Chart.RootPositive | tradechart.js:255-256 | the root of a variance that is not zero is positive, and so is a tenth of it |
| Grid.HorizontalGrid | tradechart.js:342-360 | the lines are those of the values the loop visits |
| Grid.VerticalGrid | tradechart.js:362-399 | the lines kept are those of the visited values left of the margin |
| Grid.SweepStep | tradechart.js:342 | the loop starts at the minimum, and consecutive values are one step apart |
| Data.InsertBounded | tradechart.js:182-184 | inserting a record no larger than m among records no larger than m keeps every record no larger than m |
| Data.ConsSorted | tradechart.js:182-184 | a record no smaller than every record of a sorted list can go in front |
| Data.ConvertItem | tradechart.js:155-171 | definition: a pair or an object gives its key and value, a plain value its index as key; `Convert` and `ShapeInvariance` state its properties |
| Data.Rank | tradechart.js:182-184 | definition: the number the comparator subtracts, `Number(key)` for a string; `SortedDesc` and the sort are stated in it |
| Data.WithRank | tradechart.js:182-184 | definition: the records of one rank, in order; the stability clauses of `SortByKeyDesc` and `Normalize` are stated in it |
| Data.InsertStable | tradechart.js:182-184 | insertion puts the record ahead of all records of equal rank and keeps the order among the rest |
| Data.WithRankCons | tradechart.js:182-184 | the records of one rank of a list with a new head are that head, if it ranks so, followed by those of the tail |
| Data.AsObjects | tradechart.js:161-165 | the converted records as `{key, value}` objects, one per record, as `_updateData` meets them on a later call |
| Data.ParseKey | tradechart.js:203-214 | definition: numbers and dates parse to themselves, a string as the host's parsers read it; `ParseKeys` states its use |
| Data.Values | tradechart.js:249-253 | one `obj.value` per record |
| Data.Ranks | tradechart.js:243-247 | one `Number(obj.key)` per record |
| Data.Extend | tradechart.js:216-232 | definition: one `handleKey` update of a running range; `RangeOf` and `Chart.ScanStep` state what repeated updates give |
| Data.Bound | tradechart.js:259-277 | definition: the bound, or 0 when it is undefined; `BoundsOfRange` states what the getters return |
| Stats.Sum | tradechart.js:17-19 | definition: the left fold; `SumBetween`, `SumOfConstant`, `SumNonnegative` and `Average` state its properties |
| Stats.SquareDiffs | tradechart.js:243-253 | one squared difference per element |
| Stats.Variance | tradechart.js:249-256 | definition: the average squared deviation from the average; `VarianceNonnegative` and `VarianceZeroIffConstant` state its properties |
| Stats.StepFromTotal | tradechart.js:240-256 | definition: the squared step from the loop's running total and count; `Chart.TradeChart.UpdateStatistics` stores it |
| Stats.StepVariance | tradechart.js:240-256 | definition: `StepFromTotal` of the totalled parsed keys; `StepIsVariance` and `Chart.XStepIsKeyVariance` relate it to `Variance` |
| View.Handle | tradechart.js:103-148 | definition: one handler's effect on the view state; `WheelZoom`, `MoveIsAbsolute` and `ReleaseKeepsView` state it per event |
| View.Replay | tradechart.js:103-148 | definition: the handlers run in order; `ZoomFloor`, `DragFollowsLastMove`, `PanClosedForm` and `IdleMovesInert` state its properties |
| Geometry.Position | tradechart.js:291-310 | definition: `_positionForItem`; `PositionAffine`, `PositionPans`, `PositionAnchors` and `PositionMonotone` state its properties |
| Geometry.PositionMonotone | tradechart.js:303-307 | with a positive xMax and a non-negative scaled width, a larger key is never drawn further left |
| Geometry.Midpoint | tradechart.js:421-424 | definition: the midpoint of `mid`, `cp1` and `cp2`; `SmoothCurveShape` states where they fall |
| Geometry.SmoothCurve | tradechart.js:416-435 | definition: the two quadratic curves of a smoothed connection; `SmoothCurveShape`, `SmoothCurveOrdered` and `SmoothCurvePans` state its properties |
| Geometry.Connector | tradechart.js:416-448 | definition: a smoothed curve or a straight segment by `SMOOTH_LINES` |
| Grid.IsSweep | tradechart.js:342 | definition: the values the gridline loop visits; `SweepUnique` shows it has one solution |
| Grid.LinePosition | tradechart.js:343-345 | definition: the pixel of a gridline value; `TickMatchesTransform` relates it to `Position` |
| Grid.HorizontalLines | tradechart.js:342-360 | one horizontal line per visited value, all drawn |
| Grid.VerticalTicks | tradechart.js:362-399 | never more vertical lines than visited values; `VerticalTicksExact` says which are kept |
| Grid.Columns | tradechart.js:362-376 | the pixel column of each kept minor line |
| Chart.StepFor | tradechart.js:255-256 | definition: the stored step, the square root of the variance or NaN |
| Chart.PointOf | tradechart.js:291-310 | definition: `_positionForItem` of one record |
| Chart.PositionsOf | tradechart.js:407-418 | one position per record, in order |
| Chart.PositionsRightToLeft | tradechart.js:182-184 | records sorted by descending key have non-increasing x positions |
| Chart.PositionsPan | tradechart.js:121-128 | moving the view offsets by a drag translates every record's position by the same amount |
| Chart.TradeChart.PositionForItem | tradechart.js:291-310 | definition: `_positionForItem` with the widget's current transform |
| Chart.TradeChart.XMin | tradechart.js:259-261 | definition: the lower x bound, or 0 when undefined; `GettersOrdered` and `Data.BoundsOfRange` state its properties |
| Chart.TradeChart.XMax | tradechart.js:263-265 | definition: the upper x bound, or 0 when undefined |
| Chart.TradeChart.YMin | tradechart.js:271-273 | definition: the lower y bound, or 0 when undefined |
| Chart.TradeChart.YMax | tradechart.js:275-277 | definition: the upper y bound, or 0 when undefined |
| Chart.TradeChart.XScale | tradechart.js:267-269 | definition: domain units per pixel; `TickMatchesTransform` uses it |
| Chart.TradeChart.YScale | tradechart.js:279-281 | definition: over the height less both margins; `LabelledRowVersusPoint` uses it |

## Left out

- Drawing calls (`fillRect`, `beginPath`, `stroke`, `quadraticCurveTo`, `fillText`, `measureText`), fonts and colours. Only the coordinates passed to them are modelled.
- DOM plumbing: the `HTMLCanvasElement` and `opts` type checks in `init`, `addEventListener`, `preventDefault`, `requestAnimationFrame`, and the canvas clearing in `_clear`. `init` is the constructor followed by `SetData` and `Render`.
- The `Array.isArray` polyfill and the unused `standardDeviation` helper (tradechart.js:1-14, tradechart.js:25-29).
- IEEE doubles, NaN and Infinity. A NaN step is `None`, which is how the gridline loops treat it: they visit at most one value.
- `parseFloat`, `new Date` and `Number` on strings are parameters, not definitions.
- With date keys the JavaScript range holds `Date` objects, and `xMax + xMin` then concatenates strings. The model reads every key as its milliseconds.
- Chart.TradeChart.Render: requires a positive step whenever the loop would run. A zero step (constant data) never ends the loop.
- Chart.TradeChart.Render: requires non-zero scale divisors and a non-zero `xMax`/`yMax` once data is present. Otherwise the JavaScript divides by zero.
- Chart.TradeChart.Render: takes the square roots the steps are made of as arguments instead of computing `Math.sqrt`.
- Chart.TradeChart.PlaceGrid: requires the same as `Render`. It receives the positivity of the steps already derived.
- Label text rounding (`Math.floor(v * 100) / 100`): captions carry the exact value.
- The sort is modelled on values as a stable insertion sort by `Number(key)`, not the in-place `Array.prototype.sort`. It assumes the comparator is a consistent order; NaN keys break that in JavaScript.
- Aliasing of `opts`: `init` keeps the caller's object, so `_convertData` and `setData` overwrite the caller's `opts.data`, and a later change to `opts.type` changes what `render` draws (tradechart.js:78, tradechart.js:93, tradechart.js:405). The model holds its own copy of the data and fixes the type at construction.
- The `xScale`/`yScale` arguments of `_positionForItem` and `_renderItems` have no effect in the code, so the model does not pass them.
