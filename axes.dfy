/** The axes mixin: for every configured side of a laid-out column plot, the
    tick, grid-line and label nodes of a hardcoded, input-based or
    range-based axis, and the extra space the chart needs for them. */
module Axes {
  import opened Common
  import opened Normalizer
  import opened ColumnPlot
  import opened AxisNodes

  // -----------------------------------------------------------------------
  // Configuration

  /** `gridLines`: unset or `false`, `true`, or a configuration object. */
  datatype GridLines = GridLinesOff | GridLinesOn | GridLinesWith(length: Option<real>, zeroth: bool)

  /** `labels`: `false`, unset or `true`, or a configuration object. */
  datatype Labels = LabelsOff | LabelsOn | LabelsWith(config: LabelConfiguration)

  /** A hardcoded marking: a plain number has the empty text. */
  datatype Marking = Marking(relative: real, text: string)

  /** `inputs`: `true` has no label selector. */
  datatype Inputs<!T> = Inputs(labelSelector: Option<Column<T> -> string>)

  datatype Range = Range(end: Option<real>, fixed: bool, labelSelector: Option<real -> string>,
                         start: Option<real>, stepSize: real)

  /** An axis configuration; which of `hardcoded`, `inputs` and `range` it
      holds decides the kind of axis. */
  datatype AxisConfiguration<!T> = AxisConfiguration(
    gridLines: GridLines, labels: Labels, ticks: Option<TickConfiguration>,
    hardcoded: Option<seq<Marking>>, inputs: Option<Inputs<T>>, range: Option<Range>)

  predicate IsHardcoded<T>(cfg: AxisConfiguration<T>) { cfg.hardcoded.Some? }
  predicate IsInputBased<T>(cfg: AxisConfiguration<T>) { cfg.inputs.Some? }
  predicate IsRangeBased<T>(cfg: AxisConfiguration<T>) { cfg.range.Some? }

  /** Labels are on unless they are `false`; `true` and unset mean the
      defaults. */
  function EffectiveLabels(labels: Labels): Option<LabelConfiguration>
  {
    match labels
    case LabelsOff => None
    case LabelsOn => Some(LabelConfiguration(None, None, None, None, None))
    case LabelsWith(config) => Some(config)
  }

  /** No grid lines, the configured length, or the chart's extent across the
      axis. */
  function GridLineLength<P>(gridLines: GridLines, side: Side, plot: Plot<P>): real
  {
    match gridLines
    case GridLinesOff => 0.0
    case GridLinesWith(length, _) =>
      if length.Some? then length.value else if IsHorizontal(side) then plot.height else plot.width
    case GridLinesOn => if IsHorizontal(side) then plot.height else plot.width
  }

  function EnvOf<T, P>(cfg: AxisConfiguration<T>, side: Side, plot: Plot<P>): AxisEnv
  {
    AxisEnv(side, cfg.ticks, GridLineLength(cfg.gridLines, side, plot), EffectiveLabels(cfg.labels))
  }

  /** Where the label of the first marking starts: the chart's start along
      the axis (the bottom on vertical axes). */
  function InitialPosition(side: Side, height: real): real
  {
    if IsHorizontal(side) then 0.0 else height
  }

  function LastPosition(marks: seq<Mark>, initial: real): real
  {
    if |marks| == 0 then initial else marks[|marks| - 1].tick1
  }

  // -----------------------------------------------------------------------
  // Hardcoded axes

  predicate InUnit(marking: Marking) { 0.0 <= marking.relative <= 1.0 }

  /** The markings that are drawn, in order. */
  function Accepted(markings: seq<Marking>): seq<Marking>
    decreases |markings|
  {
    if |markings| == 0 then []
    else
      var accepted := Accepted(markings[..|markings| - 1]);
      var m := markings[|markings| - 1];
      if InUnit(m) then accepted + [m] else accepted
  }

  /** A fraction of the chart's extent. */
  function Scaled(relative: real, extent: real): real
  {
    relative * extent
  }

  function HardcodedPosition(relative: real, side: Side, width: real, height: real): real
  {
    if IsHorizontal(side) then Scaled(relative, width) else height - Scaled(relative, height)
  }

  /** A hardcoded marking scaled to the chart; its label spans from the
      previous marking's position. */
  function HardcodedMark(marking: Marking, prev: real, side: Side, width: real, height: real): Mark
  {
    var x := if IsHorizontal(side) then Scaled(marking.relative, width) else 0.0;
    var y := if IsHorizontal(side) then 0.0 else height - Scaled(marking.relative, height);
    var p := if IsHorizontal(side) then x else y;
    Mark(p, p, false, x, y, marking.text, p, prev, false)
  }

  function HardcodedMarks(markings: seq<Marking>, side: Side, width: real, height: real): seq<Mark>
    decreases |markings|
  {
    if |markings| == 0 then []
    else
      var marks := HardcodedMarks(markings[..|markings| - 1], side, width, height);
      var m := markings[|markings| - 1];
      if InUnit(m) then marks + [HardcodedMark(m, LastPosition(marks, InitialPosition(side, height)), side, width, height)]
      else marks
  }

  /** `createHardcodedAxis`. */
  method CreateHardcodedAxis<P>(markings: seq<Marking>, labels: Option<LabelConfiguration>,
                                ticks: Option<TickConfiguration>, gridLineLength: real, side: Side, plot: Plot<P>)
    returns (nodes: seq<Node>)
    ensures nodes == NodesOf(AxisEnv(side, ticks, gridLineLength, labels),
                             HardcodedMarks(markings, side, plot.width, plot.height))
  {
    var env := AxisEnv(side, ticks, gridLineLength, labels);
    var isHorizontal := side == Bottom || side == Top;
    nodes := [];
    var index := 1;
    var prev := if isHorizontal then 0.0 else plot.height;
    ghost var marks: seq<Mark> := [];
    for i := 0 to |markings|
      invariant marks == HardcodedMarks(markings[..i], side, plot.width, plot.height)
      invariant index == |marks| + 1
      invariant prev == LastPosition(marks, InitialPosition(side, plot.height))
      invariant nodes == NodesOf(env, marks)
    {
      HardcodedMarksStep(markings, i, side, plot.width, plot.height);
      var relative := markings[i].relative;
      if relative < 0.0 || relative > 1.0 {
        continue;
      }
      var mark := HardcodedStepMark(markings[i], prev, side, plot);
      nodes := PushNextMark(nodes, env, index, mark, marks);
      marks := marks + [mark];
      index := index + 1;
      prev := mark.tick1;
    }
    assert markings[..|markings|] == markings;
  }

  /** The marking one hardcoded value gets in the loop of
      `createHardcodedAxis`. */
  method HardcodedStepMark<P>(marking: Marking, prev: real, side: Side, plot: Plot<P>) returns (mark: Mark)
    ensures mark == HardcodedMark(marking, prev, side, plot.width, plot.height)
  {
    var isHorizontal := side == Bottom || side == Top;
    var x := if isHorizontal then Scaled(marking.relative, plot.width) else 0.0;
    var y := if isHorizontal then 0.0 else plot.height - Scaled(marking.relative, plot.height);
    var p := if isHorizontal then x else y;
    mark := Mark(p, p, false, x, y, marking.text, p, prev, false);
  }

  /** One more hardcoded value adds its marking when it lies in [0, 1] and
      nothing otherwise. */
  lemma HardcodedMarksStep(markings: seq<Marking>, i: nat, side: Side, width: real, height: real)
    requires i < |markings|
    ensures var marks := HardcodedMarks(markings[..i], side, width, height);
      HardcodedMarks(markings[..i + 1], side, width, height)
      == if InUnit(markings[i])
         then marks + [HardcodedMark(markings[i], LastPosition(marks, InitialPosition(side, height)), side, width, height)]
         else marks
  {
    assert markings[..i + 1][..i] == markings[..i];
  }

  // -----------------------------------------------------------------------
  // Input-based axes

  /** The marking of one plot point: its extent along the axis; on vertical
      axes it is negative when it reaches below the zero line. */
  function PointMark<T>(point: ColumnPoint<T>, side: Side, zero: Zero,
                        labelSelector: Option<Column<T> -> string>): Mark
  {
    var p1 := if IsHorizontal(side) then point.x1 else point.y1;
    var p2 := if IsHorizontal(side) then point.x2 else point.y2;
    var isNegative := if IsHorizontal(side) then false else point.y2 > zero.y;
    var text := if labelSelector.Some? then labelSelector.value(point.datum) else "";
    Mark(p1, p2, isNegative, if IsHorizontal(side) then point.x2 else 0.0, if IsHorizontal(side) then 0.0 else point.y1,
         text, p1, p2, isNegative)
  }

  function InputMarks<T>(points: seq<ColumnPoint<T>>, side: Side, zero: Zero,
                         labelSelector: Option<Column<T> -> string>): seq<Mark>
  {
    seq(|points|, k requires 0 <= k < |points| => PointMark(points[k], side, zero, labelSelector))
  }

  /** `createInputBasedAxis`. */
  method CreateInputBasedAxis<T>(inputs: Inputs<T>, labels: Option<LabelConfiguration>,
                                 ticks: Option<TickConfiguration>, gridLineLength: real, side: Side,
                                 plot: Plot<ColumnPoint<T>>)
    returns (nodes: seq<Node>)
    ensures nodes == NodesOf(AxisEnv(side, ticks, gridLineLength, labels),
                             InputMarks(plot.points, side, plot.zero, inputs.labelSelector))
  {
    var env := AxisEnv(side, ticks, gridLineLength, labels);
    var labelSelector := inputs.labelSelector;
    var points := plot.points;
    nodes := [];
    var index := 0;
    for i := 0 to |points|
      invariant index == i
      invariant nodes == NodesOf(env, InputMarks(points[..i], side, plot.zero, labelSelector))
    {
      var point := points[i];
      index := index + 1;
      var mark := InputStepMark(point, side, plot.zero, labelSelector);
      ghost var marks := InputMarks(points[..i], side, plot.zero, labelSelector);
      assert InputMarks(points[..i + 1], side, plot.zero, labelSelector) == marks + [mark];
      nodes := PushNextMark(nodes, env, index, mark, marks);
    }
    assert points[..|points|] == points;
  }

  /** The marking one plot point gets in the loop of
      `createInputBasedAxis`. */
  method InputStepMark<T>(point: ColumnPoint<T>, side: Side, zero: Zero, labelSelector: Option<Column<T> -> string>)
    returns (mark: Mark)
    ensures mark == PointMark(point, side, zero, labelSelector)
  {
    var isHorizontal := side == Bottom || side == Top;
    var p1 := if isHorizontal then point.x1 else point.y1;
    var p2 := if isHorizontal then point.x2 else point.y2;
    var isNegative := if isHorizontal then false else point.y2 > zero.y;
    var x := if isHorizontal then point.x2 else 0.0;
    var y := if isHorizontal then 0.0 else point.y1;
    var text := if labelSelector.Some? then labelSelector.value(point.datum) else "";
    mark := Mark(p1, p2, isNegative, x, y, text, p1, p2, isNegative);
  }

  // -----------------------------------------------------------------------
  // Range-based axes

  /** The scan over the points' values from the domain's bounds; a value
      below the lowest so far replaces it, else one above the highest. */
  function ValueBounds<T>(points: seq<ColumnPoint<T>>, mostNegative: real, mostPositive: real): (real, real)
    decreases |points|
  {
    if |points| == 0 then (mostNegative, mostPositive)
    else
      var bounds := ValueBounds(points[..|points| - 1], mostNegative, mostPositive);
      var value := points[|points| - 1].datum.value;
      if value < bounds.0 then (value, bounds.1)
      else if value > bounds.1 then (bounds.0, value)
      else bounds
  }

  /** The range the axis has to show: the domain, or for a `[0, 0]` domain
      the data's extremes with 0 included. */
  function RangeBoundsOf<T>(domain: Domain, points: seq<ColumnPoint<T>>): (real, real)
  {
    if domain.0 == 0.0 && domain.1 == 0.0 then ValueBounds(points, 0.0, 0.0) else domain
  }

  /** The configured end (the most positive value by default); when it is
      not a multiple of the step, the most positive value rounded up to
      one. */
  function RangeEnd(range: Range, mostPositive: real): real
    requires range.stepSize > 0.0
  {
    var end := GetOr(range.end, mostPositive);
    if JsRemainder(end, range.stepSize) > 0.0 then RoundUp(mostPositive, range.stepSize) else end
  }

  /** `Math.ceil(value / stepSize) * stepSize`. */
  function RoundUp(value: real, stepSize: real): real
    requires stepSize > 0.0
  {
    (Ceil(value / stepSize) as real) * stepSize
  }

  /** `Math.floor(value / stepSize) * stepSize`. */
  function RoundDown(value: real, stepSize: real): real
    requires stepSize > 0.0
  {
    (Floor(value / stepSize) as real) * stepSize
  }

  /** The configured start (the most negative value by default); when it
      leaves a positive remainder, the most negative value rounded down to a
      multiple of the step. */
  function RangeStart(range: Range, mostNegative: real): real
    requires range.stepSize > 0.0
  {
    var start := GetOr(range.start, mostNegative);
    if JsRemainder(start, range.stepSize) > 0.0 then RoundDown(mostNegative, range.stepSize) else start
  }

  /** The axis is stretched when it is not fixed and its range differs from
      the data's. */
  predicate Resizes(range: Range, start: real, end: real, bounds: (real, real))
  {
    !range.fixed && (end != bounds.1 || start != bounds.0)
  }

  /** The step must be positive for the markings to end, the data's range
      must be non-empty where the axis is stretched to it, and the axis's
      range must be non-empty for the positions to be defined. */
  predicate RangeDefined(range: Range, bounds: (real, real))
  {
    && range.stepSize > 0.0
    && RangeStart(range, bounds.0) != RangeEnd(range, bounds.1)
    && (Resizes(range, RangeStart(range, bounds.0), RangeEnd(range, bounds.1), bounds) ==> bounds.1 != bounds.0)
  }

  /** The chart's extent along the axis, less the line between negative and
      positive values when there is one. */
  function RangeChartSize<P>(side: Side, plot: Plot<P>): real
  {
    var inflation := if HasNegative(if IsHorizontal(side) then plot.horizontalValues else plot.verticalValues) then 1.0
                     else 0.0;
    (if IsHorizontal(side) then plot.width else plot.height) - inflation
  }

  datatype RangeLayout = RangeLayout(start: real, end: real, delta: real, size: real, extraSpace: real)

  /** The range, the size it is drawn over and the extra space a stretched
      axis needs beyond the chart. */
  function RangeLayoutOf<P>(range: Range, side: Side, plot: Plot<P>, bounds: (real, real)): RangeLayout
    requires RangeDefined(range, bounds)
  {
    var start := RangeStart(range, bounds.0);
    var end := RangeEnd(range, bounds.1);
    var chartSize := RangeChartSize(side, plot);
    var size := if Resizes(range, start, end, bounds) then Stretched(chartSize, bounds.1 - bounds.0, end - start)
                else chartSize;
    RangeLayout(start, end, end - start, size, if size > chartSize then size - chartSize else 0.0)
  }

  /** The chart size scaled from the data's range to the axis's range. */
  function Stretched(chartSize: real, deltaValue: real, delta: real): real
    requires deltaValue != 0.0
  {
    chartSize / deltaValue * delta
  }

  /** How many steps of `stepSize` from `start` stay at or below `end`. */
  function StepCount(start: real, end: real, stepSize: real): nat
    requires stepSize > 0.0
  {
    if start > end then 0 else ((end - start) / stepSize).Floor as nat + 1
  }

  /** The `k`-th step from `start`, reached by adding the step size `k`
      times. */
  function StepAt(start: real, k: nat, stepSize: real): real
  {
    if k == 0 then start else StepAt(start, k - 1, stepSize) + stepSize
  }

  /** The `k`-th step lies `k` step sizes from the start. */
  lemma {:induction false} StepAtOffset(start: real, k: nat, stepSize: real)
    ensures StepAt(start, k, stepSize) == start + (k as real) * stepSize
  {
    if k > 0 {
      StepAtOffset(start, k - 1, stepSize);
    }
  }

  function Steps(start: real, end: real, stepSize: real): seq<real>
    requires stepSize > 0.0
  {
    seq(StepCount(start, end, stepSize), k requires 0 <= k => StepAt(start, k, stepSize))
  }

  /** How far a step lies from the zero line: its share of the range times
      the size the range is drawn over. */
  function StepOffset(step: real, delta: real, size: real): real
    requires delta != 0.0
  {
    step / delta * size
  }

  function StepPosition(step: real, side: Side, zero: Zero, layout: RangeLayout): real
    requires layout.delta != 0.0
  {
    if IsHorizontal(side) then zero.x + StepOffset(step, layout.delta, layout.size)
    else zero.y - StepOffset(step, layout.delta, layout.size)
  }

  function RangeText(range: Range, format: real -> string, step: real): string
  {
    if range.labelSelector.Some? then range.labelSelector.value(step) else format(step)
  }

  /** The marking of one step, measured from the zero line; a negative
      step's label spans from its position back to the previous one. */
  function RangeMark(step: real, prev: real, range: Range, format: real -> string, side: Side, zero: Zero,
                     layout: RangeLayout): Mark
    requires layout.delta != 0.0
  {
    var isNegative := step < 0.0;
    var p := StepPosition(step, side, zero, layout);
    Mark(p, p, false, if IsHorizontal(side) then p else 0.0, if IsHorizontal(side) then 0.0 else p,
         RangeText(range, format, step), if isNegative then prev else p, if isNegative then p else prev, isNegative)
  }

  /** The markings of the steps in order; each label reaches back to the
      position of the step before it, or to the axis's initial position. */
  function RangeMarks(steps: seq<real>, range: Range, format: real -> string, side: Side, zero: Zero, height: real,
                      layout: RangeLayout): seq<Mark>
    requires layout.delta != 0.0
  {
    seq(|steps|, k requires 0 <= k < |steps| =>
      RangeMark(steps[k], if k == 0 then InitialPosition(side, height) else StepPosition(steps[k - 1], side, zero, layout),
                range, format, side, zero, layout))
  }

  /** The scan of `createRangeBasedAxis` over the points of a `[0, 0]`
      domain. */
  method ScanValueBounds<T>(points: seq<ColumnPoint<T>>, domainMin: real, domainMax: real)
    returns (mostNegative: real, mostPositive: real)
    ensures (mostNegative, mostPositive) == ValueBounds(points, domainMin, domainMax)
  {
    mostNegative := domainMin;
    mostPositive := domainMax;
    for i := 0 to |points|
      invariant (mostNegative, mostPositive) == ValueBounds(points[..i], domainMin, domainMax)
    {
      assert points[..i + 1][..i] == points[..i];
      var value := points[i].datum.value;
      if value < mostNegative {
        mostNegative := value;
      } else if value > mostPositive {
        mostPositive := value;
      }
    }
    assert points[..|points|] == points;
  }

  /** The range's bounds, size and extra space, as `createRangeBasedAxis`
      settles them before drawing. */
  method SettleRange<T>(range: Range, side: Side, plot: Plot<ColumnPoint<T>>, domain: Domain)
    returns (layout: RangeLayout)
    requires RangeDefined(range, RangeBoundsOf(domain, plot.points))
    ensures layout == RangeLayoutOf(range, side, plot, RangeBoundsOf(domain, plot.points))
  {
    var isHorizontal := side == Bottom || side == Top;
    var mostNegative := domain.0;
    var mostPositive := domain.1;
    if domain.0 == 0.0 && domain.1 == 0.0 {
      mostNegative, mostPositive := ScanValueBounds(plot.points, mostNegative, mostPositive);
    }
    var start, end := SettleEnds(range, mostNegative, mostPositive);
    var delta := end - start;
    var chartSize := SettleChartSize(side, plot);
    var size := chartSize;
    var extraSpace := 0.0;
    if !range.fixed && (end != mostPositive || start != mostNegative) {
      var deltaValue := mostPositive - mostNegative;
      size := Stretched(chartSize, deltaValue, delta);
      if size > chartSize {
        extraSpace := size - chartSize;
      }
    }
    layout := RangeLayout(start, end, delta, size, extraSpace);
  }

  /** The start and end `createRangeBasedAxis` settles on, each rounded
      when it leaves a positive remainder. */
  method SettleEnds(range: Range, mostNegative: real, mostPositive: real) returns (start: real, end: real)
    requires range.stepSize > 0.0
    ensures start == RangeStart(range, mostNegative) && end == RangeEnd(range, mostPositive)
  {
    var stepSize := range.stepSize;
    end := if range.end.Some? then range.end.value else mostPositive;
    start := if range.start.Some? then range.start.value else mostNegative;
    if JsRemainder(end, stepSize) > 0.0 {
      end := RoundUp(mostPositive, stepSize);
    }
    if JsRemainder(start, stepSize) > 0.0 {
      start := RoundDown(mostNegative, stepSize);
    }
  }

  /** The chart's extent along the axis, one less when there are negative
      values along it. */
  method SettleChartSize<P>(side: Side, plot: Plot<P>) returns (chartSize: real)
    ensures chartSize == RangeChartSize(side, plot)
  {
    var isHorizontal := side == Bottom || side == Top;
    var inflation := 0.0;
    if (if isHorizontal then plot.horizontalValues else plot.verticalValues) & ValuesNegative != 0 {
      inflation := 1.0;
    }
    chartSize := (if isHorizontal then plot.width else plot.height) - inflation;
  }

  /** The body of `createRangeBasedAxis`'s loop: the marking of one step. */
  method RangeStepMark(step: real, prev: real, range: Range, format: real -> string, side: Side, zero: Zero,
                       layout: RangeLayout)
    returns (mark: Mark)
    requires layout.delta != 0.0
    ensures mark == RangeMark(step, prev, range, format, side, zero, layout)
  {
    var isHorizontal := side == Bottom || side == Top;
    var isNegative := step < 0.0;
    var x := if isHorizontal then zero.x + StepOffset(step, layout.delta, layout.size) else 0.0;
    var y := if isHorizontal then 0.0 else zero.y - StepOffset(step, layout.delta, layout.size);
    var p := if isHorizontal then x else y;
    var text := if range.labelSelector.Some? then range.labelSelector.value(step) else format(step);
    var p1 := if isNegative then prev else p;
    var p2 := if isNegative then p else prev;
    mark := Mark(p, p, false, x, y, text, p1, p2, isNegative);
  }

  /** `createRangeBasedAxis`: the range is settled, then a marking is drawn
      at every step from its start up to its end. */
  method CreateRangeBasedAxis<T>(range: Range, labels: Option<LabelConfiguration>, ticks: Option<TickConfiguration>,
                                 gridLineLength: real, side: Side, plot: Plot<ColumnPoint<T>>, domain: Domain,
                                 format: real -> string)
    returns (nodes: seq<Node>, extraSpace: real)
    requires RangeDefined(range, RangeBoundsOf(domain, plot.points))
    ensures var layout := RangeLayoutOf(range, side, plot, RangeBoundsOf(domain, plot.points));
      && nodes == NodesOf(AxisEnv(side, ticks, gridLineLength, labels),
                          RangeMarks(Steps(layout.start, layout.end, range.stepSize), range, format, side, plot.zero,
                                     plot.height, layout))
      && extraSpace == layout.extraSpace
  {
    var layout := SettleRange(range, side, plot, domain);
    nodes := DrawRangeSteps(range, AxisEnv(side, ticks, gridLineLength, labels), plot.zero, plot.height, layout,
                            format);
    extraSpace := layout.extraSpace;
  }

  /** The loop of `createRangeBasedAxis`: one marking per step, each label
      spanning back to the previous step's position. */
  method DrawRangeSteps(range: Range, env: AxisEnv, zero: Zero, height: real, layout: RangeLayout,
                        format: real -> string)
    returns (nodes: seq<Node>)
    requires range.stepSize > 0.0 && layout.delta != 0.0
    ensures nodes == NodesOf(env, RangeMarks(Steps(layout.start, layout.end, range.stepSize), range, format, env.side,
                                             zero, height, layout))
  {
    var side := env.side;
    var isHorizontal := side == Bottom || side == Top;
    var stepSize := range.stepSize;
    var start, end := layout.start, layout.end;
    ghost var steps := Steps(start, end, stepSize);
    ghost var initial := InitialPosition(side, height);
    ghost var marks: seq<Mark> := [];
    ghost var n := 0;
    nodes := [];
    var index := 1;
    var prev := if isHorizontal then 0.0 else height;
    var step := start;
    while step <= end
      invariant n <= |steps| && index == n + 1 && |marks| == n
      invariant step == StepAt(start, n, stepSize)
      invariant marks == RangeMarks(steps[..n], range, format, side, zero, height, layout)
      invariant prev == LastPosition(marks, initial)
      invariant nodes == NodesOf(env, marks)
      decreases |steps| - n
    {
      StepReached(start, end, stepSize, n);
      StepsAt(start, end, stepSize, n);
      var mark := RangeStepMark(step, prev, range, format, side, zero, layout);
      RangeMarksStep(steps, n, range, format, side, zero, height, layout);
      nodes := PushNextMark(nodes, env, index, mark, marks);
      StepAtNext(start, n, stepSize);
      marks, n := marks + [mark], n + 1;
      index := index + 1;
      prev := mark.tick1;
      step := step + stepSize;
    }
    StepReached(start, end, stepSize, n);
    assert steps[..n] == steps;
    assert marks == RangeMarks(steps, range, format, side, zero, height, layout);
  }

  /** A step is reached exactly when it is among the steps counted. */
  lemma StepCountSpec(start: real, end: real, stepSize: real)
    requires stepSize > 0.0
    ensures forall k: nat :: k < StepCount(start, end, stepSize) <==> StepAt(start, k, stepSize) <= end
  {
    forall k: nat
      ensures k < StepCount(start, end, stepSize) <==> StepAt(start, k, stepSize) <= end
    {
      StepReached(start, end, stepSize, k);
    }
  }

  lemma StepReached(start: real, end: real, stepSize: real, k: nat)
    requires stepSize > 0.0
    ensures k < StepCount(start, end, stepSize) <==> StepAt(start, k, stepSize) <= end
  {
    StepAtOffset(start, k, stepSize);
    var q := (end - start) / stepSize;
    assert q * stepSize == end - start;
    assert (k as real) * stepSize >= 0.0;
    if start <= end {
      var f := q.Floor;
      assert f >= 0;
      assert StepCount(start, end, stepSize) == f + 1;
      if k <= f {
        MulMonotone(k as real, q, stepSize);
      } else {
        assert (k as real) >= (f as real) + 1.0 > q;
        MulStrict(q, k as real, stepSize);
      }
    }
  }

  lemma StepsAt(start: real, end: real, stepSize: real, k: nat)
    requires stepSize > 0.0
    requires k < StepCount(start, end, stepSize)
    ensures |Steps(start, end, stepSize)| == StepCount(start, end, stepSize)
    ensures Steps(start, end, stepSize)[k] == StepAt(start, k, stepSize)
  {
  }

  /** One more step appends its marking, measured from the last one. */
  lemma RangeMarksStep(steps: seq<real>, i: nat, range: Range, format: real -> string, side: Side, zero: Zero,
                       height: real, layout: RangeLayout)
    requires layout.delta != 0.0
    requires i < |steps|
    ensures var marks := RangeMarks(steps[..i], range, format, side, zero, height, layout);
      RangeMarks(steps[..i + 1], range, format, side, zero, height, layout)
      == marks + [RangeMark(steps[i], LastPosition(marks, InitialPosition(side, height)), range, format, side, zero, layout)]
  {
    var marks := RangeMarks(steps[..i], range, format, side, zero, height, layout);
    var initial := InitialPosition(side, height);
    if i > 0 {
      assert marks[i - 1].tick1 == StepPosition(steps[i - 1], side, zero, layout);
    }
    var next := RangeMarks(steps[..i + 1], range, format, side, zero, height, layout);
    var want := marks + [RangeMark(steps[i], LastPosition(marks, initial), range, format, side, zero, layout)];
    forall k | 0 <= k < i
      ensures next[k] == want[k]
    {
      assert steps[..i + 1][k] == steps[k] == steps[..i][k];
      if k > 0 {
        assert steps[..i + 1][k - 1] == steps[k - 1] == steps[..i][k - 1];
      }
    }
    assert next[i] == want[i];
    assert next == want;
  }

  lemma StepAtNext(start: real, k: nat, stepSize: real)
    ensures StepAt(start, k, stepSize) + stepSize == StepAt(start, k + 1, stepSize)
  {
  }

  // -----------------------------------------------------------------------
  // Properties of the hardcoded markings

  /** Only markings within `[0, 1]` are drawn, and only ones given. */
  lemma {:induction false} AcceptedSound(markings: seq<Marking>)
    ensures |Accepted(markings)| <= |markings|
    ensures forall k :: 0 <= k < |Accepted(markings)| ==>
      InUnit(Accepted(markings)[k]) && Accepted(markings)[k] in markings
    decreases |markings|
  {
    if |markings| > 0 {
      var prefix := markings[..|markings| - 1];
      AcceptedSound(prefix);
      var accepted := Accepted(markings);
      var earlier := Accepted(prefix);
      forall k | 0 <= k < |accepted|
        ensures InUnit(accepted[k]) && accepted[k] in markings
      {
        if k < |earlier| {
          assert accepted[k] == earlier[k];
          assert earlier[k] in prefix;
        }
      }
    }
  }

  /** Every marking within `[0, 1]` is drawn. */
  lemma {:induction false} AcceptedComplete(markings: seq<Marking>)
    ensures forall i :: 0 <= i < |markings| && InUnit(markings[i]) ==> markings[i] in Accepted(markings)
    decreases |markings|
  {
    if |markings| > 0 {
      var prefix := markings[..|markings| - 1];
      AcceptedComplete(prefix);
      forall i | 0 <= i < |markings| && InUnit(markings[i])
        ensures markings[i] in Accepted(markings)
      {
        if i < |prefix| {
          assert markings[i] == prefix[i];
        }
      }
    }
  }

  /** When every marking is within `[0, 1]`, all are drawn, in order. */
  lemma {:induction false} AcceptedAll(markings: seq<Marking>)
    requires forall i :: 0 <= i < |markings| ==> InUnit(markings[i])
    ensures Accepted(markings) == markings
    decreases |markings|
  {
    if |markings| > 0 {
      var prefix := markings[..|markings| - 1];
      assert forall i :: 0 <= i < |prefix| ==> prefix[i] == markings[i];
      AcceptedAll(prefix);
      assert markings == prefix + [markings[|markings| - 1]];
    }
  }

  /** The `k`-th drawn marking (index `k + 1`) sits at the position of the
      `k`-th accepted marking and carries its text; the skipped markings
      leave no trace. */
  lemma {:induction false} HardcodedMarksSpec(markings: seq<Marking>, side: Side, width: real, height: real)
    ensures |HardcodedMarks(markings, side, width, height)| == |Accepted(markings)|
    ensures forall k :: 0 <= k < |Accepted(markings)| ==>
      && HardcodedMarks(markings, side, width, height)[k].tick1
         == HardcodedPosition(Accepted(markings)[k].relative, side, width, height)
      && HardcodedMarks(markings, side, width, height)[k].text == Accepted(markings)[k].text
    decreases |markings|
  {
    if |markings| > 0 {
      var prefix := markings[..|markings| - 1];
      HardcodedMarksSpec(prefix, side, width, height);
    }
  }

  /** A marking's label runs from its own position back to the previous
      drawn marking's, the first one's back to the start of the axis; ticks
      and labels are never negative. */
  lemma {:induction false} HardcodedMarksChain(markings: seq<Marking>, side: Side, width: real, height: real)
    ensures var marks := HardcodedMarks(markings, side, width, height);
      && (forall k :: 0 <= k < |marks| ==>
            marks[k].label1 == marks[k].tick1 == marks[k].tick2 && !marks[k].tickNegative && !marks[k].labelNegative)
      && (|marks| > 0 ==> marks[0].label2 == InitialPosition(side, height))
      && (forall k :: 0 < k < |marks| ==> marks[k].label2 == marks[k - 1].tick1)
    decreases |markings|
  {
    if |markings| > 0 {
      var prefix := markings[..|markings| - 1];
      HardcodedMarksChain(prefix, side, width, height);
      var marks := HardcodedMarks(markings, side, width, height);
      var earlier := HardcodedMarks(prefix, side, width, height);
      if InUnit(markings[|markings| - 1]) {
        assert forall k :: 0 <= k < |earlier| ==> marks[k] == earlier[k];
      }
    }
  }

  /** A fraction within `[0, 1]` of an extent lies within it, growing with
      the fraction. */
  lemma ScaledWithin(relative: real, other: real, extent: real)
    requires 0.0 <= relative <= other <= 1.0 && extent >= 0.0
    ensures 0.0 <= Scaled(relative, extent) <= Scaled(other, extent) <= extent
  {
    if extent > 0.0 {
      MulMonotone(0.0, relative, extent);
      MulMonotone(relative, other, extent);
      MulMonotone(other, 1.0, extent);
      assert Scaled(relative, extent) == relative * extent && Scaled(other, extent) == other * extent;
    }
  }

  /** A marking within `[0, 1]` lies on the chart: 0 is the start of the
      axis, 1 its end, and a larger marking lies further along it. */
  lemma HardcodedPositionWithin(relative: real, other: real, side: Side, width: real, height: real)
    requires 0.0 <= relative <= other <= 1.0 && width >= 0.0 && height >= 0.0
    ensures IsHorizontal(side) ==>
      0.0 <= HardcodedPosition(relative, side, width, height) <= HardcodedPosition(other, side, width, height) <= width
    ensures !IsHorizontal(side) ==>
      height >= HardcodedPosition(relative, side, width, height) >= HardcodedPosition(other, side, width, height) >= 0.0
    ensures HardcodedPosition(0.0, side, width, height) == InitialPosition(side, height)
    ensures HardcodedPosition(1.0, side, width, height) == if IsHorizontal(side) then width else 0.0
  {
    ScaledWithin(relative, other, if IsHorizontal(side) then width else height);
  }

  // -----------------------------------------------------------------------
  // Properties of the input-based markings

  /** On a vertical axis the marking of a laid-out column is negative exactly
      when the column is: a negative column hangs below the zero line, a
      non-negative one ends on it. */
  lemma InputMarkSign<T>(column: Column<T>, index: nat, columnHeight: real, columnSpacing: real,
                         displayWidth: real, layout: Layout, side: Side, labelSelector: Option<Column<T> -> string>)
    requires !IsHorizontal(side)
    requires DisplayHeight(column, columnHeight, layout) >= 0.0
    ensures var point := PointOf(column, index, columnHeight, columnSpacing, displayWidth, layout);
      var mark := PointMark(point, side, Zero(0.0, layout.positiveHeight), labelSelector);
      mark.tickNegative == mark.labelNegative == (column.relativeValue < 0.0)
  {
  }

  // -----------------------------------------------------------------------
  // Properties of the range

  /** The scan widens the initial bounds to every value and each bound ends
      as an initial bound or as one of the values. */
  lemma {:induction false} ValueBoundsSpec<T>(points: seq<ColumnPoint<T>>, mostNegative: real, mostPositive: real)
    requires mostNegative <= mostPositive
    ensures var bounds := ValueBounds(points, mostNegative, mostPositive);
      && bounds.0 <= mostNegative && mostPositive <= bounds.1
      && (forall i :: 0 <= i < |points| ==> bounds.0 <= points[i].datum.value <= bounds.1)
      && (bounds.0 == mostNegative || exists i :: 0 <= i < |points| && points[i].datum.value == bounds.0)
      && (bounds.1 == mostPositive || exists i :: 0 <= i < |points| && points[i].datum.value == bounds.1)
    decreases |points|
  {
    if |points| > 0 {
      var prefix := points[..|points| - 1];
      ValueBoundsSpec(prefix, mostNegative, mostPositive);
      var bounds := ValueBounds(points, mostNegative, mostPositive);
      var earlier := ValueBounds(prefix, mostNegative, mostPositive);
      assert forall i :: 0 <= i < |prefix| ==> prefix[i] == points[i];
      if bounds.0 != mostNegative && bounds.0 == earlier.0 {
        var i :| 0 <= i < |prefix| && prefix[i].datum.value == earlier.0;
        assert points[i].datum.value == bounds.0;
      }
      if bounds.1 != mostPositive && bounds.1 == earlier.1 {
        var i :| 0 <= i < |prefix| && prefix[i].datum.value == earlier.1;
        assert points[i].datum.value == bounds.1;
      }
    }
  }

  /** Rounding up reaches the next multiple of the step at or above the
      value. */
  lemma RoundUpBounds(value: real, stepSize: real)
    requires stepSize > 0.0
    ensures value <= RoundUp(value, stepSize) < value + stepSize
  {
    var q := value / stepSize;
    var c := Ceil(q) as real;
    assert RoundUp(value, stepSize) == c * stepSize;
    assert q * stepSize == value;
    CeilBounds(q);
    MultipleBelow(q, value, c - 1.0, stepSize);
    MultipleAbove(q, value, c, stepSize);
    assert (c - 1.0) * stepSize == c * stepSize - stepSize;
  }

  /** Rounding down reaches the next multiple of the step at or below the
      value. */
  lemma RoundDownBounds(value: real, stepSize: real)
    requires stepSize > 0.0
    ensures value - stepSize < RoundDown(value, stepSize) <= value
  {
    var q := value / stepSize;
    var f := Floor(q) as real;
    assert RoundDown(value, stepSize) == f * stepSize;
    assert q * stepSize == value;
    MultipleBelow(q, value, f, stepSize);
    MultipleAbove(q, value, f + 1.0, stepSize);
    assert (f + 1.0) * stepSize == f * stepSize + stepSize;
  }

  /** A number at or below the quotient times the step is at or below the
      dividend, strictly so when the number is. */
  lemma MultipleBelow(q: real, value: real, n: real, stepSize: real)
    requires stepSize > 0.0 && q * stepSize == value && n <= q
    ensures n * stepSize <= value
    ensures n < q ==> n * stepSize < value
  {
    if n < q {
      MulStrict(n, q, stepSize);
    } else {
      assert n == q;
    }
  }

  /** A number at or above the quotient times the step is at or above the
      dividend, strictly so when the number is. */
  lemma MultipleAbove(q: real, value: real, m: real, stepSize: real)
    requires stepSize > 0.0 && q * stepSize == value && q <= m
    ensures value <= m * stepSize
    ensures q < m ==> value < m * stepSize
  {
    if q < m {
      MulStrict(q, m, stepSize);
    } else {
      assert q == m;
    }
  }

  /** The end is the configured one (the most positive value by default)
      unless it leaves a positive remainder; then it is the most positive
      value rounded up to a multiple of the step, whatever end was
      configured. */
  lemma RangeEndRounded(range: Range, mostPositive: real)
    requires range.stepSize > 0.0
    ensures var end := GetOr(range.end, mostPositive);
      && (JsRemainder(end, range.stepSize) <= 0.0 ==> RangeEnd(range, mostPositive) == end)
      && (JsRemainder(end, range.stepSize) > 0.0 ==>
            && mostPositive <= RangeEnd(range, mostPositive) < mostPositive + range.stepSize
            && RangeEnd(range, mostPositive) == (Ceil(mostPositive / range.stepSize) as real) * range.stepSize)
  {
    RoundUpBounds(mostPositive, range.stepSize);
  }

  /** A configured end of 25 with steps of 10 over data reaching 5 ends the
      axis at 10, not at 30. */
  lemma RangeEndExample()
    ensures RangeEnd(Range(Some(25.0), false, None, None, 10.0), 5.0) == 10.0
  {
    assert JsRemainder(25.0, 10.0) == 5.0 by {
      assert Trunc(25.0 / 10.0) == 2;
    }
    assert Ceil(5.0 / 10.0) == 1;
  }

  /** The start mirrors the end: a positive remainder rounds the most
      negative value down to a multiple of the step. */
  lemma RangeStartRounded(range: Range, mostNegative: real)
    requires range.stepSize > 0.0
    ensures var start := GetOr(range.start, mostNegative);
      && (JsRemainder(start, range.stepSize) <= 0.0 ==> RangeStart(range, mostNegative) == start)
      && (JsRemainder(start, range.stepSize) > 0.0 ==>
            && mostNegative - range.stepSize < RangeStart(range, mostNegative) <= mostNegative
            && RangeStart(range, mostNegative) == (Floor(mostNegative / range.stepSize) as real) * range.stepSize)
  {
    RoundDownBounds(mostNegative, range.stepSize);
  }

  /** The remainder takes the dividend's sign, so a start at or below zero
      is never rounded. */
  lemma NegativeStartKept(range: Range, mostNegative: real)
    requires range.stepSize > 0.0 && GetOr(range.start, mostNegative) <= 0.0
    ensures RangeStart(range, mostNegative) == GetOr(range.start, mostNegative)
  {
    RemainderOfNonPositive(GetOr(range.start, mostNegative), range.stepSize);
  }

  /** With no configured start, steps of 10 over data reaching -15 start
      the axis at -15: neither at 0 nor rounded down to -20. */
  lemma RangeStartExample()
    ensures RangeStart(Range(None, false, None, None, 10.0), -15.0) == -15.0
  {
    NegativeStartKept(Range(None, false, None, None, 10.0), -15.0);
  }

  /** The extra space is what the drawn size exceeds the chart by, and
      nothing for an axis that is not stretched. */
  lemma RangeExtraSpace<P>(range: Range, side: Side, plot: Plot<P>, bounds: (real, real))
    requires RangeDefined(range, bounds)
    ensures var layout := RangeLayoutOf(range, side, plot, bounds);
      && layout.extraSpace == Max(0.0, layout.size - RangeChartSize(side, plot))
      && layout.extraSpace >= 0.0
      && (!Resizes(range, layout.start, layout.end, bounds) ==>
            layout.size == RangeChartSize(side, plot) && layout.extraSpace == 0.0)
  {
  }

  /** The steps run from the start up to the end by the step size, and stop
      at the last one not beyond the end. */
  lemma StepsSpec(start: real, end: real, stepSize: real)
    requires stepSize > 0.0
    ensures var steps := Steps(start, end, stepSize);
      && (forall k :: 0 <= k < |steps| ==> start <= steps[k] <= end)
      && (start <= end <==> |steps| > 0)
      && (|steps| > 0 ==> steps[0] == start && steps[|steps| - 1] + stepSize > end)
      && (forall k :: 0 <= k < |steps| - 1 ==> steps[k + 1] == steps[k] + stepSize)
  {
    var steps := Steps(start, end, stepSize);
    forall k | 0 <= k < |steps|
      ensures start <= steps[k] <= end
    {
      StepReached(start, end, stepSize, k);
      StepAtOffset(start, k, stepSize);
      if k > 0 {
        MulMonotone(0.0, k as real, stepSize);
      }
    }
    StepReached(start, end, stepSize, 0);
    StepReached(start, end, stepSize, |steps|);
    if |steps| > 0 {
      StepAtNext(start, |steps| - 1, stepSize);
    }
  }

  /** One marking per step, at the step's position, with the step's text,
      negative exactly when the step is. */
  lemma RangeMarksSpec(steps: seq<real>, range: Range, format: real -> string, side: Side, zero: Zero,
                       height: real, layout: RangeLayout)
    requires layout.delta != 0.0
    ensures var marks := RangeMarks(steps, range, format, side, zero, height, layout);
      && |marks| == |steps|
      && (forall k :: 0 <= k < |marks| ==>
            && marks[k].tick1 == marks[k].tick2 == StepPosition(steps[k], side, zero, layout)
            && marks[k].labelNegative == (steps[k] < 0.0)
            && marks[k].text == RangeText(range, format, steps[k]))
  {
    var marks := RangeMarks(steps, range, format, side, zero, height, layout);
    forall k | 0 <= k < |marks|
      ensures && marks[k].tick1 == marks[k].tick2 == StepPosition(steps[k], side, zero, layout)
              && marks[k].labelNegative == (steps[k] < 0.0)
              && marks[k].text == RangeText(range, format, steps[k])
    {
      var prev := if k == 0 then InitialPosition(side, height) else StepPosition(steps[k - 1], side, zero, layout);
      assert marks[k] == RangeMark(steps[k], prev, range, format, side, zero, layout);
    }
  }

  /** Each step's label runs between its position and the previous step's
      (the first one's from the start of the axis): from its own position
      back for a non-negative step, forward to it for a negative one. */
  lemma RangeMarksChain(steps: seq<real>, range: Range, format: real -> string, side: Side, zero: Zero,
                        height: real, layout: RangeLayout)
    requires layout.delta != 0.0
    ensures var marks := RangeMarks(steps, range, format, side, zero, height, layout);
      forall k :: 0 < k < |marks| ==>
        if steps[k] < 0.0 then marks[k].label1 == marks[k - 1].tick1 && marks[k].label2 == marks[k].tick1
        else marks[k].label1 == marks[k].tick1 && marks[k].label2 == marks[k - 1].tick1
  {
    var marks := RangeMarks(steps, range, format, side, zero, height, layout);
    forall k | 0 < k < |marks|
      ensures if steps[k] < 0.0 then marks[k].label1 == marks[k - 1].tick1 && marks[k].label2 == marks[k].tick1
              else marks[k].label1 == marks[k].tick1 && marks[k].label2 == marks[k - 1].tick1
    {
      assert marks[k - 1].tick1 == StepPosition(steps[k - 1], side, zero, layout);
    }
  }

  /** The zero step lies on the zero line. */
  lemma ZeroStepAtZeroLine(side: Side, zero: Zero, layout: RangeLayout)
    requires layout.delta != 0.0
    ensures StepPosition(0.0, side, zero, layout) == if IsHorizontal(side) then zero.x else zero.y
  {
  }

  /** One step further along the range is always the same distance further
      along the axis. */
  lemma EvenSpacing(step: real, stepSize: real, side: Side, zero: Zero, layout: RangeLayout)
    requires layout.delta != 0.0
    ensures StepPosition(step + stepSize, side, zero, layout) - StepPosition(step, side, zero, layout)
         == StepPosition(stepSize, side, zero, layout) - StepPosition(0.0, side, zero, layout)
  {
    var d, z := layout.delta, layout.size;
    assert (step + stepSize) / d == step / d + stepSize / d;
    assert (step / d + stepSize / d) * z == step / d * z + stepSize / d * z;
  }
}
