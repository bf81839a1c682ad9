/** `createAxis` and `createAxes`: one axis is its zeroth tick and grid line
    followed by the markings of its kind, with the extra space its grid
    lines and range need; the axes of a chart are those of its configured
    sides. */
module AxesMixin {
  import opened Common
  import opened ColumnPlot
  import opened AxisNodes
  import opened Axes

  // -----------------------------------------------------------------------
  // One axis

  /** Where the zero point lies along the axis: the chart's start on
      horizontal axes, the zero line on vertical ones. */
  function ZeroPosition(side: Side, zero: Zero): real
  {
    if IsHorizontal(side) then 0.0 else zero.y
  }

  /** The zeroth tick when `ticks.zeroth` is set, then the zeroth grid line
      when the grid-line configuration asks for one; both have index 0. */
  function ZerothNodes<T, P>(cfg: AxisConfiguration<T>, side: Side, plot: Plot<P>): seq<Node>
  {
    var p := ZeroPosition(side, plot.zero);
    (if cfg.ticks.Some? && cfg.ticks.value.zeroth then [CreateTick(cfg.ticks.value, side, 0, p, p, false)] else [])
    + (if cfg.gridLines.GridLinesWith? && cfg.gridLines.zeroth
       then [CreateGridLine(GridLineLength(cfg.gridLines, side, plot), side, 0, 0.0, p)]
       else [])
  }

  /** The axis's positions are defined: only a range-based axis (one without
      hardcoded markings or inputs) has a range to settle. */
  predicate AxisDefined<T>(cfg: AxisConfiguration<T>, plot: Plot<ColumnPoint<T>>, domain: Domain)
  {
    !IsHardcoded(cfg) && !IsInputBased(cfg) && IsRangeBased(cfg)
    ==> RangeDefined(cfg.range.value, RangeBoundsOf(domain, plot.points))
  }

  /** The markings of the axis's kind: hardcoded wins over inputs, inputs
      over a range; an axis of none of these kinds has no markings. */
  function AxisMarks<T>(cfg: AxisConfiguration<T>, side: Side, plot: Plot<ColumnPoint<T>>, domain: Domain,
                        format: real -> string): seq<Mark>
    requires AxisDefined(cfg, plot, domain)
  {
    if IsHardcoded(cfg) then HardcodedMarks(cfg.hardcoded.value, side, plot.width, plot.height)
    else if IsInputBased(cfg) then InputMarks(plot.points, side, plot.zero, cfg.inputs.value.labelSelector)
    else if IsRangeBased(cfg) then
      var range := cfg.range.value;
      var layout := RangeLayoutOf(range, side, plot, RangeBoundsOf(domain, plot.points));
      RangeMarks(Steps(layout.start, layout.end, range.stepSize), range, format, side, plot.zero, plot.height, layout)
    else []
  }

  /** Only a range-based axis needs extra space for its markings. */
  function MarkingExtra<T>(cfg: AxisConfiguration<T>, side: Side, plot: Plot<ColumnPoint<T>>, domain: Domain): real
    requires AxisDefined(cfg, plot, domain)
  {
    if !IsHardcoded(cfg) && !IsInputBased(cfg) && IsRangeBased(cfg) then
      RangeLayoutOf(cfg.range.value, side, plot, RangeBoundsOf(domain, plot.points)).extraSpace
    else 0.0
  }

  /** The markings' nodes and the extra space they need. */
  function MarkingNodesOf<T>(cfg: AxisConfiguration<T>, side: Side, plot: Plot<ColumnPoint<T>>, domain: Domain,
                             format: real -> string): (seq<Node>, real)
    requires AxisDefined(cfg, plot, domain)
  {
    (NodesOf(EnvOf(cfg, side, plot), AxisMarks(cfg, side, plot, domain, format)), MarkingExtra(cfg, side, plot, domain))
  }

  /** The chart's extent across the axis, which its grid lines span. */
  function AcrossSize<P>(side: Side, plot: Plot<P>): real
  {
    if IsHorizontal(side) then plot.height else plot.width
  }

  /** The nodes of one axis and the extra space it needs: grid lines longer
      than the chart need the difference. */
  function AxisOf<T>(cfg: AxisConfiguration<T>, side: Side, plot: Plot<ColumnPoint<T>>, domain: Domain,
                     format: real -> string): (seq<Node>, real)
    requires AxisDefined(cfg, plot, domain)
  {
    var markings := MarkingNodesOf(cfg, side, plot, domain, format);
    var gridLineLength := GridLineLength(cfg.gridLines, side, plot);
    var chartSize := AcrossSize(side, plot);
    (ZerothNodes(cfg, side, plot) + markings.0,
     if gridLineLength > chartSize then Max(markings.1, gridLineLength - chartSize) else markings.1)
  }

  /** `createAxis`. */
  method CreateAxis<T>(cfg: AxisConfiguration<T>, side: Side, plot: Plot<ColumnPoint<T>>, domain: Domain,
                       format: real -> string)
    returns (nodes: seq<Node>, extraSpace: real)
    requires AxisDefined(cfg, plot, domain)
    ensures nodes == AxisOf(cfg, side, plot, domain, format).0
    ensures extraSpace == AxisOf(cfg, side, plot, domain, format).1
  {
    var labels := CreateLabelsConfig(cfg.labels);
    var isHorizontal := side == Bottom || side == Top;
    extraSpace := 0.0;
    var gridLineLength := CreateGridLineLength(cfg.gridLines, side, plot);
    nodes := CreateZeroth(cfg, gridLineLength, side, plot);
    var markingNodes, extra := CreateMarkings(cfg, labels, gridLineLength, side, plot, domain, format);
    nodes := nodes + markingNodes;
    extraSpace := extra;
    var chartSize := if isHorizontal then plot.height else plot.width;
    if gridLineLength > chartSize {
      extraSpace := Max(extraSpace, gridLineLength - chartSize);
    }
    assert chartSize == AcrossSize(side, plot);
  }

  /** The label configuration `createAxis` settles on. */
  method CreateLabelsConfig(labels: Labels) returns (config: Option<LabelConfiguration>)
    ensures config == EffectiveLabels(labels)
  {
    config := None;
    if !labels.LabelsOff? {
      config := if labels.LabelsWith? then Some(labels.config) else Some(LabelConfiguration(None, None, None, None, None));
    }
  }

  /** The grid line length `createAxis` settles on. */
  method CreateGridLineLength<P>(gridLines: GridLines, side: Side, plot: Plot<P>) returns (length: real)
    ensures length == GridLineLength(gridLines, side, plot)
  {
    var isHorizontal := side == Bottom || side == Top;
    length := 0.0;
    if !gridLines.GridLinesOff? {
      if gridLines.GridLinesWith? && gridLines.length.Some? {
        length := gridLines.length.value;
      } else if isHorizontal {
        length := plot.height;
      } else {
        length := plot.width;
      }
    }
  }

  /** The zeroth tick and grid line `createAxis` pushes first. */
  method CreateZeroth<T, P>(cfg: AxisConfiguration<T>, gridLineLength: real, side: Side, plot: Plot<P>)
    returns (nodes: seq<Node>)
    requires gridLineLength == GridLineLength(cfg.gridLines, side, plot)
    ensures nodes == ZerothNodes(cfg, side, plot)
  {
    var isHorizontal := side == Bottom || side == Top;
    nodes := [];
    if cfg.ticks.Some? && cfg.ticks.value.zeroth {
      var p := if isHorizontal then 0.0 else plot.zero.y;
      nodes := nodes + [CreateTick(cfg.ticks.value, side, 0, p, p, false)];
    }
    if cfg.gridLines.GridLinesWith? && cfg.gridLines.zeroth {
      var y := if isHorizontal then 0.0 else plot.zero.y;
      nodes := nodes + [CreateGridLine(gridLineLength, side, 0, 0.0, y)];
    }
  }

  /** The dispatch of `createAxis` on the axis's kind. */
  method CreateMarkings<T>(cfg: AxisConfiguration<T>, labels: Option<LabelConfiguration>, gridLineLength: real,
                           side: Side, plot: Plot<ColumnPoint<T>>, domain: Domain, format: real -> string)
    returns (nodes: seq<Node>, extraSpace: real)
    requires AxisDefined(cfg, plot, domain)
    requires labels == EffectiveLabels(cfg.labels) && gridLineLength == GridLineLength(cfg.gridLines, side, plot)
    ensures nodes == MarkingNodesOf(cfg, side, plot, domain, format).0
    ensures extraSpace == MarkingNodesOf(cfg, side, plot, domain, format).1
  {
    nodes, extraSpace := [], 0.0;
    if cfg.hardcoded.Some? {
      nodes := CreateHardcodedAxis(cfg.hardcoded.value, labels, cfg.ticks, gridLineLength, side, plot);
    } else if cfg.inputs.Some? {
      nodes := CreateInputBasedAxis(cfg.inputs.value, labels, cfg.ticks, gridLineLength, side, plot);
    } else if cfg.range.Some? {
      nodes, extraSpace := CreateRangeBasedAxis(cfg.range.value, labels, cfg.ticks, gridLineLength, side, plot,
                                                domain, format);
    }
  }

  // -----------------------------------------------------------------------
  // Properties of one axis

  /** The extra space is never negative, covers what the markings need, and
      covers how far the grid lines reach beyond the chart; grid lines that
      fit leave the markings' own extra space, which only a range-based
      axis has. */
  lemma AxisExtraSpace<T>(cfg: AxisConfiguration<T>, side: Side, plot: Plot<ColumnPoint<T>>, domain: Domain,
                          format: real -> string)
    requires AxisDefined(cfg, plot, domain)
    ensures var extra := AxisOf(cfg, side, plot, domain, format).1;
      var gridLineLength := GridLineLength(cfg.gridLines, side, plot);
      var chartSize := AcrossSize(side, plot);
      && extra >= 0.0
      && extra >= MarkingNodesOf(cfg, side, plot, domain, format).1
      && (gridLineLength > chartSize ==> extra >= gridLineLength - chartSize)
      && (gridLineLength <= chartSize && (IsHardcoded(cfg) || IsInputBased(cfg) || !IsRangeBased(cfg)) ==>
            extra == 0.0)
  {
    if !IsHardcoded(cfg) && !IsInputBased(cfg) && IsRangeBased(cfg) {
      RangeExtraSpace(cfg.range.value, side, plot, RangeBoundsOf(domain, plot.points));
    }
  }

  /** The zeroth tick and grid line come first with index 0 and are followed
      only by markings' nodes, numbered from 1 up to the number of markings;
      along the axis the indices never decrease, and every node is on the
      axis's side. */
  lemma AxisNodesOrder<T>(cfg: AxisConfiguration<T>, side: Side, plot: Plot<ColumnPoint<T>>, domain: Domain,
                          format: real -> string)
    requires AxisDefined(cfg, plot, domain)
    ensures var nodes := AxisOf(cfg, side, plot, domain, format).0;
      var zeroth := |ZerothNodes(cfg, side, plot)|;
      var markings := |AxisMarks(cfg, side, plot, domain, format)|;
      && zeroth <= |nodes|
      && (forall k :: 0 <= k < |nodes| ==> nodes[k].side == side)
      && (forall k :: 0 <= k < zeroth ==> nodes[k].index == 0)
      && (forall k :: zeroth <= k < |nodes| ==> 1 <= nodes[k].index <= markings)
      && (forall i, j :: 0 <= i < j < |nodes| ==> nodes[i].index <= nodes[j].index)
  {
    var env := EnvOf(cfg, side, plot);
    var marks := AxisMarks(cfg, side, plot, domain, format);
    var zeroth := ZerothNodes(cfg, side, plot);
    var rest := NodesOf(env, marks);
    var nodes := AxisOf(cfg, side, plot, domain, format).0;
    assert nodes == zeroth + rest;
    NodesIndices(env, marks);
    NodesOrdered(env, marks);
    ZerothNodesIndex(cfg, side, plot);
    PrefixedOrder(zeroth, rest, side, |marks|);
  }

  /** Index-0 nodes followed by ordered nodes numbered from 1 are ordered. */
  lemma PrefixedOrder(zeroth: seq<Node>, rest: seq<Node>, side: Side, bound: int)
    requires forall k :: 0 <= k < |zeroth| ==> zeroth[k].side == side && zeroth[k].index == 0
    requires forall k :: 0 <= k < |rest| ==> rest[k].side == side && 1 <= rest[k].index <= bound
    requires forall i, j :: 0 <= i < j < |rest| ==> rest[i].index <= rest[j].index
    ensures var nodes := zeroth + rest;
      && (forall k :: 0 <= k < |nodes| ==> nodes[k].side == side)
      && (forall k :: 0 <= k < |zeroth| ==> nodes[k].index == 0)
      && (forall k :: |zeroth| <= k < |nodes| ==> 1 <= nodes[k].index <= bound)
      && (forall i, j :: 0 <= i < j < |nodes| ==> nodes[i].index <= nodes[j].index)
  {
    var nodes := zeroth + rest;
    forall i, j | 0 <= i < j < |nodes|
      ensures nodes[i].index <= nodes[j].index
    {
      if j < |zeroth| {
        assert nodes[i] == zeroth[i] && nodes[j] == zeroth[j];
      } else if i < |zeroth| {
        assert nodes[i] == zeroth[i] && nodes[j] == rest[j - |zeroth|];
      } else {
        assert nodes[i] == rest[i - |zeroth|] && nodes[j] == rest[j - |zeroth|];
      }
    }
  }

  /** The zeroth nodes are the tick, if asked for, then the grid line, if
      asked for, all on the axis's side with index 0. */
  lemma ZerothNodesIndex<T, P>(cfg: AxisConfiguration<T>, side: Side, plot: Plot<P>)
    ensures var nodes := ZerothNodes(cfg, side, plot);
      && |nodes| == (if cfg.ticks.Some? && cfg.ticks.value.zeroth then 1 else 0)
                  + (if cfg.gridLines.GridLinesWith? && cfg.gridLines.zeroth then 1 else 0)
      && (forall k :: 0 <= k < |nodes| ==> nodes[k].side == side && nodes[k].index == 0)
      && (forall k :: 0 <= k < |nodes| ==> (nodes[k].Tick? || nodes[k].GridLine?))
      && (|nodes| > 0 && cfg.ticks.Some? && cfg.ticks.value.zeroth ==> nodes[0].Tick?)
  {
    var p := ZeroPosition(side, plot.zero);
    if cfg.ticks.Some? && cfg.ticks.value.zeroth {
      TickGeometry(cfg.ticks.value, side, 0, p, p, false);
    }
    if cfg.gridLines.GridLinesWith? && cfg.gridLines.zeroth {
      GridLineGeometry(GridLineLength(cfg.gridLines, side, plot), side, 0, 0.0, p);
    }
  }

  /** Turning a feature off removes its nodes: no label when labels are
      `false`, no tick without a tick configuration, no grid line when grid
      lines are off, and never a label with an empty text. */
  lemma AxisFeaturesOff<T>(cfg: AxisConfiguration<T>, side: Side, plot: Plot<ColumnPoint<T>>, domain: Domain,
                           format: real -> string)
    requires AxisDefined(cfg, plot, domain)
    ensures var nodes := AxisOf(cfg, side, plot, domain, format).0;
      forall k :: 0 <= k < |nodes| ==> FeatureAllowed(cfg, nodes[k])
  {
    var env := EnvOf(cfg, side, plot);
    var marks := AxisMarks(cfg, side, plot, domain, format);
    var zeroth := ZerothNodes(cfg, side, plot);
    var rest := NodesOf(env, marks);
    assert AxisOf(cfg, side, plot, domain, format).0 == zeroth + rest;
    NodesEnabled(env, marks);
    ZerothNodesIndex(cfg, side, plot);
    assert forall k :: 0 <= k < |rest| ==> FeatureAllowed(cfg, rest[k]) by {
      forall k | 0 <= k < |rest|
        ensures FeatureAllowed(cfg, rest[k])
      {
        assert Enabled(env, rest[k]);
      }
    }
    assert forall k :: 0 <= k < |zeroth| ==> FeatureAllowed(cfg, zeroth[k]) by {
      forall k | 0 <= k < |zeroth|
        ensures FeatureAllowed(cfg, zeroth[k])
      {
        assert zeroth[k].Tick? ==> cfg.ticks.Some?;
      }
    }
    AllowedConcat(cfg, zeroth, rest);
  }

  /** A node an axis configuration lets through: labels only when labels
      are not `false` and only with a text, ticks only with a tick
      configuration, grid lines only when grid lines are not off. */
  predicate FeatureAllowed<T>(cfg: AxisConfiguration<T>, node: Node)
  {
    && (node.Label? ==> !cfg.labels.LabelsOff? && node.text != "")
    && (node.Tick? ==> cfg.ticks.Some?)
    && (node.GridLine? ==> !cfg.gridLines.GridLinesOff?)
  }

  lemma AllowedConcat<T>(cfg: AxisConfiguration<T>, a: seq<Node>, b: seq<Node>)
    requires forall k :: 0 <= k < |a| ==> FeatureAllowed(cfg, a[k])
    requires forall k :: 0 <= k < |b| ==> FeatureAllowed(cfg, b[k])
    ensures forall k :: 0 <= k < |a + b| ==> FeatureAllowed(cfg, (a + b)[k])
  {
    forall k | 0 <= k < |a + b|
      ensures FeatureAllowed(cfg, (a + b)[k])
    {
      if k < |a| {
        assert (a + b)[k] == a[k];
      } else {
        assert (a + b)[k] == b[k - |a|];
      }
    }
  }

  /** Hardcoded markings make the inputs and range irrelevant, and inputs
      make the range irrelevant. */
  lemma DispatchPrecedence<T>(cfg: AxisConfiguration<T>, side: Side, plot: Plot<ColumnPoint<T>>, domain: Domain,
                              format: real -> string)
    requires AxisDefined(cfg, plot, domain)
    ensures IsHardcoded(cfg) ==>
      AxisOf(cfg, side, plot, domain, format) == AxisOf(cfg.(inputs := None, range := None), side, plot, domain, format)
    ensures !IsHardcoded(cfg) && IsInputBased(cfg) ==>
      AxisOf(cfg, side, plot, domain, format) == AxisOf(cfg.(range := None), side, plot, domain, format)
  {
  }

  // -----------------------------------------------------------------------
  // All four axes

  datatype AxesConfiguration<!T> = AxesConfiguration(
    bottom: Option<AxisConfiguration<T>>, left: Option<AxisConfiguration<T>>,
    right: Option<AxisConfiguration<T>>, top: Option<AxisConfiguration<T>>)

  /** The nodes of each configured side and the extra space the chart needs
      across and along its width. */
  datatype CreatedAxes = CreatedAxes(
    bottom: Option<seq<Node>>, extraHeight: real, extraWidth: real,
    left: Option<seq<Node>>, right: Option<seq<Node>>, top: Option<seq<Node>>)

  predicate SideDefined<T>(cfg: Option<AxisConfiguration<T>>, plot: Plot<ColumnPoint<T>>, domain: Domain)
  {
    cfg.Some? ==> AxisDefined(cfg.value, plot, domain)
  }

  predicate AxesDefined<T>(config: AxesConfiguration<T>, plot: Plot<ColumnPoint<T>>, domain: Domain)
  {
    && SideDefined(config.bottom, plot, domain) && SideDefined(config.left, plot, domain)
    && SideDefined(config.right, plot, domain) && SideDefined(config.top, plot, domain)
  }

  /** The axis of a side, when the side is configured. */
  function SideOf<T>(cfg: Option<AxisConfiguration<T>>, side: Side, plot: Plot<ColumnPoint<T>>, domain: Domain,
                     format: real -> string): Option<(seq<Node>, real)>
    requires SideDefined(cfg, plot, domain)
  {
    if cfg.Some? then Some(AxisOf(cfg.value, side, plot, domain, format)) else None
  }

  /** A running maximum of the extra space, unchanged by an absent side. */
  function Widen(extra: real, axis: Option<(seq<Node>, real)>): real
  {
    if axis.Some? then Max(extra, axis.value.1) else extra
  }

  function NodesPart(axis: Option<(seq<Node>, real)>): Option<seq<Node>>
  {
    if axis.Some? then Some(axis.value.0) else None
  }

  /** The bottom and top axes widen the chart, the left and right ones raise
      it, from no extra space at all. */
  function AxesOf<T>(config: AxesConfiguration<T>, plot: Plot<ColumnPoint<T>>, domain: Domain,
                     format: real -> string): CreatedAxes
    requires AxesDefined(config, plot, domain)
  {
    var bottom := SideOf(config.bottom, Bottom, plot, domain, format);
    var left := SideOf(config.left, Left, plot, domain, format);
    var right := SideOf(config.right, Right, plot, domain, format);
    var top := SideOf(config.top, Top, plot, domain, format);
    CreatedAxes(NodesPart(bottom), Widen(Widen(0.0, left), right), Widen(Widen(0.0, bottom), top),
                NodesPart(left), NodesPart(right), NodesPart(top))
  }

  /** `createAxes`. */
  method CreateAxes<T>(config: AxesConfiguration<T>, plot: Plot<ColumnPoint<T>>, domain: Domain,
                       format: real -> string)
    returns (result: CreatedAxes)
    requires AxesDefined(config, plot, domain)
    ensures result == AxesOf(config, plot, domain, format)
  {
    result := CreatedAxes(None, 0.0, 0.0, None, None, None);
    if config.bottom.Some? {
      var nodes, extra := CreateAxis(config.bottom.value, Bottom, plot, domain, format);
      result := result.(bottom := Some(nodes), extraWidth := Max(result.extraWidth, extra));
    }
    if config.left.Some? {
      var nodes, extra := CreateAxis(config.left.value, Left, plot, domain, format);
      result := result.(left := Some(nodes), extraHeight := Max(result.extraHeight, extra));
    }
    if config.right.Some? {
      var nodes, extra := CreateAxis(config.right.value, Right, plot, domain, format);
      result := result.(right := Some(nodes), extraHeight := Max(result.extraHeight, extra));
    }
    if config.top.Some? {
      var nodes, extra := CreateAxis(config.top.value, Top, plot, domain, format);
      result := result.(top := Some(nodes), extraWidth := Max(result.extraWidth, extra));
    }
  }

  // -----------------------------------------------------------------------
  // Properties of all four axes

  /** A side has nodes exactly when it is configured, and then they are its
      axis's; the extra height is the largest extra space of the left and
      right axes and the extra width that of the bottom and top axes, or 0
      when none needs any. */
  lemma AxesSpec<T>(config: AxesConfiguration<T>, plot: Plot<ColumnPoint<T>>, domain: Domain, format: real -> string)
    requires AxesDefined(config, plot, domain)
    ensures var axes := AxesOf(config, plot, domain, format);
      && (axes.bottom.Some? <==> config.bottom.Some?) && (axes.left.Some? <==> config.left.Some?)
      && (axes.right.Some? <==> config.right.Some?) && (axes.top.Some? <==> config.top.Some?)
      && (config.bottom.Some? ==> axes.bottom.value == AxisOf(config.bottom.value, Bottom, plot, domain, format).0)
      && (config.left.Some? ==> axes.left.value == AxisOf(config.left.value, Left, plot, domain, format).0)
      && (config.right.Some? ==> axes.right.value == AxisOf(config.right.value, Right, plot, domain, format).0)
      && (config.top.Some? ==> axes.top.value == AxisOf(config.top.value, Top, plot, domain, format).0)
      && IsLargestExtra(axes.extraHeight, SideOf(config.left, Left, plot, domain, format),
                        SideOf(config.right, Right, plot, domain, format))
      && IsLargestExtra(axes.extraWidth, SideOf(config.bottom, Bottom, plot, domain, format),
                        SideOf(config.top, Top, plot, domain, format))
  {
    var bottom := SideOf(config.bottom, Bottom, plot, domain, format);
    var left := SideOf(config.left, Left, plot, domain, format);
    var right := SideOf(config.right, Right, plot, domain, format);
    var top := SideOf(config.top, Top, plot, domain, format);
    WidenLargest(left, right);
    WidenLargest(bottom, top);
  }

  /** `extra` is at least 0 and at least each present axis's extra space, and
      is 0 or one of them. */
  predicate IsLargestExtra(extra: real, a: Option<(seq<Node>, real)>, b: Option<(seq<Node>, real)>)
  {
    && extra >= 0.0
    && (a.Some? ==> extra >= a.value.1)
    && (b.Some? ==> extra >= b.value.1)
    && (extra == 0.0 || (a.Some? && extra == a.value.1) || (b.Some? && extra == b.value.1))
  }

  lemma WidenLargest(a: Option<(seq<Node>, real)>, b: Option<(seq<Node>, real)>)
    ensures IsLargestExtra(Widen(Widen(0.0, a), b), a, b)
  {
  }
}
