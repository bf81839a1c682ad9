/** The drawing primitives of an axis: ticks, grid lines and labels, each as
    the value of the virtual-DOM node the axes mixin would emit (its key's
    side and index, and its coordinates), and the nodes emitted for one axis
    marking. */
module AxisNodes {
  import opened Common

  datatype Side = Bottom | Left | Right | Top

  predicate IsHorizontal(side: Side) { side == Bottom || side == Top }

  datatype Anchor = Start | Middle | End

  datatype Baseline = BaselineMiddle | TextAfterEdge | TextBeforeEdge

  /** `TickConfiguration`; an unset `zeroth` is `false`. */
  datatype TickConfiguration = TickConfiguration(anchor: Option<Anchor>, length: real, offset: Option<real>,
                                                 zeroth: bool)

  /** `LabelConfiguration`: every setting may be left unset. */
  datatype LabelConfiguration = LabelConfiguration(anchor: Option<Anchor>, dominantBaseline: Option<Baseline>,
                                                   offset: Option<real>, rotation: Option<real>,
                                                   textAnchor: Option<Anchor>)

  /** A `line` node (tick or grid line) or a `text` node (label). */
  datatype Node =
    | Tick(side: Side, index: int, x1: real, x2: real, y1: real, y2: real)
    | GridLine(side: Side, index: int, x1: real, x2: real, y1: real, y2: real)
    | Label(side: Side, index: int, x: real, y: real, textAnchor: Anchor, dominantBaseline: Baseline,
            rotation: real, text: string)

  /** The direction pointing away from the chart on each side, in SVG
      coordinates (y grows downwards). */
  function OutwardX(side: Side): real
  {
    match side
    case Left => -1.0
    case Right => 1.0
    case _ => 0.0
  }

  function OutwardY(side: Side): real
  {
    match side
    case Bottom => 1.0
    case Top => -1.0
    case _ => 0.0
  }

  /** The position along the axis that `anchor` picks from the extent `p1` to
      `p2` of a plot point. On vertical axes the start of a negative point is
      `p1` and the start of a positive one is `p2`. */
  function AnchorPosition(anchor: Anchor, side: Side, p1: real, p2: real, isNegative: bool): real
  {
    if IsHorizontal(side) then
      match anchor
      case Start => p1
      case Middle => p1 + (p2 - p1) / 2.0
      case End => p2
    else
      match anchor
      case Start => if isNegative then p1 else p2
      case Middle => p2 - (p2 - p1) / 2.0
      case End => if isNegative then p2 else p1
  }

  /** `createAxisTick`. */
  function CreateTick(cfg: TickConfiguration, side: Side, index: int, p1: real, p2: real, isNegative: bool): Node
  {
    var position := AnchorPosition(GetOr(cfg.anchor, Middle), side, p1, p2, isNegative) + GetOr(cfg.offset, 0.0);
    var x1 := if IsHorizontal(side) then position else 0.0;
    var y1 := if IsHorizontal(side) then 0.0 else position;
    match side
    case Bottom => Tick(side, index, x1, x1, y1, y1 + cfg.length)
    case Left => Tick(side, index, x1, x1 - cfg.length, y1, y1)
    case Right => Tick(side, index, x1, x1 + cfg.length, y1, y1)
    case Top => Tick(side, index, x1, x1, y1, y1 - cfg.length)
  }

  /** `createAxisGridLine`. On the left side the end's x is the length
      itself rather than `x1` plus it. */
  function CreateGridLine(length: real, side: Side, index: int, x1: real, y1: real): Node
  {
    match side
    case Bottom => GridLine(side, index, x1, x1, y1, y1 - length)
    case Left => GridLine(side, index, x1, length, y1, y1)
    case Right => GridLine(side, index, x1, x1 - length, y1, y1)
    case Top => GridLine(side, index, x1, x1, y1, y1 + length)
  }

  function DefaultTextAnchor(side: Side): Anchor
  {
    match side
    case Left => End
    case Right => Start
    case _ => Middle
  }

  function DefaultBaseline(side: Side): Baseline
  {
    match side
    case Bottom => TextBeforeEdge
    case Top => TextAfterEdge
    case _ => BaselineMiddle
  }

  /** The length labels are pushed outwards by: the ticks' length, 0 without
      ticks. */
  function TickLength(ticks: Option<TickConfiguration>): real
  {
    if ticks.Some? then ticks.value.length else 0.0
  }

  /** `createAxisLabel`. */
  function CreateLabel(cfg: LabelConfiguration, text: string, side: Side, index: int, p1: real, p2: real,
                       isNegative: bool, ticks: Option<TickConfiguration>): Node
  {
    var position := AnchorPosition(GetOr(cfg.anchor, Middle), side, p1, p2, isNegative) + GetOr(cfg.offset, 0.0);
    var x := if IsHorizontal(side) then position else 0.0;
    var y := if IsHorizontal(side) then 0.0 else position;
    var length := TickLength(ticks);
    var x' := match side case Left => x - length case Right => x + length case _ => x;
    var y' := match side case Bottom => y + length case Top => y - length case _ => y;
    Label(side, index, x', y', GetOr(cfg.textAnchor, DefaultTextAnchor(side)),
          GetOr(cfg.dominantBaseline, DefaultBaseline(side)), GetOr(cfg.rotation, 0.0), text)
  }

  // -----------------------------------------------------------------------
  // The nodes of one marking

  /** What an axis needs to draw its markings: the side, the tick
      configuration (if any), the grid line length (0 draws none) and the
      label configuration (none when labels are disabled). */
  datatype AxisEnv = AxisEnv(side: Side, ticks: Option<TickConfiguration>, gridLineLength: real,
                             labels: Option<LabelConfiguration>)

  /** One marking: the tick's extent and sign, the grid line's origin, and the
      label's text (empty for none), extent and sign. */
  datatype Mark = Mark(tick1: real, tick2: real, tickNegative: bool, gridX: real, gridY: real,
                       text: string, label1: real, label2: real, labelNegative: bool)

  /** A tick if ticks are configured, a grid line if its length is non-zero,
      and a label if labels are enabled and the text is not empty, in that
      order. */
  function MarkNodes(env: AxisEnv, index: int, mark: Mark): seq<Node>
  {
    TickNodes(env, index, mark) + GridNodes(env, index, mark) + LabelNodes(env, index, mark)
  }

  function TickNodes(env: AxisEnv, index: int, mark: Mark): seq<Node>
  {
    if env.ticks.Some? then [CreateTick(env.ticks.value, env.side, index, mark.tick1, mark.tick2, mark.tickNegative)]
    else []
  }

  function GridNodes(env: AxisEnv, index: int, mark: Mark): seq<Node>
  {
    if env.gridLineLength != 0.0 then [CreateGridLine(env.gridLineLength, env.side, index, mark.gridX, mark.gridY)]
    else []
  }

  function LabelNodes(env: AxisEnv, index: int, mark: Mark): seq<Node>
  {
    if env.labels.Some? && mark.text != "" then
      [CreateLabel(env.labels.value, mark.text, env.side, index, mark.label1, mark.label2, mark.labelNegative,
                   env.ticks)]
    else []
  }

  /** The pushes every marking loop makes: a tick, a grid line and a label,
      each only when enabled. */
  method PushMarkNodes(nodes: seq<Node>, env: AxisEnv, index: int, mark: Mark) returns (pushed: seq<Node>)
    ensures pushed == nodes + MarkNodes(env, index, mark)
  {
    pushed := nodes;
    if env.ticks.Some? {
      pushed := pushed + [CreateTick(env.ticks.value, env.side, index, mark.tick1, mark.tick2, mark.tickNegative)];
    }
    if env.gridLineLength != 0.0 {
      pushed := pushed + [CreateGridLine(env.gridLineLength, env.side, index, mark.gridX, mark.gridY)];
    }
    if env.labels.Some? && mark.text != "" {
      pushed := pushed + [CreateLabel(env.labels.value, mark.text, env.side, index, mark.label1, mark.label2,
                                      mark.labelNegative, env.ticks)];
    }
  }

  /** The nodes of a sequence of markings, numbered from 1. */
  function NodesOf(env: AxisEnv, marks: seq<Mark>): seq<Node>
    decreases |marks|
  {
    if |marks| == 0 then []
    else NodesOf(env, marks[..|marks| - 1]) + MarkNodes(env, |marks|, marks[|marks| - 1])
  }

  lemma NodesAppend(env: AxisEnv, marks: seq<Mark>, mark: Mark)
    ensures NodesOf(env, marks + [mark]) == NodesOf(env, marks) + MarkNodes(env, |marks| + 1, mark)
  {
    assert (marks + [mark])[..|marks|] == marks;
  }

  /** Pushing one more marking's nodes extends the nodes of the markings
      before it to the nodes of all of them. */
  method PushNextMark(nodes: seq<Node>, env: AxisEnv, index: int, mark: Mark, ghost marks: seq<Mark>)
    returns (pushed: seq<Node>)
    requires nodes == NodesOf(env, marks) && index == |marks| + 1
    ensures pushed == NodesOf(env, marks + [mark])
  {
    NodesAppend(env, marks, mark);
    pushed := PushMarkNodes(nodes, env, index, mark);
  }

  /** Which nodes a configuration lets through. */
  predicate Enabled(env: AxisEnv, node: Node)
  {
    match node
    case Tick(_, _, _, _, _, _) => env.ticks.Some?
    case GridLine(_, _, _, _, _, _) => env.gridLineLength != 0.0
    case Label(_, _, _, _, _, _, _, text) => env.labels.Some? && text != ""
  }

  /** How many nodes a marking without a label gets. */
  function LineCount(env: AxisEnv): nat
  {
    (if env.ticks.Some? then 1 else 0) + (if env.gridLineLength != 0.0 then 1 else 0)
  }

  // -----------------------------------------------------------------------
  // Properties of the primitives

  /** Every anchor lies within the point's extent; without a separate end
      (`p2 == p1`) every anchor is the position itself; the middle anchor is
      the midpoint on both orientations. */
  lemma AnchorWithin(anchor: Anchor, side: Side, p1: real, p2: real, isNegative: bool)
    ensures Min(p1, p2) <= AnchorPosition(anchor, side, p1, p2, isNegative) <= Max(p1, p2)
    ensures p1 == p2 ==> AnchorPosition(anchor, side, p1, p2, isNegative) == p1
    ensures anchor == Middle ==> AnchorPosition(anchor, side, p1, p2, isNegative) == (p1 + p2) / 2.0
  {
  }

  /** A tick starts at the anchored position plus the offset along the axis,
      sits on the chart's edge across it, and extends `length` outwards. */
  lemma TickGeometry(cfg: TickConfiguration, side: Side, index: int, p1: real, p2: real, isNegative: bool)
    ensures var tick := CreateTick(cfg, side, index, p1, p2, isNegative);
      var position := AnchorPosition(GetOr(cfg.anchor, Middle), side, p1, p2, isNegative) + GetOr(cfg.offset, 0.0);
      && tick.Tick? && tick.side == side && tick.index == index
      && (if IsHorizontal(side) then tick.x1 == position && tick.y1 == 0.0 else tick.x1 == 0.0 && tick.y1 == position)
      && tick.x2 == tick.x1 + cfg.length * OutwardX(side)
      && tick.y2 == tick.y1 + cfg.length * OutwardY(side)
  {
  }

  /** A grid line runs `length` into the chart from its origin; on the left
      side that holds for an origin at x = 0, where every vertical axis puts
      it. */
  lemma GridLineGeometry(length: real, side: Side, index: int, x1: real, y1: real)
    requires side == Left ==> x1 == 0.0
    ensures var line := CreateGridLine(length, side, index, x1, y1);
      && line.GridLine? && line.side == side && line.index == index
      && line.x1 == x1 && line.y1 == y1
      && line.x2 == x1 - length * OutwardX(side)
      && line.y2 == y1 - length * OutwardY(side)
  {
  }

  /** An explicitly configured text anchor, baseline and rotation win over
      the side's defaults; the label sits at the anchored position plus the
      offset, pushed outwards by the tick length. */
  lemma LabelGeometry(cfg: LabelConfiguration, text: string, side: Side, index: int, p1: real, p2: real,
                      isNegative: bool, ticks: Option<TickConfiguration>)
    ensures var node := CreateLabel(cfg, text, side, index, p1, p2, isNegative, ticks);
      var position := AnchorPosition(GetOr(cfg.anchor, Middle), side, p1, p2, isNegative) + GetOr(cfg.offset, 0.0);
      && node.Label? && node.side == side && node.index == index && node.text == text
      && node.x == (if IsHorizontal(side) then position else 0.0) + TickLength(ticks) * OutwardX(side)
      && node.y == (if IsHorizontal(side) then 0.0 else position) + TickLength(ticks) * OutwardY(side)
      && (cfg.textAnchor.Some? ==> node.textAnchor == cfg.textAnchor.value)
      && (cfg.textAnchor.None? ==> node.textAnchor == DefaultTextAnchor(side))
      && (cfg.dominantBaseline.Some? ==> node.dominantBaseline == cfg.dominantBaseline.value)
      && (cfg.dominantBaseline.None? ==> node.dominantBaseline == DefaultBaseline(side))
      && node.rotation == (if cfg.rotation.Some? then cfg.rotation.value else 0.0)
  {
  }

  /** A marking's nodes all carry its index and its axis's side. */
  lemma MarkNodesIndex(env: AxisEnv, index: int, mark: Mark)
    ensures forall k :: 0 <= k < |MarkNodes(env, index, mark)| ==>
      MarkNodes(env, index, mark)[k].index == index && MarkNodes(env, index, mark)[k].side == env.side
  {
  }

  /** A marking's nodes are all enabled; it gets a tick exactly when ticks
      are configured, a grid line exactly when the length is non-zero, a
      label exactly when labels are enabled and the text is not empty. */
  lemma MarkNodesSpec(env: AxisEnv, index: int, mark: Mark)
    ensures var nodes := MarkNodes(env, index, mark);
      && (forall k :: 0 <= k < |nodes| ==> Enabled(env, nodes[k]))
      && ((exists k :: 0 <= k < |nodes| && nodes[k].Tick?) <==> env.ticks.Some?)
      && ((exists k :: 0 <= k < |nodes| && nodes[k].GridLine?) <==> env.gridLineLength != 0.0)
      && ((exists k :: 0 <= k < |nodes| && nodes[k].Label?) <==> env.labels.Some? && mark.text != "")
      && |nodes| == LineCount(env) + (if env.labels.Some? && mark.text != "" then 1 else 0)
  {
    var nodes := MarkNodes(env, index, mark);
    if env.ticks.Some? {
      assert nodes[0].Tick?;
    }
    if env.gridLineLength != 0.0 {
      assert nodes[if env.ticks.Some? then 1 else 0].GridLine?;
    }
    if env.labels.Some? && mark.text != "" {
      assert nodes[|nodes| - 1].Label?;
    }
  }

  /** Marking `k` (from 0) gets index `k + 1`, so the indices of an axis's
      nodes run from 1 to the number of markings and never decrease along
      the nodes. */
  lemma {:induction false} NodesIndices(env: AxisEnv, marks: seq<Mark>)
    ensures forall k :: 0 <= k < |NodesOf(env, marks)| ==>
      1 <= NodesOf(env, marks)[k].index <= |marks| && NodesOf(env, marks)[k].side == env.side
    decreases |marks|
  {
    if |marks| > 0 {
      var n := |marks|;
      NodesIndices(env, marks[..n - 1]);
      MarkNodesIndex(env, n, marks[n - 1]);
      var earlier := NodesOf(env, marks[..n - 1]);
      var last := MarkNodes(env, n, marks[n - 1]);
      var nodes := NodesOf(env, marks);
      assert nodes == earlier + last;
      forall k | 0 <= k < |nodes|
        ensures 1 <= nodes[k].index <= n && nodes[k].side == env.side
      {
        if k < |earlier| {
          assert nodes[k] == earlier[k];
        } else {
          assert nodes[k] == last[k - |earlier|];
        }
      }
    }
  }

  lemma {:induction false} NodesOrdered(env: AxisEnv, marks: seq<Mark>)
    ensures forall i, j :: 0 <= i < j < |NodesOf(env, marks)| ==>
      NodesOf(env, marks)[i].index <= NodesOf(env, marks)[j].index
    decreases |marks|
  {
    if |marks| > 0 {
      var n := |marks|;
      NodesOrdered(env, marks[..n - 1]);
      NodesIndices(env, marks[..n - 1]);
      MarkNodesIndex(env, n, marks[n - 1]);
      var earlier := NodesOf(env, marks[..n - 1]);
      var last := MarkNodes(env, n, marks[n - 1]);
      var nodes := NodesOf(env, marks);
      assert nodes == earlier + last;
      forall i, j | 0 <= i < j < |nodes|
        ensures nodes[i].index <= nodes[j].index
      {
        if j < |earlier| {
          assert nodes[i] == earlier[i] && nodes[j] == earlier[j];
        } else if i < |earlier| {
          assert nodes[i] == earlier[i] && nodes[j] == last[j - |earlier|];
        } else {
          assert nodes[i] == last[i - |earlier|] && nodes[j] == last[j - |earlier|];
        }
      }
    }
  }

  /** Every node of an axis is one its configuration enables. */
  lemma {:induction false} NodesEnabled(env: AxisEnv, marks: seq<Mark>)
    ensures forall k :: 0 <= k < |NodesOf(env, marks)| ==> Enabled(env, NodesOf(env, marks)[k])
    decreases |marks|
  {
    if |marks| > 0 {
      var n := |marks|;
      NodesEnabled(env, marks[..n - 1]);
      MarkNodesSpec(env, n, marks[n - 1]);
      var earlier := NodesOf(env, marks[..n - 1]);
      var last := MarkNodes(env, n, marks[n - 1]);
      var nodes := NodesOf(env, marks);
      assert nodes == earlier + last;
      forall k | 0 <= k < |nodes|
        ensures Enabled(env, nodes[k])
      {
        if k < |earlier| {
          assert nodes[k] == earlier[k];
        } else {
          assert nodes[k] == last[k - |earlier|];
        }
      }
    }
  }

  /** Without labels every marking gets the same number of nodes. */
  lemma {:induction false} NodesCount(env: AxisEnv, marks: seq<Mark>)
    requires env.labels.None?
    ensures |NodesOf(env, marks)| == |marks| * LineCount(env)
    decreases |marks|
  {
    if |marks| > 0 {
      var n := |marks|;
      NodesCount(env, marks[..n - 1]);
      MarkNodesSpec(env, n, marks[n - 1]);
      assert |NodesOf(env, marks)| == (n - 1) * LineCount(env) + LineCount(env);
    }
  }
}
