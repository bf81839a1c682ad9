/** The stacked column chart's transform of a laid-out column plot: column
    points are bucketed by the stack their input belongs to, in first-seen
    order; every stack takes one column slot, its height is driven by its
    summed relative value, and its members are piled bottom-up with the
    stack spacing taken out of every member but the top one. Points are
    values, so the copies the source makes before moving them are implicit
    and the input plot is never changed. */
module Stacked {
  import opened Divisors
  import opened Normalizer
  import opened ColumnPlot
  import opened Buckets

  /** The chart properties the transform reads. The chart's `domainMax` is
      taken as given. */
  datatype Chart = Chart(columnHeight: real, columnSpacing: real, columnWidth: real,
                         domainMax: real, stackSpacing: real)

  /** What the bucketing loop gathers for one stack. */
  datatype Record<T> = Record(columnPoints: seq<ColumnPoint<T>>, columns: seq<Column<T>>,
                              relativeValue: real, value: real)

  datatype StackedColumn<G, T> = StackedColumn(input: G, columns: seq<Column<T>>, value: real)

  datatype StackedColumnPoint<G, T> = StackedColumnPoint(
    columnPoints: seq<ColumnPoint<T>>, datum: StackedColumn<G, T>,
    x1: real, x2: real, y1: real, y2: real)

  datatype StackedPlot<G, T> = StackedPlot(height: real, points: seq<StackedColumnPoint<G, T>>, width: real)

  /** The record of a stack once all its members are seen: the members, their
      columns, and the sums of their relative values and values. */
  function RecordOf<T>(members: seq<ColumnPoint<T>>): Record<T>
  {
    Record(members, Data(members), SumOf(members, PointRelativeValue), SumOf(members, PointValue))
  }

  function RecordsOf<G, T>(columnPoints: seq<ColumnPoint<T>>, stackSelector: T -> G): map<G, Record<T>>
  {
    map g | g in Keys(columnPoints, InputKey(stackSelector)) ::
      RecordOf(Members(columnPoints, InputKey(stackSelector), g))
  }

  /** The running maximum, from 0, of the partial sum of `selector` over the
      stack each point has just been added to. */
  function RunningMax<P, G(==)>(points: seq<P>, key: P -> G, selector: P -> real): real
    decreases |points|
  {
    if |points| == 0 then 0.0
    else
      var max := RunningMax(points[..|points| - 1], key, selector);
      var sum := SumOf(Members(points, key, key(points[|points| - 1])), selector);
      if sum > max then sum else max
  }

  /** The factor meant to make the stack whose total equals the domain
      maximum fill the column height (it does so only when the largest
      relative value exceeds 1, see `DomainMaxStackShare`); 1 without a
      positive domain maximum. */
  function DomainCorrection(maxValue: real, domainMax: real): real
  {
    if domainMax > 0.0 then maxValue / domainMax else 1.0
  }

  /** A stack's height: its relative value times the domain correction,
      rescaled when some stack's relative value exceeds 1. */
  function StackHeight(relativeValue: real, domainCorrection: real, maxRelativeValue: real, columnHeight: real): real
  {
    var corrected := relativeValue * domainCorrection;
    columnHeight * (if maxRelativeValue > 1.0 then corrected / maxRelativeValue else corrected)
  }

  // -----------------------------------------------------------------------
  // Piling up one stack

  function TopOf<T>(points: seq<ColumnPoint<T>>, columnHeight: real): real
  {
    if |points| == 0 then columnHeight else points[|points| - 1].y1
  }

  /** The members placed in the stack's slot, each as tall as its share of
      the stack's relative value and standing on the previous one, before
      any spacing is taken out. */
  function Layered<T>(members: seq<ColumnPoint<T>>, x1: real, x2: real, stackHeight: real,
                      relativeValue: real, columnHeight: real): (layered: seq<ColumnPoint<T>>)
    requires relativeValue != 0.0
    ensures |layered| == |members|
    decreases |members|
  {
    if |members| == 0 then []
    else
      var below := Layered(members[..|members| - 1], x1, x2, stackHeight, relativeValue, columnHeight);
      var point := members[|members| - 1];
      var displayHeight := MemberHeight(stackHeight, point.datum.relativeValue, relativeValue);
      var y2 := TopOf(below, columnHeight);
      below + [point.(x1 := x1, x2 := x2, displayHeight := displayHeight, y2 := y2, y1 := y2 - displayHeight)]
  }

  /** A member's share of the stack height. */
  function MemberHeight(stackHeight: real, relativeValue: real, stackRelativeValue: real): real
    requires stackRelativeValue != 0.0
  {
    stackHeight * relativeValue / stackRelativeValue
  }

  /** A member with the stack spacing taken out of its top. */
  function Space<T>(point: ColumnPoint<T>, stackSpacing: real): ColumnPoint<T>
  {
    point.(y1 := point.y1 + stackSpacing, displayHeight := point.displayHeight - stackSpacing)
  }

  /** Every member but the last loses the stack spacing. */
  function Spaced<T>(points: seq<ColumnPoint<T>>, stackSpacing: real): seq<ColumnPoint<T>>
  {
    seq(|points|, k requires 0 <= k < |points| =>
      if k < |points| - 1 then Space(points[k], stackSpacing) else points[k])
  }

  /** One stack's point in the slot starting at `x1`. */
  function StackOf<G, T>(stack: G, record: Record<T>, x1: real, chart: Chart,
                         domainCorrection: real, maxRelativeValue: real): StackedColumnPoint<G, T>
    requires record.relativeValue != 0.0
  {
    var stackHeight := StackHeight(record.relativeValue, domainCorrection, maxRelativeValue, chart.columnHeight);
    var x2 := x1 + chart.columnWidth + chart.columnSpacing;
    var members := Layered(record.columnPoints, x1, x2, stackHeight, record.relativeValue, chart.columnHeight);
    StackedColumnPoint(Spaced(members, chart.stackSpacing), StackedColumn(stack, record.columns, record.value),
      x1, x2, chart.columnHeight - stackHeight, chart.columnHeight)
  }

  function StacksEnd<G, T>(stacks: seq<StackedColumnPoint<G, T>>): real
  {
    if |stacks| == 0 then 0.0 else stacks[|stacks| - 1].x2
  }

  predicate Stackable<G, T>(order: seq<G>, records: map<G, Record<T>>)
  {
    forall g :: g in order ==> g in records && records[g].relativeValue != 0.0
  }

  /** The stacks in key order, each in the slot after the previous one. */
  function StacksOf<G, T>(order: seq<G>, records: map<G, Record<T>>, chart: Chart,
                          domainCorrection: real, maxRelativeValue: real): seq<StackedColumnPoint<G, T>>
    requires Stackable(order, records)
    decreases |order|
  {
    if |order| == 0 then []
    else
      var stacks := StacksOf(order[..|order| - 1], records, chart, domainCorrection, maxRelativeValue);
      var g := order[|order| - 1];
      stacks + [StackOf(g, records[g], StacksEnd(stacks), chart, domainCorrection, maxRelativeValue)]
  }

  // -----------------------------------------------------------------------
  // The transform

  /** The bucketing loop: every point is copied into its stack's record, the
      record's sums grow, and the running maxima follow the record's sums. */
  method Bucket<G(==), T>(columnPoints: seq<ColumnPoint<T>>, stackSelector: T -> G)
    returns (order: seq<G>, stacks: map<G, Record<T>>, maxValue: real, maxRelativeValue: real)
    ensures order == Keys(columnPoints, InputKey(stackSelector))
    ensures stacks == RecordsOf(columnPoints, stackSelector)
    ensures maxValue == RunningMax(columnPoints, InputKey(stackSelector), PointValue)
    ensures maxRelativeValue == RunningMax(columnPoints, InputKey(stackSelector), PointRelativeValue)
  {
    ghost var key := InputKey(stackSelector);
    order := [];
    stacks := map[];
    maxValue := 0.0;
    maxRelativeValue := 0.0;
    for i := 0 to |columnPoints|
      invariant order == Keys(columnPoints[..i], key)
      invariant forall g :: g in stacks <==> g in order
      invariant forall g :: g in stacks ==> stacks[g] == RecordOf(Members(columnPoints[..i], key, g))
      invariant maxValue == RunningMax(columnPoints[..i], key, PointValue)
      invariant maxRelativeValue == RunningMax(columnPoints[..i], key, PointRelativeValue)
    {
      var point := columnPoints[i];
      var stack := stackSelector(point.datum.input);
      assert columnPoints[..i + 1][..i] == columnPoints[..i];
      assert key(point) == stack;
      if stack !in stacks {
        MembersNonEmpty(columnPoints[..i], key, stack);
        stacks := stacks[stack := Record([], [], 0.0, 0.0)];
        order := order + [stack];
      }
      var record := stacks[stack];
      RecordStep(Members(columnPoints[..i], key, stack), point);
      record := Record(record.columnPoints + [point], record.columns + [point.datum],
                       record.relativeValue + point.datum.relativeValue, record.value + point.datum.value);
      stacks := stacks[stack := record];
      forall g | g in stacks
        ensures stacks[g] == RecordOf(Members(columnPoints[..i + 1], key, g))
      {
        MembersStep(columnPoints, i, key, g);
      }
      assert record == RecordOf(Members(columnPoints[..i + 1], key, stack));
      RunningMaxStep(columnPoints, i, key, PointValue);
      RunningMaxStep(columnPoints, i, key, PointRelativeValue);
      if record.value > maxValue {
        maxValue := record.value;
      }
      if record.relativeValue > maxRelativeValue {
        maxRelativeValue := record.relativeValue;
      }
    }
    assert columnPoints[..|columnPoints|] == columnPoints;
  }

  /** One more point: the running maximum takes the larger of its old value
      and the new partial sum of that point's stack. */
  lemma RunningMaxStep<P, G>(points: seq<P>, i: int, key: P -> G, selector: P -> real)
    requires 0 <= i < |points|
    ensures var sum := SumOf(Members(points[..i + 1], key, key(points[i])), selector);
      var max := RunningMax(points[..i], key, selector);
      RunningMax(points[..i + 1], key, selector) == if sum > max then sum else max
  {
    assert points[..i + 1][..i] == points[..i];
  }

  lemma RecordStep<T>(members: seq<ColumnPoint<T>>, point: ColumnPoint<T>)
    ensures var r := RecordOf(members);
      RecordOf(members + [point])
        == Record(r.columnPoints + [point], r.columns + [point.datum],
                  r.relativeValue + point.datum.relativeValue, r.value + point.datum.value)
  {
    SumAppend(members, point, PointRelativeValue);
    SumAppend(members, point, PointValue);
    assert Data(members + [point]) == Data(members) + [point.datum];
  }

  /** The inner loop: `prev` is the member placed last, whose top the next
      member stands on before `prev` loses the stack spacing. The dummy
      `prev` of the first member has its top at the column height. */
  method LayerMembers<T>(members: seq<ColumnPoint<T>>, x1: real, x2: real, stackHeight: real,
                         relativeValue: real, columnHeight: real, stackSpacing: real)
    returns (moved: seq<ColumnPoint<T>>)
    requires relativeValue != 0.0
    ensures moved == Spaced(Layered(members, x1, x2, stackHeight, relativeValue, columnHeight), stackSpacing)
  {
    moved := [];
    var prevY1 := columnHeight;
    for i := 0 to |members|
      invariant |moved| == i
      invariant moved == Spaced(Layered(members[..i], x1, x2, stackHeight, relativeValue, columnHeight), stackSpacing)
      invariant prevY1 == TopOf(Layered(members[..i], x1, x2, stackHeight, relativeValue, columnHeight), columnHeight)
    {
      ghost var below := Layered(members[..i], x1, x2, stackHeight, relativeValue, columnHeight);
      assert members[..i + 1][..i] == members[..i];
      var point := members[i];
      point := point.(x1 := x1, x2 := x2);
      point := point.(displayHeight := MemberHeight(stackHeight, point.datum.relativeValue, relativeValue));
      point := point.(y2 := prevY1);
      point := point.(y1 := point.y2 - point.displayHeight);
      assert Layered(members[..i + 1], x1, x2, stackHeight, relativeValue, columnHeight) == below + [point];
      SpacedStep(below, point, stackSpacing);
      if i > 0 {
        moved := moved[i - 1 := Space(moved[i - 1], stackSpacing)];
      }
      moved := moved + [point];
      prevY1 := point.y1;
    }
    assert members[..|members|] == members;
  }

  lemma SpacedStep<T>(points: seq<ColumnPoint<T>>, point: ColumnPoint<T>, stackSpacing: real)
    ensures var spaced := Spaced(points, stackSpacing);
      Spaced(points + [point], stackSpacing)
        == (if |points| == 0 then [] else spaced[|points| - 1 := Space(spaced[|points| - 1], stackSpacing)]) + [point]
  {
  }

  /** The outer loop: `chartWidth` runs across the stacks. */
  method Layout<G, T>(order: seq<G>, stacks: map<G, Record<T>>, chart: Chart,
                      domainCorrection: real, maxRelativeValue: real)
    returns (points: seq<StackedColumnPoint<G, T>>)
    requires Stackable(order, stacks)
    ensures points == StacksOf(order, stacks, chart, domainCorrection, maxRelativeValue)
  {
    points := [];
    var chartWidth := 0.0;
    for index := 0 to |order|
      invariant points == StacksOf(order[..index], stacks, chart, domainCorrection, maxRelativeValue)
      invariant chartWidth == StacksEnd(points)
    {
      assert order[..index + 1][..index] == order[..index];
      var stack := order[index];
      var record := stacks[stack];
      var stackHeight := StackHeight(record.relativeValue, domainCorrection, maxRelativeValue, chart.columnHeight);
      var y1 := chart.columnHeight - stackHeight;
      var x1 := chartWidth;
      var x2 := x1 + chart.columnWidth + chart.columnSpacing;
      chartWidth := x2;
      var columnPoints := LayerMembers(record.columnPoints, x1, x2, stackHeight, record.relativeValue,
                                       chart.columnHeight, chart.stackSpacing);
      points := points + [StackedColumnPoint(columnPoints, StackedColumn(stack, record.columns, record.value),
                                             x1, x2, y1, chart.columnHeight)];
    }
    assert order[..|order|] == order;
  }

  /** The `after` advice on `plot`. Every stack's summed relative value must
      be non-zero: the source divides by it. */
  method StackColumns<G(==), T>(plot: Plot<ColumnPoint<T>>, stackSelector: T -> G, chart: Chart)
    returns (result: StackedPlot<G, T>)
    requires forall g :: g in Keys(plot.points, InputKey(stackSelector)) ==>
      SumOf(Members(plot.points, InputKey(stackSelector), g), PointRelativeValue) != 0.0
    ensures Stackable(Keys(plot.points, InputKey(stackSelector)), RecordsOf(plot.points, stackSelector))
    ensures result.height == plot.height && result.width == plot.width
    ensures result.points == StacksOf(Keys(plot.points, InputKey(stackSelector)), RecordsOf(plot.points, stackSelector), chart,
      DomainCorrection(RunningMax(plot.points, InputKey(stackSelector), PointValue), chart.domainMax),
      RunningMax(plot.points, InputKey(stackSelector), PointRelativeValue))
  {
    var order, stacks, maxValue, maxRelativeValue := Bucket(plot.points, stackSelector);
    var domainCorrection := 1.0;
    if chart.domainMax > 0.0 {
      domainCorrection := maxValue / chart.domainMax;
    }
    var points := Layout(order, stacks, chart, domainCorrection, maxRelativeValue);
    result := StackedPlot(plot.height, points, plot.width);
  }

  // -----------------------------------------------------------------------
  // Properties

  /** Stack `k` occupies slot `k`: its x-range starts at `k` column widths
      plus spacings and is one of them wide, and it is the `StackOf` its
      key's record. */
  lemma StacksInSlots<G, T>(order: seq<G>, records: map<G, Record<T>>, chart: Chart,
                            domainCorrection: real, maxRelativeValue: real)
    requires Stackable(order, records)
    ensures |StacksOf(order, records, chart, domainCorrection, maxRelativeValue)| == |order|
    ensures forall k :: 0 <= k < |order| ==>
      var stacks := StacksOf(order, records, chart, domainCorrection, maxRelativeValue);
      && stacks[k].x1 == (k as real) * (chart.columnWidth + chart.columnSpacing)
      && stacks[k] == StackOf(order[k], records[order[k]], stacks[k].x1, chart, domainCorrection, maxRelativeValue)
  {
    StacksAreStackOf(order, records, chart, domainCorrection, maxRelativeValue);
    StackSlots(order, records, chart, domainCorrection, maxRelativeValue);
  }

  /** Stack `k` is the `StackOf` the `k`-th key's record. */
  lemma {:induction false} StacksAreStackOf<G, T>(order: seq<G>, records: map<G, Record<T>>, chart: Chart,
                                                  domainCorrection: real, maxRelativeValue: real)
    requires Stackable(order, records)
    ensures |StacksOf(order, records, chart, domainCorrection, maxRelativeValue)| == |order|
    ensures forall k :: 0 <= k < |order| ==>
      var stacks := StacksOf(order, records, chart, domainCorrection, maxRelativeValue);
      stacks[k] == StackOf(order[k], records[order[k]], stacks[k].x1, chart, domainCorrection, maxRelativeValue)
    decreases |order|
  {
    if |order| > 0 {
      var prefix := order[..|order| - 1];
      StacksAreStackOf(prefix, records, chart, domainCorrection, maxRelativeValue);
      var stacks := StacksOf(order, records, chart, domainCorrection, maxRelativeValue);
      var earlier := StacksOf(prefix, records, chart, domainCorrection, maxRelativeValue);
      assert stacks[..|prefix|] == earlier;
      forall k | 0 <= k < |prefix|
        ensures stacks[k] == StackOf(order[k], records[order[k]], stacks[k].x1, chart, domainCorrection, maxRelativeValue)
      {
        assert order[k] == prefix[k] && stacks[k] == earlier[k];
      }
    }
  }

  /** Where slot `k` starts: `k` slots of `width` from the left. */
  function SlotStart(k: nat, width: real): (x: real)
    ensures x == (k as real) * width
  {
    if k == 0 then 0.0 else SlotStart(k - 1, width) + width
  }

  /** Stack `k` starts at slot `k`. */
  lemma {:induction false} StackSlots<G, T>(order: seq<G>, records: map<G, Record<T>>, chart: Chart,
                                            domainCorrection: real, maxRelativeValue: real)
    requires Stackable(order, records)
    ensures |StacksOf(order, records, chart, domainCorrection, maxRelativeValue)| == |order|
    ensures forall k :: 0 <= k < |order| ==>
      StacksOf(order, records, chart, domainCorrection, maxRelativeValue)[k].x1
        == SlotStart(k, chart.columnWidth + chart.columnSpacing)
    decreases |order|
  {
    if |order| > 0 {
      var prefix := order[..|order| - 1];
      StackSlots(prefix, records, chart, domainCorrection, maxRelativeValue);
      var stacks := StacksOf(order, records, chart, domainCorrection, maxRelativeValue);
      var earlier := StacksOf(prefix, records, chart, domainCorrection, maxRelativeValue);
      var width := chart.columnWidth + chart.columnSpacing;
      assert stacks[..|prefix|] == earlier;
      forall k | 0 <= k < |prefix|
        ensures stacks[k].x1 == SlotStart(k, width)
      {
        assert stacks[k] == earlier[k];
      }
      var last := |prefix|;
      if last > 0 {
        assert stacks[last].x1 == earlier[last - 1].x2;
        assert earlier[last - 1].x2 == earlier[last - 1].x1 + width;
      }
    }
  }

  /** The piled-up members keep everything but their placement, all take the
      stack's x-range, and each is as tall as its share of the stack's
      relative value, measured down from its `y2`. */
  lemma {:induction false} LayeredPlacement<T>(members: seq<ColumnPoint<T>>, x1: real, x2: real, stackHeight: real,
                                               relativeValue: real, columnHeight: real)
    requires relativeValue != 0.0
    ensures forall k :: 0 <= k < |members| ==>
      Placed(Layered(members, x1, x2, stackHeight, relativeValue, columnHeight)[k], members[k],
             x1, x2, stackHeight, relativeValue)
    decreases |members|
  {
    if |members| > 0 {
      var prefix := members[..|members| - 1];
      LayeredPlacement(prefix, x1, x2, stackHeight, relativeValue, columnHeight);
      var layered := Layered(members, x1, x2, stackHeight, relativeValue, columnHeight);
      var below := Layered(prefix, x1, x2, stackHeight, relativeValue, columnHeight);
      assert layered[..|prefix|] == below;
      forall k | 0 <= k < |prefix|
        ensures layered[k] == below[k] && members[k] == prefix[k]
      {
      }
    }
  }

  /** `point` is `member` placed in the slot from `x1` to `x2` with its share
      of the stack height. */
  ghost predicate Placed<T>(point: ColumnPoint<T>, member: ColumnPoint<T>, x1: real, x2: real,
                      stackHeight: real, relativeValue: real)
    requires relativeValue != 0.0
  {
    && point.datum == member.datum
    && point.displayWidth == member.displayWidth
    && point.offsetLeft == member.offsetLeft
    && point.x1 == x1 && point.x2 == x2
    && point.displayHeight == MemberHeight(stackHeight, member.datum.relativeValue, relativeValue)
    && point.y1 == point.y2 - point.displayHeight
  }

  /** The first member stands on the column height and each later one on the
      previous one. */
  lemma {:induction false} LayeredChain<T>(members: seq<ColumnPoint<T>>, x1: real, x2: real, stackHeight: real,
                                           relativeValue: real, columnHeight: real)
    requires relativeValue != 0.0
    ensures |members| > 0 ==> Layered(members, x1, x2, stackHeight, relativeValue, columnHeight)[0].y2 == columnHeight
    ensures forall k :: 0 < k < |members| ==>
      Layered(members, x1, x2, stackHeight, relativeValue, columnHeight)[k].y2
        == Layered(members, x1, x2, stackHeight, relativeValue, columnHeight)[k - 1].y1
    decreases |members|
  {
    if |members| > 0 {
      var prefix := members[..|members| - 1];
      LayeredChain(prefix, x1, x2, stackHeight, relativeValue, columnHeight);
      var layered := Layered(members, x1, x2, stackHeight, relativeValue, columnHeight);
      var below := Layered(prefix, x1, x2, stackHeight, relativeValue, columnHeight);
      assert layered[..|prefix|] == below;
      forall k | 0 < k < |members|
        ensures layered[k].y2 == layered[k - 1].y1
      {
        assert layered[k - 1] == below[k - 1];
        if k < |prefix| {
          assert layered[k] == below[k];
        }
      }
      if |prefix| > 0 {
        assert layered[0] == below[0];
      }
    }
  }

  /** The pile's top is the column height less the members' share of the
      stack height. */
  lemma {:induction false} LayeredTop<T>(members: seq<ColumnPoint<T>>, x1: real, x2: real, stackHeight: real,
                                         relativeValue: real, columnHeight: real)
    requires relativeValue != 0.0
    ensures TopOf(Layered(members, x1, x2, stackHeight, relativeValue, columnHeight), columnHeight)
         == columnHeight - MemberHeight(stackHeight, SumOf(members, PointRelativeValue), relativeValue)
    decreases |members|
  {
    if |members| > 0 {
      var prefix := members[..|members| - 1];
      var last := members[|members| - 1];
      LayeredTop(prefix, x1, x2, stackHeight, relativeValue, columnHeight);
      assert members == prefix + [last];
      SumAppend(prefix, last, PointRelativeValue);
      ShareSum(stackHeight, SumOf(prefix, PointRelativeValue), last.datum.relativeValue, relativeValue);
    } else {
      ShareSum(stackHeight, 0.0, 0.0, relativeValue);
    }
  }

  lemma ShareSum(height: real, sum: real, r: real, total: real)
    requires total != 0.0
    ensures MemberHeight(height, sum, total) + MemberHeight(height, r, total) == MemberHeight(height, sum + r, total)
  {
  }

  lemma WholeShare(height: real, total: real)
    requires total != 0.0
    ensures MemberHeight(height, total, total) == height
  {
  }

  /** A stack's piled members: every member but the top one has the stack
      spacing taken from its height and added to its `y1`, so a gap of
      `stackSpacing` separates it from the member above; the top member is
      untouched and, since the stack's relative value is its members' sum,
      ends exactly at the stack's `y1`. */
  lemma StackMembers<G, T>(stack: G, members: seq<ColumnPoint<T>>, x1: real, chart: Chart,
                           domainCorrection: real, maxRelativeValue: real)
    requires SumOf(members, PointRelativeValue) != 0.0
    ensures |StackOf(stack, RecordOf(members), x1, chart, domainCorrection, maxRelativeValue).columnPoints| == |members|
    ensures StackOf(stack, RecordOf(members), x1, chart, domainCorrection, maxRelativeValue).datum
         == StackedColumn(stack, Data(members), SumOf(members, PointValue))
    ensures StackOf(stack, RecordOf(members), x1, chart, domainCorrection, maxRelativeValue).x2
         == x1 + chart.columnWidth + chart.columnSpacing
    ensures StackOf(stack, RecordOf(members), x1, chart, domainCorrection, maxRelativeValue).y2 == chart.columnHeight
    ensures StackOf(stack, RecordOf(members), x1, chart, domainCorrection, maxRelativeValue).y1
         == chart.columnHeight - StackHeight(SumOf(members, PointRelativeValue), domainCorrection,
                                             maxRelativeValue, chart.columnHeight)
    ensures forall k :: 0 <= k < |members| ==>
      var point := StackOf(stack, RecordOf(members), x1, chart, domainCorrection, maxRelativeValue);
      && point.columnPoints[k].datum == members[k].datum
      && point.columnPoints[k].x1 == x1 && point.columnPoints[k].x2 == point.x2
    ensures forall k :: 0 <= k < |members| - 1 ==>
      var point := StackOf(stack, RecordOf(members), x1, chart, domainCorrection, maxRelativeValue);
      point.columnPoints[k].y1 == point.columnPoints[k + 1].y2 + chart.stackSpacing
    ensures |members| > 0 ==>
      StackOf(stack, RecordOf(members), x1, chart, domainCorrection, maxRelativeValue).columnPoints[0].y2
        == chart.columnHeight
    ensures |members| > 0 ==>
      var point := StackOf(stack, RecordOf(members), x1, chart, domainCorrection, maxRelativeValue);
      point.columnPoints[|members| - 1].y1 == point.y1
  {
    var record := RecordOf(members);
    var relativeValue := record.relativeValue;
    var stackHeight := StackHeight(relativeValue, domainCorrection, maxRelativeValue, chart.columnHeight);
    var x2 := x1 + chart.columnWidth + chart.columnSpacing;
    var layered := Layered(members, x1, x2, stackHeight, relativeValue, chart.columnHeight);
    LayeredPlacement(members, x1, x2, stackHeight, relativeValue, chart.columnHeight);
    LayeredChain(members, x1, x2, stackHeight, relativeValue, chart.columnHeight);
    LayeredTop(members, x1, x2, stackHeight, relativeValue, chart.columnHeight);
    WholeShare(stackHeight, relativeValue);
    var point := StackOf(stack, record, x1, chart, domainCorrection, maxRelativeValue);
    var spaced := Spaced(layered, chart.stackSpacing);
    assert point.columnPoints == spaced;
    forall k | 0 <= k < |members|
      ensures spaced[k].datum == members[k].datum && spaced[k].x1 == x1 && spaced[k].x2 == x2
    {
      assert Placed(layered[k], members[k], x1, x2, stackHeight, relativeValue);
    }
    forall k | 0 <= k < |members| - 1
      ensures spaced[k].y1 == spaced[k + 1].y2 + chart.stackSpacing
    {
      assert spaced[k] == Space(layered[k], chart.stackSpacing);
      assert spaced[k + 1].y2 == layered[k + 1].y2;
    }
    if |members| > 0 {
      assert spaced[|members| - 1] == layered[|members| - 1];
      assert spaced[0].y2 == layered[0].y2;
    }
  }

  /** The running maximum is at least 0 and at least every stack's total. */
  lemma {:induction false} RunningMaxBounds<P, G>(points: seq<P>, key: P -> G, selector: P -> real, g: G)
    ensures RunningMax(points, key, selector) >= 0.0
    ensures SumOf(Members(points, key, g), selector) <= RunningMax(points, key, selector)
    decreases |points|
  {
    if |points| > 0 {
      RunningMaxBounds(points[..|points| - 1], key, selector, g);
    }
  }

  /** With non-negative values the running maximum of partial sums is the
      largest stack total, or 0 when there are no stacks. */
  lemma {:induction false} RunningMaxAttained<P, G>(points: seq<P>, key: P -> G, selector: P -> real)
    requires forall i :: 0 <= i < |points| ==> selector(points[i]) >= 0.0
    ensures RunningMax(points, key, selector) == 0.0
         || exists g :: g in Keys(points, key) && SumOf(Members(points, key, g), selector) == RunningMax(points, key, selector)
    decreases |points|
  {
    if |points| > 0 {
      var prefix := points[..|points| - 1];
      var p := points[|points| - 1];
      assert forall i :: 0 <= i < |prefix| ==> prefix[i] == points[i];
      RunningMaxAttained(prefix, key, selector);
      var max := RunningMax(points, key, selector);
      var sum := SumOf(Members(points, key, key(p)), selector);
      KeysCover(points, key, key(p));
      if sum <= RunningMax(prefix, key, selector) && max != 0.0 {
        var g :| g in Keys(prefix, key) && SumOf(Members(prefix, key, g), selector) == max;
        if g == key(p) {
          RunningMaxBounds(points, key, selector, g);
        }
        assert g in Keys(points, key);
      }
    }
  }

  /** Without a positive domain maximum and with non-negative relative values
      whose largest stack exceeds 1, no stack is taller than the column height,
      a stack whose relative value is the largest fills it, and some stack
      has that relative value. */
  lemma TallestStackFillsColumn<G, T>(columnPoints: seq<ColumnPoint<T>>, stackSelector: T -> G, chart: Chart, g: G)
    requires chart.domainMax <= 0.0 && chart.columnHeight >= 0.0
    requires forall i :: 0 <= i < |columnPoints| ==> columnPoints[i].datum.relativeValue >= 0.0
    requires RunningMax(columnPoints, InputKey(stackSelector), PointRelativeValue) > 1.0
    ensures var maxRelativeValue := RunningMax(columnPoints, InputKey(stackSelector), PointRelativeValue);
      var relativeValue := SumOf(Members(columnPoints, InputKey(stackSelector), g), PointRelativeValue);
      var stackHeight := StackHeight(relativeValue, DomainCorrection(0.0, chart.domainMax), maxRelativeValue,
                                     chart.columnHeight);
      && stackHeight <= chart.columnHeight
      && (relativeValue == maxRelativeValue ==> stackHeight == chart.columnHeight)
    ensures exists h :: (h in Keys(columnPoints, InputKey(stackSelector)) &&
      SumOf(Members(columnPoints, InputKey(stackSelector), h), PointRelativeValue)
      == RunningMax(columnPoints, InputKey(stackSelector), PointRelativeValue))
  {
    var key := InputKey(stackSelector);
    var max := RunningMax(columnPoints, key, PointRelativeValue);
    var relativeValue := SumOf(Members(columnPoints, key, g), PointRelativeValue);
    RunningMaxBounds(columnPoints, key, PointRelativeValue, g);
    ShareAtMostOne(relativeValue, max, chart.columnHeight);
    forall i | 0 <= i < |columnPoints|
      ensures PointRelativeValue(columnPoints[i]) >= 0.0
    {
    }
    RunningMaxAttained(columnPoints, key, PointRelativeValue);
  }

  /** Every point's value is its relative value times `divisor`, as the
      normaliser makes them. */
  ghost predicate ScaledPoints<T>(points: seq<ColumnPoint<T>>, divisor: real)
  {
    forall k {:trigger ScaledColumn(points[k].datum, divisor)} :: 0 <= k < |points| ==> ScaledColumn(points[k].datum, divisor)
  }

  lemma {:induction false} MembersScaled<T, G>(points: seq<ColumnPoint<T>>, key: ColumnPoint<T> -> G, g: G, divisor: real)
    requires ScaledPoints(points, divisor)
    ensures ScaledPoints(Members(points, key, g), divisor)
    decreases |points|
  {
    if |points| > 0 {
      var prefix := points[..|points| - 1];
      assert ScaledPoints(prefix, divisor) by {
        forall k | 0 <= k < |prefix|
          ensures ScaledColumn(prefix[k].datum, divisor)
        {
          assert prefix[k] == points[k];
        }
      }
      MembersScaled(prefix, key, g, divisor);
    }
  }

  /** A relative value that, times `divisor`, gives `value`. */
  predicate ScaledValue(relativeValue: real, value: real, divisor: real)
  {
    relativeValue * divisor == value
  }

  /** Summing relative values and scaling by the divisor gives the summed
      values. */
  lemma {:induction false} SumScales<T>(points: seq<ColumnPoint<T>>, divisor: real)
    requires ScaledPoints(points, divisor)
    ensures ScaledValue(SumOf(points, PointRelativeValue), SumOf(points, PointValue), divisor)
    decreases |points|
  {
    if |points| > 0 {
      var prefix := points[..|points| - 1];
      assert ScaledPoints(prefix, divisor) by {
        forall k | 0 <= k < |prefix|
          ensures ScaledColumn(prefix[k].datum, divisor)
        {
          assert prefix[k] == points[k];
        }
      }
      SumScales(prefix, divisor);
      assert ScaledColumn(points[|points| - 1].datum, divisor);
    }
  }

  /** Each stack's summed relative value, scaled by the divisor, is its
      summed value. */
  lemma {:induction false} StackSumScales<T, G>(points: seq<ColumnPoint<T>>, key: ColumnPoint<T> -> G, g: G, divisor: real)
    requires ScaledPoints(points, divisor)
    ensures ScaledValue(SumOf(Members(points, key, g), PointRelativeValue), SumOf(Members(points, key, g), PointValue), divisor)
  {
    MembersScaled(points, key, g, divisor);
    SumScales(Members(points, key, g), divisor);
  }

  /** With one positive divisor, the running maximum of stack values is the
      running maximum of stack relative values times it, as
      `ColumnPlot.ValueExtremesScale` is for single columns. */
  lemma {:induction false} RunningMaxScales<T, G>(points: seq<ColumnPoint<T>>, key: ColumnPoint<T> -> G, divisor: real)
    requires divisor > 0.0 && ScaledPoints(points, divisor)
    ensures ScaledValue(RunningMax(points, key, PointRelativeValue), RunningMax(points, key, PointValue), divisor)
    decreases |points|
  {
    if |points| > 0 {
      var prefix := points[..|points| - 1];
      assert ScaledPoints(prefix, divisor) by {
        forall k | 0 <= k < |prefix|
          ensures ScaledColumn(prefix[k].datum, divisor)
        {
          assert prefix[k] == points[k];
        }
      }
      RunningMaxScales(prefix, key, divisor);
      var h := key(points[|points| - 1]);
      StackSumScales(points, key, h, divisor);
      MaxStepScales(SumOf(Members(points, key, h), PointRelativeValue), RunningMax(prefix, key, PointRelativeValue),
                    SumOf(Members(points, key, h), PointValue), RunningMax(prefix, key, PointValue), divisor);
    }
  }

  /** Scaling by a positive divisor keeps the larger of two values. */
  lemma MaxStepScales(sum: real, max: real, sumValue: real, maxValue: real, divisor: real)
    requires divisor > 0.0 && ScaledValue(sum, sumValue, divisor) && ScaledValue(max, maxValue, divisor)
    ensures ScaledValue(if sum > max then sum else max, if sumValue > maxValue then sumValue else maxValue, divisor)
  {
    if sum > max {
      MulStrict(max, sum, divisor);
    } else if sum < max {
      MulStrict(sum, max, divisor);
    }
  }

  /** With a positive domain maximum `D` and one positive divisor `d`, the
      correction `maxValue / D` makes a stack of total `v` as tall as
      `v / D` of the column when some stack's relative value exceeds 1, so
      the stack totalling `D` fills the column. When no relative value
      exceeds 1, as under the sum divisor, the stack falls short by the
      factor of the largest relative value. */
  lemma {:induction false} DomainMaxStackShare<T, G>(points: seq<ColumnPoint<T>>, key: ColumnPoint<T> -> G, g: G,
                                  divisor: real, domainMax: real, columnHeight: real)
    requires divisor > 0.0 && domainMax > 0.0 && ScaledPoints(points, divisor)
    ensures CorrectedShare(SumOf(Members(points, key, g), PointRelativeValue), RunningMax(points, key, PointRelativeValue),
                           SumOf(Members(points, key, g), PointValue), RunningMax(points, key, PointValue),
                           domainMax, columnHeight)
  {
    StackSumScales(points, key, g, divisor);
    RunningMaxScales(points, key, divisor);
    ScaledShare(SumOf(Members(points, key, g), PointRelativeValue), RunningMax(points, key, PointRelativeValue),
                SumOf(Members(points, key, g), PointValue), RunningMax(points, key, PointValue),
                divisor, domainMax, columnHeight);
  }

  /** The height of a stack with relative value `r` and value `value`, when
      the largest relative value is `maxRelativeValue` and the largest stack
      value `maxValue`: `value / D` of the column when `maxRelativeValue`
      exceeds 1 (the whole column for the stack totalling `D`), and that
      share times `maxRelativeValue` otherwise. */
  ghost predicate CorrectedShare(r: real, maxRelativeValue: real, value: real, maxValue: real,
                                 domainMax: real, columnHeight: real)
    requires domainMax > 0.0
  {
    var h := StackHeight(r, DomainCorrection(maxValue, domainMax), maxRelativeValue, columnHeight);
    && (maxRelativeValue > 1.0 ==> h == columnHeight * (value / domainMax))
    && (maxRelativeValue <= 1.0 ==> h == columnHeight * (value / domainMax) * maxRelativeValue)
    && (maxRelativeValue > 1.0 && value == domainMax ==> h == columnHeight)
  }

  /** Stack and maximum scaled by one divisor give the corrected share. */
  lemma ScaledShare(r: real, maxRelativeValue: real, value: real, maxValue: real,
                    d: real, domainMax: real, columnHeight: real)
    requires domainMax > 0.0 && ScaledValue(r, value, d) && ScaledValue(maxRelativeValue, maxValue, d)
    ensures CorrectedShare(r, maxRelativeValue, value, maxValue, domainMax, columnHeight)
  {
    var share := value / domainMax;
    assert r * (maxValue / domainMax) == share * maxRelativeValue;
    if maxRelativeValue > 1.0 {
      assert share * maxRelativeValue / maxRelativeValue == share;
    }
  }

  /** Two stacks of 10 and 30 under the sum divisor 40 have relative values
      0.25 and 0.75. With domain maximum 30 and column height 100, the stack
      totalling 30 is 75 tall, not 100. */
  lemma SumDivisorShortfallExample(values: seq<real>, relativeValues: seq<real>)
    requires values == [10.0, 30.0] && relativeValues == [0.25, 0.75]
    ensures RunningMax(values, Self, Self) == 30.0
    ensures RunningMax(relativeValues, Self, Self) == 0.75
    ensures StackHeight(SumOf(Members(relativeValues, Self, 0.75), Self),
                        DomainCorrection(RunningMax(values, Self, Self), 30.0),
                        RunningMax(relativeValues, Self, Self), 100.0) == 75.0
  {
    TwoStacks(values, 10.0, 30.0);
    TwoStacks(relativeValues, 0.25, 0.75);
  }

  /** Two positive one-point stacks, the second larger: it is its own stack
      and its value is the running maximum. */
  lemma TwoStacks(s: seq<real>, a: real, b: real)
    requires s == [a, b] && 0.0 < a < b
    ensures Members(s, Self, b) == [b] && SumOf([b], Self) == b
    ensures RunningMax(s, Self, Self) == b
  {
    assert s[..1] == [a] && s[..1][..0] == [] && [b][..0] == [];
    assert Members([a], Self, b) == [];
    assert Members([a], Self, a) == [a];
    assert SumOf([a], Self) == a;
    assert RunningMax([a], Self, Self) == a;
    assert RunningMax(s[..1], Self, Self) == a;
  }

  /** One stack of relative values 1, 1 and -1.5, as values 10, 10 and -15
      under the max divisor give: its partial sums peak at 2 but it ends at
      0.5, so no stack reaches the running maximum and the only stack is a
      quarter of the column. */
  lemma MixedSignShortfallExample(relativeValues: seq<real>)
    requires relativeValues == [1.0, 1.0, -1.5]
    ensures RunningMax(relativeValues, Zeroth, Self) == 2.0
    ensures Keys(relativeValues, Zeroth) == [0]
    ensures SumOf(Members(relativeValues, Zeroth, 0), Self) == 0.5
    ensures StackHeight(0.5, DomainCorrection(0.0, 0.0), RunningMax(relativeValues, Zeroth, Self), 100.0) == 25.0
  {
    var two := relativeValues[..2];
    assert two == [1.0, 1.0] && two[..1] == [1.0] && two[..1][..0] == [];
    assert relativeValues[..2] == two;
    assert Keys([1.0], Zeroth) == [0] && Keys(two, Zeroth) == [0];
    assert Members([1.0], Zeroth, 0) == [1.0];
    assert Members(two, Zeroth, 0) == two;
    assert Members(relativeValues, Zeroth, 0) == relativeValues;
    assert SumOf([1.0], Self) == 1.0;
    assert SumOf(two, Self) == 2.0;
    assert RunningMax([1.0], Zeroth, Self) == 1.0;
    assert RunningMax(two, Zeroth, Self) == 2.0;
  }

  /** The key that puts every value in one stack. */
  function Zeroth(x: real): int { 0 }

  lemma ShareAtMostOne(r: real, max: real, height: real)
    requires max > 1.0 && r <= max && height >= 0.0
    ensures StackHeight(r, 1.0, max, height) <= height
    ensures r == max ==> StackHeight(r, 1.0, max, height) == height
  {
    assert r / max <= 1.0 by {
      assert r / max * max == r;
    }
    assert r * 1.0 == r;
  }
}
