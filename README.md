# Column-chart geometry of dojo/dataviz, in Dafny

This project models the per-batch geometry pipeline of the dojo/dataviz
column charts. Each stage is proved against a specification of its own:

- **Divisors** (`divisors.dfy`): the `sum` and `max` divisor operators, as loops over one batch.
- **Normalizer** (`normalizer.dfy`): `relativeValues`, `sumAndWeigh` and `columnar`. They pair every input with its value divided by the batch's divisor.
- **Sorting** (`sorting.dfy`):
  - `defaultCompare` and the identity selector;
  - the two revisions of the `sort` operator, each a class holding the comparables cache;
  - in-place insertion sort on arrays.
- **ColumnPlot** (`columnplot.dfy`): `normalizeDomain` and the column plot's `plot()`. The latter covers:
  - the scan for the extremes;
  - placement of the zero line and the sign-dependent corrections;
  - the `map` that lays out one rectangle per column and raises the sign flags.
- **Buckets** (`buckets.dfy`): bucketing by key in first-seen order. This is the insertion-ordered `Map` both chart transforms use.
- **Grouped** (`grouped.dfy`): the grouped chart's `after` advice on `plot`. It buckets column points into groups and re-flows each group's members side by side.
- **Stacked** (`stacked.dfy`): the stacked chart's `after` advice on `plot`. Each stack takes one column slot and piles its members bottom-up, with the stack spacing taken out.
- **AxisNodes** (`axisnodes.dfy`): `createAxisTick`, `createAxisGridLine` and `createAxisLabel` as datatype values, plus the pushes that every marking loop performs.
- **Axes** (`axes.dfy`): the hardcoded, input-based and range-based marking generators. This includes how the range's ends are rounded and its extra space.
- **AxesMixin** (`axesmixin.dfy`): `createAxis` and `createAxes`, covering the zeroth nodes, dispatch on the axis's kind, and the extra space fed back to the chart.

A few modelling conventions apply throughout:

- Numbers are `real`.
- Inputs are a generic `T`; selectors and comparisons are function parameters.
- Points, records and plots are datatypes. The source shallow-copies every point before it moves it, so value semantics is exact, and "the input is not changed" holds by construction.
- The `Values` flag enum is a `bv2`.
- An insertion-ordered `Map` is modelled as the sequence of its keys in first-seen order plus a `map` from key to record.

The loops of the source are methods over `seq` or `array`. Each is proved equal to a specification function, and the properties the source promises are lemmas about those functions.

The two column-chart transforms belong to revisions that do not line up with `plot()`:

- The grouped advice takes an array of column points, and the stacked advice takes a plot. Each is modelled as it is written.
- The stacked advice reads a `domainMax` that the column plot does not provide, so it is a field of the `Chart` parameter.

## Model

| member | source | states |
|---|---|---|
| Divisors.Sum | src/data/sum.ts:5-13 | the loop's result is the left fold of the selected values in batch order, and 0 for an empty batch (the older src/computation/sum.ts is the same loop) |
| Divisors.Max | src/data/max.ts:5-17 | the running maximum equals its fold, is never negative and bounds every selected value |
| Divisors.SumAppend | src/data/sum.ts:10 | appending one input adds exactly its value to the sum |
| Divisors.SumConcat | src/data/sum.ts:8-11 | the sum of a concatenation is the sum of the sums |
| Divisors.SumBoundsNonNegative | src/data/sum.ts:10 | with non-negative values the sum is non-negative and at least every value |
| Divisors.SumPermutation | src/data/sum.ts:8-11 | two batches with the same multiset of inputs have the same sum |
| Divisors.MaxIsUpperBound | src/data/max.ts:12-14 | the maximum is at least 0 and at least every value |
| Divisors.MaxIsAttained | src/data/max.ts:7-14 | the maximum is 0 or the value of some input of the batch |
| Divisors.MaxOfNegatives | src/data/max.ts:11-14 | a batch of negative values only has maximum 0 |
| Normalizer.RelativeValues | src/data/relative-values.ts:13-20 | one pair per input, in order: pair i holds input i and its value over the divisor, which has the value's sign for a positive divisor (the older src/computation/relative-values.ts is the same loop) |
| Normalizer.Columnar | src/data/columnar.ts:20-28 | one column per input, in order, holding the input, its value, and its relative value under the divisor the strategy computes, so that relative value times divisor is the value (src/structure/columnar.ts is the same mapping) |
| Normalizer.SumAndWeigh | src/computation/sum-and-weigh.ts:8-22 | pair i holds input i and its value over the batch's sum, and the weights add up to 1 |
| Normalizer.RelativeOfSum | src/computation/relative-values.ts:11-18 | the relative values add up to the batch's sum over the divisor |
| Normalizer.RelativeValuesSumToOne | src/data/relative-values.ts:17 | with the batch's sum as divisor the relative values add up to 1 |
| Normalizer.RelativeValuesOfMax | src/data/relative-values.ts:17 | with the positive maximum as divisor no relative value exceeds 1 and some input's is exactly 1 |
| Normalizer.WeightsInUnitInterval | src/computation/sum-and-weigh.ts:21 | with non-negative values and a positive sum every weight lies in [0, 1] |
| Sorting.DefaultCompareSpec | src/data/sort.ts:7-11 | defaultCompare is -1, 0 or 1; it is -1 or 1 exactly when the strings order that way and 0 exactly when they are equal; it is antisymmetric |
| Sorting.DefaultCompareTransitive | src/computation/sort.ts:4-8 | defaultCompare is transitive as a preorder |
| Sorting.DefaultCompareConsistent | src/data/sort.ts:7-11 | of any two values at least one is at or below the other under defaultCompare |
| Sorting.StringLessIrreflexive | src/data/sort.ts:10 | no string orders before itself |
| Sorting.StringLessTrichotomy | src/data/sort.ts:10 | two strings are equal or one orders before the other, never both ways |
| Sorting.StringLessTransitive | src/data/sort.ts:10 | string order is transitive |
| Sorting.InsertPermutation | src/data/sort.ts:32-34 | inserting an element adds exactly that element |
| Sorting.SortByPermutation | src/data/sort.ts:32-34 | the sorted batch is a permutation of the batch |
| Sorting.InsertSorted | src/data/sort.ts:32-34 | inserting into an ordered sequence keeps it ordered under a consistent comparison |
| Sorting.SortBySorted | src/computation/sort.ts:23-31 | with a consistent comparison every adjacent pair of the result is ordered by the comparables |
| Sorting.SortByKeyCongruence | src/data/sort.ts:27-33 | the result depends only on the comparables of the batch's own inputs, so a cached comparable gives the order a fresh one would |
| Sorting.InsertKeyCongruence | src/computation/sort.ts:24-30 | an insertion depends only on the comparables of the elements involved |
| Sorting.DefaultSortOrdersByString | src/data/sort.ts:13-20 | with the default identity selector and defaultCompare the result is a permutation ordered by string order |
| Sorting.InsertLast | src/data/sort.ts:32-34 | moving the element at i left through the sorted prefix leaves the prefix as the insertion of that element and the rest of the array untouched |
| Sorting.SortArray | src/data/sort.ts:32-34 | sorting the array in place leaves it equal to the insertion sort of its old contents |
| Sorting.Sorter.constructor | src/data/sort.ts:17-22 | a new operator holds its selector and comparison and an empty cache |
| Sorting.Sorter.Cache | src/data/sort.ts:27-29 | the selector is called for an input only if the cache lacks it, and the cache then holds the input's comparable |
| Sorting.Sorter.SortBatch | src/data/sort.ts:24-36 | the result is a fresh array holding the batch sorted by its comparables, a permutation of the batch; the cache gains exactly the batch's inputs and the selector is called at most once per distinct input, across batches |
| Sorting.Sorter.CompareInputs | src/computation/sort.ts:23-31 | the comparator fills the cache for both inputs and returns the comparison of their comparables |
| Sorting.Sorter.InsertLast | src/computation/sort.ts:23-31 | one insertion step of the comparator-driven sort, comparing through the cache, which grows only by the array's elements |
| Sorting.Sorter.SortCopy | src/computation/sort.ts:21-33 | the argument array is unchanged, the result is a fresh sorted copy that is a permutation of it, and the selector is called at most once per input |
| ColumnPlot.NormalizeDomain | src/render/mixins/createColumnPlotMixin.ts:19-21 | a pair is kept; a number d becomes [min(d, 0), max(d, 0)], which is [0, 0] exactly when d is 0 |
| ColumnPlot.ExtremesBounds | src/render/mixins/createColumnPlotMixin.ts:239-257 | the scan's four extremes are min(0, lowest) and max(0, highest) of the relative values and of the values: they bound every column and are 0 or attained |
| ColumnPlot.RelExtremesSigns | src/render/mixins/createColumnPlotMixin.ts:243-249 | the signs of the relative-value extremes follow the signs of the columns |
| ColumnPlot.PositiveHeightWithoutDomain | src/render/mixins/createColumnPlotMixin.ts:299-309 | without a domain: no negative column keeps the full height above the zero line, only non-positive columns put it at the top, and both signs split the height as P/(P - N) |
| ColumnPlot.PositiveHeightWithDomain | src/render/mixins/createColumnPlotMixin.ts:278-298 | a domain around 0 splits the height as max/(max - min), a domain ending at 0 leaves no height above the zero line, and for a valid domain the zero line lies within the column height |
| ColumnPlot.PointGeometry | src/render/mixins/createColumnPlotMixin.ts:317-338 | each point shows its column at the column width with half the spacing as offset, spans slot i; a non-negative column ends on the zero line, a negative one starts one below it |
| ColumnPlot.PointsAbut | src/render/mixins/createColumnPlotMixin.ts:325-326 | each point ends where the next one starts |
| ColumnPlot.FlagsOfSpec | src/render/mixins/createColumnPlotMixin.ts:314-319 | the Negative flag is raised exactly when some column is negative, and the Positive flag exactly when some column is not |
| ColumnPlot.ScanExtremes | src/render/mixins/createColumnPlotMixin.ts:239-257 | the scan loop computes the extremes of the series |
| ColumnPlot.SettleLayout | src/render/mixins/createColumnPlotMixin.ts:259-309 | the branches settle the zero line and the corrections, and for a valid domain the zero line lies within the column height |
| ColumnPlot.MapColumns | src/render/mixins/createColumnPlotMixin.ts:314-338 | one point per column in order, the sign flags of the series, and a final x2 of n slots |
| ColumnPlot.PlotColumns | src/render/mixins/createColumnPlotMixin.ts:235-354 | plot() returns one point per column, abutting; width is n slots; the flags say which signs occur; height is one more than the column height exactly when a column is negative; horizontal values are Positive and the zero point is at the zero line |
| ColumnPlot.ExtremeColumnsFillHeight | src/render/mixins/createColumnPlotMixin.ts:266-271 | without a domain and with both signs, the most positive column fills the height above the zero line and the most negative one the height below |
| ColumnPlot.DomainShare | src/render/mixins/createColumnPlotMixin.ts:268-291 | with a domain around 0 and columns of both signs, every column is as tall as its value's share of the domain end on its side, so a column at the domain end fills its side |
| ColumnPlot.ZeroBasedDomainShare | src/render/mixins/createColumnPlotMixin.ts:268-295 | with a domain [0, max] and columns of both signs, the zero line is at the column height, a non-negative column is its value's share of the maximum, and a negative one has no height |
| ColumnPlot.PositiveOnlyDomainShare | src/render/mixins/createColumnPlotMixin.ts:285-295 | with no negative columns and a positive domain maximum, a column's height is its share of the maximum times the largest relative value, so the share itself exactly when that value is 1 |
| ColumnPlot.NegativeOnlyDomainShare | src/render/mixins/createColumnPlotMixin.ts:279-290 | with no positive columns and a negative domain minimum, a column's height is its share of the minimum times the magnitude of the lowest relative value |
| ColumnPlot.DomainShortfallExample | src/render/mixins/createColumnPlotMixin.ts:273-295 | values 10 and 30 under the sum divisor at height 100: domain 30 draws the column at 30 as 75 tall, and domain [-30, 30] draws it 37.5 tall in a positive height of 50 |
| ColumnPlot.ValueExtremesScale | src/render/mixins/createColumnPlotMixin.ts:239-257 | for columns normalised by one positive divisor, the value extremes are the relative-value extremes times it |
| ColumnPlot.WorkedExample | src/render/mixins/createColumnPlotMixin.ts:300-308 | values -5, 5 and 10 under the max divisor at height 150 put the zero line at 100 |
| Buckets.KeysDistinct | src/render/createGroupedColumnChart.ts:126-129 | every key is bucketed once |
| Buckets.KeysCover | src/render/createGroupedColumnChart.ts:126-129 | a key is bucketed exactly when some point has it |
| Buckets.KeysFirstSeen | src/render/createGroupedColumnChart.ts:124-129 | later points never reorder the keys of earlier ones: keys stay in first-seen order |
| Buckets.MembersOfKey | src/render/createStackedColumnChart.ts:135-145 | a bucket holds exactly the points with its key |
| Buckets.MembersNonEmpty | src/render/createStackedColumnChart.ts:136-138 | a bucket is non-empty exactly when its key is bucketed |
| Buckets.MembersPartition | src/render/createGroupedColumnChart.ts:134-136 | the buckets together hold every point exactly once |
| Grouped.Bucket | src/render/createGroupedColumnChart.ts:119-139 | the loop yields the keys in first-seen order and, per key, the record of its members |
| Grouped.RecordStep | src/render/createGroupedColumnChart.ts:134-138 | a point joins its group's record: its copy and column are appended, the value is the larger, the y1 the smaller |
| Grouped.ReflowMembers | src/render/createGroupedColumnChart.ts:148-155 | the prev-cursor loop re-flows the members from the start position |
| Grouped.Layout | src/render/createGroupedColumnChart.ts:141-172 | the offset loop lays out every group in key order |
| Grouped.GroupColumns | src/render/createGroupedColumnChart.ts:108-173 | the transform is the layout of the buckets in first-seen order |
| Grouped.ReflowedShape | src/render/createGroupedColumnChart.ts:148-155 | re-flowing keeps the members' order, number, widths and everything but x; the first starts at the start, each at its predecessor's end, and the cluster ends after the sum of the widths |
| Grouped.GroupsAbut | src/render/createGroupedColumnChart.ts:141-158 | the first group starts at 0 and each group starts where the previous one ends |
| Grouped.GroupExtent | src/render/createGroupedColumnChart.ts:146-157 | the first member starts half a group spacing less half a column spacing after the group, and the group ends half a group spacing after its last member |
| Grouped.LowestY1Bounds | src/render/createGroupedColumnChart.ts:128-138 | a group's y1 is at most the column height and every member's y1, and is one of them |
| Grouped.GroupedPlot | src/render/createGroupedColumnChart.ts:121-171 | group k has key k, its members' columns in order, the largest member value or 0, the lowest member y1, y2 at the column height, and at least one member |
| Grouped.GroupMembers | src/render/createGroupedColumnChart.ts:131-155 | group k's points are copies of its key's points in order that differ only in x, placed from the group's start and abutting |
| Grouped.GroupValueBounds | src/render/createGroupedColumnChart.ts:128-137 | a group's value is at least 0 and every member's value, and is 0 or some member's |
| Stacked.Bucket | src/render/createStackedColumnChart.ts:128-155 | the loop yields the keys in first-seen order, each key's record, and the running maxima of the partial stack sums of value and relative value |
| Stacked.RecordStep | src/render/createStackedColumnChart.ts:143-147 | a point joins its stack's record: its copy and column are appended and its relative value and value are added |
| Stacked.LayerMembers | src/render/createStackedColumnChart.ts:186-202 | the prev loop piles the members up and takes the spacing out of every member but the last |
| Stacked.Layout | src/render/createStackedColumnChart.ts:164-216 | the chartWidth loop lays out every stack in key order |
| Stacked.StackColumns | src/render/createStackedColumnChart.ts:111-223 | the transform keeps the plot's height and width and lays out the buckets in first-seen order, with the domain correction and the largest relative value the loop found |
| Stacked.StacksInSlots | src/render/createStackedColumnChart.ts:164-184 | stack k occupies slot k, from k column widths plus spacings on, one of them wide |
| Stacked.LayeredPlacement | src/render/createStackedColumnChart.ts:186-195 | every piled member keeps its datum, takes the stack's x-range, and is its share of the stack height tall |
| Stacked.LayeredChain | src/render/createStackedColumnChart.ts:186-195 | the first member stands on the column height and each later one on the previous member's unspaced top |
| Stacked.LayeredTop | src/render/createStackedColumnChart.ts:186-195 | the pile's top is the column height less the members' share of the stack height |
| Stacked.StackMembers | src/render/createStackedColumnChart.ts:169-215 | stack datum holds the key, the columns and the summed value; its y1 is the column height less the stack height; members stand in its slot, each spaced member sits a stack spacing above the next, and the top member ends at the stack's y1 |
| Stacked.RunningMaxBounds | src/render/createStackedColumnChart.ts:149-154 | the running maximum is at least 0 and at least every stack's total |
| Stacked.RunningMaxAttained | src/render/createStackedColumnChart.ts:149-154 | with non-negative values the running maximum is 0 or the total of some stack |
| Stacked.TallestStackFillsColumn | src/render/createStackedColumnChart.ts:149-177 | without a positive domain maximum and with non-negative relative values, when some stack's relative value exceeds 1 no stack is taller than the column, a stack with the largest relative value fills it, and some stack has that value |
| Stacked.SumScales | src/render/createStackedColumnChart.ts:146-147 | when every point's value is its relative value times one divisor, the summed values are the summed relative values times it |
| Stacked.StackSumScales | src/render/createStackedColumnChart.ts:130-147 | every stack's total value is its total relative value times the divisor |
| Stacked.RunningMaxScales | src/render/createStackedColumnChart.ts:149-154 | with one positive divisor, the running maximum of stack values is the running maximum of stack relative values times it |
| Stacked.DomainMaxStackShare | src/render/createStackedColumnChart.ts:157-177 | with a positive domain maximum D and one positive divisor: when the largest relative value exceeds 1, a stack of total v is v / D of the column tall, so the stack totalling D fills it; otherwise it is v / D of the column times the largest relative value |
| Stacked.ScaledShare | src/render/createStackedColumnChart.ts:157-177 | the same heights for one stack and maximum whose values are their relative values times one divisor |
| Stacked.SumDivisorShortfallExample | src/render/createStackedColumnChart.ts:157-177 | stacks of 10 and 30 under the sum divisor 40, domain maximum 30 and column height 100: the stack totalling 30 is 75 tall |
| Stacked.MixedSignShortfallExample | src/render/createStackedColumnChart.ts:149-177 | one stack of relative values 1, 1 and -1.5: the running maximum is 2, the stack ends at 0.5, and it is a quarter of a column of height 100 |
| Stacked.ShareAtMostOne | src/render/createStackedColumnChart.ts:173-177 | a relative value rescaled by a largest value above 1 gives a height within the column height |
| AxisNodes.PushMarkNodes | src/render/mixins/createAxesMixin.ts:686-699 | the pushes of one marking append its tick, grid line and label |
| AxisNodes.AnchorWithin | src/render/mixins/createAxesMixin.ts:604-626 | every anchor lies within the extent, an omitted end makes every anchor the position itself, and the middle anchor is the midpoint |
| AxisNodes.TickGeometry | src/render/mixins/createAxesMixin.ts:590-643 | a tick starts at the anchored position plus offset on the chart's edge and extends its length outwards: +y bottom, -y top, -x left, +x right |
| AxisNodes.GridLineGeometry | src/render/mixins/createAxesMixin.ts:492-506 | a grid line runs its length into the chart; on the left its end is at x = length, which is length from an origin at 0 |
| AxisNodes.LabelGeometry | src/render/mixins/createAxesMixin.ts:518-578 | a configured text anchor, baseline and rotation win over the side's defaults; the label sits at the anchored position plus offset, pushed out by the tick length or 0 |
| AxisNodes.MarkNodesIndex | src/render/mixins/createAxesMixin.ts:686-699 | a marking's nodes all carry its index and side |
| AxisNodes.MarkNodesSpec | src/render/mixins/createAxesMixin.ts:730-748 | a marking gets a tick exactly when ticks are configured, a grid line exactly when the length is non-zero, and a label exactly when labels are on and its text is not empty |
| AxisNodes.NodesIndices | src/render/mixins/createAxesMixin.ts:722-749 | marking k gets index k + 1, so indices run from 1 to the number of markings |
| AxisNodes.NodesOrdered | src/render/mixins/createAxesMixin.ts:667-703 | indices never decrease along an axis |
| AxisNodes.NodesEnabled | src/render/mixins/createAxesMixin.ts:686-699 | every node is one the configuration enables |
| AxisNodes.NodesCount | src/render/mixins/createAxesMixin.ts:730-741 | without labels every marking gets the same number of nodes |
| Axes.CreateHardcodedAxis | src/render/mixins/createAxesMixin.ts:654-706 | the loop's nodes are those of the markings of the accepted hardcoded values |
| Axes.HardcodedMarksStep | src/render/mixins/createAxesMixin.ts:679-702 | one more value adds its marking exactly when it lies in [0, 1], labelled back to the last drawn position |
| Axes.AcceptedSound | src/render/mixins/createAxesMixin.ts:679-681 | only given markings within [0, 1] are drawn |
| Axes.AcceptedComplete | src/render/mixins/createAxesMixin.ts:679-681 | every marking within [0, 1] is drawn |
| Axes.AcceptedAll | src/render/mixins/createAxesMixin.ts:679-681 | when all markings lie in [0, 1] all are drawn in order |
| Axes.HardcodedMarksSpec | src/render/mixins/createAxesMixin.ts:667-703 | the k-th drawn marking, with index k + 1, sits at the k-th accepted value's position with its text; skipped values use no index |
| Axes.HardcodedMarksChain | src/render/mixins/createAxesMixin.ts:668-702 | each label spans from its position back to the previous drawn one, the first back to the axis's start, and nothing is negative |
| Axes.HardcodedPositionWithin | src/render/mixins/createAxesMixin.ts:683-684 | a value in [0, 1] lies on the chart, 0 at the axis's start and 1 at its end |
| Axes.CreateInputBasedAxis | src/render/mixins/createAxesMixin.ts:708-752 | the loop's nodes are those of one marking per point, in order, with the grid line at x2 or y1 |
| Axes.InputMarkSign | src/render/mixins/createAxesMixin.ts:728 | on a vertical axis a laid-out column's marking is negative exactly when the column is |
| Axes.ScanValueBounds | src/render/mixins/createAxesMixin.ts:779-791 | the scan computes the value bounds from the domain's |
| Axes.ValueBoundsSpec | src/render/mixins/createAxesMixin.ts:779-791 | the scan widens the initial bounds to every value, and each bound ends as the initial one or a value |
| Axes.SettleRange | src/render/mixins/createAxesMixin.ts:779-820 | the range's start, end, delta, size and extra space as the axis settles them |
| Axes.SettleEnds | src/render/mixins/createAxesMixin.ts:793-801 | the start and end the axis settles on |
| Axes.SettleChartSize | src/render/mixins/createAxesMixin.ts:805-809 | the chart size along the axis, one less when the axis has negative values |
| Axes.RangeEndRounded | src/render/mixins/createAxesMixin.ts:794-798 | the end is the configured one unless it leaves a positive remainder; then it is the most positive value rounded up to a multiple of the step |
| Axes.RangeEndExample | src/render/mixins/createAxesMixin.ts:796-798 | a configured end of 25 with step 10 over data reaching 5 ends at 10 |
| Axes.RangeStartRounded | src/render/mixins/createAxesMixin.ts:799-801 | a start with a positive remainder becomes the most negative value rounded down to a multiple of the step |
| Axes.NegativeStartKept | src/render/mixins/createAxesMixin.ts:799-801 | a start at or below 0 is never rounded |
| Axes.RangeStartExample | src/render/mixins/createAxesMixin.ts:793-801 | with no configured start, steps of 10 over data reaching -15 start the axis at -15 |
| Axes.RoundUpBounds | src/render/mixins/createAxesMixin.ts:797 | rounding up gives the least multiple of the step at or above the value |
| Axes.RoundDownBounds | src/render/mixins/createAxesMixin.ts:800 | rounding down gives the greatest multiple of the step at or below the value |
| Axes.RangeExtraSpace | src/render/mixins/createAxesMixin.ts:809-820 | the extra space is max(0, size - chart size), and nothing for an axis that is not stretched |
| Axes.RangeStepMark | src/render/mixins/createAxesMixin.ts:825-844 | one step's marking, measured from the zero line, labelled between it and the previous one |
| Axes.CreateRangeBasedAxis | src/render/mixins/createAxesMixin.ts:754-850 | the nodes are those of one marking per step from start to end, and the extra space is the settled range's |
| Axes.DrawRangeSteps | src/render/mixins/createAxesMixin.ts:822-848 | the step loop's nodes are those of the markings of the steps |
| Axes.StepsSpec | src/render/mixins/createAxesMixin.ts:824 | the steps run from the start by the step size, stay within [start, end], exist exactly when start <= end, and stop at the last one not beyond the end |
| Axes.StepCountSpec | src/render/mixins/createAxesMixin.ts:824 | a step is taken exactly when it is at or below the end |
| Axes.RangeMarksSpec | src/render/mixins/createAxesMixin.ts:825-844 | one marking per step at the step's position, with its text, negative exactly when the step is |
| Axes.RangeMarksChain | src/render/mixins/createAxesMixin.ts:841-847 | each label spans between its step and the previous one, forwards for a negative step and backwards otherwise |
| Axes.ZeroStepAtZeroLine | src/render/mixins/createAxesMixin.ts:826-827 | step 0 lies on the zero line |
| Axes.EvenSpacing | src/render/mixins/createAxesMixin.ts:826-827 | consecutive steps are always the same distance apart |
| AxesMixin.CreateAxis | src/render/mixins/createAxesMixin.ts:422-490 | the axis's nodes and extra space are its zeroth nodes, then its kind's markings, and the larger of the markings' extra space and the grid lines' overshoot |
| AxesMixin.CreateLabelsConfig | src/render/mixins/createAxesMixin.ts:432-435 | labels are off only when false, and true or unset mean the defaults |
| AxesMixin.CreateGridLineLength | src/render/mixins/createAxesMixin.ts:441-452 | no grid lines give 0, a configured length wins, else the chart's height or width across the axis |
| AxesMixin.CreateZeroth | src/render/mixins/createAxesMixin.ts:454-470 | the zeroth tick, then the zeroth grid line, as configured |
| AxesMixin.CreateMarkings | src/render/mixins/createAxesMixin.ts:472-482 | dispatch to the hardcoded, input-based or range-based markings |
| AxesMixin.AxisExtraSpace | src/render/mixins/createAxesMixin.ts:484-489 | the extra space is at least 0, the markings' need and the grid lines' overshoot, and 0 when the grid lines fit and the axis is not range-based |
| AxesMixin.AxisNodesOrder | src/render/mixins/createAxesMixin.ts:454-482 | the zeroth nodes come first with index 0, then the markings' nodes numbered from 1, indices never decrease, and all are on the axis's side |
| AxesMixin.ZerothNodesIndex | src/render/mixins/createAxesMixin.ts:454-470 | there is a zeroth tick when asked for and a zeroth grid line when asked for, tick first, all with index 0 |
| AxesMixin.AxisFeaturesOff | src/render/mixins/createAxesMixin.ts:432-452 | no label when labels are false or the text is empty, no tick without ticks, no grid line when grid lines are off |
| AxesMixin.DispatchPrecedence | src/render/mixins/createAxesMixin.ts:472-482 | hardcoded markings win over inputs and range, and inputs win over range |
| AxesMixin.CreateAxes | src/render/mixins/createAxesMixin.ts:390-420 | the loop over the four sides computes the axes of the configured sides |
| AxesMixin.AxesSpec | src/render/mixins/createAxesMixin.ts:390-420 | a side has nodes exactly when it is configured, and they are its axis's; the extra height is the largest of 0 and the left and right extras, and the extra width that of 0 and the bottom and top extras |
| AxesMixin.WidenLargest | src/render/mixins/createAxesMixin.ts:402-417 | widening from 0 by two optional axes gives the largest of 0 and their extras |

## Left out

- Streams: the rxjs plumbing (`map`, `share`, `withLatestFrom`, the subscription swapping in the column plot) is not modelled. Every operator is its body on one batch, and `columnar` takes the divisor strategy's result for the same batch.
- Lifecycle: the compose glue is not modelled. That covers the WeakMap-backed getters and setters, `initialize`, `own`, `setState` and `invalidate`, and the selectors mixed in by default.
- Rendering: maquette `h()` calls, VNode keys, strokes and the `renderPlot`/`renderPlotPoints` advice are not modelled. Nodes are datatype values holding their side, index and coordinates.
- Floating point: IEEE arithmetic, NaN, the infinities and `|| 0` on NaN or `undefined` are not modelled. Numbers are reals, so `v || 0` is `v` and a step that is added `k` times is exactly `k` steps.
- Normalizer.RelativeValues: requires a non-zero divisor. The source divides without a guard and would produce NaN or an infinity.
- Normalizer.Columnar: requires a non-zero divisor. The source divides without a guard and would produce NaN or an infinity.
- Normalizer.SumAndWeigh: requires a non-zero sum. The source divides without a guard and would produce NaN or an infinity.
- Stacked.StackColumns: requires every stack's summed relative value to be non-zero, because each member's share divides by it.
- Stacked.StackColumns: does not fill the column with the stack totalling the domain maximum in two cases the source's comment overlooks. Under the sum divisor no relative value exceeds 1, so that stack is only the largest relative value's share of the column (75 of 100 in `Stacked.SumDivisorShortfallExample`). With mixed signs the running maximum can be a partial sum no stack ends at, so no stack fills the column (a quarter of it in `Stacked.MixedSignShortfallExample`). The model keeps the source's arithmetic, and `Stacked.DomainMaxStackShare` states exactly when the promise holds.
- Axes.CreateRangeBasedAxis: requires a positive step size, without which the source's loop never ends, and a non-empty range (end different from start, and data bounds that differ when the axis is stretched). The source divides by both.
- AxesMixin.CreateAxis: inherits the range-based axis's requirements for range-based axes only.
- Sorting: `Array.prototype.sort` is modelled as insertion sort, because the engine's algorithm is not part of the source. Any comparison is accepted, and ordering is proved for consistent ones.
- Sorting: `String(x)` is a `toString` parameter, and string order is lexicographic order on characters.
- Sorting.StringLess: orders characters by Unicode scalar value, while JavaScript's `<` on strings compares UTF-16 code units. A character above U+FFFF and one in U+E000 to U+FFFF therefore order oppositely: "\u{1F600}" is above "\u{FF61}" here but below it in JavaScript.
- Sorting.Sorter: the source's cache is a WeakMap keyed by object identity, so an input mutated after its first batch keeps its stale comparable. The model's inputs are values and its selector a pure function, so it does not capture identity, aliasing or that staleness.
- ColumnPlot.PositiveOnlyDomainShare: under a domain, the promise that a column at the domain end gets the full available height holds for one-signed columns only when the extreme relative value is 1 (the maximum divisor). The code multiplies by the domain factor without dividing by `mostPositiveRelValue` (or `-mostNegativeRelValue`), which it does only when both signs occur. Under other divisors the column falls short; `ColumnPlot.DomainShortfallExample` gives 75 instead of 100. The model follows the code.
- Axes: `String(step)` for range labels is a `format` parameter.
- Stacked: `domainMax` is a field of the `Chart` parameter, because the column plot this revision sits on does not define it.
- Axes: the axes are specialised to column points, which are the points the column plot lays out.
- Axes: the range-based axis rounds the most positive value up, not the configured `end`, contrary to the rounding the range's own documentation describes. The model follows the code; `Axes.RangeEndExample` shows the difference.
- Axes: the range's documentation says the end defaults to the step multiple at or above the largest datum. The code defaults it to the most positive value, which is the domain maximum whenever a domain is set, whatever the data. The default is rounded only when it leaves a positive remainder. The model follows the code (`Axes.RangeEnd`, `Axes.RangeBoundsOf`).
- Axes: the range's documentation says the start defaults to zero and that a start which is not a step multiple is rounded down. The code defaults the start to the most negative value: the domain minimum when a domain is set, else the lowest datum or 0. JavaScript's `%` takes the dividend's sign, so a start at or below 0, the only kind the documentation admits, is never rounded. The model follows the code; `Axes.NegativeStartKept` proves this and `Axes.RangeStartExample` shows a start of -15 kept at steps of 10.
- The prototype `createColumnChart.ts` with its fixed drawing, the column structure mixin, `accumulate.ts`, the type-only declaration files and the examples are not part of this model.
