/** The grouped column chart's transform of a laid-out column plot: column
    points are bucketed by the group their input belongs to, in first-seen
    order, and every group is re-flowed into a cluster of side-by-side
    columns. The shallow copy the source makes before moving a point is
    implicit here: points are values, so the input sequence is never
    changed. */
module Grouped {
  import opened Common
  import opened Divisors
  import opened Normalizer
  import opened ColumnPlot
  import opened Buckets

  /** What the bucketing loop gathers for one group. */
  datatype Record<T> = Record(columnPoints: seq<ColumnPoint<T>>, columns: seq<Column<T>>, value: real, y1: real)

  datatype GroupedColumn<G, T> = GroupedColumn(input: G, columns: seq<Column<T>>, value: real)

  datatype GroupedColumnPoint<G, T> = GroupedColumnPoint(
    columnPoints: seq<ColumnPoint<T>>, datum: GroupedColumn<G, T>,
    x1: real, x2: real, y1: real, y2: real)

  function PointWidth<T>(point: ColumnPoint<T>): real { point.x2 - point.x1 }

  /** The running `Math.min` of the members' `y1`, starting at the column height. */
  function LowestY1<T>(points: seq<ColumnPoint<T>>, columnHeight: real): real
    decreases |points|
  {
    if |points| == 0 then columnHeight
    else Min(LowestY1(points[..|points| - 1], columnHeight), points[|points| - 1].y1)
  }

  /** The record the loop holds for a group once all its members are seen. */
  function RecordOf<T>(members: seq<ColumnPoint<T>>, columnHeight: real): Record<T>
  {
    Record(members, Data(members), MaxOf(members, PointValue), LowestY1(members, columnHeight))
  }

  /** The records of all groups, keyed by group. */
  function RecordsOf<G, T>(columnPoints: seq<ColumnPoint<T>>, groupSelector: T -> G, columnHeight: real): map<G, Record<T>>
  {
    map g | g in Keys(columnPoints, InputKey(groupSelector)) ::
      RecordOf(Members(columnPoints, InputKey(groupSelector), g), columnHeight)
  }

  // -----------------------------------------------------------------------
  // Re-flowing one group

  function EndOf<T>(points: seq<ColumnPoint<T>>, start: real): real
  {
    if |points| == 0 then start else points[|points| - 1].x2
  }

  /** The members moved so that the first starts at `start`, each keeps its
      width and each starts where the previous one ends. */
  function Reflowed<T>(members: seq<ColumnPoint<T>>, start: real): seq<ColumnPoint<T>>
    decreases |members|
  {
    if |members| == 0 then []
    else
      var moved := Reflowed(members[..|members| - 1], start);
      var point := members[|members| - 1];
      var x1 := EndOf(moved, start);
      moved + [point.(x1 := x1, x2 := x1 + (point.x2 - point.x1))]
  }

  /** One group's point: its members re-flowed from half a group spacing
      (less half a column spacing) after `x1`, and half a group spacing
      after the last member. */
  function GroupOf<G, T>(group: G, record: Record<T>, x1: real,
                         columnHeight: real, columnSpacing: real, groupSpacing: real): GroupedColumnPoint<G, T>
  {
    var start := x1 + groupSpacing / 2.0 - columnSpacing / 2.0;
    var moved := Reflowed(record.columnPoints, start);
    GroupedColumnPoint(moved, GroupedColumn(group, record.columns, record.value),
      x1, EndOf(moved, start) + groupSpacing / 2.0, record.y1, columnHeight)
  }

  function GroupsEnd<G, T>(groups: seq<GroupedColumnPoint<G, T>>): real
  {
    if |groups| == 0 then 0.0 else groups[|groups| - 1].x2
  }

  /** The groups in key order, each starting at the running offset. */
  function GroupsOf<G, T>(order: seq<G>, records: map<G, Record<T>>,
                          columnHeight: real, columnSpacing: real, groupSpacing: real): seq<GroupedColumnPoint<G, T>>
    requires forall g :: g in order ==> g in records
    decreases |order|
  {
    if |order| == 0 then []
    else
      var groups := GroupsOf(order[..|order| - 1], records, columnHeight, columnSpacing, groupSpacing);
      var g := order[|order| - 1];
      groups + [GroupOf(g, records[g], GroupsEnd(groups), columnHeight, columnSpacing, groupSpacing)]
  }

  // -----------------------------------------------------------------------
  // The transform

  /** The bucketing loop: every point is copied into its group's record, and
      the record's value and `y1` are folded with `Math.max`/`Math.min`. */
  method Bucket<G(==), T>(columnPoints: seq<ColumnPoint<T>>, groupSelector: T -> G, columnHeight: real)
    returns (order: seq<G>, groups: map<G, Record<T>>)
    ensures order == Keys(columnPoints, InputKey(groupSelector))
    ensures groups == RecordsOf(columnPoints, groupSelector, columnHeight)
  {
    ghost var key := InputKey(groupSelector);
    order := [];
    groups := map[];
    for i := 0 to |columnPoints|
      invariant order == Keys(columnPoints[..i], key)
      invariant forall g :: g in groups <==> g in order
      invariant forall g :: g in groups ==> groups[g] == RecordOf(Members(columnPoints[..i], key, g), columnHeight)
    {
      var point := columnPoints[i];
      var group := groupSelector(point.datum.input);
      assert columnPoints[..i + 1][..i] == columnPoints[..i];
      assert key(point) == group;
      if group !in groups {
        MembersNonEmpty(columnPoints[..i], key, group);
        groups := groups[group := Record([], [], 0.0, columnHeight)];
        order := order + [group];
      }
      var record := groups[group];
      RecordStep(Members(columnPoints[..i], key, group), point, columnHeight);
      groups := groups[group := Record(record.columnPoints + [point], record.columns + [point.datum],
                                       Common.Max(record.value, point.datum.value), Min(record.y1, point.y1))];
    }
    assert columnPoints[..|columnPoints|] == columnPoints;
  }

  lemma RecordStep<T>(members: seq<ColumnPoint<T>>, point: ColumnPoint<T>, columnHeight: real)
    ensures var r := RecordOf(members, columnHeight);
      RecordOf(members + [point], columnHeight)
        == Record(r.columnPoints + [point], r.columns + [point.datum],
                  Common.Max(r.value, point.datum.value), Min(r.y1, point.y1))
  {
    assert (members + [point])[..|members|] == members;
    assert Data(members + [point]) == Data(members) + [point.datum];
  }

  /** The inner loop of the layout: a `prev` cursor carries the end of the
      last moved member. */
  method ReflowMembers<T>(members: seq<ColumnPoint<T>>, start: real) returns (moved: seq<ColumnPoint<T>>)
    ensures moved == Reflowed(members, start)
  {
    moved := [];
    var prevX2 := start;
    for i := 0 to |members|
      invariant moved == Reflowed(members[..i], start)
      invariant prevX2 == EndOf(moved, start)
    {
      assert members[..i + 1][..i] == members[..i];
      var point := members[i];
      var dx := point.x2 - point.x1;
      point := point.(x1 := prevX2);
      point := point.(x2 := point.x1 + dx);
      moved := moved + [point];
      prevX2 := point.x2;
    }
    assert members[..|members|] == members;
  }

  /** The outer loop of the layout: `offset` runs across the groups. */
  method Layout<G, T>(order: seq<G>, groups: map<G, Record<T>>,
                      columnHeight: real, columnSpacing: real, groupSpacing: real)
    returns (result: seq<GroupedColumnPoint<G, T>>)
    requires forall g :: g in order ==> g in groups
    ensures result == GroupsOf(order, groups, columnHeight, columnSpacing, groupSpacing)
  {
    result := [];
    var offset := 0.0;
    for index := 0 to |order|
      invariant result == GroupsOf(order[..index], groups, columnHeight, columnSpacing, groupSpacing)
      invariant offset == GroupsEnd(result)
    {
      assert order[..index + 1][..index] == order[..index];
      var group := order[index];
      var record := groups[group];
      var x1 := offset;
      var start := x1 + groupSpacing / 2.0 - columnSpacing / 2.0;
      var columnPoints := ReflowMembers(record.columnPoints, start);
      var x2 := EndOf(columnPoints, start) + groupSpacing / 2.0;
      offset := x2;
      result := result + [GroupedColumnPoint(columnPoints, GroupedColumn(group, record.columns, record.value),
                                             x1, x2, record.y1, columnHeight)];
    }
    assert order[..|order|] == order;
  }

  /** The `after` advice on `plot`: bucket, then lay the groups out. */
  method GroupColumns<G(==), T>(columnPoints: seq<ColumnPoint<T>>, groupSelector: T -> G,
                                columnHeight: real, columnSpacing: real, groupSpacing: real)
    returns (result: seq<GroupedColumnPoint<G, T>>)
    ensures forall g :: g in Keys(columnPoints, InputKey(groupSelector)) ==> g in RecordsOf(columnPoints, groupSelector, columnHeight)
    ensures result == GroupsOf(Keys(columnPoints, InputKey(groupSelector)), RecordsOf(columnPoints, groupSelector, columnHeight),
                               columnHeight, columnSpacing, groupSpacing)
  {
    var order, groups := Bucket(columnPoints, groupSelector, columnHeight);
    result := Layout(order, groups, columnHeight, columnSpacing, groupSpacing);
  }

  // -----------------------------------------------------------------------
  // Properties

  /** Re-flowing keeps the members' order, number and widths, changes only
      their x-coordinates, starts at `start` and leaves no gaps; the cluster
      ends after the sum of the widths. */
  lemma {:induction false} ReflowedShape<T>(members: seq<ColumnPoint<T>>, start: real)
    ensures |Reflowed(members, start)| == |members|
    ensures forall k :: 0 <= k < |members| ==>
      Reflowed(members, start)[k].(x1 := members[k].x1, x2 := members[k].x2) == members[k]
    ensures forall k :: 0 <= k < |members| ==> PointWidth(Reflowed(members, start)[k]) == PointWidth(members[k])
    ensures |members| > 0 ==> Reflowed(members, start)[0].x1 == start
    ensures forall k :: 0 < k < |members| ==> Reflowed(members, start)[k].x1 == Reflowed(members, start)[k - 1].x2
    ensures EndOf(Reflowed(members, start), start) == start + SumOf(members, PointWidth)
    decreases |members|
  {
    if |members| > 0 {
      var prefix := members[..|members| - 1];
      ReflowedShape(prefix, start);
      var moved := Reflowed(members, start);
      var earlier := Reflowed(prefix, start);
      assert moved[..|prefix|] == earlier;
      forall k | 0 <= k < |prefix|
        ensures moved[k].(x1 := members[k].x1, x2 := members[k].x2) == members[k]
      {
        assert members[k] == prefix[k] && moved[k] == earlier[k];
      }
      forall k | 0 < k < |members|
        ensures moved[k].x1 == moved[k - 1].x2
      {
        assert moved[k - 1] == earlier[k - 1];
        if k < |prefix| {
          assert moved[k] == earlier[k];
        }
      }
    }
  }

  /** Every group follows the previous one without a gap, the first at 0,
      and is the `GroupOf` its key's record at that offset. */
  lemma {:induction false} GroupsAbut<G, T>(order: seq<G>, records: map<G, Record<T>>,
                                            columnHeight: real, columnSpacing: real, groupSpacing: real)
    requires forall g :: g in order ==> g in records
    ensures |GroupsOf(order, records, columnHeight, columnSpacing, groupSpacing)| == |order|
    ensures forall k :: 0 <= k < |order| ==>
      var groups := GroupsOf(order, records, columnHeight, columnSpacing, groupSpacing);
      groups[k] == GroupOf(order[k], records[order[k]], groups[k].x1, columnHeight, columnSpacing, groupSpacing)
    ensures |order| > 0 ==> GroupsOf(order, records, columnHeight, columnSpacing, groupSpacing)[0].x1 == 0.0
    ensures forall k :: 0 < k < |order| ==>
      var groups := GroupsOf(order, records, columnHeight, columnSpacing, groupSpacing);
      groups[k].x1 == groups[k - 1].x2
    decreases |order|
  {
    if |order| > 0 {
      var prefix := order[..|order| - 1];
      GroupsAbut(prefix, records, columnHeight, columnSpacing, groupSpacing);
      var groups := GroupsOf(order, records, columnHeight, columnSpacing, groupSpacing);
      var earlier := GroupsOf(prefix, records, columnHeight, columnSpacing, groupSpacing);
      assert groups[..|prefix|] == earlier;
      forall k | 0 <= k < |prefix|
        ensures groups[k] == GroupOf(order[k], records[order[k]], groups[k].x1, columnHeight, columnSpacing, groupSpacing)
      {
        assert order[k] == prefix[k] && groups[k] == earlier[k];
      }
      forall k | 0 < k < |order|
        ensures groups[k].x1 == groups[k - 1].x2
      {
        assert groups[k - 1] == earlier[k - 1];
        if k < |prefix| {
          assert groups[k] == earlier[k];
        }
      }
    }
  }

  /** A group's cluster: its first member starts half a group spacing less
      half a column spacing after the group's `x1`, the group ends half a
      group spacing after its last member, and it spans the members' widths
      plus a group spacing less half a column spacing. */
  lemma GroupExtent<G, T>(group: G, record: Record<T>, x1: real,
                          columnHeight: real, columnSpacing: real, groupSpacing: real)
    requires record.columnPoints != []
    ensures |GroupOf(group, record, x1, columnHeight, columnSpacing, groupSpacing).columnPoints| == |record.columnPoints|
    ensures GroupOf(group, record, x1, columnHeight, columnSpacing, groupSpacing).columnPoints[0].x1
         == x1 + groupSpacing / 2.0 - columnSpacing / 2.0
    ensures var point := GroupOf(group, record, x1, columnHeight, columnSpacing, groupSpacing);
      point.x2 == point.columnPoints[|point.columnPoints| - 1].x2 + groupSpacing / 2.0
    ensures var point := GroupOf(group, record, x1, columnHeight, columnSpacing, groupSpacing);
      point.x2 - point.x1 == groupSpacing - columnSpacing / 2.0 + SumOf(record.columnPoints, PointWidth)
  {
    ReflowedShape(record.columnPoints, x1 + groupSpacing / 2.0 - columnSpacing / 2.0);
  }

  /** The lowest `y1` is at most the column height and every member's `y1`,
      and is the column height or some member's `y1`. */
  lemma {:induction false} LowestY1Bounds<T>(points: seq<ColumnPoint<T>>, columnHeight: real)
    ensures LowestY1(points, columnHeight) <= columnHeight
    ensures forall k :: 0 <= k < |points| ==> LowestY1(points, columnHeight) <= points[k].y1
    ensures LowestY1(points, columnHeight) == columnHeight
         || exists k :: 0 <= k < |points| && points[k].y1 == LowestY1(points, columnHeight)
    decreases |points|
  {
    if |points| > 0 {
      var prefix := points[..|points| - 1];
      LowestY1Bounds(prefix, columnHeight);
      forall k | 0 <= k < |points|
        ensures LowestY1(points, columnHeight) <= points[k].y1
      {
        if k < |prefix| {
          assert points[k] == prefix[k];
        }
      }
      if LowestY1(points, columnHeight) != LowestY1(prefix, columnHeight) {
        assert points[|points| - 1].y1 == LowestY1(points, columnHeight);
      } else if LowestY1(points, columnHeight) != columnHeight {
        var k :| 0 <= k < |prefix| && prefix[k].y1 == LowestY1(prefix, columnHeight);
        assert points[k] == prefix[k];
      }
    }
  }

  /** What the transform returns, in terms of its input: one group per
      distinct key in first-seen order, listing its members' columns in
      order, with the largest member value (or 0), the lowest member `y1`
      (or the column height) and the column height as `y2`; the groups abut
      from 0, and their members are the key's points in order, moved only
      along x. */
  lemma GroupedPlot<G, T>(columnPoints: seq<ColumnPoint<T>>, groupSelector: T -> G,
                          columnHeight: real, columnSpacing: real, groupSpacing: real, k: nat)
    requires k < |Keys(columnPoints, InputKey(groupSelector))|
    ensures var order := Keys(columnPoints, InputKey(groupSelector));
      var groups := GroupsOf(order, RecordsOf(columnPoints, groupSelector, columnHeight), columnHeight, columnSpacing, groupSpacing);
      var members := Members(columnPoints, InputKey(groupSelector), order[k]);
      && |groups| == |order|
      && groups[k].datum == GroupedColumn(order[k], Data(members), MaxOf(members, PointValue))
      && groups[k].y1 == LowestY1(members, columnHeight)
      && groups[k].y2 == columnHeight
      && members != []
  {
    var key := InputKey(groupSelector);
    var order := Keys(columnPoints, key);
    var records := RecordsOf(columnPoints, groupSelector, columnHeight);
    var members := Members(columnPoints, key, order[k]);
    assert records[order[k]] == RecordOf(members, columnHeight);
    assert records[order[k]].columnPoints == members;
    GroupAt(order, records, columnHeight, columnSpacing, groupSpacing, k);
    var groups := GroupsOf(order, records, columnHeight, columnSpacing, groupSpacing);
    MembersNonEmpty(columnPoints, key, order[k]);
    assert members == Members(columnPoints, InputKey(groupSelector), Keys(columnPoints, InputKey(groupSelector))[k]);
    assert groups == GroupsOf(Keys(columnPoints, InputKey(groupSelector)), RecordsOf(columnPoints, groupSelector, columnHeight),
                                   columnHeight, columnSpacing, groupSpacing);
  }

  /** A group's member points are copies of the points with its key, in
      order, that differ from them only in x: the first starts half a group
      spacing less half a column spacing after the group, and each starts
      where the previous one ends. */
  lemma GroupMembers<G, T>(columnPoints: seq<ColumnPoint<T>>, groupSelector: T -> G,
                           columnHeight: real, columnSpacing: real, groupSpacing: real, k: nat)
    requires k < |Keys(columnPoints, InputKey(groupSelector))|
    ensures var order := Keys(columnPoints, InputKey(groupSelector));
      var groups := GroupsOf(order, RecordsOf(columnPoints, groupSelector, columnHeight), columnHeight, columnSpacing, groupSpacing);
      var members := Members(columnPoints, InputKey(groupSelector), order[k]);
      && |groups| == |order|
      && |groups[k].columnPoints| == |members| > 0
      && (forall j :: 0 <= j < |members| ==>
            groups[k].columnPoints[j].(x1 := members[j].x1, x2 := members[j].x2) == members[j])
      && groups[k].columnPoints[0].x1 == groups[k].x1 + groupSpacing / 2.0 - columnSpacing / 2.0
      && (forall j :: 0 < j < |members| ==> groups[k].columnPoints[j].x1 == groups[k].columnPoints[j - 1].x2)
  {
    var key := InputKey(groupSelector);
    var order := Keys(columnPoints, key);
    var records := RecordsOf(columnPoints, groupSelector, columnHeight);
    var members := Members(columnPoints, key, order[k]);
    assert records[order[k]].columnPoints == members;
    MembersNonEmpty(columnPoints, key, order[k]);
    MovedMembers(order, records, columnHeight, columnSpacing, groupSpacing, k);
  }

  lemma MovedMembers<G, T>(order: seq<G>, records: map<G, Record<T>>,
                           columnHeight: real, columnSpacing: real, groupSpacing: real, k: nat)
    requires forall g :: g in order ==> g in records
    requires k < |order|
    ensures var groups := GroupsOf(order, records, columnHeight, columnSpacing, groupSpacing);
      var members := records[order[k]].columnPoints;
      && |groups| == |order|
      && |groups[k].columnPoints| == |members|
      && (forall j :: 0 <= j < |members| ==>
            groups[k].columnPoints[j].(x1 := members[j].x1, x2 := members[j].x2) == members[j])
      && (members != [] ==> groups[k].columnPoints[0].x1 == groups[k].x1 + groupSpacing / 2.0 - columnSpacing / 2.0)
      && (forall j :: 0 < j < |members| ==> groups[k].columnPoints[j].x1 == groups[k].columnPoints[j - 1].x2)
  {
    GroupAt(order, records, columnHeight, columnSpacing, groupSpacing, k);
    var groups := GroupsOf(order, records, columnHeight, columnSpacing, groupSpacing);
    ReflowedShape(records[order[k]].columnPoints, groups[k].x1 + groupSpacing / 2.0 - columnSpacing / 2.0);
  }

  lemma GroupAt<G, T>(order: seq<G>, records: map<G, Record<T>>,
                      columnHeight: real, columnSpacing: real, groupSpacing: real, k: nat)
    requires forall g :: g in order ==> g in records
    requires k < |order|
    ensures var groups := GroupsOf(order, records, columnHeight, columnSpacing, groupSpacing);
      var record := records[order[k]];
      && |groups| == |order|
      && groups[k].datum == GroupedColumn(order[k], record.columns, record.value)
      && groups[k].y1 == record.y1
      && groups[k].y2 == columnHeight
      && groups[k].columnPoints == Reflowed(record.columnPoints, groups[k].x1 + groupSpacing / 2.0 - columnSpacing / 2.0)
  {
    GroupsAbut(order, records, columnHeight, columnSpacing, groupSpacing);
  }

  /** A group's value is at least 0 and every member's value, and is 0 or
      some member's value. */
  lemma GroupValueBounds<T>(members: seq<ColumnPoint<T>>, columnHeight: real)
    ensures var value := RecordOf(members, columnHeight).value;
      && value >= 0.0
      && (forall j :: 0 <= j < |members| ==> members[j].datum.value <= value)
      && (value == 0.0 || exists j :: 0 <= j < |members| && members[j].datum.value == value)
  {
    MaxIsUpperBound(members, PointValue);
    MaxIsAttained(members, PointValue);
  }
}
